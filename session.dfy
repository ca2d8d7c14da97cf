/**
 * The per-connection FTP session object: its sockets, its transfer state,
 * the replies it sends, command dispatch, and the set-up and tear-down of
 * the data channel together with the shared watched-socket vector and
 * data-to-control map.
 *
 * Everything the session calls into and cannot see is a Host: sends, socket
 * closes, connects, accepts, file closes and handler invocations become
 * events appended to its trace. What the operating system answers
 * (getpeername, socket, connect, accept) and what a data handler returns are
 * parameters.
 */
module Session {
  import opened Wrappers
  import opened Reply
  import opened Registry

  /** A command handler of the external table, by identity. */
  datatype CmdFunc = CmdFunc(name: string)

  /** A data-transfer continuation, by identity. */
  datatype DataFunc = DataFunc(name: string)

  /** An IPv4 socket address; port in host order. */
  datatype SockAddr = SockAddr(host: int, port: int)

  /** The FTP data port of active mode. */
  const FTP_DATA_PORT: int := 20

  /** What the session asks the outside world to do, in order. */
  datatype Event =
    | Send(socket: int, bytes: string)
    | Connect(socket: int, addr: SockAddr)
    | Accept(listener: int)
    | CloseSocket(socket: int)
    | Invoke(handler: CmdFunc, params: string)
    | InvokeData(dataHandler: DataFunc)
    | FsClose(fd: int)
    | FsCloseDir(fd: int)

  /** The answers of the operating system during one data_start. */
  datatype NetResults = NetResults(
    peer: SockAddr,   // getpeername on the control socket
    newSocket: int,   // socket(PF_INET, SOCK_STREAM, 0)
    connected: bool,  // whether connect succeeded
    accepted: int     // accept on the passive socket (-1 on failure)
  )

  /** The outside world, as the sequence of calls the session makes into it. */
  class Host {
    var trace: seq<Event>
  }

  /** A heap block from new char[]; absent is null. */
  class Block {
  }

  /** The address active mode connects to: the control peer, on port 20. */
  function ActiveAddress(peer: SockAddr): (a: SockAddr)
    ensures a.host == peer.host && a.port == FTP_DATA_PORT
  {
    peer.(port := FTP_DATA_PORT)
  }

  /** socket_send_message: the message and CRLF, sent on socket in one piece. */
  method SocketSendMessage(host: Host, socket: int, message: string)
    modifies host
    ensures host.trace == old(host.trace) + [Send(socket, message + "\r\n")]
  {
    host.trace := host.trace + [Send(socket, Line(message))];
  }

  class Client {
    var socketCtrl: int
    var socketData: int
    var socketPasv: int

    var buffer: Block?
    var bufferData: Block?

    const pollfds: PollFds
    const clientsData: ClientsData

    var cvarAuth: bool
    var cvarRest: int
    var cvarFd: int

    var lastcmd: string
    var dataHandler: Option<DataFunc>

    /** The data socket is open and the shared structures route it to this session. */
    ghost predicate DataRegistered()
      reads this, pollfds, clientsData
    {
      socketData != -1 ==> Registered(pollfds.entries, clientsData.owner, socketData, socketCtrl)
    }

    constructor (client: int, pfds: PollFds, cdata: ClientsData)
      ensures socketCtrl == client && pollfds == pfds && clientsData == cdata
      ensures socketData == -1 && socketPasv == -1 && cvarFd == -1
      ensures buffer == null && bufferData == null
      ensures !cvarAuth && cvarRest == 0
      ensures lastcmd == "" && dataHandler == None
      ensures DataRegistered()
    {
      socketCtrl := client;
      socketData := -1;
      socketPasv := -1;
      buffer := null;
      bufferData := null;
      pollfds := pfds;
      clientsData := cdata;
      cvarAuth := false;
      cvarRest := 0;
      cvarFd := -1;
      lastcmd := "";
      dataHandler := None;
    }

    method SendString(host: Host, message: string)
      modifies host
      ensures host.trace == old(host.trace) + [Send(socketCtrl, message + "\r\n")]
    {
      SocketSendMessage(host, socketCtrl, message);
    }

    /** A final reply line; for a three-digit code it reads back by RFC 959 (CodeLineRoundTrip). */
    method SendCode(host: Host, code: int, message: string)
      modifies host
      ensures host.trace == old(host.trace) + [Send(socketCtrl, Decimal(code) + " " + message + "\r\n")]
    {
      SocketSendMessage(host, socketCtrl, CodeText(code, message));
    }

    /** A continuation line; for a three-digit code it reads back by RFC 959 (MultiCodeLineRoundTrip). */
    method SendMulticode(host: Host, code: int, message: string)
      modifies host
      ensures host.trace == old(host.trace) + [Send(socketCtrl, Decimal(code) + "-" + message + "\r\n")]
    {
      SocketSendMessage(host, socketCtrl, MultiCodeText(code, message));
    }

    /**
     * Exact-match lookup of the verb: a known verb runs its handler on
     * (this, params) and nothing is replied here; an unknown one gets the
     * single reply "502 <cmd> not supported". Either way the verb is
     * recorded. What a handler does is outside this model.
     */
    method HandleCommand(host: Host, cmds: map<string, CmdFunc>, cmd: string, params: string)
      modifies host, this`lastcmd
      ensures lastcmd == cmd
      ensures cmd in cmds ==> host.trace == old(host.trace) + [Invoke(cmds[cmd], params)]
      ensures cmd !in cmds ==>
        host.trace == old(host.trace) + [Send(socketCtrl, "502 " + cmd + " not supported\r\n")]
    {
      if cmd in cmds {
        host.trace := host.trace + [Invoke(cmds[cmd], params)];
      } else {
        UnsupportedReplyText(cmd);
        SendCode(host, 502, cmd + " not supported");
      }
      lastcmd := cmd;
    }

    /**
     * Opens the data channel if none is open (connect back to the control
     * peer on port 20 in active mode, accept once on the passive socket and
     * close it in passive mode), then, if a data socket is open, watches it
     * for events | POLLIN, routes it to this session, installs f and
     * allocates a transfer buffer. Returns the data socket, -1 on failure.
     */
    method DataStart(host: Host, f: DataFunc, events: bv16, net: NetResults) returns (r: int)
      modifies host, pollfds, clientsData
      modifies this`socketData, this`socketPasv, this`dataHandler, this`bufferData
      ensures r == socketData
      // a live data socket is returned as it is, with no connect or accept
      ensures old(socketData) != -1 ==>
        socketData == old(socketData) && socketPasv == old(socketPasv) && host.trace == old(host.trace)
      // active mode
      ensures old(socketData) == -1 && old(socketPasv) == -1 ==>
        socketPasv == -1
        && socketData == (if net.connected then net.newSocket else -1)
        && host.trace == old(host.trace) + [Connect(net.newSocket, ActiveAddress(net.peer))]
                         + (if net.connected then [] else [CloseSocket(net.newSocket)])
      // passive mode: the listening socket is used once
      ensures old(socketData) == -1 && old(socketPasv) != -1 ==>
        socketPasv == -1 && socketData == net.accepted
        && host.trace == old(host.trace) + [Accept(old(socketPasv)), CloseSocket(old(socketPasv))]
      // registration
      ensures socketData != -1 ==>
        pollfds.entries == old(pollfds.entries) + [PollFd(socketData, events | POLLIN)]
        && clientsData.owner == Insert(old(clientsData.owner), socketData, socketCtrl)
        && dataHandler == Some(f) && bufferData != null && fresh(bufferData)
      // failure leaves the shared structures and the transfer state alone
      ensures socketData == -1 ==>
        pollfds.entries == old(pollfds.entries) && clientsData.owner == old(clientsData.owner)
        && dataHandler == old(dataHandler) && bufferData == old(bufferData)
      ensures old(socketData) != -1 && old(DataRegistered()) ==> DataRegistered()
      ensures old(socketData) == -1 && socketData != -1 && socketData !in old(clientsData.owner) ==>
        DataRegistered()
    {
      if socketData == -1 {
        if socketPasv == -1 {
          // active mode
          var sa := ActiveAddress(net.peer);
          var socketDataNew := net.newSocket;
          host.trace := host.trace + [Connect(socketDataNew, sa)];
          if !net.connected {
            host.trace := host.trace + [CloseSocket(socketDataNew)];
            return socketData;
          }
          socketData := socketDataNew;
        } else {
          // passive mode
          socketData := net.accepted;
          host.trace := host.trace + [Accept(socketPasv), CloseSocket(socketPasv)];
          socketPasv := -1;
        }
      }

      if socketData != -1 {
        ghost var before := pollfds.entries;
        ghost var owners := clientsData.owner;
        pollfds.entries := pollfds.entries + [PollFd(socketData, events | POLLIN)];
        clientsData.owner := Insert(clientsData.owner, socketData, socketCtrl);
        dataHandler := Some(f);
        bufferData := new Block;
        assert pollfds.entries[|before|].fd == socketData;
        if socketData !in owners {
          OpenRegisters(before, owners, socketData, socketCtrl, events);
        }
      }
      r := socketData;
    }

    /**
     * Closes the data and passive sockets, stops watching and routing the
     * data socket when there was one, clears the transfer state and closes
     * the open file or directory handle.
     */
    method DataEnd(host: Host)
      requires socketData != -1 ==> socketData in clientsData.owner
      modifies host, pollfds, clientsData
      modifies this`socketData, this`socketPasv, this`dataHandler, this`bufferData, this`cvarFd
      ensures socketData == -1 && socketPasv == -1 && cvarFd == -1
      ensures dataHandler == None && bufferData == null
      ensures host.trace == old(host.trace) + [CloseSocket(old(socketData)), CloseSocket(old(socketPasv)),
                                               FsClose(old(cvarFd)), FsCloseDir(old(cvarFd))]
      ensures old(socketData) != -1 ==>
        pollfds.entries == EraseFd(old(pollfds.entries), old(socketData))
        && clientsData.owner == old(clientsData.owner) - {old(socketData)}
        && Deregistered(pollfds.entries, clientsData.owner, old(socketData))
      ensures old(socketData) == -1 ==>
        pollfds.entries == old(pollfds.entries) && clientsData.owner == old(clientsData.owner)
      ensures DataRegistered()
    {
      ghost var calls := host.trace;
      host.trace := host.trace + [CloseSocket(socketData), CloseSocket(socketPasv)];

      if socketData != -1 {
        var sd := socketData;
        ghost var watched := pollfds.entries;
        pollfds.EraseAll(sd);

        ghost var owners := clientsData.owner;
        clientsData.owner := clientsData.owner - {sd};
        CloseDeregisters(watched, owners, sd);
      }

      socketData := -1;
      socketPasv := -1;

      dataHandler := None;

      bufferData := null;

      host.trace := host.trace + [FsClose(cvarFd), FsCloseDir(cvarFd)];
      assert host.trace == calls + [CloseSocket(old(socketData)), CloseSocket(old(socketPasv)),
                                    FsClose(cvarFd), FsCloseDir(cvarFd)];
      cvarFd := -1;
    }

    /**
     * Runs the installed data handler, whose return value is ret, and ends
     * the transfer exactly when ret is nonzero.
     */
    method HandleData(host: Host, ret: int)
      requires dataHandler.Some?
      requires ret != 0 && socketData != -1 ==> socketData in clientsData.owner
      modifies host, pollfds, clientsData
      modifies this`socketData, this`socketPasv, this`dataHandler, this`bufferData, this`cvarFd
      ensures ret == 0 ==>
        host.trace == old(host.trace) + [InvokeData(old(dataHandler).value)]
        && socketData == old(socketData) && socketPasv == old(socketPasv) && cvarFd == old(cvarFd)
        && dataHandler == old(dataHandler) && bufferData == old(bufferData)
        && pollfds.entries == old(pollfds.entries) && clientsData.owner == old(clientsData.owner)
      ensures ret != 0 ==>
        host.trace == old(host.trace) + [InvokeData(old(dataHandler).value),
                                         CloseSocket(old(socketData)), CloseSocket(old(socketPasv)),
                                         FsClose(old(cvarFd)), FsCloseDir(old(cvarFd))]
        && socketData == -1 && socketPasv == -1 && cvarFd == -1
        && dataHandler == None && bufferData == null
        && (old(socketData) != -1 ==>
              pollfds.entries == EraseFd(old(pollfds.entries), old(socketData))
              && clientsData.owner == old(clientsData.owner) - {old(socketData)})
        && (old(socketData) == -1 ==>
              pollfds.entries == old(pollfds.entries) && clientsData.owner == old(clientsData.owner))
    {
      host.trace := host.trace + [InvokeData(dataHandler.value)];
      if ret != 0 {
        DataEnd(host);
      }
    }
  }

  /**
   * A session driven through one active-mode transfer using only the
   * contracts above: a second data_start returns the same socket (and
   * watches it twice), data_end removes every trace of it, a second data_end
   * changes nothing, and a failed connect leaves the session idle.
   */
  method TransferScenario(host: Host, peer: SockAddr, f: DataFunc)
    modifies host
  {
    var pfds := new PollFds([PollFd(4, POLLIN)]);
    var cdata := new ClientsData(map[]);
    var c := new Client(4, pfds, cdata);

    var r1 := c.DataStart(host, f, 0, NetResults(peer, 9, true, -1));
    assert r1 == 9 && cdata.owner == map[9 := 4];
    var r2 := c.DataStart(host, f, 0, NetResults(peer, 11, true, -1));
    assert r2 == r1;
    assert CountFd(pfds.entries, 9) == 2 by {
      assert pfds.entries == [PollFd(4, POLLIN), PollFd(9, POLLIN), PollFd(9, POLLIN)];
    }

    c.DataEnd(host);
    assert c.socketData == -1 && cdata.owner == map[];
    assert pfds.entries == [PollFd(4, POLLIN)] by {
      assert EraseFd([PollFd(4, POLLIN), PollFd(9, POLLIN), PollFd(9, POLLIN)], 9) == [PollFd(4, POLLIN)];
    }
    c.DataEnd(host);
    assert pfds.entries == [PollFd(4, POLLIN)] && cdata.owner == map[];

    var r3 := c.DataStart(host, f, 0, NetResults(peer, 12, false, -1));
    assert r3 == -1 && c.socketData == -1 && c.dataHandler == None;
    assert pfds.entries == [PollFd(4, POLLIN)] && cdata.owner == map[];
  }
}
