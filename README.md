# openps3ftp session object, modelled in Dafny

This project models the per-connection session object (`Client`) of the
openps3ftp FTP server, as implemented in `client.cpp`. It covers:

- **Reply text.** `socket_send_message` adds CRLF to a message and sends it on
  a socket. `send_code` and `send_multicode` build the single-line
  `"<code> <text>"` and continuation `"<code>-<text>"` replies of section 4.2
  of RFC 959.
- **Command dispatch.** `handle_command` looks the verb up, exact match, in the
  command table. A known verb runs its handler. An unknown verb gets the reply
  `502 <cmd> not supported`. The verb is recorded as `lastcmd` either way.
- **The data channel.** `data_start`, `data_end` and `handle_data` manage the
  session's data socket, passive-listen socket, data handler, transfer buffer
  and open file handle. They also update two structures the session shares
  with the server: the vector of watched sockets (`pollfds`) and the map from
  a data socket to its owning control socket (`clients_data`).

Modules:

- `Reply` (`reply.dfy`): pure functions for the reply text. `Decimal` is what
  an `ostringstream` prints for an `int`. `ParseReplyLine` reads a reply line
  the way RFC 959 defines it, and accepts exactly one line; it is the partner the round-trip lemmas tie the
  formatters to.
- `Registry` (`registry.dfy`): a `PollFd` record, and the shared vector and map
  as the classes `PollFds` and `ClientsData`. The module also holds
  `EraseFd`, which states what the erase loop of `data_end` is meant to do, and
  `Insert`, which has `std::map::insert` semantics (it never overwrites). The
  lemmas cover registering and deregistering a data socket.
- `Session` (`session.dfy`): the `Client` class, whose fields the methods
  update in place. The outside world is a `Host` object. Every send, connect,
  accept, socket close, file close and handler call appends an `Event` to its
  trace. The answers of `getpeername`, `socket`, `connect` and `accept` are
  passed in as a `NetResults` value. The value a data handler returns is a
  parameter of `HandleData`.
- `Wrappers` (`wrappers.dfy`): `Option`.

`Session.TransferScenario` drives one session through a transfer. The
verifier checks each step of it from the method contracts alone. A second `DataStart` returns the same socket. `DataEnd`
removes both of that socket's watch entries and its map entry. A second
`DataEnd` changes nothing. A failed connect leaves the session idle.

## Model

| member | source | states |
|---|---|---|
| `Session.SocketSendMessage` | client.cpp:18-24 | exactly one send, on the given socket, of the message followed by `"\r\n"` |
| `Session.Client.constructor` | client.cpp:26-42 | the control socket and both shared-structure pointers are stored; data, passive and file handles are -1; both buffers are null; not authenticated; restart offset 0 |
| `Session.Client.SendString` | client.cpp:44-47 | sends the message plus CRLF on the control socket |
| `Session.Client.SendCode` | client.cpp:49-55 | sends the decimal code, one space, the message and CRLF on the control socket |
| `Session.Client.SendMulticode` | client.cpp:57-63 | the same as `SendCode`, with `'-'` in place of the space |
| `Reply.NatDigitsRoundTrip` | client.cpp:51-52 | the decimal digits of a non-negative code read back as that number |
| `Reply.DecimalRoundTrip` | client.cpp:51-52 | the decimal rendering of any int, sign included, reads back as that int |
| `Reply.ThreeDigitCode` | client.cpp:49-55 | a code from 100 to 999 is rendered as exactly three digits |
| `Reply.CodeLineRoundTrip` | client.cpp:49-55 | for a three-digit code and a message without CR or LF, the bytes `send_code` puts on the wire are one RFC 959 final reply line with that code and text |
| `Reply.MultiCodeLineRoundTrip` | client.cpp:57-63 | for a three-digit code and a message without CR or LF, the bytes `send_multicode` puts on the wire are one RFC 959 continuation line with that code and text |
| `Reply.EmbeddedLineBreakRejected` | client.cpp:49-63 | a message holding CR or LF is passed on unchanged, so what `send_code` and `send_multicode` send is then no single reply line |
| `Reply.UnsupportedReplyText` | client.cpp:78 | the fallback reply is exactly `"502 " + cmd + " not supported\r\n"` |
| `Session.Client.HandleCommand` | client.cpp:65-82 | a verb in the table calls that handler with the parameters and sends no reply; a verb not in the table sends exactly the one 502 reply; `lastcmd == cmd` afterwards in both cases |
| `Session.Client.HandleData` | client.cpp:84-93 | the installed handler runs; a zero return changes nothing else; a nonzero return has exactly `data_end`'s effect |
| `Session.ActiveAddress` | client.cpp:102-106 | active mode connects to the control peer's host on port 20 |
| `Session.Client.DataStart` | client.cpp:95-146 | with a live data socket: no connect or accept, and the same socket is returned. Active mode: one connect to the peer on port 20; on failure the new socket is closed, -1 is returned, and the registry, handler and buffer are unchanged. Passive mode: one accept, then the listening socket is closed and reset to -1. On success: exactly one new watch entry `{socket_data, events \| POLLIN}`, a map insert that never overwrites, the handler set to `f`, a freshly allocated buffer, and the data socket returned. Registration is kept or established |
| `Registry.Insert` | client.cpp:139 | the key is present afterwards; its value is the old one if the key was already there, otherwise the control socket; other keys are untouched |
| `Registry.OpenRegisters` | client.cpp:129-143 | registering a data socket that was not yet in the map leaves it watched and routed to the control socket |
| `Session.Client.DataEnd` | client.cpp:148-178 | data, passive and file handles are all -1, the handler is cleared and the buffer is null. Both sockets are closed, then the file and directory closes are issued, in that order. If a data socket was open, its watch entries are gone (`EraseFd`) and its map key is removed, with everything else kept. With no data socket, the vector and the map are unchanged |
| `Registry.PollFds.EraseAll` | client.cpp:155-161 | the erase loop, with the intended effect of `EraseFd` on the vector |
| `Registry.EraseFd` | client.cpp:155-161 | no entry with that fd remains, and the length drops by exactly the number of entries that watched it (which entries survive is `EraseFdKeepsOthers`) |
| `Registry.EraseFdKeepsOthers` | client.cpp:155-161 | each entry for another fd keeps its multiplicity; entries for the fd drop to zero |
| `Registry.CloseDeregisters` | client.cpp:153-164 | after deregistration the data socket is neither watched nor a key of the map |
| `Registry.OpenCloseRestores` | client.cpp:129-164 | registering a socket that was not registered and then deregistering it restores the vector and the map exactly |
| `Registry.EraseLoopRunsPastEnd` | client.cpp:155-161 | as written, erasing the last entry (where `data_start` puts the data socket) moves the iterator past `end()` |
| `Registry.EraseLoopLeavesStaleEntry` | client.cpp:155-161 | as written, two adjacent entries for the data socket leave one behind, while `EraseFd` removes both |

## Left out

- Operating-system calls are not modelled. `getpeername`, `socket`, `connect` and `accept` give their answers through the `NetResults` parameter. `send`, `closesocket`, `sysLv2FsClose` and `sysLv2FsCloseDir` become events in the host trace.
- `send` is modelled as sending the whole line. Partial sends and send errors, which the source ignores, are not modelled.
- Command handlers and data handlers are opaque identities. What they do to the session or its sockets is not modelled.
- Session.Client.HandleCommand: the handler call is one trace event. The contract does not cover a handler that changes the session, even though the source runs the handler before it stores `lastcmd`.
- Session.Client.HandleData: requires a data handler to be set. The source calls through `data_handler` unconditionally, and a null pointer there is undefined behaviour.
- Session.Client.DataEnd: requires the data socket, when set, to be a key of `clients_data`. The source erases `find(socket_data)` without checking it against `end()`.
- Session.Client.constructor: sets the data handler to `None`. The C++ constructor leaves `data_handler` uninitialised, and `lastcmd` starts as the empty string.
- Buffers are opaque heap blocks (`Block`). `DATA_BUFFER` comes from `const.h`, which is not part of this model. Freeing with `delete[]`, and the leak when `data_start` reallocates on re-entry, are not modelled beyond the pointer changing.
- Integer widths are unbounded. File descriptors, codes and `cvar_rest` are C `int`s in the source; no operation here can overflow them. `htons` byte order is not modelled: ports are in host order.
- `POLLIN` is taken as `0x0001`, its value in the platform's poll header, which is not part of this model.
- Closing the absent handle -1 is kept as a trace event because the source makes that call. No OS behaviour is attached to it.
- The server event loop, the command table's contents, the filesystem layer and the platform bootstrap (`bin/psl1ght/main.cpp`, `bin/prx_api_test/prx.c`, `bin/helper/ftphelper.hpp`) are not part of this model. They are platform, thread or I/O code, or the server source is not available.
- Re-entering `data_start` with a live data socket is not a no-op: it watches the socket again, re-inserts it into the map (a no-op), replaces the handler and allocates a new buffer (client.cpp:129-143). The model keeps this behaviour.
- `data_end` closes the one `cvar_fd` both as a file and as a directory (client.cpp:175-176). The model records both calls.
- `send_code` and `send_multicode` do not sanitise the message. A message that holds CR or LF puts more than one line on the wire. `Reply.EmbeddedLineBreakRejected` shows that such output is no single reply line, and the round-trip lemmas cover only messages without line breaks.

## Findings

| source | as written | input that shows it | evidently intended | confidence | as-written member | corrected member |
|---|---|---|---|---|---|---|
| client.cpp:155-161 | `pollfds->erase(it)` inside a loop that then does `it++` | `[{3}, {5}]` erasing fd 5 (the data entry is pushed last): after the erase `it == end()`, then `it++` passes `end()` and the loop reads past the vector | every entry for the data socket is removed, and the loop stops at the end | not executed; high that it is undefined behaviour, medium on the concrete effect, which assumes a contiguous vector whose invalidated iterator keeps its slot | `Registry.EraseLoopRunsPastEnd` | `Registry.PollFds.EraseAll` |
| client.cpp:155-161 | after an erase the loop also steps over the element that moved into the erased slot | `[{5}, {5}, {3}]` erasing fd 5, a shape that re-entering `data_start` produces: one entry for fd 5 stays watched | every entry for the data socket is removed | not executed; medium, under the same vector assumption | `Registry.EraseLoopLeavesStaleEntry` | `Registry.EraseFd` |
