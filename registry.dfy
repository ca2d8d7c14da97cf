/**
 * The two structures a Client shares with the server: the vector of watched
 * sockets (each a pollfd record) and the map from a data socket to the
 * control socket that owns it. Both are objects the server owns and each
 * Client holds a pointer to, so here they are classes whose one field the
 * session methods reassign.
 *
 * Poll event masks are 16-bit (a C `short`); POLLIN is the platform's
 * "readable" bit.
 */
module Registry {
  import opened Wrappers

  const POLLIN: bv16 := 0x0001

  /** One entry of the watched-socket vector. */
  datatype PollFd = PollFd(fd: int, events: bv16)

  /** The server's vector<pollfd>. */
  class PollFds {
    var entries: seq<PollFd>

    constructor (initial: seq<PollFd>)
      ensures entries == initial
    {
      entries := initial;
    }

    /**
     * The loop of data_end that erases every entry watching fd, stepping
     * past an entry only when it is kept.
     */
    method EraseAll(fd: int)
      modifies this
      ensures entries == EraseFd(old(entries), fd)
    {
      var i := 0;
      while i < |entries|
        invariant 0 <= i <= |entries|
        invariant forall j :: 0 <= j < i ==> entries[j].fd != fd
        invariant EraseFd(entries, fd) == EraseFd(old(entries), fd)
        decreases |entries| - i
      {
        if entries[i].fd == fd {
          EraseFdAt(entries, i, fd);
          entries := entries[..i] + entries[i + 1..];
        } else {
          i := i + 1;
        }
      }
      EraseFdAbsent(entries, fd);
    }
  }

  /** The server's map<int, int> from data socket to owning control socket. */
  class ClientsData {
    var owner: map<int, int>

    constructor (initial: map<int, int>)
      ensures owner == initial
    {
      owner := initial;
    }
  }

  /** How many entries watch fd. */
  function CountFd(s: seq<PollFd>, fd: int): (n: nat)
    ensures n <= |s|
    ensures n == 0 <==> forall i :: 0 <= i < |s| ==> s[i].fd != fd
  {
    if s == [] then 0 else (if s[0].fd == fd then 1 else 0) + CountFd(s[1..], fd)
  }

  /**
   * The entries of s that do not watch fd, in their original order: the
   * effect the erase loop of data_end is meant to have.
   */
  function EraseFd(s: seq<PollFd>, fd: int): (r: seq<PollFd>)
    ensures |r| == |s| - CountFd(s, fd)
    ensures forall i :: 0 <= i < |r| ==> r[i].fd != fd
  {
    if s == [] then [] else (if s[0].fd == fd then [] else [s[0]]) + EraseFd(s[1..], fd)
  }

  lemma {:induction false} EraseFdAppend(a: seq<PollFd>, b: seq<PollFd>, fd: int)
    ensures EraseFd(a + b, fd) == EraseFd(a, fd) + EraseFd(b, fd)
  {
    if a == [] {
      assert a + b == b;
    } else {
      assert (a + b)[1..] == a[1..] + b;
      EraseFdAppend(a[1..], b, fd);
    }
  }

  /** Erasing an fd nobody watches changes nothing. */
  lemma {:induction false} EraseFdAbsent(s: seq<PollFd>, fd: int)
    requires forall i :: 0 <= i < |s| ==> s[i].fd != fd
    ensures EraseFd(s, fd) == s
  {
    if s != [] {
      EraseFdAbsent(s[1..], fd);
    }
  }

  /** Removing one matching entry does not change what EraseFd keeps. */
  lemma EraseFdAt(s: seq<PollFd>, i: nat, fd: int)
    requires i < |s| && s[i].fd == fd
    ensures EraseFd(s[..i] + s[i + 1..], fd) == EraseFd(s, fd)
  {
    assert s == s[..i] + ([s[i]] + s[i + 1..]);
    EraseFdAppend(s[..i], [s[i]] + s[i + 1..], fd);
    EraseFdAppend([s[i]], s[i + 1..], fd);
    EraseFdAppend(s[..i], s[i + 1..], fd);
  }

  /** Every entry for another fd survives, as often as it occurred. */
  lemma {:induction false} EraseFdKeepsOthers(s: seq<PollFd>, fd: int, e: PollFd)
    ensures multiset(EraseFd(s, fd))[e] == if e.fd == fd then 0 else multiset(s)[e]
  {
    if s != [] {
      assert s == [s[0]] + s[1..];
      EraseFdKeepsOthers(s[1..], fd, e);
    }
  }

  /** std::map::insert: adds the pair only when the key is not yet present. */
  function Insert(m: map<int, int>, k: int, v: int): (r: map<int, int>)
    ensures r.Keys == m.Keys + {k}
    ensures r[k] == if k in m then m[k] else v
    ensures forall j :: j in m && j != k ==> r[j] == m[j]
  {
    if k in m then m else m[k := v]
  }

  /** The data socket sd is watched and routed to the control socket ctrl. */
  ghost predicate Registered(s: seq<PollFd>, m: map<int, int>, sd: int, ctrl: int) {
    sd in m && m[sd] == ctrl && CountFd(s, sd) > 0
  }

  /** The data socket sd is neither watched nor routed anywhere. */
  ghost predicate Deregistered(s: seq<PollFd>, m: map<int, int>, sd: int) {
    sd !in m && CountFd(s, sd) == 0
  }

  /** Registering a socket that was not registered makes it registered to ctrl. */
  lemma OpenRegisters(s: seq<PollFd>, m: map<int, int>, sd: int, ctrl: int, events: bv16)
    requires sd !in m
    ensures Registered(s + [PollFd(sd, events | POLLIN)], Insert(m, sd, ctrl), sd, ctrl)
  {
    var t := s + [PollFd(sd, events | POLLIN)];
    assert t[|s|].fd == sd;
  }

  /** Deregistering leaves no trace of sd, whatever was there before. */
  lemma CloseDeregisters(s: seq<PollFd>, m: map<int, int>, sd: int)
    ensures Deregistered(EraseFd(s, sd), m - {sd}, sd)
  {
  }

  /**
   * Open followed by close restores both shared structures exactly, when
   * the socket was not registered before the open.
   */
  lemma OpenCloseRestores(s: seq<PollFd>, m: map<int, int>, sd: int, ctrl: int, events: bv16)
    requires Deregistered(s, m, sd)
    ensures EraseFd(s + [PollFd(sd, events | POLLIN)], sd) == s
    ensures Insert(m, sd, ctrl) - {sd} == m
  {
    EraseFdAppend(s, [PollFd(sd, events | POLLIN)], sd);
    EraseFdAbsent(s, sd);
  }

  /**
   * The erase loop of data_end as written, on a vector whose storage is
   * contiguous: erase shifts the tail left, the invalidated iterator keeps
   * its slot, and it++ then steps over the element that moved into it.
   * The loop stops when the iterator equals end(); None stands for the
   * iterator having passed end(), after which the loop reads past the vector.
   */
  function EraseLoopAsWritten(s: seq<PollFd>, fd: int, i: nat): Option<seq<PollFd>>
    decreases |s| - i
  {
    if i == |s| then Some(s)
    else if i > |s| then None
    else if s[i].fd == fd then EraseLoopAsWritten(s[..i] + s[i + 1..], fd, i + 1)
    else EraseLoopAsWritten(s, fd, i + 1)
  }

  /**
   * The data pollfd is pushed last, so the usual vector is [..., data].
   * Erasing the last element leaves the iterator at end(), and it++ moves it
   * past end().
   */
  lemma EraseLoopRunsPastEnd()
    ensures EraseLoopAsWritten([PollFd(3, POLLIN), PollFd(5, POLLIN)], 5, 0).None?
  {
    var s := [PollFd(3, POLLIN), PollFd(5, POLLIN)];
    var t := [PollFd(3, POLLIN)];
    assert s[..1] + s[2..] == t;
    assert EraseLoopAsWritten(t, 5, 2).None?;
    assert EraseLoopAsWritten(s, 5, 1) == EraseLoopAsWritten(t, 5, 2);
  }

  /**
   * Two adjacent entries for the same fd (re-entering data_start pushes a
   * second one): the loop erases the first and skips the second, which
   * stays watched.
   */
  lemma EraseLoopLeavesStaleEntry()
    ensures EraseLoopAsWritten([PollFd(5, POLLIN), PollFd(5, POLLIN), PollFd(3, POLLIN)], 5, 0)
            == Some([PollFd(5, POLLIN), PollFd(3, POLLIN)])
    ensures CountFd(EraseFd([PollFd(5, POLLIN), PollFd(5, POLLIN), PollFd(3, POLLIN)], 5), 5) == 0
  {
    var s := [PollFd(5, POLLIN), PollFd(5, POLLIN), PollFd(3, POLLIN)];
    var t := [PollFd(5, POLLIN), PollFd(3, POLLIN)];
    assert s[..0] + s[1..] == t;
    assert EraseLoopAsWritten(t, 5, 2) == Some(t);
    assert EraseLoopAsWritten(t, 5, 1) == Some(t);
    assert EraseLoopAsWritten(s, 5, 0) == EraseLoopAsWritten(t, 5, 1);
  }
}
