/** The wrapper around the operating system's socket calls. */
module Sockets {
  import opened Options
  import opened TcpEvents

  datatype SockOption = ReuseAddr | RcvBuf | SndBuf

  /** A call that prepares a socket, together with its outcome. */
  datatype Setup =
    | Initialized(rc: int)
    | SocketMade(fd: int)
    | OptionSet(fd: int, option: SockOption, rc: int)
    | Bound(fd: int, rc: int)
    | Listening(fd: int, rc: int)
    | HostFound(rc: int)
    | Connected(fd: int, rc: int)

  /** Which outcomes count as success. */
  predicate Worked(s: Setup) {
    match s
    case Initialized(rc) => rc == 0
    case SocketMade(fd) => fd != INVALID_SOCKET
    case OptionSet(_, _, rc) => rc >= 0
    case Bound(_, rc) => rc != -1
    case Listening(_, rc) => rc != -1
    case HostFound(rc) => rc == 0
    case Connected(_, rc) => rc != -1
  }

  /** s is call number k of preparing a server's socket fd. */
  predicate ServerStage(k: int, s: Setup, fd: int) {
    match s
    case Initialized(_) => k == 0
    case SocketMade(f) => k == 1 && f == fd
    case OptionSet(f, option, _) =>
      f == fd && ((k == 2 && option.ReuseAddr?) || (k == 3 && option.RcvBuf?) || (k == 4 && option.SndBuf?))
    case Bound(f, _) => k == 5 && f == fd
    case Listening(f, _) => k == 6 && f == fd
    case _ => false
  }

  /** s is call number k of connecting a client's socket fd. */
  predicate ClientStage(k: int, s: Setup, fd: int) {
    match s
    case Initialized(_) => k == 0
    case SocketMade(f) => k == 1 && f == fd
    case OptionSet(f, option, _) => f == fd && ((k == 2 && option.RcvBuf?) || (k == 3 && option.SndBuf?))
    case HostFound(_) => k == 4
    case Connected(f, _) => k == 5 && f == fd
    case _ => false
  }

  /** The calls done, the first being number k of total, all worked but perhaps the last; they go on to the end
      unless one failed; and ok tells whether all did work. */
  predicate Carried(k: int, total: int, done: seq<Setup>, ok: bool) {
    && done != [] && k + |done| <= total
    && (forall i :: 0 <= i < |done| - 1 ==> Worked(done[i]))
    && (ok <==> k + |done| == total && Worked(done[|done| - 1]))
    && (!ok ==> !Worked(done[|done| - 1]))
  }

  predicate ServerPrepared(k: int, done: seq<Setup>, fd: int, ok: bool) {
    Carried(k, 7, done, ok) && forall i :: 0 <= i < |done| ==> ServerStage(k + i, done[i], fd)
  }

  predicate ClientPrepared(k: int, done: seq<Setup>, fd: int, ok: bool) {
    Carried(k, 6, done, ok) && forall i :: 0 <= i < |done| ==> ClientStage(k + i, done[i], fd)
  }

  lemma ServerFails(k: int, s: Setup, fd: int)
    requires ServerStage(k, s, fd) && k < 7 && !Worked(s)
    ensures ServerPrepared(k, [s], fd, false)
  {
  }

  lemma ServerGoesOn(k: int, s: Setup, rest: seq<Setup>, fd: int, ok: bool)
    requires ServerStage(k, s, fd) && Worked(s) && ServerPrepared(k + 1, rest, fd, ok)
    ensures ServerPrepared(k, [s] + rest, fd, ok)
  {
    var done := [s] + rest;
    assert forall i :: 0 < i < |done| ==> done[i] == rest[i - 1];
  }

  lemma ClientFails(k: int, s: Setup, fd: int)
    requires ClientStage(k, s, fd) && k < 6 && !Worked(s)
    ensures ClientPrepared(k, [s], fd, false)
  {
  }

  lemma ClientGoesOn(k: int, s: Setup, rest: seq<Setup>, fd: int, ok: bool)
    requires ClientStage(k, s, fd) && Worked(s) && ClientPrepared(k + 1, rest, fd, ok)
    ensures ClientPrepared(k, [s] + rest, fd, ok)
  {
    var done := [s] + rest;
    assert forall i :: 0 < i < |done| ==> done[i] == rest[i - 1];
  }

  /** The socket calls of one server or client. Results are arbitrary within the calls' contracts; open holds the
      open descriptors of the process, setup and log the calls made through this object. */
  class SocketCore {
    var open: set<int>
    ghost var setup: seq<Setup>
    ghost var log: seq<Call>

    constructor (others: set<int>)
      ensures open == others && log == [] && setup == []
    {
      open := others;
      log := [];
      setup := [];
    }

    method Initialize() returns (rc: int)
      modifies this`setup
      ensures setup == old(setup) + [Initialized(rc)]
    {
      rc := *;
      setup := setup + [Initialized(rc)];
    }

    method Socket() returns (fd: int)
      modifies this
      ensures fd == INVALID_SOCKET ==> open == old(open) && log == old(log)
      ensures fd != INVALID_SOCKET ==>
        0 <= fd && fd !in old(open) && open == old(open) + {fd} && log == old(log) + [Call.Opened(fd)]
      ensures setup == old(setup) + [SocketMade(fd)]
    {
      fd := *;
      if fd < 0 || fd in open {
        fd := INVALID_SOCKET;
      } else {
        open := open + {fd};
        log := log + [Call.Opened(fd)];
      }
      setup := setup + [SocketMade(fd)];
    }

    method SetSockOpt(fd: int, option: SockOption) returns (rc: int)
      modifies this`setup
      ensures setup == old(setup) + [OptionSet(fd, option, rc)]
    {
      rc := *;
      setup := setup + [OptionSet(fd, option, rc)];
    }

    method Bind(fd: int) returns (rc: int)
      modifies this`setup
      ensures setup == old(setup) + [Bound(fd, rc)]
    {
      rc := *;
      setup := setup + [Bound(fd, rc)];
    }

    method Listen(fd: int) returns (rc: int)
      modifies this`setup
      ensures setup == old(setup) + [Listening(fd, rc)]
    {
      rc := *;
      setup := setup + [Listening(fd, rc)];
    }

    method LookupHost() returns (rc: int)
      modifies this`setup
      ensures setup == old(setup) + [HostFound(rc)]
    {
      rc := *;
      setup := setup + [HostFound(rc)];
    }

    method Connect(fd: int) returns (rc: int)
      modifies this`setup
      ensures setup == old(setup) + [Connected(fd, rc)]
    {
      rc := *;
      setup := setup + [Connected(fd, rc)];
    }

    method Accept(listener: int) returns (fd: int, addr: Address)
      modifies this`open, this`log
      ensures log == old(log) + [Accepted(listener, fd, if fd == -1 then None else Some(addr))]
      ensures fd == -1 ==> open == old(open)
      ensures fd != -1 ==> 0 <= fd && fd !in old(open) && open == old(open) + {fd}
    {
      fd, addr := *, *;
      if fd < 0 || fd in open {
        fd := -1;
      } else {
        open := open + {fd};
      }
      log := log + [Accepted(listener, fd, if fd == -1 then None else Some(addr))];
    }

    method Select(maxfds: int, fds: set<int>) returns (ret: int, ready: set<int>)
      modifies this`log
      ensures ready <= fds && (forall x :: x in ready ==> x < maxfds)
      ensures ret <= 0 <==> ready == {}
      ensures log == old(log) + [Selected(ready)]
    {
      var any: set<int> := *;
      ready := set x | x in fds && x in any && x < maxfds;
      ret := |ready|;
      log := log + [Selected(ready)];
    }

    method Recv(fd: int, size: nat) returns (n: int, data: Bytes)
      modifies this`log
      ensures -1 <= n <= size && |data| == (if n < 0 then 0 else n)
      ensures fd !in open ==> n == -1
      ensures log == old(log) + [Received(fd, n, data)]
    {
      data := *;
      n := |data|;
      var failed: bool := *;
      if failed || fd !in open || |data| > size {
        n, data := -1, [];
      }
      log := log + [Received(fd, n, data)];
    }

    method Send(fd: int, msg: Bytes) returns (n: int)
      modifies this`log
      ensures -1 <= n <= |msg|
      ensures fd !in open ==> n == -1
      ensures log == old(log) + [Call.Sent(fd, n, msg)]
    {
      n := *;
      if n < 0 || n > |msg| || fd !in open {
        n := -1;
      }
      log := log + [Call.Sent(fd, n, msg)];
    }

    method Close(fd: int)
      modifies this`open, this`log
      ensures open == old(open) - {fd}
      ensures log == old(log) + [Closed(fd)]
    {
      open := open - {fd};
      log := log + [Closed(fd)];
    }
  }
}
