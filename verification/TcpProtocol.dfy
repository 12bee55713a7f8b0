/** The TCP engine as a step system: the server thread, the thread that starts and finishes the server,
    broadcasting threads and the environment take atomic steps in any order. A critical section under
    the client mutex is several steps, so that other threads act in between. */
module TcpProtocol {
  import opened Options
  import opened TcpEvents

  /** An entry of the client map; gen is the connection the entry was made for. */
  datatype Entry = Entry(addr: Address, sockfd: int, gen: int)

  /** Where the server thread stands while it serves one descriptor of a scan pass. */
  datatype Stage =
    | Look
    | Serve
    | Drop
    | DropClr
    | DropErase
    | TellGone
    | TellData(data: Bytes)
    | Accepting
    | Emplace(c: int, addr: Address, gen: int)
    | Arm(c: int)
    | TellNew(c: int)

  datatype ServerPc =
    | Off
    | Top
    | Polling
    | At(ready: set<int>, maxfd: int, fd: int, stage: Stage)
    | Exited

  /** The server thread is in its loop. */
  predicate Running(server: ServerPc) { server.Top? || server.Polling? || server.At? }

  datatype OwnerPc = Fresh | Created | Up | Failed | Joining | Closing(left: set<int>) | Clearing | Finished

  datatype Lock = Free | ServerHolds | SenderHolds | OwnerHolds

  /** A broadcast in progress: the handles not yet sent to, the handle whose send failed, and the
      history as it was when the broadcast took the lock. */
  datatype Sender = Idle | Sending(msg: Bytes, left: set<int>, failed: Option<int>, before: History)

  datatype State = State(
    os: map<int, int>,          // every open descriptor of the process, with its generation
    nextGen: int,
    sent: map<int, Bytes>,      // what the peer of a connection has sent so far
    owned: set<int>,            // the generations this server obtained
    sockfd: int,
    listenGen: int,
    fds: set<int>,
    clients: map<int, Entry>,
    gone: set<int>,             // the clients whose connected flag was cleared
    stop: bool,
    mirror: set<int>,           // the owner's own client set
    lock: Lock,
    server: ServerPc,
    owner: OwnerPc,
    sender: Sender,
    hist: History
  )

  datatype Step =
    // the thread that starts and finishes the server
    | OpenFail
    | OpenSocket(fd: int)
    | SetupFail
    | SetupDone
    | Stop
    | JoinLock
    | CloseClient(h: int)
    | CloseListener
    | ClearUnlock
    | ClearMirror
    // the server thread
    | Quit
    | Enter
    | SelectIdle
    | SelectReady(ready: set<int>, maxfd: int)
    | EndPass
    | Skip
    | Lookup
    | RecvErr
    | RecvEof
    | RecvData(n: int)
    | DropClose
    | DropClear
    | DropEntry
    | NotifyGone
    | NotifyData
    | AcceptFail
    | AcceptOk(fd: int, addr: Address)
    | EmplaceEntry
    | ArmFd
    | NotifyNew
    // a broadcasting thread
    | BcastBegin(msg: Bytes)
    | BcastSend(h: int, n: int)
    | BcastEnd
    | SendTo(h: int, msg: Bytes, n: int)
    // other parts of the process, and the peers
    | ForeignOpen(fd: int)
    | ForeignClose(fd: int)
    | PeerSend(g: int, data: Bytes)

  ghost function Init(): State {
    State(map[], 0, map[], {}, INVALID_SOCKET, -1, {}, map[], {}, false, {}, Free, Off, Fresh, Idle, Nil)
  }

  function OsGen(s: State, fd: int): int { if fd in s.os then s.os[fd] else -1 }

  function EntryGen(s: State, h: int): int { if h in s.clients then s.clients[h].gen else -1 }

  function SentBy(s: State, g: int): Bytes { if g in s.sent then s.sent[g] else [] }

  /** What the peer has sent and the server has not read yet. */
  function Unread(s: State, g: int): Bytes {
    if |InBytes(s.hist, g)| <= |SentBy(s, g)| then SentBy(s, g)[|InBytes(s.hist, g)|..] else []
  }

  function Log(s: State, e: Event): State { s.(hist := Then(s.hist, e)) }

  function Goto(s: State, stage: Stage): State
    requires s.server.At?
  {
    s.(server := s.server.(stage := stage))
  }

  function NextFd(s: State): State
    requires s.server.At?
  {
    s.(server := s.server.(fd := s.server.fd + 1, stage := Look))
  }

  function MarkGone(s: State, h: int): State { s.(gone := s.gone + {h}) }

  function CloseFd(s: State, fd: int, intended: int): State {
    Log(s, Sys(Closed(fd), OsGen(s, fd), intended, -1)).(os := s.os - {fd})
  }

  /** The bound passed to select: one more than the largest of the listener and the clients' descriptors. */
  ghost predicate IsMaxFd(s: State, maxfd: int) {
    && s.sockfd < maxfd
    && (forall h :: h in s.clients ==> s.clients[h].sockfd < maxfd)
    && (maxfd == s.sockfd + 1 || exists h :: h in s.clients && maxfd == s.clients[h].sockfd + 1)
  }

  predicate Stage?(s: State, stage: Stage) { s.server.At? && s.server.stage == stage }

  ghost predicate Enabled(s: State, step: Step) {
    match step
    case OpenFail => s.owner.Fresh?
    case OpenSocket(fd) => s.owner.Fresh? && 0 <= fd && fd !in s.os
    case SetupFail => s.owner.Created?
    case SetupDone => s.owner.Created?
    case Stop => s.owner.Fresh? || s.owner.Failed? || s.owner.Up? || s.owner.Finished?
    case JoinLock => s.owner.Joining? && (s.server.Off? || s.server.Exited?) && s.lock.Free?
    case CloseClient(h) => s.owner.Closing? && h in s.owner.left && h in s.clients
    case CloseListener => s.owner.Closing? && s.owner.left == {}
    case ClearUnlock => s.owner.Clearing?
    case ClearMirror => s.owner.Finished?
    case Quit => s.server.Top? && s.stop
    case Enter => s.server.Top? && !s.stop
    case SelectIdle => s.server.Polling?
    case SelectReady(ready, maxfd) => s.server.Polling? && ready != {} && ready <= s.fds && IsMaxFd(s, maxfd)
    case EndPass => Stage?(s, Look) && s.server.fd >= s.server.maxfd
    case Skip => Stage?(s, Look) && s.server.fd < s.server.maxfd && s.server.fd !in s.server.ready
    case Lookup => Stage?(s, Look) && s.server.fd < s.server.maxfd && s.server.fd in s.server.ready && s.lock.Free?
    case RecvErr => Stage?(s, Serve)
    case RecvEof => Stage?(s, Serve) && s.server.fd in s.os
    case RecvData(n) =>
      Stage?(s, Serve) && s.server.fd in s.os && 1 <= n <= MAX_PACKET_SIZE && n <= |Unread(s, s.os[s.server.fd])|
    case DropClose => Stage?(s, Drop) && s.lock.Free?
    case DropClear => Stage?(s, DropClr)
    case DropEntry => Stage?(s, DropErase)
    case NotifyGone => Stage?(s, TellGone)
    case NotifyData => s.server.At? && s.server.stage.TellData?
    case AcceptFail => Stage?(s, Accepting)
    case AcceptOk(fd, addr) => Stage?(s, Accepting) && 0 <= fd && fd !in s.os
    case EmplaceEntry => s.server.At? && s.server.stage.Emplace? && s.lock.Free?
    case ArmFd => s.server.At? && s.server.stage.Arm?
    case NotifyNew => s.server.At? && s.server.stage.TellNew? && s.lock.Free?
    case BcastBegin(msg) => s.sender.Idle? && s.lock.Free?
    case BcastSend(h, n) =>
      && s.sender.Sending? && s.sender.failed.None? && h in s.sender.left && h in s.clients
      && -1 <= n <= |s.sender.msg| && (0 <= n ==> s.clients[h].sockfd in s.os)
    case BcastEnd => s.sender.Sending? && (s.sender.failed.Some? || s.sender.left == {})
    case SendTo(h, msg, n) =>
      s.lock.Free? && h in s.clients && -1 <= n <= |msg| && (0 <= n ==> s.clients[h].sockfd in s.os)
    case ForeignOpen(fd) => 0 <= fd && fd !in s.os
    case ForeignClose(fd) => fd in s.os && s.os[fd] !in s.owned
    case PeerSend(g, data) => 0 <= g < s.nextGen
  }

  // ---------------------------------------------------------------- what each step does

  function AfterOpenSocket(s: State, fd: int): State {
    Log(s, Sys(Call.Opened(fd), -1, -1, s.nextGen))
    .(os := s.os[fd := s.nextGen], owned := s.owned + {s.nextGen}, nextGen := s.nextGen + 1,
      sockfd := fd, listenGen := s.nextGen, owner := Created)
  }

  function AfterCloseClient(s: State, h: int): State
    requires s.owner.Closing? && h in s.clients
  {
    CloseFd(s, s.clients[h].sockfd, s.clients[h].gen).(owner := Closing(s.owner.left - {h}))
  }

  function AfterCloseListener(s: State): State {
    (if s.sockfd != INVALID_SOCKET then CloseFd(s, s.sockfd, s.listenGen) else s).(owner := Clearing)
  }

  function AfterClearUnlock(s: State): State {
    s.(sockfd := INVALID_SOCKET, clients := map[], gone := {}, lock := Free, owner := Finished)
  }

  function AfterSelectIdle(s: State): State { Log(s, Sys(Selected({}), -1, -1, -1)).(server := Top) }

  function AfterSelectReady(s: State, ready: set<int>, maxfd: int): State {
    Log(s, Sys(Selected(ready), -1, -1, -1)).(server := At(ready, maxfd, 0, Look))
  }

  function AfterRecvErr(s: State): State
    requires s.server.At?
  {
    var fd := s.server.fd;
    NextFd(MarkGone(Log(s, Sys(Received(fd, -1, []), OsGen(s, fd), EntryGen(s, fd), -1)), fd))
  }

  function AfterRecvEof(s: State): State
    requires s.server.At?
  {
    var fd := s.server.fd;
    Goto(MarkGone(Log(s, Sys(Received(fd, 0, []), OsGen(s, fd), EntryGen(s, fd), -1)), fd), Drop)
  }

  function AfterRecvData(s: State, n: int): State
    requires s.server.At? && s.server.fd in s.os && 0 <= n <= |Unread(s, s.os[s.server.fd])|
  {
    var fd := s.server.fd;
    var data := Unread(s, s.os[fd])[..n];
    Goto(Log(s, Sys(Received(fd, n, data), OsGen(s, fd), EntryGen(s, fd), -1)), TellData(data))
  }

  function AfterDropClose(s: State): State
    requires s.server.At?
  {
    var fd := s.server.fd;
    if fd in s.clients
    then Goto(CloseFd(s, s.clients[fd].sockfd, s.clients[fd].gen), DropClr).(lock := ServerHolds)
    else Goto(s, TellGone)
  }

  function AfterDropClear(s: State): State
    requires s.server.At?
  {
    var fd := s.server.fd;
    Goto(s, DropErase).(fds := s.fds - (if fd in s.clients then {s.clients[fd].sockfd} else {}))
  }

  function AfterDropEntry(s: State): State
    requires s.server.At?
  {
    var fd := s.server.fd;
    Goto(s, TellGone).(clients := s.clients - {fd}, gone := s.gone - {fd}, lock := Free)
  }

  function AfterNotifyGone(s: State): State
    requires s.server.At?
  {
    var fd := s.server.fd;
    NextFd(Log(s, Cb(Disconnect(fd), -1))).(mirror := s.mirror - {fd})
  }

  function AfterNotifyData(s: State): State
    requires s.server.At? && s.server.stage.TellData?
  {
    NextFd(Log(s, Cb(Data(s.server.fd, s.server.stage.data), EntryGen(s, s.server.fd))))
  }

  function AfterAcceptFail(s: State): State
    requires s.server.At?
  {
    NextFd(Log(s, Sys(Accepted(s.server.fd, -1, None), OsGen(s, s.server.fd), s.listenGen, -1)))
  }

  function AfterAcceptOk(s: State, fd: int, addr: Address): State
    requires s.server.At?
  {
    Goto(Log(s, Sys(Accepted(s.server.fd, fd, Some(addr)), OsGen(s, s.server.fd), s.listenGen, s.nextGen)),
         Emplace(fd, addr, s.nextGen))
    .(os := s.os[fd := s.nextGen], owned := s.owned + {s.nextGen}, nextGen := s.nextGen + 1)
  }

  /** A key that is already there keeps its entry. */
  function AfterEmplace(s: State): State
    requires s.server.At? && s.server.stage.Emplace?
  {
    var Emplace(c, addr, gen) := s.server.stage;
    Goto(s, Arm(c)).(clients := if c in s.clients then s.clients else s.clients[c := Entry(addr, c, gen)])
  }

  function AfterArm(s: State): State
    requires s.server.At? && s.server.stage.Arm?
  {
    Goto(s, TellNew(s.server.stage.c)).(fds := s.fds + {s.server.stage.c})
  }

  function AfterNotifyNew(s: State): State
    requires s.server.At? && s.server.stage.TellNew?
  {
    var c := s.server.stage.c;
    NextFd(Log(s, Cb(Connect(c), EntryGen(s, c)))).(mirror := if c in s.clients then s.mirror + {c} else s.mirror)
  }

  /** A send to the client with handle h that took n bytes of msg, or failed if n is negative. */
  function AfterSend(s: State, h: int, msg: Bytes, n: int): State
    requires h in s.clients && n <= |msg|
  {
    var fd := s.clients[h].sockfd;
    if fd == INVALID_SOCKET then s
    else Log(s, Sys(Call.Sent(fd, n, msg), OsGen(s, fd), s.clients[h].gen, -1))
  }

  function AfterBcastSend(s: State, h: int, n: int): State
    requires s.sender.Sending? && h in s.clients && n <= |s.sender.msg|
  {
    var failed := s.clients[h].sockfd != INVALID_SOCKET && n < |s.sender.msg|;
    AfterSend(s, h, s.sender.msg, n)
    .(sender := s.sender.(left := s.sender.left - {h}, failed := if failed then Some(h) else None))
  }

  ghost function Apply(s: State, step: Step): State
    requires Enabled(s, step)
  {
    match step
    case OpenFail => s.(owner := Failed)
    case OpenSocket(fd) => AfterOpenSocket(s, fd)
    case SetupFail => s.(owner := Failed)
    case SetupDone => s.(owner := Up, fds := {s.sockfd}, server := Top)
    case Stop => s.(owner := Joining, stop := true)
    case JoinLock => s.(owner := Closing(s.clients.Keys), lock := OwnerHolds)
    case CloseClient(h) => AfterCloseClient(s, h)
    case CloseListener => AfterCloseListener(s)
    case ClearUnlock => AfterClearUnlock(s)
    case ClearMirror => s.(mirror := {})
    case Quit => s.(server := Exited)
    case Enter => s.(server := Polling)
    case SelectIdle => AfterSelectIdle(s)
    case SelectReady(ready, maxfd) => AfterSelectReady(s, ready, maxfd)
    case EndPass => s.(server := Top)
    case Skip => NextFd(s)
    case Lookup => Goto(s, if s.server.fd in s.clients then Serve else Accepting)
    case RecvErr => AfterRecvErr(s)
    case RecvEof => AfterRecvEof(s)
    case RecvData(n) => AfterRecvData(s, n)
    case DropClose => AfterDropClose(s)
    case DropClear => AfterDropClear(s)
    case DropEntry => AfterDropEntry(s)
    case NotifyGone => AfterNotifyGone(s)
    case NotifyData => AfterNotifyData(s)
    case AcceptFail => AfterAcceptFail(s)
    case AcceptOk(fd, addr) => AfterAcceptOk(s, fd, addr)
    case EmplaceEntry => AfterEmplace(s)
    case ArmFd => AfterArm(s)
    case NotifyNew => AfterNotifyNew(s)
    case BcastBegin(msg) => s.(lock := SenderHolds, sender := Sending(msg, s.clients.Keys, None, s.hist))
    case BcastSend(h, n) => AfterBcastSend(s, h, n)
    case BcastEnd => s.(lock := Free, sender := Idle)
    case SendTo(h, msg, n) => AfterSend(s, h, msg, n)
    case ForeignOpen(fd) => s.(os := s.os[fd := s.nextGen], nextGen := s.nextGen + 1)
    case ForeignClose(fd) => s.(os := s.os - {fd})
    case PeerSend(g, data) => s.(sent := s.sent[g := SentBy(s, g) + data])
  }

  predicate ByOwner(step: Step) {
    || step.OpenFail? || step.OpenSocket? || step.SetupFail? || step.SetupDone? || step.Stop?
    || step.JoinLock? || step.CloseClient? || step.CloseListener? || step.ClearUnlock? || step.ClearMirror?
  }

  predicate BySender(step: Step) { step.BcastBegin? || step.BcastSend? || step.BcastEnd? || step.SendTo? }

  predicate Outside(step: Step) { step.ForeignOpen? || step.ForeignClose? || step.PeerSend? }

  predicate ByServer(step: Step) { !ByOwner(step) && !BySender(step) && !Outside(step) }

  /** A schedule: the steps taken since the initial state, most recent last. */
  datatype Schedule = Start | Next(before: Schedule, step: Step)

  ghost predicate Legal(r: Schedule)
    decreases r, 0
  {
    match r
    case Start => true
    case Next(before, step) => Legal(before) && Enabled(Exec(before), step)
  }

  ghost function Exec(r: Schedule): State
    requires Legal(r)
    decreases r, 1
  {
    match r
    case Start => Init()
    case Next(before, step) => Apply(Exec(before), step)
  }

  /** r continues r0. */
  predicate Extends(r: Schedule, r0: Schedule) {
    r == r0 || (r.Next? && Extends(r.before, r0))
  }
}
