/** Pieces of schedule the running server takes as one, and how the running program fits the step system. */
module TcpPieces {
  import opened Options
  import opened TcpEvents
  import opened TcpProtocol
  import opened TcpInvariant
  import opened TcpBroadcast
  import opened TcpConservation

  // ---------------------------------------------------------------- pieces of schedule

  /** r is a schedule that leads to s. */
  ghost predicate Leads(r: Schedule, s: State) { Legal(r) && Exec(r) == s && Inv(s) }

  lemma Took(r: Schedule, s: State, step: Step) returns (r': Schedule)
    requires Leads(r, s) && Enabled(s, step)
    ensures Leads(r', Apply(s, step)) && r' == Next(r, step) && Extends(r', r)
  {
    StepKeepsInv(s, step);
    r' := Next(r, step);
  }

  lemma {:induction false} ExtendsFurther(r: Schedule, r1: Schedule, r0: Schedule)
    requires Extends(r, r1) && Extends(r1, r0)
    ensures Extends(r, r0)
  {
    if r != r1 {
      ExtendsFurther(r.before, r1, r0);
    }
  }

  lemma ExtendsItself(r: Schedule)
    ensures Extends(r, r)
  {
  }

  /** Outside critical sections every entry is keyed by its own open descriptor. */
  lemma ClientsAreOpen(r: Schedule, s: State, h: int)
    requires Leads(r, s) && s.lock.Free? && h in s.clients
    ensures s.clients[h].sockfd == h && h in s.os && s.os[h] == s.clients[h].gen && 0 <= h
  {
    assert Half(s.server, s.owner, s.clients.Keys) == {};
  }

  lemma GoneAreClients(r: Schedule, s: State)
    requires Leads(r, s)
    ensures s.gone <= s.clients.Keys
  {
  }

  lemma GenerationKnown(r: Schedule, s: State, fd: int)
    requires Leads(r, s) && fd in s.os
    ensures 0 <= s.os[fd] < s.nextGen
  {
  }

  /** The client being served is in the map. */
  lemma Serving(r: Schedule, s: State)
    requires Leads(r, s) && s.server.At? && (s.server.stage.Serve? || s.server.stage.Drop?)
    ensures s.server.fd in s.clients
  {
  }

  /** What deleting the client being served comes to. */
  function Dropped(s: State): State
    requires s.server.At?
  {
    var fd := s.server.fd;
    Goto(s, TellGone).(os := s.os - {fd}, fds := s.fds - {fd}, clients := s.clients - {fd}, gone := s.gone - {fd},
                       hist := Then(s.hist, Sys(Closed(fd), OsGen(s, fd), EntryGen(s, fd), -1)))
  }

  lemma DropEffect(s: State)
    requires Stage?(s, Drop) && s.lock.Free? && s.server.fd in s.clients && s.clients[s.server.fd].sockfd == s.server.fd
    ensures Dropped(s) == AfterDropEntry(AfterDropClear(AfterDropClose(s)))
  {
  }

  lemma DropCloseRun(r: Schedule, s: State) returns (r': Schedule)
    requires Leads(r, s) && Stage?(s, Drop) && s.lock.Free? && s.server.fd in s.clients
    ensures Leads(r', AfterDropClose(s)) && Extends(r', r) && Stage?(AfterDropClose(s), DropClr)
  {
    hide Leads;
    r' := Took(r, s, DropClose);
  }

  lemma DropRestRun(r: Schedule, s: State) returns (r': Schedule)
    requires Leads(r, s) && Stage?(s, DropClr)
    ensures Leads(r', AfterDropEntry(AfterDropClear(s))) && Extends(r', r)
  {
    hide Leads;
    var r1 := Took(r, s, DropClear);
    r' := Took(r1, AfterDropClear(s), DropEntry);
    ExtendsFurther(r', r1, r);
  }

  /** The three statements of a deletion, one step each. */
  lemma DropRun(r: Schedule, s: State) returns (r': Schedule)
    requires Leads(r, s) && Stage?(s, Drop) && s.lock.Free?
    ensures Leads(r', Dropped(s)) && Extends(r', r)
  {
    hide Leads, Dropped, AfterDropClose, AfterDropClear, AfterDropEntry;
    Serving(r, s);
    ClientsAreOpen(r, s, s.server.fd);
    DropEffect(s);
    var r1 := DropCloseRun(r, s);
    r' := DropRestRun(r1, AfterDropClose(s));
    ExtendsFurther(r', r1, r);
  }

  /** What receiving data from the client being served comes to. */
  function Chunked(s: State, data: Bytes): State
    requires s.server.At?
  {
    var fd := s.server.fd;
    var g := OsGen(s, fd);
    Goto(s, TellData(data)).(sent := s.sent[g := SentBy(s, g) + data],
                             hist := Then(s.hist, Sys(Received(fd, |data|, data), g, EntryGen(s, fd), -1)))
  }

  /** The peer sends the data and the server receives it. */
  lemma DataRun(r: Schedule, s: State, data: Bytes) returns (r': Schedule)
    requires Leads(r, s) && Stage?(s, Serve) && s.server.fd in s.os && 1 <= |data| <= MAX_PACKET_SIZE
    requires AllRead(s)
    ensures Leads(r', Chunked(s, data)) && Extends(r', r)
  {
    hide Leads;
    GenerationKnown(r, s, s.server.fd);
    var g := s.os[s.server.fd];
    var r1 := Took(r, s, PeerSend(g, data));
    var s1 := s.(sent := s.sent[g := SentBy(s, g) + data]);
    assert Unread(s1, g) == data && data[..|data|] == data;
    r' := Took(r1, s1, RecvData(|data|));
    ExtendsFurther(r', r1, r);
  }

  /** What accepting connection c comes to, up to telling the owner. */
  function Admitted(s: State, c: int, addr: Address): State
    requires s.server.At?
  {
    Goto(s, TellNew(c)).(os := s.os[c := s.nextGen], owned := s.owned + {s.nextGen}, nextGen := s.nextGen + 1,
                         fds := s.fds + {c}, clients := s.clients[c := Entry(addr, c, s.nextGen)],
                         hist := Then(s.hist, Sys(Accepted(s.server.fd, c, Some(addr)), OsGen(s, s.server.fd),
                                                  s.listenGen, s.nextGen)))
  }

  lemma AcceptRun(r: Schedule, s: State, c: int, addr: Address) returns (r': Schedule)
    requires Leads(r, s) && Stage?(s, Accepting) && 0 <= c && c !in s.os
    ensures Leads(r', AfterAcceptOk(s, c, addr)) && Extends(r', r)
  {
    hide Leads;
    r' := Took(r, s, AcceptOk(c, addr));
  }

  lemma EnterRuns(r: Schedule, s: State) returns (r': Schedule)
    requires Leads(r, s) && s.server.At? && s.server.stage.Emplace? && s.lock.Free?
    ensures Leads(r', AfterArm(AfterEmplace(s))) && Extends(r', r)
  {
    hide Leads;
    var r1 := Took(r, s, EmplaceEntry);
    r' := Took(r1, AfterEmplace(s), ArmFd);
    ExtendsFurther(r', r1, r);
  }

  lemma AdmitEffect(s: State, c: int, addr: Address)
    requires Stage?(s, Accepting) && c !in s.clients
    ensures Admitted(s, c, addr) == AfterArm(AfterEmplace(AfterAcceptOk(s, c, addr)))
  {
  }

  lemma AdmitRun(r: Schedule, s: State, c: int, addr: Address) returns (r': Schedule)
    requires Leads(r, s) && Stage?(s, Accepting) && s.lock.Free? && 0 <= c && c !in s.os
    ensures Leads(r', Admitted(s, c, addr)) && Extends(r', r) && c !in s.clients && c !in s.gone
  {
    hide Leads;
    if c in s.clients {
      ClientsAreOpen(r, s, c);
    }
    GoneAreClients(r, s);
    AdmitEffect(s, c, addr);
    var r1 := AcceptRun(r, s, c, addr);
    r' := EnterRuns(r1, AfterAcceptOk(s, c, addr));
    ExtendsFurther(r', r1, r);
  }

  lemma EofRun(r: Schedule, s: State) returns (r': Schedule)
    requires Leads(r, s) && Stage?(s, Serve) && s.server.fd in s.os
    ensures Leads(r', AfterRecvEof(s)) && Extends(r', r)
  {
    hide Leads;
    r' := Took(r, s, RecvEof);
  }

  lemma ErrRun(r: Schedule, s: State) returns (r': Schedule)
    requires Leads(r, s) && Stage?(s, Serve)
    ensures Leads(r', AfterRecvErr(s)) && Extends(r', r)
  {
    hide Leads;
    r' := Took(r, s, RecvErr);
  }

  lemma RefusedRun(r: Schedule, s: State) returns (r': Schedule)
    requires Leads(r, s) && Stage?(s, Accepting)
    ensures Leads(r', AfterAcceptFail(s)) && Extends(r', r)
  {
    hide Leads;
    r' := Took(r, s, AcceptFail);
  }

  lemma GoneRun(r: Schedule, s: State) returns (r': Schedule)
    requires Leads(r, s) && Stage?(s, TellGone)
    ensures Leads(r', AfterNotifyGone(s)) && Extends(r', r)
  {
    hide Leads;
    r' := Took(r, s, NotifyGone);
  }

  lemma DataToldRun(r: Schedule, s: State) returns (r': Schedule)
    requires Leads(r, s) && s.server.At? && s.server.stage.TellData?
    ensures Leads(r', AfterNotifyData(s)) && Extends(r', r)
  {
    hide Leads;
    r' := Took(r, s, NotifyData);
  }

  lemma NewRun(r: Schedule, s: State) returns (r': Schedule)
    requires Leads(r, s) && s.server.At? && s.server.stage.TellNew? && s.lock.Free?
    ensures Leads(r', AfterNotifyNew(s)) && Extends(r', r)
  {
    hide Leads;
    r' := Took(r, s, NotifyNew);
  }

  /** The server thread finds the stop flag clear and is about to call select. */
  lemma EnterRun(r: Schedule, s: State) returns (r': Schedule)
    requires Leads(r, s) && s.server.Top? && !s.stop
    ensures Leads(r', s.(server := Polling)) && Extends(r', r)
  {
    hide Leads;
    r' := Took(r, s, Enter);
  }

  lemma QuitRun(r: Schedule, s: State) returns (r': Schedule)
    requires Leads(r, s) && s.server.Top? && s.stop
    ensures Leads(r', s.(server := Exited)) && Extends(r', r)
  {
    hide Leads;
    r' := Took(r, s, Quit);
  }

  lemma IdleRun(r: Schedule, s: State) returns (r': Schedule)
    requires Leads(r, s) && s.server.Polling?
    ensures Leads(r', AfterSelectIdle(s)) && Extends(r', r)
  {
    hide Leads;
    r' := Took(r, s, SelectIdle);
  }

  lemma ReadyRun(r: Schedule, s: State, ready: set<int>, maxfd: int) returns (r': Schedule)
    requires Leads(r, s) && s.server.Polling? && ready != {} && ready <= s.fds && IsMaxFd(s, maxfd)
    ensures Leads(r', AfterSelectReady(s, ready, maxfd)) && Extends(r', r)
  {
    hide Leads;
    r' := Took(r, s, SelectReady(ready, maxfd));
  }

  /** Where the scan goes from a descriptor it has come to. */
  function Looked(s: State): ServerPc
    requires s.server.At?
  {
    var pc := s.server;
    if pc.fd >= pc.maxfd then Top
    else if pc.fd !in pc.ready then pc.(fd := pc.fd + 1, stage := Look)
    else pc.(stage := if pc.fd in s.clients then Serve else Accepting)
  }

  lemma LookRun(r: Schedule, s: State) returns (r': Schedule)
    requires Leads(r, s) && Stage?(s, Look) && s.lock.Free?
    ensures Leads(r', s.(server := Looked(s))) && Extends(r', r)
  {
    hide Leads;
    r' := Took(r, s, if s.server.fd >= s.server.maxfd then EndPass
                     else if s.server.fd !in s.server.ready then Skip
                     else Lookup);
  }

  lemma ListenerUp(r: Schedule, s: State)
    requires Leads(r, s) && Running(s.server)
    ensures 0 <= s.sockfd
  {
  }

  // the thread that starts and finishes the server

  lemma RunningIsUp(r: Schedule, s: State)
    requires Leads(r, s)
    ensures Running(s.server) ==> s.owner.Up? || s.owner.Joining?
  {
  }

  lemma FailRun(r: Schedule, s: State) returns (r': Schedule)
    requires Leads(r, s) && (s.owner.Fresh? || s.owner.Created?)
    ensures Leads(r', s.(owner := Failed)) && Extends(r', r)
  {
    hide Leads;
    r' := Took(r, s, if s.owner.Fresh? then OpenFail else SetupFail);
  }

  lemma SocketRun(r: Schedule, s: State, fd: int) returns (r': Schedule)
    requires Leads(r, s) && s.owner.Fresh? && 0 <= fd && fd !in s.os
    ensures Leads(r', AfterOpenSocket(s, fd)) && Extends(r', r)
  {
    hide Leads;
    r' := Took(r, s, OpenSocket(fd));
  }

  lemma StartedRun(r: Schedule, s: State) returns (r': Schedule)
    requires Leads(r, s) && s.owner.Created?
    ensures Leads(r', s.(owner := Up, fds := {s.sockfd}, server := Top)) && Extends(r', r)
  {
    hide Leads;
    r' := Took(r, s, SetupDone);
  }

  lemma StopRun(r: Schedule, s: State) returns (r': Schedule)
    requires Leads(r, s) && (s.owner.Fresh? || s.owner.Failed? || s.owner.Up? || s.owner.Finished?)
    ensures Leads(r', s.(owner := Joining, stop := true)) && Extends(r', r)
  {
    hide Leads;
    r' := Took(r, s, Stop);
  }

  lemma JoinRun(r: Schedule, s: State) returns (r': Schedule)
    requires Leads(r, s) && s.owner.Joining? && !Running(s.server) && s.lock.Free?
    ensures Leads(r', s.(owner := Closing(s.clients.Keys), lock := OwnerHolds)) && Extends(r', r)
  {
    hide Leads;
    r' := Took(r, s, JoinLock);
  }

  lemma CloseClientRun(r: Schedule, s: State, h: int) returns (r': Schedule)
    requires Leads(r, s) && s.owner.Closing? && h in s.owner.left && h in s.clients
    ensures Leads(r', AfterCloseClient(s, h)) && Extends(r', r)
  {
    hide Leads;
    r' := Took(r, s, CloseClient(h));
  }

  lemma FinishRun(r: Schedule, s: State) returns (r': Schedule)
    requires Leads(r, s) && s.owner.Closing? && s.owner.left == {}
    ensures Leads(r', AfterClearUnlock(AfterCloseListener(s))) && Extends(r', r)
  {
    hide Leads;
    var r1 := Took(r, s, CloseListener);
    r' := Took(r1, AfterCloseListener(s), ClearUnlock);
    ExtendsFurther(r', r1, r);
  }

  lemma MirrorRun(r: Schedule, s: State) returns (r': Schedule)
    requires Leads(r, s) && s.owner.Finished?
    ensures Leads(r', s.(mirror := {})) && Extends(r', r)
  {
    hide Leads;
    r' := Took(r, s, ClearMirror);
  }

  lemma FreshServer(r: Schedule, s: State)
    requires Leads(r, s) && s.owner.Fresh?
    ensures s.server.Off? && s.sockfd == INVALID_SOCKET
  {
  }

  /** A finished server has nothing open and no clients. */
  lemma FinishedIsEmpty(r: Schedule, s: State)
    requires Leads(r, s) && s.owner.Finished?
    ensures s.clients.Keys == {} && s.sockfd == INVALID_SOCKET && !Running(s.server)
    ensures forall g :: Closes(s.hist, g) == if g in Born(s.hist) then 1 else 0
    ensures forall fd :: fd in s.os ==> s.os[fd] !in Born(s.hist)
  {
    OwnedAreBorn(r);
    forall g
      ensures Closes(s.hist, g) == if g in Born(s.hist) then 1 else 0
    {
      FinishClosesEverything(r, g);
    }
  }

  // broadcasting threads

  lemma BeginRun(r: Schedule, s: State, msg: Bytes) returns (r': Schedule)
    requires Leads(r, s) && s.lock.Free? && s.sender.Idle?
    ensures Leads(r', s.(lock := SenderHolds, sender := Sending(msg, s.clients.Keys, None, s.hist))) && Extends(r', r)
  {
    hide Leads;
    r' := Took(r, s, BcastBegin(msg));
  }

  lemma BcastSendRun(r: Schedule, s: State, h: int, n: int) returns (r': Schedule)
    requires Leads(r, s) && s.sender.Sending? && s.sender.failed.None? && h in s.sender.left && h in s.clients
    requires -1 <= n <= |s.sender.msg| && (0 <= n ==> s.clients[h].sockfd in s.os)
    ensures Leads(r', AfterBcastSend(s, h, n)) && Extends(r', r)
  {
    hide Leads;
    r' := Took(r, s, BcastSend(h, n));
  }

  lemma EndRun(r: Schedule, s: State) returns (r': Schedule)
    requires Leads(r, s) && s.sender.Sending? && (s.sender.failed.Some? || s.sender.left == {})
    ensures Leads(r', s.(lock := Free, sender := Idle)) && Extends(r', r)
    ensures Outcome(s.sender.failed.None?, s.sender.before, s.hist, s.clients, s.sender.msg)
  {
    BroadcastOutcome(r);
    r' := Took(r, s, BcastEnd);
  }

  lemma SendToRun(r: Schedule, s: State, h: int, msg: Bytes, n: int) returns (r': Schedule)
    requires Leads(r, s) && s.lock.Free? && h in s.clients
    requires -1 <= n <= |msg| && (0 <= n ==> s.clients[h].sockfd in s.os)
    ensures Leads(r', AfterSend(s, h, msg, n)) && Extends(r', r)
  {
    hide Leads;
    r' := Took(r, s, SendTo(h, msg, n));
  }

  /** While a broadcast or no one holds the mutex, every entry is keyed by its own open descriptor. */
  lemma SendableClient(r: Schedule, s: State, h: int)
    requires Leads(r, s) && (s.lock.Free? || s.lock.SenderHolds?) && h in s.clients
    ensures s.clients[h].sockfd == h && 0 <= h && h in s.os && s.os[h] == s.clients[h].gen
  {
    assert Half(s.server, s.owner, s.clients.Keys) == {};
  }

  /** A send reaches the connection of the entry and no other. */
  lemma SentOnly(r: Schedule, s: State, h: int, msg: Bytes, n: int)
    requires Leads(r, s) && s.lock.Free? && h in s.clients && n <= |msg|
    ensures forall g :: OutBytes(AfterSend(s, h, msg, n).hist, g)
              == OutBytes(s.hist, g) + if g == s.clients[h].gen && 0 <= n then msg[..n] else []
  {
    SendableClient(r, s, h);
  }

  lemma ForeignRun(r: Schedule, s: State, fd: int) returns (r': Schedule)
    requires Leads(r, s) && 0 <= fd && fd !in s.os
    ensures Leads(r', s.(os := s.os[fd := s.nextGen], nextGen := s.nextGen + 1)) && Extends(r', r)
  {
    hide Leads;
    r' := Took(r, s, ForeignOpen(fd));
  }

  // how far the server thread got

  predicate Kept(s: State, s': State) {
    && Selects(s'.hist) == Selects(s.hist) && s'.owner == s.owner && s'.stop == s.stop
    && s'.sender == s.sender && (s.lock.Free? ==> s'.lock.Free?)
  }

  /** The server thread is done with its descriptor and turns to the next. */
  predicate MovedOn(s: State, s': State) {
    s.server.At? && s'.server == s.server.(fd := s.server.fd + 1, stage := Look) && Kept(s, s')
  }

  /** The server thread is at another stage with its descriptor. */
  predicate TurnedTo(s: State, s': State, stage: Stage) {
    s.server.At? && s'.server == s.server.(stage := stage) && Kept(s, s')
  }

  lemma ReceiveTurns(s: State, data: Bytes)
    requires s.server.At?
    ensures MovedOn(s, AfterRecvErr(s)) && TurnedTo(s, AfterRecvEof(s), Stage.Drop)
    ensures TurnedTo(s, Chunked(s, data), TellData(data))
  {
  }

  lemma DropTurns(s: State)
    requires s.server.At?
    ensures TurnedTo(s, Dropped(s), TellGone)
  {
  }

  lemma AdmitTurns(s: State, c: int, addr: Address)
    requires s.server.At?
    ensures MovedOn(s, AfterAcceptFail(s)) && TurnedTo(s, Admitted(s, c, addr), TellNew(c))
  {
  }

  lemma GoneMoves(s: State)
    requires s.server.At?
    ensures MovedOn(s, AfterNotifyGone(s))
  {
  }

  lemma DataMoves(s: State)
    requires s.server.At? && s.server.stage.TellData?
    ensures MovedOn(s, AfterNotifyData(s))
  {
  }

  lemma NewMoves(s: State)
    requires s.server.At? && s.server.stage.TellNew?
    ensures MovedOn(s, AfterNotifyNew(s))
  {
  }

  // ---------------------------------------------------------------- the running program

  datatype Client = Client(addr: Address, sockfd: int, connected: bool)

  /** The fields of the running server, the operating system's open descriptors and its record of calls, and
      the owner's client set with its record of callbacks. */
  datatype World = World(
    open: set<int>,
    log: seq<Call>,
    sockfd: int,
    fds: set<int>,
    clients: map<int, Client>,
    stop: bool,
    thread: bool,
    mirror: set<int>,
    heard: seq<Callback>
  )

  /** The map the server keeps, seen as the map of the step system. */
  ghost predicate Matches(clients: map<int, Client>, entries: map<int, Entry>, gone: set<int>) {
    && clients.Keys == entries.Keys
    && forall h :: h in clients ==> clients[h] == Client(entries[h].addr, entries[h].sockfd, h !in gone)
  }

  lemma FitsInit(w: World)
    requires w == World(w.open, [], INVALID_SOCKET, {}, map[], false, false, {}, [])
    ensures Fits(w.(open := {}), Init()) && Leads(Start, Init())
  {
  }

  /** What a peer sends is let through by the operating system at the moment it is received. */
  ghost predicate AllRead(s: State) { forall g :: SentBy(s, g) == InBytes(s.hist, g) }

  /** The running program is in state s of the step system. */
  ghost predicate Fits(w: World, s: State) {
    && w.open == s.os.Keys
    && w.log == Calls(s.hist)
    && w.sockfd == s.sockfd
    && w.fds == s.fds
    && Matches(w.clients, s.clients, s.gone)
    && w.stop == s.stop
    && (Running(s.server) ==> w.thread)
    && (w.thread ==> !s.server.Off?)
    && w.mirror == s.mirror
    && w.heard == Callbacks(s.hist)
    && AllRead(s)
  }

  /** An event other than received data leaves nothing to read. */
  lemma ReadOn(s: State, s': State)
    requires AllRead(s) && s'.sent == s.sent
    requires s'.hist == s.hist || (s'.hist.Then? && s'.hist.past == s.hist)
    requires s'.hist != s.hist && s'.hist.last.Sys? && s'.hist.last.call.Received? ==> s'.hist.last.call.data == []
    ensures AllRead(s')
  {
    forall g
      ensures SentBy(s', g) == InBytes(s'.hist, g)
    {
      assert SentBy(s, g) == InBytes(s.hist, g);
    }
  }

  lemma ReadChunk(s: State, data: Bytes)
    requires AllRead(s) && s.server.At?
    ensures AllRead(Chunked(s, data))
  {
    forall g
      ensures SentBy(Chunked(s, data), g) == InBytes(Chunked(s, data).hist, g)
    {
      assert SentBy(s, g) == InBytes(s.hist, g);
    }
  }

  lemma FitsClients(w: World, s: State)
    requires Fits(w, s)
    ensures w.clients.Keys == s.clients.Keys && w.open == s.os.Keys
    ensures w.sockfd == s.sockfd && w.fds == s.fds && w.stop == s.stop && (Running(s.server) ==> w.thread)
    ensures w.mirror == s.mirror
    ensures forall h :: h in w.clients ==> w.clients[h].sockfd == s.clients[h].sockfd
    ensures AllRead(s)
  {
  }

  /** The server thread moved on without a call or a callback. */
  lemma FitsMove(w: World, s: State, server: ServerPc)
    requires Fits(w, s) && Running(s.server) && Running(server)
    ensures Fits(w, s.(server := server))
  {
    ReadOn(s, s.(server := server));
  }

  function Flagged(clients: map<int, Client>, fd: int): map<int, Client>
    requires fd in clients
  {
    clients[fd := clients[fd].(connected := false)]
  }

  lemma FitsNothing(w: World, s: State)
    requires Fits(w, s) && Stage?(s, Serve) && s.server.fd in s.clients
    ensures var fd := s.server.fd;
      && Fits(w.(clients := Flagged(w.clients, fd), log := w.log + [Received(fd, 0, [])]), AfterRecvEof(s))
      && Fits(w.(clients := Flagged(w.clients, fd), log := w.log + [Received(fd, -1, [])]), AfterRecvErr(s))
  {
    ReadOn(s, AfterRecvEof(s));
    ReadOn(s, AfterRecvErr(s));
  }

  lemma FitsChunk(w: World, s: State, data: Bytes)
    requires Fits(w, s) && Stage?(s, Serve)
    ensures Fits(w.(log := w.log + [Received(s.server.fd, |data|, data)]), Chunked(s, data))
  {
    ReadChunk(s, data);
  }

  lemma FitsDrop(w: World, s: State)
    requires Fits(w, s) && Stage?(s, Drop)
    ensures var fd := s.server.fd;
      Fits(w.(open := w.open - {fd}, log := w.log + [Closed(fd)], fds := w.fds - {fd}, clients := w.clients - {fd}),
           Dropped(s))
  {
    ReadOn(s, Dropped(s));
  }

  lemma FitsRefused(w: World, s: State)
    requires Fits(w, s) && Stage?(s, Accepting)
    ensures Fits(w.(log := w.log + [Accepted(s.server.fd, -1, None)]), AfterAcceptFail(s))
  {
    ReadOn(s, AfterAcceptFail(s));
  }

  lemma FitsAdmit(w: World, s: State, c: int, addr: Address)
    requires Fits(w, s) && Stage?(s, Accepting) && c !in s.clients && c !in s.gone
    ensures Fits(w.(open := w.open + {c}, log := w.log + [Accepted(s.server.fd, c, Some(addr))], fds := w.fds + {c},
                    clients := w.clients[c := Client(addr, c, true)]),
                 Admitted(s, c, addr))
  {
    ReadOn(s, Admitted(s, c, addr));
  }

  lemma FitsGone(w: World, s: State)
    requires Fits(w, s) && Stage?(s, TellGone)
    ensures var fd := s.server.fd;
      Fits(w.(mirror := w.mirror - {fd}, heard := w.heard + [Disconnect(fd)]), AfterNotifyGone(s))
  {
    ReadOn(s, AfterNotifyGone(s));
  }

  lemma FitsData(w: World, s: State, data: Bytes)
    requires Fits(w, s) && Stage?(s, TellData(data))
    ensures Fits(w.(heard := w.heard + [Data(s.server.fd, data)]), AfterNotifyData(s))
  {
    ReadOn(s, AfterNotifyData(s));
  }

  lemma FitsNew(w: World, s: State, c: int)
    requires Fits(w, s) && Stage?(s, TellNew(c))
    ensures Fits(w.(mirror := if c in w.clients then w.mirror + {c} else w.mirror, heard := w.heard + [Connect(c)]),
                 AfterNotifyNew(s))
  {
    ReadOn(s, AfterNotifyNew(s));
  }

  lemma FitsSelect(w: World, s: State, ready: set<int>, maxfd: int)
    requires Fits(w, s) && s.server.Polling?
    ensures Fits(w.(log := w.log + [Selected(ready)]), AfterSelectReady(s, ready, maxfd))
    ensures Fits(w.(log := w.log + [Selected({})]), AfterSelectIdle(s))
  {
    ReadOn(s, AfterSelectReady(s, ready, maxfd));
    ReadOn(s, AfterSelectIdle(s));
  }

  // ---------------------------------------------------------------- starting, finishing, sending

  /** The owner thread moved on without a call. */
  lemma FitsOwner(w: World, s: State, owner: OwnerPc, lock: Lock)
    requires Fits(w, s)
    ensures Fits(w, s.(owner := owner, lock := lock))
  {
    ReadOn(s, s.(owner := owner, lock := lock));
  }

  lemma FitsOpened(w: World, s: State, fd: int)
    requires Fits(w, s)
    ensures Fits(w.(open := w.open + {fd}, log := w.log + [Call.Opened(fd)], sockfd := fd), AfterOpenSocket(s, fd))
  {
    ReadOn(s, AfterOpenSocket(s, fd));
  }

  lemma FitsStarted(w: World, s: State)
    requires Fits(w, s)
    ensures Fits(w.(fds := {w.sockfd}, thread := true), s.(owner := Up, fds := {s.sockfd}, server := Top))
  {
    ReadOn(s, s.(owner := Up, fds := {s.sockfd}, server := Top));
  }

  lemma FitsStopped(w: World, s: State)
    requires Fits(w, s)
    ensures Fits(w.(stop := true), s.(owner := Joining, stop := true))
  {
    ReadOn(s, s.(owner := Joining, stop := true));
  }

  lemma FitsExit(w: World, s: State)
    requires Fits(w, s) && s.server.Top?
    ensures Fits(w, s.(server := Exited))
  {
    ReadOn(s, s.(server := Exited));
  }

  lemma FitsJoined(w: World, s: State)
    requires Fits(w, s) && !Running(s.server)
    ensures Fits(w.(thread := false), s)
  {
  }

  lemma FitsClose(w: World, s: State, fd: int, intended: int, owner: OwnerPc)
    requires Fits(w, s)
    ensures Fits(w.(open := w.open - {fd}, log := w.log + [Closed(fd)]), CloseFd(s, fd, intended).(owner := owner))
  {
    ReadOn(s, CloseFd(s, fd, intended).(owner := owner));
  }

  lemma FitsFinished(w: World, s: State)
    requires Fits(w, s) && s.owner.Closing?
    ensures var open := if w.sockfd == INVALID_SOCKET then w.open else w.open - {w.sockfd};
      var log := if w.sockfd == INVALID_SOCKET then w.log else w.log + [Closed(w.sockfd)];
      Fits(w.(open := open, log := log, sockfd := INVALID_SOCKET, clients := map[]),
           AfterClearUnlock(AfterCloseListener(s)))
  {
    var s1 := AfterCloseListener(s);
    if w.sockfd == INVALID_SOCKET {
      FitsOwner(w, s, Clearing, s.lock);
    } else {
      FitsClose(w, s, w.sockfd, s.listenGen, Clearing);
    }
    ReadOn(s1, AfterClearUnlock(s1));
  }

  lemma FitsMirrorCleared(w: World, s: State)
    requires Fits(w, s)
    ensures Fits(w.(mirror := {}), s.(mirror := {}))
  {
    ReadOn(s, s.(mirror := {}));
  }

  /** A broadcasting thread took or gave back the mutex. */
  lemma FitsSender(w: World, s: State, lock: Lock, sender: Sender)
    requires Fits(w, s)
    ensures Fits(w, s.(lock := lock, sender := sender))
  {
    ReadOn(s, s.(lock := lock, sender := sender));
  }

  lemma FitsSent(w: World, s: State, h: int, msg: Bytes, n: int)
    requires Fits(w, s) && h in s.clients && n <= |msg| && s.clients[h].sockfd != INVALID_SOCKET
    ensures Fits(w.(log := w.log + [Call.Sent(s.clients[h].sockfd, n, msg)]),
                 AfterSend(s, h, msg, n))
  {
    ReadOn(s, AfterSend(s, h, msg, n));
  }

  lemma FitsForeign(w: World, s: State, fd: int)
    requires Fits(w, s)
    ensures Fits(w.(open := w.open + {fd}), s.(os := s.os[fd := s.nextGen], nextGen := s.nextGen + 1))
  {
    ReadOn(s, s.(os := s.os[fd := s.nextGen], nextGen := s.nextGen + 1));
  }
}
