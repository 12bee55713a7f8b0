/** The invariant of the step system: what every step keeps, whichever thread takes it. Each part names
    only the components of the state it is about. */
module TcpInvariant {
  import opened TcpEvents
  import opened TcpProtocol

  predicate InDrop(server: ServerPc) { server.At? && (server.stage.DropClr? || server.stage.DropErase?) }

  /** Handles still in the map whose descriptor is already closed; only inside a critical section. */
  function Half(server: ServerPc, owner: OwnerPc, keys: set<int>): set<int> {
    if owner.Closing? then keys - owner.left
    else if owner.Clearing? then keys
    else if InDrop(server) then {server.fd}
    else {}
  }

  /** A connection accepted but not yet in the map. */
  function Pending(server: ServerPc): set<int> {
    if server.At? && server.stage.Emplace? then {server.stage.c} else {}
  }

  function ListenFd(owner: OwnerPc, sockfd: int): set<int> {
    if sockfd == INVALID_SOCKET || owner.Clearing? then {} else {sockfd}
  }

  function Keys(clients: map<int, Entry>): set<int> { clients.Keys }

  predicate Locks(lock: Lock, server: ServerPc, owner: OwnerPc, sender: Sender) {
    && (lock.ServerHolds? <==> InDrop(server))
    && (lock.SenderHolds? <==> sender.Sending?)
    && (lock.OwnerHolds? <==> owner.Closing? || owner.Clearing?)
    && (Running(server) ==> owner.Up? || owner.Joining?)
    && (owner.Fresh? || owner.Created? ==> server.Off?)
  }

  predicate Phases(server: ServerPc, owner: OwnerPc, sockfd: int, stop: bool, keys: set<int>, mirror: set<int>) {
    && (owner.Fresh? ==> sockfd == INVALID_SOCKET)
    && (owner.Created? || Running(server) ==> sockfd != INVALID_SOCKET)
    && (server.Off? ==> keys == {} && mirror == {})
    && (owner.Joining? || owner.Closing? || owner.Clearing? || owner.Finished? ==> stop)
    && (owner.Finished? ==> sockfd == INVALID_SOCKET && keys == {})
    && (owner.Closing? ==> owner.left <= keys)
  }

  predicate Sends(sender: Sender, keys: set<int>) {
    sender.Sending? ==>
      && sender.left <= keys
      && (sender.failed.Some? ==> sender.failed.value in keys && sender.failed.value !in sender.left)
  }

  /** The descriptor table: one generation per open descriptor, none handed out twice. */
  ghost predicate Table(os: map<int, int>, nextGen: int, owned: set<int>) {
    && 0 <= nextGen
    && (forall fd :: fd in os ==> 0 <= fd && 0 <= os[fd] < nextGen)
    && (forall a, b :: a in os && b in os && os[a] == os[b] ==> a == b)
    && (forall g :: g in owned ==> 0 <= g < nextGen)
  }

  /** Every map entry is keyed by its descriptor and holds the connection behind it. */
  ghost predicate Entries(os: map<int, int>, owned: set<int>, clients: map<int, Entry>, half: set<int>) {
    forall h :: h in clients ==>
      && clients[h].sockfd == h
      && 0 <= h
      && clients[h].gen in owned
      && (h !in half ==> h in os && os[h] == clients[h].gen)
  }

  predicate Listener(os: map<int, int>, owned: set<int>, keys: set<int>, owner: OwnerPc, sockfd: int, listenGen: int) {
    sockfd != INVALID_SOCKET ==>
      && 0 <= sockfd
      && sockfd !in keys
      && (!owner.Clearing? ==> sockfd in os && os[sockfd] == listenGen && listenGen in owned)
  }

  predicate Newcomer(os: map<int, int>, owned: set<int>, keys: set<int>, server: ServerPc, sockfd: int) {
    server.At? && server.stage.Emplace? ==>
      var c := server.stage.c;
      c in os && os[c] == server.stage.gen && os[c] in owned && c !in keys && c != sockfd
  }

  /** Every open descriptor this server obtained is the listener, a client, or about to become one. */
  ghost predicate Accounted(os: map<int, int>, owned: set<int>, live: set<int>) {
    forall fd :: fd in os && os[fd] in owned ==> fd in live
  }

  function Live(s: State): set<int> {
    ListenFd(s.owner, s.sockfd) + (s.clients.Keys - Half(s.server, s.owner, s.clients.Keys)) + Pending(s.server)
  }

  function Unarmed(server: ServerPc): set<int> {
    if server.At? && server.stage.Arm? then {server.stage.c}
    else if server.At? && server.stage.DropErase? then {server.fd}
    else {}
  }

  function Untold(server: ServerPc): set<int> {
    if server.At? && server.stage.Arm? then {server.stage.c}
    else if server.At? && server.stage.TellNew? then {server.stage.c}
    else {}
  }

  function Lingering(server: ServerPc): set<int> {
    if server.At? && server.stage.TellGone? then {server.fd} else {}
  }

  /** The select set and the owner's client set follow the map, except between two statements of the server thread. */
  predicate Mirrors(server: ServerPc, sockfd: int, keys: set<int>, fds: set<int>, mirror: set<int>) {
    Running(server) ==>
      && fds == {sockfd} + (keys - Unarmed(server))
      && mirror == (keys - Untold(server)) + Lingering(server)
  }

  /** What is left of the read set is the listener or a client that was there when the pass began. */
  ghost predicate Unvisited(server: ServerPc, sockfd: int, clients: map<int, Entry>, young: set<int>) {
    server.At? ==>
      && 0 <= server.fd
      && (forall x :: x in server.ready ==> x < server.maxfd)
      && (forall x :: x in server.ready && (server.fd < x || (server.fd == x && server.stage.Look?)) ==>
            x == sockfd || (x in clients && clients[x].gen !in young))
  }

  /** What the server thread knows at each stage. */
  predicate Stages(server: ServerPc, sockfd: int, clients: map<int, Entry>, young: set<int>) {
    server.At? ==>
      match server.stage
      case Look => true
      case Serve => server.fd in clients && clients[server.fd].gen !in young
      case Drop => server.fd in clients
      case DropClr => server.fd in clients
      case DropErase => server.fd in clients
      case TellGone => server.fd !in clients && server.fd != sockfd
      case TellData(data) => server.fd in clients && 1 <= |data| <= MAX_PACKET_SIZE
      case Accepting => server.fd == sockfd
      case Emplace(c, addr, gen) => gen in young
      case Arm(c) => c in clients && c != sockfd && clients[c].gen in young
      case TellNew(c) => c in clients
  }

  ghost predicate Inv(s: State) {
    && Locks(s.lock, s.server, s.owner, s.sender)
    && Phases(s.server, s.owner, s.sockfd, s.stop, s.clients.Keys, s.mirror)
    && Sends(s.sender, s.clients.Keys)
    && s.gone <= s.clients.Keys
    && Table(s.os, s.nextGen, s.owned)
    && Entries(s.os, s.owned, s.clients, Half(s.server, s.owner, s.clients.Keys))
    && Listener(s.os, s.owned, s.clients.Keys, s.owner, s.sockfd, s.listenGen)
    && Newcomer(s.os, s.owned, s.clients.Keys, s.server, s.sockfd)
    && Accounted(s.os, s.owned, Live(s))
    && Mirrors(s.server, s.sockfd, s.clients.Keys, s.fds, s.mirror)
    && Unvisited(s.server, s.sockfd, s.clients, Young(s.hist))
    && Stages(s.server, s.sockfd, s.clients, Young(s.hist))
  }

  // ---------------------------------------------------------------- the descriptor table grows and shrinks

  lemma TableOpen(os: map<int, int>, n: int, owned: set<int>, fd: int, more: set<int>)
    requires Table(os, n, owned) && 0 <= fd && fd !in os && more <= {n}
    ensures Table(os[fd := n], n + 1, owned + more)
  {
  }

  lemma EntriesOpen(os: map<int, int>, n: int, owned: set<int>, clients: map<int, Entry>, half: set<int>,
                    fd: int, more: set<int>)
    requires Entries(os, owned, clients, half) && fd !in os
    ensures Entries(os[fd := n], owned + more, clients, half)
  {
  }

  lemma TableClose(os: map<int, int>, n: int, owned: set<int>, fd: int)
    requires Table(os, n, owned)
    ensures Table(os - {fd}, n, owned)
  {
  }

  lemma EntriesClose(os: map<int, int>, owned: set<int>, clients: map<int, Entry>, half: set<int>, fd: int)
    requires Entries(os, owned, clients, half)
    ensures Entries(os - {fd}, owned, clients, half + {fd})
  {
  }

  // ---------------------------------------------------------------- the thread that starts and finishes the server

  lemma OpenSocketKeeps(s: State, fd: int)
    requires Inv(s) && s.owner.Fresh? && 0 <= fd && fd !in s.os
    ensures Inv(AfterOpenSocket(s, fd))
  {
    TableOpen(s.os, s.nextGen, s.owned, fd, {s.nextGen});
  }

  lemma CloseClientKeeps(s: State, h: int)
    requires Inv(s) && s.owner.Closing? && h in s.owner.left && h in s.clients
    ensures Inv(AfterCloseClient(s, h))
  {
    var s' := AfterCloseClient(s, h);
    TableClose(s.os, s.nextGen, s.owned, h);
    EntriesClose(s.os, s.owned, s.clients, s.clients.Keys - s.owner.left, h);
    assert s.clients.Keys - s'.owner.left == s.clients.Keys - s.owner.left + {h};
    assert Live(s') == Live(s) - {h};
  }

  lemma CloseListenerKeeps(s: State)
    requires Inv(s) && s.owner.Closing? && s.owner.left == {}
    ensures Inv(AfterCloseListener(s))
  {
    TableClose(s.os, s.nextGen, s.owned, s.sockfd);
  }

  lemma ClearUnlockKeeps(s: State)
    requires Inv(s) && s.owner.Clearing?
    ensures Inv(AfterClearUnlock(s))
  {
  }

  // ---------------------------------------------------------------- the server thread

  lemma SelectReadyKeeps(s: State, ready: set<int>, maxfd: int)
    requires Inv(s) && s.server.Polling? && ready <= s.fds && IsMaxFd(s, maxfd)
    ensures Inv(AfterSelectReady(s, ready, maxfd))
  {
  }

  lemma LookupKeeps(s: State)
    requires Inv(s) && Stage?(s, Look) && s.server.fd in s.server.ready && s.lock.Free?
    ensures Inv(Goto(s, if s.server.fd in s.clients then Serve else Accepting))
  {
  }

  lemma RecvErrKeeps(s: State)
    requires Inv(s) && Stage?(s, Serve)
    ensures Inv(AfterRecvErr(s))
  {
  }

  lemma RecvEofKeeps(s: State)
    requires Inv(s) && Stage?(s, Serve)
    ensures Inv(AfterRecvEof(s))
  {
  }

  lemma RecvDataKeeps(s: State, n: int)
    requires Inv(s) && Stage?(s, Serve) && s.server.fd in s.os
    requires 1 <= n <= MAX_PACKET_SIZE && n <= |Unread(s, s.os[s.server.fd])|
    ensures Inv(AfterRecvData(s, n))
  {
  }

  lemma DropCloseKeeps(s: State)
    requires Inv(s) && Stage?(s, Drop) && s.lock.Free?
    ensures Inv(AfterDropClose(s))
  {
    hide Locks, Phases, Sends, Table, Entries, Listener, Newcomer, Accounted, Mirrors, Unvisited, Stages;
    DropCloseOs(s);
    DropCloseThread(s);
  }

  lemma DropCloseOs(s: State)
    requires Inv(s) && Stage?(s, Drop) && s.lock.Free?
    ensures var s' := AfterDropClose(s);
      && Table(s'.os, s'.nextGen, s'.owned)
      && Entries(s'.os, s'.owned, s'.clients, Half(s'.server, s'.owner, s'.clients.Keys))
      && Listener(s'.os, s'.owned, s'.clients.Keys, s'.owner, s'.sockfd, s'.listenGen)
      && Accounted(s'.os, s'.owned, Live(s'))
  {
    hide Mirrors, Unvisited, Sends;
    var s' := AfterDropClose(s);
    TableClose(s.os, s.nextGen, s.owned, s.server.fd);
    EntriesClose(s.os, s.owned, s.clients, {}, s.server.fd);
    assert {} + {s.server.fd} == {s.server.fd};
    assert Live(s') == Live(s) - {s.server.fd};
  }

  lemma DropCloseThread(s: State)
    requires Inv(s) && Stage?(s, Drop) && s.lock.Free?
    ensures var s' := AfterDropClose(s);
      && Locks(s'.lock, s'.server, s'.owner, s'.sender)
      && Phases(s'.server, s'.owner, s'.sockfd, s'.stop, s'.clients.Keys, s'.mirror)
      && Sends(s'.sender, s'.clients.Keys) && s'.gone <= s'.clients.Keys
      && Newcomer(s'.os, s'.owned, s'.clients.Keys, s'.server, s'.sockfd)
      && Mirrors(s'.server, s'.sockfd, s'.clients.Keys, s'.fds, s'.mirror)
      && Unvisited(s'.server, s'.sockfd, s'.clients, Young(s'.hist))
      && Stages(s'.server, s'.sockfd, s'.clients, Young(s'.hist))
  {
    hide Table, Entries, Listener, Accounted;
  }

  lemma DropClearKeeps(s: State)
    requires Inv(s) && Stage?(s, DropClr)
    ensures Inv(AfterDropClear(s))
  {
  }

  lemma DropEntryKeeps(s: State)
    requires Inv(s) && Stage?(s, DropErase)
    ensures Inv(AfterDropEntry(s))
  {
    var s' := AfterDropEntry(s);
    assert s'.clients.Keys == s.clients.Keys - {s.server.fd};
    assert Live(s') == Live(s);
  }

  lemma NotifyGoneKeeps(s: State)
    requires Inv(s) && Stage?(s, TellGone)
    ensures Inv(AfterNotifyGone(s))
  {
  }

  lemma NotifyDataKeeps(s: State)
    requires Inv(s) && s.server.At? && s.server.stage.TellData?
    ensures Inv(AfterNotifyData(s))
  {
  }

  lemma AcceptFailKeeps(s: State)
    requires Inv(s) && Stage?(s, Accepting)
    ensures Inv(AfterAcceptFail(s))
  {
  }

  lemma AcceptOkKeeps(s: State, fd: int, addr: Address)
    requires Inv(s) && Stage?(s, Accepting) && 0 <= fd && fd !in s.os
    ensures Inv(AfterAcceptOk(s, fd, addr))
  {
    var s' := AfterAcceptOk(s, fd, addr);
    var half := Half(s.server, s.owner, s.clients.Keys);
    TableOpen(s.os, s.nextGen, s.owned, fd, {s.nextGen});
    EntriesOpen(s.os, s.nextGen, s.owned, s.clients, half, fd, {s.nextGen});
    assert half == Half(s'.server, s'.owner, s'.clients.Keys);
    assert Live(s') == Live(s) + {fd};
  }

  lemma EmplaceKeeps(s: State)
    requires Inv(s) && s.server.At? && s.server.stage.Emplace? && s.lock.Free?
    ensures Inv(AfterEmplace(s))
  {
    var s' := AfterEmplace(s);
    var c := s.server.stage.c;
    assert s'.clients.Keys == s.clients.Keys + {c};
    assert s'.clients.Keys - {c} == s.clients.Keys;
    assert Live(s') == Live(s);
  }

  lemma ArmKeeps(s: State)
    requires Inv(s) && s.server.At? && s.server.stage.Arm?
    ensures Inv(AfterArm(s))
  {
  }

  lemma NotifyNewKeeps(s: State)
    requires Inv(s) && s.server.At? && s.server.stage.TellNew?
    ensures Inv(AfterNotifyNew(s))
  {
    var c := s.server.stage.c;
    assert s.clients.Keys - {c} + {c} == s.clients.Keys;
  }

  // ---------------------------------------------------------------- broadcasting threads and the rest of the process

  lemma SendKeeps(s: State, h: int, msg: Bytes, n: int)
    requires Inv(s) && h in s.clients && n <= |msg|
    ensures Inv(AfterSend(s, h, msg, n))
  {
  }

  lemma BcastSendKeeps(s: State, h: int, n: int)
    requires Inv(s) && s.sender.Sending? && s.sender.failed.None? && h in s.sender.left && h in s.clients
    requires n <= |s.sender.msg|
    ensures Inv(AfterBcastSend(s, h, n))
  {
  }

  lemma ForeignOpenKeeps(s: State, fd: int)
    requires Inv(s) && 0 <= fd && fd !in s.os
    ensures Inv(s.(os := s.os[fd := s.nextGen], nextGen := s.nextGen + 1))
  {
    TableOpen(s.os, s.nextGen, s.owned, fd, {});
    EntriesOpen(s.os, s.nextGen, s.owned, s.clients, Half(s.server, s.owner, s.clients.Keys), fd, {});
    assert s.owned + {} == s.owned;
  }

  lemma ForeignCloseKeeps(s: State, fd: int)
    requires Inv(s) && fd in s.os && s.os[fd] !in s.owned
    ensures Inv(s.(os := s.os - {fd}))
  {
    TableClose(s.os, s.nextGen, s.owned, fd);
  }

  lemma OwnerKeepsInv(s: State, step: Step)
    requires Inv(s) && Enabled(s, step) && ByOwner(step)
    ensures Inv(Apply(s, step))
  {
    hide Inv, Enabled, Apply;
    if step.CloseClient? || step.CloseListener? || step.ClearUnlock? {
      ClosingKeepsInv(s, step);
    } else if step.OpenSocket? {
      OpeningKeepsInv(s, step);
    } else {
      OwnerMovesKeepInv(s, step);
    }
  }

  lemma ClosingKeepsInv(s: State, step: Step)
    requires Inv(s) && Enabled(s, step) && (step.CloseClient? || step.CloseListener? || step.ClearUnlock?)
    ensures Inv(Apply(s, step))
  {
    hide Inv;
    match step
    case CloseClient(h) => CloseClientKeeps(s, h);
    case CloseListener => CloseListenerKeeps(s);
    case ClearUnlock => ClearUnlockKeeps(s);
  }

  lemma OpeningKeepsInv(s: State, step: Step)
    requires Inv(s) && Enabled(s, step) && step.OpenSocket?
    ensures Inv(Apply(s, step))
  {
    OpenSocketKeeps(s, step.fd);
  }

  lemma OwnerMovesKeepInv(s: State, step: Step)
    requires Inv(s) && Enabled(s, step)
    requires step.OpenFail? || step.SetupFail? || step.SetupDone? || step.Stop? || step.JoinLock? || step.ClearMirror?
    ensures Inv(Apply(s, step))
  {
  }

  predicate Quiet(step: Step) {
    step.Quit? || step.Enter? || step.SelectIdle? || step.EndPass? || step.Skip?
  }

  lemma QuietKeepsInv(s: State, step: Step)
    requires Inv(s) && Enabled(s, step) && Quiet(step)
    ensures Inv(Apply(s, step))
  {
  }

  lemma ServerKeepsInv(s: State, step: Step)
    requires Inv(s) && Enabled(s, step) && ByServer(step) && !Quiet(step)
    ensures Inv(Apply(s, step))
  {
    hide Inv;
    match step
    case SelectReady(ready, maxfd) => SelectReadyKeeps(s, ready, maxfd);
    case Lookup => LookupKeeps(s);
    case RecvErr => RecvErrKeeps(s);
    case RecvEof => RecvEofKeeps(s);
    case RecvData(n) => RecvDataKeeps(s, n);
    case DropClose => DropCloseKeeps(s);
    case DropClear => DropClearKeeps(s);
    case DropEntry => DropEntryKeeps(s);
    case NotifyGone => NotifyGoneKeeps(s);
    case NotifyData => NotifyDataKeeps(s);
    case AcceptFail => AcceptFailKeeps(s);
    case AcceptOk(fd, addr) => AcceptOkKeeps(s, fd, addr);
    case EmplaceEntry => EmplaceKeeps(s);
    case ArmFd => ArmKeeps(s);
    case NotifyNew => NotifyNewKeeps(s);
  }

  lemma SenderKeepsInv(s: State, step: Step)
    requires Inv(s) && Enabled(s, step) && BySender(step)
    ensures Inv(Apply(s, step))
  {
    match step
    case BcastBegin(msg) =>
    case BcastSend(h, n) => BcastSendKeeps(s, h, n);
    case BcastEnd =>
    case SendTo(h, msg, n) => SendKeeps(s, h, msg, n);
  }

  lemma OutsideKeepsInv(s: State, step: Step)
    requires Inv(s) && Enabled(s, step) && Outside(step)
    ensures Inv(Apply(s, step))
  {
    match step
    case ForeignOpen(fd) => ForeignOpenKeeps(s, fd);
    case ForeignClose(fd) => ForeignCloseKeeps(s, fd);
    case PeerSend(g, data) =>
  }

  /** Every step of every thread keeps the invariant. */
  lemma StepKeepsInv(s: State, step: Step)
    requires Inv(s) && Enabled(s, step)
    ensures Inv(Apply(s, step))
  {
    if Quiet(step) {
      QuietKeepsInv(s, step);
    } else if ByServer(step) {
      ServerKeepsInv(s, step);
    } else if ByOwner(step) {
      OwnerKeepsInv(s, step);
    } else if BySender(step) {
      SenderKeepsInv(s, step);
    } else {
      OutsideKeepsInv(s, step);
    }
  }

  /** Every state of every schedule satisfies the invariant. */
  lemma {:induction false} Safety(r: Schedule)
    requires Legal(r)
    ensures Inv(Exec(r))
  {
    match r
    case Start =>
    case Next(before, step) =>
      Safety(before);
      StepKeepsInv(Exec(before), step);
  }
}
