/** What holds of the calls the engine makes, over every schedule. */
module TcpSafety {
  import opened TcpEvents
  import opened TcpProtocol
  import opened TcpInvariant
  import opened TcpFrames
  import Sets

  // ---------------------------------------------------------------- every call reaches what it was meant for

  /** The client being served is the connection its entry was made for, and not a newcomer when it is read. */
  lemma ServedTarget(s: State)
    requires Inv(s) && (Stage?(s, Serve) || Stage?(s, Drop))
    ensures s.server.fd in s.clients && s.clients[s.server.fd].sockfd == s.server.fd
    ensures 0 <= OsGen(s, s.server.fd) == EntryGen(s, s.server.fd)
    ensures Stage?(s, Serve) ==> EntryGen(s, s.server.fd) !in Young(s.hist)
  {
    assert s.server.fd !in Half(s.server, s.owner, s.clients.Keys);
  }

  lemma AcceptTarget(s: State)
    requires Inv(s) && Stage?(s, Accepting)
    ensures 0 <= OsGen(s, s.server.fd) == s.listenGen
  {
  }

  lemma ReceiveOnTarget(s: State, step: Step)
    requires Inv(s) && Enabled(s, step) && OnTarget(s.hist)
    requires step.RecvErr? || step.RecvEof? || step.RecvData? || step.DropClose?
    ensures OnTarget(Apply(s, step).hist)
  {
    hide Inv;
    ServedTarget(s);
  }

  lemma AcceptOnTarget(s: State, step: Step)
    requires Inv(s) && Enabled(s, step) && OnTarget(s.hist) && (step.AcceptFail? || step.AcceptOk?)
    ensures OnTarget(Apply(s, step).hist)
  {
    hide Inv;
    AcceptTarget(s);
  }

  lemma SendTarget(s: State, h: int)
    requires Inv(s) && h in s.clients && (s.lock.Free? || s.sender.Sending?)
    ensures 0 <= OsGen(s, s.clients[h].sockfd) == s.clients[h].gen
  {
    assert h !in Half(s.server, s.owner, s.clients.Keys);
  }

  lemma SendOnTarget(s: State, step: Step)
    requires Inv(s) && Enabled(s, step) && OnTarget(s.hist) && (step.BcastSend? || step.SendTo?)
    ensures OnTarget(Apply(s, step).hist)
  {
    hide Inv;
    SendTarget(s, step.h);
  }

  lemma CloseOnTarget(s: State, step: Step)
    requires Inv(s) && Enabled(s, step) && OnTarget(s.hist) && (step.CloseClient? || step.CloseListener?)
    ensures OnTarget(Apply(s, step).hist)
  {
    if step.CloseClient? {
      assert step.h !in Half(s.server, s.owner, s.clients.Keys);
    }
  }

  lemma OnTargetStep(s: State, step: Step)
    requires Inv(s) && Enabled(s, step) && OnTarget(s.hist)
    ensures OnTarget(Apply(s, step).hist)
  {
    hide Inv, Enabled, Apply;
    LogFrame(s, step);
    if step.RecvErr? || step.RecvEof? || step.RecvData? || step.DropClose? {
      ReceiveOnTarget(s, step);
    } else if step.AcceptFail? || step.AcceptOk? {
      AcceptOnTarget(s, step);
    } else if step.BcastSend? || step.SendTo? {
      SendOnTarget(s, step);
    } else if step.CloseClient? || step.CloseListener? {
      CloseOnTarget(s, step);
    }
  }

  /** Under every interleaving, each accept is made on the listener, and each receive, send and close on an
      open descriptor behind which still is the connection the map entry was made for. */
  lemma {:induction false} EveryCallReachesItsConnection(r: Schedule)
    requires Legal(r)
    ensures OnTarget(Exec(r).hist)
  {
    match r
    case Start =>
    case Next(before, step) =>
      EveryCallReachesItsConnection(before);
      Safety(before);
      OnTargetStep(Exec(before), step);
  }

  /** The descriptor the server thread is about to look up, if readable, is unknown to the client map exactly
      when it is the listener; accept is called on the listener alone; and the number accept returned is not
      a key, so that the insertion cannot drop the new connection. */
  ghost predicate ListenerKnown(s: State) {
    && (Stage?(s, Look) && s.server.fd in s.server.ready ==>
          (s.server.fd !in s.clients <==> s.server.fd == s.sockfd))
    && (Stage?(s, Accepting) ==> s.server.fd == s.sockfd)
    && (s.server.At? && s.server.stage.Emplace? ==> s.server.stage.c !in s.clients)
  }

  lemma ListenerKnownIn(s: State)
    requires Inv(s)
    ensures ListenerKnown(s)
  {
  }

  lemma UnknownReadableIsListener(r: Schedule)
    requires Legal(r)
    ensures ListenerKnown(Exec(r))
  {
    Safety(r);
    ListenerKnownIn(Exec(r));
  }

  lemma NoYoungRecvStep(s: State, step: Step)
    requires Inv(s) && Enabled(s, step) && NoYoungRecv(s.hist)
    ensures NoYoungRecv(Apply(s, step).hist)
  {
    hide Inv;
    if step.RecvErr? || step.RecvEof? || step.RecvData? {
      ServedTarget(s);
    } else {
      hide Enabled, Apply;
      LogFrame(s, step);
    }
  }

  /** A connection accepted during a scan pass is not read before the next select, whatever numbers were
      closed and reused in between. */
  lemma {:induction false} NewcomersWaitForNextPass(r: Schedule)
    requires Legal(r)
    ensures NoYoungRecv(Exec(r).hist)
  {
    match r
    case Start =>
    case Next(before, step) =>
      NewcomersWaitForNextPass(before);
      Safety(before);
      NoYoungRecvStep(Exec(before), step);
  }

  // ---------------------------------------------------------------- the structures agree

  /** The select set is the listener and the clients, which are the open descriptors this server obtained;
      each entry is keyed by its own descriptor, and the owner's client set is the key set of the map. */
  ghost predicate Agree(s: State) {
    && s.fds == {s.sockfd} + s.clients.Keys
    && s.fds == (set fd | fd in s.os && s.os[fd] in s.owned)
    && s.mirror == s.clients.Keys
    && (forall h :: h in s.clients ==> s.clients[h].sockfd == h)
  }

  /** The server thread is between two events. */
  predicate BetweenEvents(server: ServerPc) {
    server.Top? || server.Polling? || (server.At? && server.stage.Look?)
  }

  lemma OwnedAreMonitored(s: State, fd: int)
    requires Inv(s) && BetweenEvents(s.server)
    ensures fd in s.os && s.os[fd] in s.owned <==> fd == s.sockfd || fd in s.clients
  {
    assert Half(s.server, s.owner, s.clients.Keys) == {};
  }

  lemma AgreeIn(s: State)
    requires Inv(s) && BetweenEvents(s.server)
    ensures Agree(s)
  {
    forall fd
      ensures fd in s.os && s.os[fd] in s.owned <==> fd == s.sockfd || fd in s.clients
    {
      OwnedAreMonitored(s, fd);
    }
    Sets.Same(s.fds, set fd | fd in s.os && s.os[fd] in s.owned);
  }

  lemma FourWayAgreement(r: Schedule)
    requires Legal(r) && BetweenEvents(Exec(r).server)
    ensures Agree(Exec(r))
  {
    Safety(r);
    AgreeIn(Exec(r));
  }

  // ---------------------------------------------------------------- each pass serves each ready descriptor once

  /** The read set of the last select. */
  function LastReady(h: History): set<int> {
    match h
    case Nil => {}
    case Then(past, e) => if e.Sys? && e.call.Selected? then e.call.ready else LastReady(past)
  }

  /** The descriptors read or accepted on since the last select, in order. */
  function Turns(h: History): seq<int> {
    match h
    case Nil => []
    case Then(past, e) =>
      if !e.Sys? then Turns(past)
      else match e.call
        case Selected(_) => []
        case Received(fd, _, _) => Turns(past) + [fd]
        case Accepted(listener, _, _) => Turns(past) + [listener]
        case _ => Turns(past)
  }

  predicate Ascending(t: seq<int>) { forall i, j :: 0 <= i < j < |t| ==> t[i] < t[j] }

  /** The turns taken serve the read set: each member once, smallest first. */
  ghost predicate ServesAll(ready: set<int>, turns: seq<int>) {
    Ascending(turns) && (forall x :: x in turns <==> x in ready)
  }

  /** Whenever select is called again, the turns since the previous call served its whole read set. */
  ghost predicate PassesComplete(h: History) {
    match h
    case Nil => true
    case Then(past, e) =>
      && PassesComplete(past)
      && (e.Sys? && e.call.Selected? ==> ServesAll(LastReady(past), Turns(past)))
  }

  /** Whether the current descriptor of the pass has had its turn. */
  predicate Turned(stage: Stage) { !stage.Look? && !stage.Serve? && !stage.Accepting? }

  /** The turns taken so far in the pass are those of the ready descriptors up to the current one. */
  ghost predicate PassSoFar(server: ServerPc, last: set<int>, turns: seq<int>) {
    match server
    case At(ready, maxfd, fd, stage) =>
      && last == ready
      && Ascending(turns)
      && (forall x :: x in ready ==> 0 <= x)
      && (forall x :: x in turns <==> x in ready && (x < fd || (x == fd && Turned(stage))))
      && (!stage.Look? ==> fd in ready)
    case Exited => true
    case Off => last == {} && turns == []
    case _ => ServesAll(last, turns)
  }

  ghost predicate PassOk(s: State) { PassSoFar(s.server, LastReady(s.hist), Turns(s.hist)) }

  lemma TakeTurn(t: seq<int>, fd: int)
    requires Ascending(t) && forall x :: x in t ==> x < fd
    ensures Ascending(t + [fd])
    ensures forall x :: x in t + [fd] <==> x in t || x == fd
  {
    assert forall k :: 0 <= k < |t| ==> t[k] in t;
  }

  lemma SelectBeginsPass(s: State, ready: set<int>, maxfd: int)
    requires Inv(s) && s.server.Polling? && ready <= s.fds
    ensures PassOk(AfterSelectReady(s, ready, maxfd))
  {
  }

  predicate TakesTurn(step: Step) {
    step.RecvErr? || step.RecvEof? || step.RecvData? || step.AcceptFail? || step.AcceptOk?
  }

  /** What a step that takes a turn does to the server thread. */
  predicate Turning(server: ServerPc, server': ServerPc) {
    && server.At? && !Turned(server.stage) && !server.stage.Look? && server'.At?
    && server'.ready == server.ready
    && ((server'.fd == server.fd && Turned(server'.stage)) || (server'.fd == server.fd + 1 && server'.stage.Look?))
  }

  lemma TurnTaken(server: ServerPc, server': ServerPc, last: set<int>, turns: seq<int>)
    requires Turning(server, server') && PassSoFar(server, last, turns)
    ensures PassSoFar(server', last, turns + [server.fd])
  {
    TakeTurn(turns, server.fd);
  }

  lemma TurnStep(s: State, step: Step)
    requires Enabled(s, step) && TakesTurn(step)
    ensures var s' := Apply(s, step);
      && Turning(s.server, s'.server)
      && LastReady(s'.hist) == LastReady(s.hist) && Turns(s'.hist) == Turns(s.hist) + [s.server.fd]
  {
    hide Enabled, Apply, Turning;
    if Receiving(step) {
      ReadingTurns(s, step);
    } else {
      AcceptingTurns(s, step);
    }
  }

  lemma ReadingTurns(s: State, step: Step)
    requires Enabled(s, step) && Receiving(step)
    ensures var s' := Apply(s, step);
      && Turning(s.server, s'.server)
      && LastReady(s'.hist) == LastReady(s.hist) && Turns(s'.hist) == Turns(s.hist) + [s.server.fd]
  {
  }

  lemma AcceptingTurns(s: State, step: Step)
    requires Enabled(s, step) && (step.AcceptFail? || step.AcceptOk?)
    ensures var s' := Apply(s, step);
      && Turning(s.server, s'.server)
      && LastReady(s'.hist) == LastReady(s.hist) && Turns(s'.hist) == Turns(s.hist) + [s.server.fd]
  {
  }

  /** What a step that takes no turn does to the server thread. */
  predicate Resting(server: ServerPc, server': ServerPc) {
    || server' == server
    || server'.Exited?
    || ((server.Top? || server.Polling?) && (server'.Top? || server'.Polling?))
    || (server.At? && server.stage.Look? && server.fd >= server.maxfd && server'.Top?)
    || (server.At? && server'.At? && server'.ready == server.ready && server.fd == server'.fd
        && Turned(server.stage) == Turned(server'.stage) && (server.stage.Look? ==> server.fd in server.ready))
    || (server.At? && server'.At? && server'.ready == server.ready && server'.fd == server.fd + 1
        && server'.stage.Look? && (Turned(server.stage) || server.fd !in server.ready))
  }

  lemma Rested(server: ServerPc, server': ServerPc, last: set<int>, turns: seq<int>)
    requires Resting(server, server') && PassSoFar(server, last, turns)
    requires server.At? ==> forall x :: x in server.ready ==> x < server.maxfd
    ensures PassSoFar(server', last, turns)
  {
  }

  lemma OthersRest(s: State, step: Step)
    requires Inv(s) && Enabled(s, step) && PassOk(s) && !ByServer(step)
    ensures PassOk(Apply(s, step))
  {
    hide Enabled, Apply, Inv;
    if ByOwner(step) {
      OwnerRests(s, step);
    } else if BySender(step) {
      SenderFrame(s, step);
    } else {
      OutsideFrame(s, step);
    }
  }

  lemma OwnerRests(s: State, step: Step)
    requires Inv(s) && Enabled(s, step) && PassOk(s) && ByOwner(step)
    ensures PassOk(Apply(s, step))
  {
    OwnerFrame(s, step);
  }

  /** The steps of the server thread that serve a descriptor without reading or accepting on it. */
  predicate Tending(step: Step) {
    step.DropClose? || step.DropClear? || step.DropEntry? || step.EmplaceEntry? || step.ArmFd? || Telling(step)
  }

  lemma TendingRests(s: State, step: Step)
    requires Enabled(s, step) && Tending(step)
    ensures Resting(s.server, Apply(s, step).server)
  {
    hide Enabled, Apply, Resting;
    if Telling(step) {
      TellingRests(s, step);
    } else {
      EnteringRests(s, step);
    }
  }

  lemma TellingRests(s: State, step: Step)
    requires Enabled(s, step) && Telling(step)
    ensures Resting(s.server, Apply(s, step).server)
  {
  }

  lemma EnteringRests(s: State, step: Step)
    requires Enabled(s, step) && Tending(step) && !Telling(step)
    ensures Resting(s.server, Apply(s, step).server)
  {
  }

  lemma WalkingRests(s: State, step: Step)
    requires Enabled(s, step) && (step.Quit? || step.Enter? || step.EndPass? || step.Skip? || step.Lookup?)
    ensures Resting(s.server, Apply(s, step).server)
  {
  }

  lemma ServerRests(s: State, step: Step)
    requires Enabled(s, step) && ByServer(step)
    requires !TakesTurn(step) && !step.SelectReady? && !step.SelectIdle?
    ensures var s' := Apply(s, step);
      && Resting(s.server, s'.server)
      && LastReady(s'.hist) == LastReady(s.hist) && Turns(s'.hist) == Turns(s.hist)
  {
    hide Enabled, Apply, Resting;
    LogFrame(s, step);
    if Tending(step) {
      TendingRests(s, step);
    } else {
      WalkingRests(s, step);
    }
  }

  lemma CompleteStep(s: State, step: Step)
    requires Enabled(s, step) && PassesComplete(s.hist) && PassOk(s)
    ensures PassesComplete(Apply(s, step).hist)
  {
    hide Apply, ServesAll;
    LogFrame(s, step);
  }

  lemma ScanBounded(s: State)
    requires Inv(s)
    ensures s.server.At? ==> forall x :: x in s.server.ready ==> x < s.server.maxfd
  {
  }

  lemma SelectPasses(s: State, step: Step)
    requires Inv(s) && Enabled(s, step) && PassOk(s) && Selecting(step)
    ensures PassOk(Apply(s, step))
  {
    if step.SelectReady? {
      SelectBeginsPass(s, step.ready, step.maxfd);
    }
  }

  lemma PassStep(s: State, step: Step)
    requires Inv(s) && Enabled(s, step) && PassOk(s)
    ensures PassOk(Apply(s, step))
  {
    hide Inv, Enabled, Apply, PassSoFar, Turning, Resting;
    if Selecting(step) {
      SelectPasses(s, step);
    } else if TakesTurn(step) {
      TurnStep(s, step);
      TurnTaken(s.server, Apply(s, step).server, LastReady(s.hist), Turns(s.hist));
    } else if ByServer(step) {
      ServerRests(s, step);
      ScanBounded(s);
      Rested(s.server, Apply(s, step).server, LastReady(s.hist), Turns(s.hist));
    } else {
      OthersRest(s, step);
    }
  }

  /** In every pass each ready descriptor is served exactly once, in ascending order, none is skipped. */
  lemma {:induction false} EveryReadyDescriptorServedOnce(r: Schedule)
    requires Legal(r)
    ensures PassesComplete(Exec(r).hist) && PassOk(Exec(r))
  {
    match r
    case Start =>
    case Next(before, step) =>
      EveryReadyDescriptorServedOnce(before);
      Safety(before);
      CompleteStep(Exec(before), step);
      PassStep(Exec(before), step);
  }
}
