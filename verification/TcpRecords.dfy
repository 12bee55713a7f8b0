/** What the server's records say of its connections: the addresses, the connected flags, which handles are
    clients, and whom the callbacks are about. */
module TcpRecords {
  import opened Options
  import opened TcpEvents
  import opened TcpProtocol
  import opened TcpInvariant
  import opened TcpFrames
  import opened TcpSafety

  // ---------------------------------------------------------------- what the history says of a connection

  /** The address accept reported for connection g. */
  function AddressOf(h: History, g: int): Option<Address> {
    match h
    case Nil => None
    case Then(past, e) =>
      if e.Sys? && e.call.Accepted? && e.call.fd != INVALID_SOCKET && e.born == g then e.call.from
      else AddressOf(past, g)
  }

  /** The connection accepted last on descriptor number fd. */
  function LatestOn(h: History, fd: int): int {
    match h
    case Nil => -1
    case Then(past, e) =>
      if e.Sys? && e.call.Accepted? && e.call.fd != INVALID_SOCKET && e.call.fd == fd then e.born
      else LatestOn(past, fd)
  }

  /** A receive on connection g returned less than one byte. */
  predicate CameToNothing(h: History, g: int) {
    match h
    case Nil => false
    case Then(past, e) =>
      CameToNothing(past, g) || (e.Sys? && e.call.Received? && e.target == g && e.call.n < 1)
  }

  /** A receive on connection g returned 0: the peer hung up. */
  predicate HungUp(h: History, g: int) {
    match h
    case Nil => false
    case Then(past, e) =>
      HungUp(past, g) || (e.Sys? && e.call.Received? && e.target == g && e.call.n == 0)
  }

  /** Every callback is about the connection accepted last on its handle, and a Disconnect only comes once that
      one has hung up. */
  predicate HandlesMean(h: History) {
    match h
    case Nil => true
    case Then(past, e) =>
      && HandlesMean(past)
      && (e.Cb? && !e.cb.Disconnect? ==> e.gen == LatestOn(past, e.cb.handle))
      && (e.Cb? && e.cb.Disconnect? ==> HungUp(past, LatestOn(past, e.cb.handle)))
  }

  // ---------------------------------------------------------------- the records

  /** The client with handle h is being dropped. */
  predicate Dropping(server: ServerPc, h: int) {
    server.At? && server.fd == h && (server.stage.Drop? || server.stage.DropClr? || server.stage.DropErase?)
  }

  /** The entry of h is true to the history. */
  predicate EntryTrue(hist: History, h: int, e: Entry, gone: set<int>, server: ServerPc) {
    && AddressOf(hist, e.gen) == Some(e.addr)
    && LatestOn(hist, h) == e.gen
    && (h in gone <==> CameToNothing(hist, e.gen))
    && (HungUp(hist, e.gen) <==> Dropping(server, h))
  }

  ghost predicate HasEntry(clients: map<int, Entry>, g: int) { exists h :: h in clients && clients[h].gen == g }

  predicate AboutToEnter(server: ServerPc, g: int) {
    server.At? && server.stage.Emplace? && server.stage.gen == g
  }

  /** What the server thread knows of the connection it is dealing with. */
  predicate DealingTrue(hist: History, server: ServerPc) {
    server.At? ==>
      && (server.stage.Emplace? ==>
            && AddressOf(hist, server.stage.gen) == Some(server.stage.addr)
            && LatestOn(hist, server.stage.c) == server.stage.gen
            && !CameToNothing(hist, server.stage.gen) && !HungUp(hist, server.stage.gen))
      && (server.stage.TellGone? ==> HungUp(hist, LatestOn(hist, server.fd)))
  }

  /** Nothing is known of connections to come. */
  ghost predicate FutureBlank(hist: History, nextGen: int) {
    forall g :: g >= nextGen ==> AddressOf(hist, g) == None && !CameToNothing(hist, g) && !HungUp(hist, g)
  }

  /** Until the server thread has ended, every connection accepted is a client, or about to be, or hung up. */
  ghost predicate NoneLost(hist: History, clients: map<int, Entry>, server: ServerPc) {
    !server.Exited? ==>
      forall g :: AddressOf(hist, g).Some? ==> HasEntry(clients, g) || AboutToEnter(server, g) || HungUp(hist, g)
  }

  ghost predicate Records(s: State) {
    && (forall h :: h in s.clients ==> EntryTrue(s.hist, h, s.clients[h], s.gone, s.server))
    && DealingTrue(s.hist, s.server)
    && FutureBlank(s.hist, s.nextGen)
    && NoneLost(s.hist, s.clients, s.server)
    && HandlesMean(s.hist)
  }

  // ---------------------------------------------------------------- steps that add nothing to the records

  /** An event other than an accept, a receive or a callback. */
  predicate Neutral(e: Event) { e.Sys? && !e.call.Accepted? && !e.call.Received? }

  /** The server thread stands where it stood, as far as the records are concerned. */
  ghost predicate SameDealing(server: ServerPc, server': ServerPc) {
    && (forall h :: Dropping(server, h) <==> Dropping(server', h))
    && (server'.At? && server'.stage.Emplace? ==> server.At? && server.stage == server'.stage)
    && (server.At? && server.stage.Emplace? ==> server'.At? && server'.stage == server.stage)
    && (server'.At? && server'.stage.TellGone? ==>
          server.At? && server.stage.TellGone? && server'.fd == server.fd)
    && (server.Exited? ==> server'.Exited?)
  }

  lemma QuietRecords(s: State, s': State)
    requires Records(s)
    requires s'.hist == s.hist || (s'.hist.Then? && s'.hist.past == s.hist && Neutral(s'.hist.last))
    requires s'.clients == s.clients && s'.gone == s.gone && s'.nextGen >= s.nextGen && SameDealing(s.server, s'.server)
    ensures Records(s')
  {
    assert forall g :: AddressOf(s'.hist, g) == AddressOf(s.hist, g);
    assert forall fd :: LatestOn(s'.hist, fd) == LatestOn(s.hist, fd);
    assert forall g :: CameToNothing(s'.hist, g) == CameToNothing(s.hist, g);
    assert forall g :: HungUp(s'.hist, g) == HungUp(s.hist, g);
    forall h | h in s'.clients
      ensures EntryTrue(s'.hist, h, s'.clients[h], s'.gone, s'.server)
    {
      assert EntryTrue(s.hist, h, s.clients[h], s.gone, s.server);
    }
    forall g | !s'.server.Exited? && AddressOf(s'.hist, g).Some?
      ensures HasEntry(s'.clients, g) || AboutToEnter(s'.server, g) || HungUp(s'.hist, g)
    {
      assert AddressOf(s.hist, g).Some?;
    }
  }

  // ---------------------------------------------------------------- steps that change the records

  /** While the server thread deals with a connection, each client's entry is about an open descriptor of its own. */
  lemma ClientsApart(s: State)
    requires Inv(s) && s.server.At? && !InDrop(s.server)
    ensures forall h :: h in s.clients ==> h in s.os && s.os[h] == s.clients[h].gen && s.clients[h].sockfd == h
    ensures forall h :: h in s.clients ==> 0 <= s.clients[h].gen < s.nextGen
    ensures forall h, k :: h in s.clients && k in s.clients && s.clients[h].gen == s.clients[k].gen ==> h == k
  {
    assert Half(s.server, s.owner, s.clients.Keys) == {};
  }

  /** What a receive that returned n from the client being served leaves behind. */
  lemma ReceiveRecords(s: State, n: int, data: Bytes, s': State)
    requires Inv(s) && Records(s) && Stage?(s, Serve)
    requires s'.hist ==
      Then(s.hist, Sys(Received(s.server.fd, n, data), OsGen(s, s.server.fd), EntryGen(s, s.server.fd), -1))
    requires s'.clients == s.clients && s'.nextGen == s.nextGen
    requires s'.gone == if n < 1 then s.gone + {s.server.fd} else s.gone
    requires s'.server.At? && s'.server.stage != TellGone && !s'.server.stage.Emplace?
    requires forall h :: Dropping(s'.server, h) <==> n == 0 && h == s.server.fd
    ensures Records(s')
  {
    hide Inv;
    var fd := s.server.fd;
    ServedTarget(s);
    ClientsApart(s);
    var g0 := s.clients[fd].gen;
    assert forall g :: AddressOf(s'.hist, g) == AddressOf(s.hist, g);
    assert forall x :: LatestOn(s'.hist, x) == LatestOn(s.hist, x);
    assert forall g :: CameToNothing(s'.hist, g) <==> CameToNothing(s.hist, g) || (g == g0 && n < 1);
    assert forall g :: HungUp(s'.hist, g) <==> HungUp(s.hist, g) || (g == g0 && n == 0);
    forall h | h in s'.clients
      ensures EntryTrue(s'.hist, h, s'.clients[h], s'.gone, s'.server)
    {
      assert EntryTrue(s.hist, h, s.clients[h], s.gone, s.server);
      assert s.clients[h].gen == g0 <==> h == fd;
    }
    forall g | AddressOf(s'.hist, g).Some?
      ensures HasEntry(s'.clients, g) || AboutToEnter(s'.server, g) || HungUp(s'.hist, g)
    {
      assert AddressOf(s.hist, g).Some?;
    }
  }

  lemma ReceivingRecords(s: State, step: Step)
    requires Inv(s) && Enabled(s, step) && Records(s) && Receiving(step)
    ensures Records(Apply(s, step))
  {
    hide Inv, Records;
    match step
    case RecvErr => ReceiveRecords(s, -1, [], AfterRecvErr(s));
    case RecvEof => ReceiveRecords(s, 0, [], AfterRecvEof(s));
    case RecvData(n) =>
      var data := Unread(s, s.os[s.server.fd])[..n];
      ReceiveRecords(s, n, data, AfterRecvData(s, n));
  }

  lemma AcceptRecords(s: State, fd: int, addr: Address)
    requires Inv(s) && Records(s) && Stage?(s, Accepting) && 0 <= fd && fd !in s.os
    ensures Records(AfterAcceptOk(s, fd, addr))
  {
    hide Inv;
    var s' := AfterAcceptOk(s, fd, addr);
    var n := s.nextGen;
    ClientsApart(s);
    assert forall g :: AddressOf(s'.hist, g) == if g == n then Some(addr) else AddressOf(s.hist, g);
    assert forall x :: LatestOn(s'.hist, x) == if x == fd then n else LatestOn(s.hist, x);
    assert forall g :: CameToNothing(s'.hist, g) == CameToNothing(s.hist, g);
    assert forall g :: HungUp(s'.hist, g) == HungUp(s.hist, g);
    forall h | h in s'.clients
      ensures EntryTrue(s'.hist, h, s'.clients[h], s'.gone, s'.server)
    {
      assert EntryTrue(s.hist, h, s.clients[h], s.gone, s.server);
    }
    forall g | AddressOf(s'.hist, g).Some?
      ensures HasEntry(s'.clients, g) || AboutToEnter(s'.server, g) || HungUp(s'.hist, g)
    {
      assert g != n ==> AddressOf(s.hist, g).Some?;
    }
  }

  lemma RefusedRecords(s: State)
    requires Inv(s) && Records(s) && Stage?(s, Accepting)
    ensures Records(AfterAcceptFail(s))
  {
    hide Inv;
    var s' := AfterAcceptFail(s);
    assert forall g :: AddressOf(s'.hist, g) == AddressOf(s.hist, g);
    assert forall x :: LatestOn(s'.hist, x) == LatestOn(s.hist, x);
    assert forall g :: CameToNothing(s'.hist, g) == CameToNothing(s.hist, g);
    assert forall g :: HungUp(s'.hist, g) == HungUp(s.hist, g);
    forall h | h in s'.clients
      ensures EntryTrue(s'.hist, h, s'.clients[h], s'.gone, s'.server)
    {
      assert EntryTrue(s.hist, h, s.clients[h], s.gone, s.server);
    }
    forall g | AddressOf(s'.hist, g).Some?
      ensures HasEntry(s'.clients, g) || AboutToEnter(s'.server, g) || HungUp(s'.hist, g)
    {
      assert AddressOf(s.hist, g).Some?;
    }
  }

  /** The newcomer is not marked as gone, and not a key already. */
  lemma NewcomerIsNew(s: State)
    requires Inv(s) && s.server.At? && s.server.stage.Emplace?
    ensures s.server.stage.c !in s.clients && s.server.stage.c !in s.gone
  {
  }

  lemma EmplaceRecords(s: State)
    requires Inv(s) && Records(s) && s.server.At? && s.server.stage.Emplace?
    ensures Records(AfterEmplace(s))
  {
    hide Inv;
    var s' := AfterEmplace(s);
    NewcomerIsNew(s);
    var Emplace(c, addr, gen) := s.server.stage;
    forall h | h in s'.clients
      ensures EntryTrue(s'.hist, h, s'.clients[h], s'.gone, s'.server)
    {
      if h != c {
        assert EntryTrue(s.hist, h, s.clients[h], s.gone, s.server);
      }
    }
    forall g | AddressOf(s'.hist, g).Some?
      ensures HasEntry(s'.clients, g) || AboutToEnter(s'.server, g) || HungUp(s'.hist, g)
    {
      if HasEntry(s.clients, g) {
        var h :| h in s.clients && s.clients[h].gen == g;
        assert h in s'.clients && s'.clients[h].gen == g;
      } else if AboutToEnter(s.server, g) {
        assert c in s'.clients && s'.clients[c].gen == g;
      }
    }
  }

  lemma DropInMap(s: State)
    requires Inv(s) && Stage?(s, DropErase)
    ensures s.server.fd in s.clients
  {
  }

  lemma EraseRecords(s: State)
    requires Inv(s) && Records(s) && Stage?(s, DropErase)
    ensures Records(AfterDropEntry(s))
  {
    hide Inv;
    var s' := AfterDropEntry(s);
    var fd := s.server.fd;
    DropInMap(s);
    assert EntryTrue(s.hist, fd, s.clients[fd], s.gone, s.server);
    forall h | h in s'.clients
      ensures EntryTrue(s'.hist, h, s'.clients[h], s'.gone, s'.server)
    {
      assert EntryTrue(s.hist, h, s.clients[h], s.gone, s.server);
    }
    forall g | AddressOf(s'.hist, g).Some?
      ensures HasEntry(s'.clients, g) || AboutToEnter(s'.server, g) || HungUp(s'.hist, g)
    {
      if HasEntry(s.clients, g) {
        var h :| h in s.clients && s.clients[h].gen == g;
        if h != fd {
          assert h in s'.clients && s'.clients[h].gen == g;
        }
      }
    }
  }

  lemma TellingIsClient(s: State)
    requires Inv(s) && s.server.At?
    ensures s.server.stage.TellNew? ==> s.server.stage.c in s.clients
    ensures s.server.stage.TellData? ==> s.server.fd in s.clients
  {
  }

  /** A callback about the right connection, after which the server thread turns to the next descriptor. */
  ghost predicate ToldRight(s: State, s': State) {
    && s'.hist.Then? && s'.hist.past == s.hist && s'.hist.last.Cb? && HandlesMean(s'.hist)
    && s'.clients == s.clients && s'.gone == s.gone && s'.nextGen == s.nextGen
    && s.server.At? && Telling?(s.server.stage) && s'.server.At? && s'.server.stage.Look?
  }

  predicate Telling?(stage: Stage) { stage.TellGone? || stage.TellData? || stage.TellNew? }

  lemma ToldRecords(s: State, s': State)
    requires Records(s) && ToldRight(s, s')
    ensures Records(s')
  {
    assert forall g :: AddressOf(s'.hist, g) == AddressOf(s.hist, g);
    assert forall x :: LatestOn(s'.hist, x) == LatestOn(s.hist, x);
    assert forall g :: CameToNothing(s'.hist, g) == CameToNothing(s.hist, g);
    assert forall g :: HungUp(s'.hist, g) == HungUp(s.hist, g);
    forall h | h in s'.clients
      ensures EntryTrue(s'.hist, h, s'.clients[h], s'.gone, s'.server)
    {
      assert EntryTrue(s.hist, h, s.clients[h], s.gone, s.server);
    }
    forall g | AddressOf(s'.hist, g).Some?
      ensures HasEntry(s'.clients, g) || AboutToEnter(s'.server, g) || HungUp(s'.hist, g)
    {
      assert AddressOf(s.hist, g).Some?;
    }
  }

  lemma EntryLatest(s: State, h: int)
    requires Records(s) && h in s.clients
    ensures EntryGen(s, h) == LatestOn(s.hist, h)
  {
    assert EntryTrue(s.hist, h, s.clients[h], s.gone, s.server);
  }

  lemma TellRecords(s: State, step: Step)
    requires Inv(s) && Enabled(s, step) && Records(s) && Telling(step)
    ensures Records(Apply(s, step))
  {
    hide Inv, Records;
    TellingIsClient(s);
    match step
    case NotifyNew => NewTold(s);
    case NotifyData => DataTold(s);
    case NotifyGone => GoneTold(s);
  }

  lemma NewTold(s: State)
    requires Enabled(s, NotifyNew) && Records(s) && s.server.stage.c in s.clients
    ensures Records(AfterNotifyNew(s))
  {
    hide EntryTrue, FutureBlank, NoneLost;
    EntryLatest(s, s.server.stage.c);
    ToldRecords(s, AfterNotifyNew(s));
  }

  lemma DataTold(s: State)
    requires Enabled(s, NotifyData) && Records(s) && s.server.fd in s.clients
    ensures Records(AfterNotifyData(s))
  {
    hide EntryTrue, FutureBlank, NoneLost;
    EntryLatest(s, s.server.fd);
    ToldRecords(s, AfterNotifyData(s));
  }

  lemma GoneTold(s: State)
    requires Enabled(s, NotifyGone) && Records(s)
    ensures Records(AfterNotifyGone(s))
  {
    hide EntryTrue, FutureBlank, NoneLost;
    ToldRecords(s, AfterNotifyGone(s));
  }

  lemma ClearRecords(s: State)
    requires Inv(s) && Records(s) && s.owner.Clearing?
    ensures Records(AfterClearUnlock(s))
  {
    var s' := AfterClearUnlock(s);
    assert s.server.Exited? || s.clients.Keys == {};
    forall g | !s'.server.Exited? && AddressOf(s'.hist, g).Some?
      ensures HasEntry(s'.clients, g) || AboutToEnter(s'.server, g) || HungUp(s'.hist, g)
    {
      assert !HasEntry(s.clients, g);
    }
  }

  // ---------------------------------------------------------------- every step

  /** From s to s' nothing happens that the records are about. */
  ghost predicate Uneventful(s: State, s': State) {
    && (s'.hist == s.hist || (s'.hist.Then? && s'.hist.past == s.hist && Neutral(s'.hist.last)))
    && s'.clients == s.clients && s'.gone == s.gone && s'.nextGen >= s.nextGen && SameDealing(s.server, s'.server)
  }

  lemma OwnerUneventful(s: State, step: Step)
    requires Inv(s) && Enabled(s, step) && ByOwner(step) && !step.ClearUnlock?
    ensures Uneventful(s, Apply(s, step))
  {
  }

  lemma SendersUneventful(s: State, step: Step)
    requires Enabled(s, step) && BySender(step)
    ensures Uneventful(s, Apply(s, step))
  {
  }

  lemma OutsideUneventful(s: State, step: Step)
    requires Enabled(s, step) && Outside(step)
    ensures Uneventful(s, Apply(s, step))
  {
  }

  lemma WalkingUneventful(s: State, step: Step)
    requires Enabled(s, step)
    requires step.Quit? || step.Enter? || step.EndPass? || step.Skip? || step.Lookup? || step.ArmFd? || step.DropClear?
    ensures Uneventful(s, Apply(s, step))
  {
  }

  lemma SelectingUneventful(s: State, step: Step)
    requires Enabled(s, step) && Selecting(step)
    ensures Uneventful(s, Apply(s, step))
  {
  }

  lemma DroppingUneventful(s: State)
    requires Inv(s) && Enabled(s, DropClose)
    ensures Uneventful(s, Apply(s, DropClose))
  {
    hide Inv;
    ServedTarget(s);
  }

  lemma ServerKeepsRecords(s: State, step: Step)
    requires Inv(s) && Enabled(s, step) && Records(s) && ByServer(step)
    ensures Records(Apply(s, step))
  {
    hide Inv, Records, Uneventful;
    if Receiving(step) {
      ReceivingRecords(s, step);
    } else if Telling(step) {
      TellRecords(s, step);
    } else if Entering(step) {
      EnteringRecords(s, step);
    } else {
      hide Apply, Enabled;
      ServerUneventful(s, step);
      UneventfulRecords(s, Apply(s, step));
    }
  }

  predicate Entering(step: Step) { step.AcceptOk? || step.AcceptFail? || step.EmplaceEntry? || step.DropEntry? }

  lemma EnteringRecords(s: State, step: Step)
    requires Inv(s) && Enabled(s, step) && Records(s) && Entering(step)
    ensures Records(Apply(s, step))
  {
    hide Inv, Records;
    match step
    case AcceptOk(fd, addr) => AcceptRecords(s, fd, addr);
    case AcceptFail => RefusedRecords(s);
    case EmplaceEntry => EmplaceRecords(s);
    case DropEntry => EraseRecords(s);
  }

  lemma ServerUneventful(s: State, step: Step)
    requires Inv(s) && Enabled(s, step) && ByServer(step) && !Receiving(step) && !Telling(step) && !Entering(step)
    ensures Uneventful(s, Apply(s, step))
  {
    hide Inv, Enabled, Apply, Uneventful;
    if Selecting(step) {
      SelectingUneventful(s, step);
    } else if step.DropClose? {
      DroppingUneventful(s);
    } else {
      WalkingUneventful(s, step);
    }
  }

  lemma UneventfulRecords(s: State, s': State)
    requires Records(s) && Uneventful(s, s')
    ensures Records(s')
  {
    QuietRecords(s, s');
  }

  lemma StepKeepsRecords(s: State, step: Step)
    requires Inv(s) && Enabled(s, step) && Records(s)
    ensures Records(Apply(s, step))
  {
    hide Inv, Enabled, Records, Uneventful;
    if ByServer(step) {
      hide Apply;
      ServerKeepsRecords(s, step);
    } else if step.ClearUnlock? {
      ClearingRecords(s);
    } else {
      hide Apply;
      if ByOwner(step) {
        OwnerUneventful(s, step);
      } else if BySender(step) {
        SendersUneventful(s, step);
      } else {
        OutsideUneventful(s, step);
      }
      UneventfulRecords(s, Apply(s, step));
    }
  }

  lemma ClearingRecords(s: State)
    requires Inv(s) && Enabled(s, ClearUnlock) && Records(s)
    ensures Records(Apply(s, ClearUnlock))
  {
    hide Inv, Records;
    ClearRecords(s);
  }

  lemma {:induction false} RecordsAlways(r: Schedule)
    requires Legal(r)
    ensures Records(Exec(r))
  {
    match r
    case Start =>
    case Next(before, step) =>
      RecordsAlways(before);
      Safety(before);
      StepKeepsRecords(Exec(before), step);
  }

  // ---------------------------------------------------------------- what they say

  /** Every entry holds the address accept reported for its connection, which is the one accepted last on that
      number; and a client is marked as not connected exactly if some receive on it returned less than one byte. */
  lemma EntriesAreTrue(r: Schedule, h: int)
    requires Legal(r) && h in Exec(r).clients
    ensures var s := Exec(r);
      && AddressOf(s.hist, s.clients[h].gen) == Some(s.clients[h].addr)
      && LatestOn(s.hist, h) == s.clients[h].gen
      && (h in s.gone <==> CameToNothing(s.hist, s.clients[h].gen))
  {
    RecordsAlways(r);
    assert EntryTrue(Exec(r).hist, h, Exec(r).clients[h], Exec(r).gone, Exec(r).server);
  }

  /** Every callback is about the connection accepted last on its handle, and a Disconnect only comes once that one
      has hung up. */
  lemma CallbacksMeanConnections(r: Schedule)
    requires Legal(r)
    ensures HandlesMean(Exec(r).hist)
  {
    RecordsAlways(r);
  }

  /** Between events of a running server, a connection that was accepted is a client exactly until its peer hung up:
      a receive that fails does not end it, and nothing else does. */
  lemma ClientUntilHangUp(r: Schedule, g: int)
    requires Legal(r) && BetweenEvents(Exec(r).server)
    ensures var s := Exec(r); HasEntry(s.clients, g) <==> AddressOf(s.hist, g).Some? && !HungUp(s.hist, g)
  {
    RecordsAlways(r);
    var s := Exec(r);
    forall h | h in s.clients
      ensures AddressOf(s.hist, s.clients[h].gen).Some? && !HungUp(s.hist, s.clients[h].gen)
    {
      assert EntryTrue(s.hist, h, s.clients[h], s.gone, s.server);
    }
  }
}
