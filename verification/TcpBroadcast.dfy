/** What a broadcast did to each connection by the time it gives the mutex back, whatever other threads
    did in between. */
module TcpBroadcast {
  import opened Options
  import opened TcpEvents
  import opened TcpProtocol
  import opened TcpInvariant
  import opened TcpFrames

  /** The stream put on connection g grew by exactly more. */
  ghost predicate Grew(before: History, after: History, g: int, more: Bytes) {
    OutBytes(after, g) == OutBytes(before, g) + more
  }

  /** It grew by a part of msg, not all of it unless msg is empty. */
  ghost predicate GrewInPart(before: History, after: History, g: int, msg: Bytes) {
    exists n :: 0 <= n <= |msg| && (n == |msg| ==> n == 0) && Grew(before, after, g, msg[..n])
  }

  /** What the broadcast did so far to the client with handle h and connection g. */
  ghost predicate Share(sender: Sender, hist: History, h: int, g: int)
    requires sender.Sending?
  {
    if h in sender.left then Grew(sender.before, hist, g, [])
    else if sender.failed == Some(h) then GrewInPart(sender.before, hist, g, sender.msg)
    else Grew(sender.before, hist, g, sender.msg)
  }

  ghost predicate Shares(sender: Sender, hist: History, clients: map<int, Entry>) {
    sender.Sending? ==>
      && (forall h :: h in clients ==> Share(sender, hist, h, clients[h].gen))
      && (forall g :: (forall h :: h in clients ==> clients[h].gen != g) ==> Grew(sender.before, hist, g, []))
  }

  lemma BeginShares(s: State, msg: Bytes)
    requires Enabled(s, BcastBegin(msg))
    ensures Shares(Apply(s, BcastBegin(msg)).sender, s.hist, s.clients)
  {
    forall g
      ensures Grew(s.hist, s.hist, g, [])
    {
    }
  }

  /** A send puts its bytes on the connection of the entry it was made for, and on no other. */
  lemma SendReaches(s: State, h: int, n: int, g: int)
    requires Inv(s) && Enabled(s, BcastSend(h, n))
    ensures OutBytes(AfterBcastSend(s, h, n).hist, g)
         == OutBytes(s.hist, g) + if g == s.clients[h].gen && 0 <= n then s.sender.msg[..n] else []
  {
    assert Half(s.server, s.owner, s.clients.Keys) == {};
  }

  lemma DistinctConnections(s: State, a: int, b: int)
    requires Inv(s) && s.sender.Sending? && a in s.clients && b in s.clients && a != b
    ensures s.clients[a].gen != s.clients[b].gen
  {
    assert Half(s.server, s.owner, s.clients.Keys) == {};
  }

  lemma SendSharesOne(s: State, h: int, n: int, h0: int)
    requires Inv(s) && Enabled(s, BcastSend(h, n)) && h0 in s.clients && Share(s.sender, s.hist, h0, s.clients[h0].gen)
    ensures var s' := AfterBcastSend(s, h, n); Share(s'.sender, s'.hist, h0, s.clients[h0].gen)
  {
    var s' := AfterBcastSend(s, h, n);
    var g := s.clients[h0].gen;
    SendReaches(s, h, n, g);
    if h0 == h {
      var data := if 0 <= n then s.sender.msg[..n] else [];
      assert OutBytes(s.hist, g) == OutBytes(s.sender.before, g);
      assert Grew(s.sender.before, s'.hist, g, data);
      assert data == s.sender.msg[..|data|];
    } else {
      DistinctConnections(s, h, h0);
      assert OutBytes(s'.hist, g) == OutBytes(s.hist, g);
    }
  }

  lemma SendShares(s: State, h: int, n: int)
    requires Inv(s) && Enabled(s, BcastSend(h, n)) && Shares(s.sender, s.hist, s.clients)
    ensures Shares(AfterBcastSend(s, h, n).sender, AfterBcastSend(s, h, n).hist, s.clients)
  {
    var s' := AfterBcastSend(s, h, n);
    forall h0 | h0 in s.clients
      ensures Share(s'.sender, s'.hist, h0, s.clients[h0].gen)
    {
      SendSharesOne(s, h, n, h0);
    }
    forall g | forall h0 :: h0 in s.clients ==> s.clients[h0].gen != g
      ensures Grew(s.sender.before, s'.hist, g, [])
    {
      assert Grew(s.sender.before, s.hist, g, []);
      SendReaches(s, h, n, g);
    }
  }

  lemma NothingSent(s: State, step: Step, g: int)
    requires Enabled(s, step) && !step.BcastSend? && !step.SendTo?
    ensures OutBytes(Apply(s, step).hist, g) == OutBytes(s.hist, g)
  {
    hide Enabled, Apply;
    LogFrame(s, step);
  }

  /** While a broadcast holds the mutex no other thread changes it or the client map. */
  lemma MapHeld(s: State, step: Step)
    requires Inv(s) && Enabled(s, step) && s.sender.Sending? && !BySender(step)
    ensures Apply(s, step).sender == s.sender && Apply(s, step).clients == s.clients
  {
    if ByOwner(step) {
      OwnerFrame(s, step);
    } else if ByServer(step) {
      ServerFrame(s, step);
    } else {
      OutsideFrame(s, step);
    }
  }

  lemma OtherStepsKeepShares(s: State, step: Step)
    requires Inv(s) && Enabled(s, step) && Shares(s.sender, s.hist, s.clients) && !BySender(step)
    ensures Shares(Apply(s, step).sender, Apply(s, step).hist, Apply(s, step).clients)
  {
    forall g
      ensures OutBytes(Apply(s, step).hist, g) == OutBytes(s.hist, g)
    {
      NothingSent(s, step, g);
    }
    if s.sender.Sending? {
      MapHeld(s, step);
      SameShares(s.sender, s.hist, Apply(s, step).hist, s.clients);
    }
  }

  lemma SameShares(sender: Sender, hist: History, hist': History, clients: map<int, Entry>)
    requires sender.Sending? && Shares(sender, hist, clients)
    requires forall g :: OutBytes(hist', g) == OutBytes(hist, g)
    ensures Shares(sender, hist', clients)
  {
    forall g, more: Bytes | Grew(sender.before, hist, g, more)
      ensures Grew(sender.before, hist', g, more)
    {
    }
    forall h | h in clients
      ensures Share(sender, hist', h, clients[h].gen)
    {
      assert Share(sender, hist, h, clients[h].gen);
    }
  }

  lemma StepShares(s: State, step: Step)
    requires Inv(s) && Enabled(s, step) && Shares(s.sender, s.hist, s.clients)
    ensures var s' := Apply(s, step); Shares(s'.sender, s'.hist, s'.clients)
  {
    hide Inv, Shares;
    if step.BcastEnd? || step.SendTo? {
      NoBroadcast(s, step);
    } else if step.BcastBegin? {
      BeginShares(s, step.msg);
    } else if step.BcastSend? {
      SendShares(s, step.h, step.n);
    } else {
      hide Apply;
      OtherStepsKeepShares(s, step);
    }
  }

  lemma NoBroadcast(s: State, step: Step)
    requires Inv(s) && Enabled(s, step) && (step.BcastEnd? || step.SendTo?)
    ensures var s' := Apply(s, step); Shares(s'.sender, s'.hist, s'.clients)
  {
  }

  lemma {:induction false} SharesAlways(r: Schedule)
    requires Legal(r)
    ensures Shares(Exec(r).sender, Exec(r).hist, Exec(r).clients)
  {
    match r
    case Start =>
    case Next(before, step) =>
      SharesAlways(before);
      Safety(before);
      StepShares(Exec(before), step);
  }

  /** What a broadcast of msg that took the history from before to after may report: success if exactly the
      whole message went to every client's connection; failure if a part of it went to exactly one client and
      every other client got all of it or nothing. In neither case did any other connection get anything. */
  ghost predicate Outcome(ok: bool, before: History, after: History, clients: map<int, Entry>, msg: Bytes) {
    && (ok ==> forall h :: h in clients ==> Grew(before, after, clients[h].gen, msg))
    && (!ok ==> exists f :: f in clients && FailedAt(f, before, after, clients, msg))
    && (forall g :: (forall h :: h in clients ==> clients[h].gen != g) ==> Grew(before, after, g, []))
  }

  ghost predicate FailedAt(f: int, before: History, after: History, clients: map<int, Entry>, msg: Bytes)
    requires f in clients
  {
    && GrewInPart(before, after, clients[f].gen, msg)
    && forall h :: h in clients && h != f ==>
         Grew(before, after, clients[h].gen, msg) || Grew(before, after, clients[h].gen, [])
  }

  lemma OutcomeOf(s: State)
    requires Inv(s) && Enabled(s, BcastEnd) && Shares(s.sender, s.hist, s.clients)
    ensures Outcome(s.sender.failed.None?, s.sender.before, s.hist, s.clients, s.sender.msg)
  {
    forall h | h in s.clients
      ensures Share(s.sender, s.hist, h, s.clients[h].gen)
    {
    }
    if s.sender.failed.Some? {
      assert FailedAt(s.sender.failed.value, s.sender.before, s.hist, s.clients, s.sender.msg);
    }
  }

  /** Whatever the other threads do meanwhile, a broadcast about to give the mutex back has one of these outcomes. */
  lemma BroadcastOutcome(r: Schedule)
    requires Legal(r) && Enabled(Exec(r), BcastEnd)
    ensures var s := Exec(r); Outcome(s.sender.failed.None?, s.sender.before, s.hist, s.clients, s.sender.msg)
  {
    Safety(r);
    SharesAlways(r);
    OutcomeOf(Exec(r));
  }
}
