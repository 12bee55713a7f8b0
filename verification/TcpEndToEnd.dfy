/** The server process and the client at the other end of one of its connections, together: what the server's sends
    put on the connection travels, in order, to the client's receiving thread. */
module TcpEndToEnd {
  import opened TcpEvents
  import opened TcpProtocol
  import opened TcpFrames
  import opened TcpSafety
  import opened TcpConservation
  import C = TcpClientProtocol
  import TcpClienting

  datatype Joint = Joint(s: State, c: C.ClientState)

  /** A step of the server process, a step of the client, or the news that the server has closed the connection. */
  datatype JointStep = Serverside(step: Step) | Clientside(own: C.ClientStep) | NewsOfClose

  /** What the step from h to h' put on connection g. */
  function Carried(h: History, h': History, g: int): Bytes {
    if h'.Then? && h'.past == h && h'.last.Sys? && h'.last.call.Sent? && h'.last.target == g
    then Taken(h'.last.call.n, h'.last.call.msg)
    else []
  }

  ghost predicate JointEnabled(j: Joint, g: int, step: JointStep) {
    match step
    case Serverside(step) => Enabled(j.s, step)
    case Clientside(own) => C.Enabled(j.c, own) && !own.Put? && !own.Shut?
    case NewsOfClose => Closes(j.s.hist, g) > 0
  }

  ghost function JointApply(j: Joint, g: int, step: JointStep): Joint
    requires JointEnabled(j, g, step)
  {
    match step
    case Serverside(step) =>
      var s' := Apply(j.s, step);
      Joint(s', j.c.(wire := j.c.wire + Carried(j.s.hist, s'.hist, g)))
    case Clientside(own) => j.(c := C.Apply(j.c, own))
    case NewsOfClose => j.(c := j.c.(shut := true))
  }

  datatype JointSchedule = JointStart | JointNext(before: JointSchedule, step: JointStep)

  ghost predicate JointLegal(r: JointSchedule, g: int)
    decreases r, 0
  {
    match r
    case JointStart => true
    case JointNext(before, step) => JointLegal(before, g) && JointEnabled(JointExec(before, g), g, step)
  }

  ghost function JointExec(r: JointSchedule, g: int): Joint
    requires JointLegal(r, g)
    decreases r, 1
  {
    match r
    case JointStart => Joint(Init(), C.Init())
    case JointNext(before, step) => JointApply(JointExec(before, g), g, step)
  }

  /** The server process's part of a joint schedule, and the client's. */
  function ServerPart(r: JointSchedule): Schedule {
    match r
    case JointStart => Start
    case JointNext(before, Serverside(step)) => Next(ServerPart(before), step)
    case JointNext(before, _) => ServerPart(before)
  }

  ghost function ClientPart(r: JointSchedule, g: int): C.ClientSchedule
    requires JointLegal(r, g)
  {
    match r
    case JointStart => C.Start
    case JointNext(before, step) =>
      var own := match step
        case Serverside(_) => C.Put(Carried(JointExec(before, g).s.hist, JointExec(r, g).s.hist, g))
        case Clientside(own) => own
        case NewsOfClose => C.Shut;
      C.Next(ClientPart(before, g), own)
  }

  lemma OutBytesCarried(s: State, step: Step, g: int)
    requires Enabled(s, step)
    ensures OutBytes(Apply(s, step).hist, g) == OutBytes(s.hist, g) + Carried(s.hist, Apply(s, step).hist, g)
  {
    hide Enabled, Apply;
    LogFrame(s, step);
    NotItsOwnPast(s.hist);
    assert OutBytes(s.hist, g) + [] == OutBytes(s.hist, g);
  }

  function Length(h: History): nat {
    match h
    case Nil => 0
    case Then(past, _) => Length(past) + 1
  }

  lemma NotItsOwnPast(h: History)
    ensures h.Then? ==> h.past != h
  {
    if h.Then? {
      assert Length(h) == Length(h.past) + 1;
    }
  }

  /** Once a connection is closed nothing is put on it any more: its descriptor is not open, and every send reaches
      an open one. */
  lemma ClosedIsSilent(r: Schedule, step: Step, g: int)
    requires Legal(Next(r, step)) && Closes(Exec(r).hist, g) > 0
    ensures Carried(Exec(r).hist, Apply(Exec(r), step).hist, g) == []
  {
    hide Enabled, Apply;
    var s := Exec(r);
    var s' := Apply(s, step);
    EveryCallReachesItsConnection(Next(r, step));
    NeverClosedTwice(r, g);
    LogFrame(s, step);
    NotItsOwnPast(s.hist);
    if step.BcastSend? || step.SendTo? {
      SendTargetOpen(s, step, g);
    }
  }

  lemma SendTargetOpen(s: State, step: Step, g: int)
    requires Enabled(s, step) && (step.BcastSend? || step.SendTo?) && !IsOpen(s.os, g)
    requires OnTarget(Apply(s, step).hist)
    ensures Carried(s.hist, Apply(s, step).hist, g) == []
  {
    var h' := Apply(s, step).hist;
    NotItsOwnPast(s.hist);
    if h'.Then? && h'.past == s.hist && h'.last.Sys? && h'.last.call.Sent? {
      var fd := h'.last.call.fd;
      assert h'.last.target == OsGen(s, fd);
      if fd in s.os {
        assert s.os[fd] != g;
      }
    }
  }

  /** Both parts of a joint schedule are schedules of their own systems; the client's other end puts on the
      connection what the server's sends do, and it closes only after the server did. */
  lemma {:induction false} Parts(r: JointSchedule, g: int)
    requires JointLegal(r, g)
    ensures var j := JointExec(r, g);
      && Legal(ServerPart(r)) && Exec(ServerPart(r)) == j.s
      && C.Legal(ClientPart(r, g)) && C.Exec(ClientPart(r, g)) == j.c
      && C.PutBy(ClientPart(r, g)) == OutBytes(j.s.hist, g)
      && (j.c.shut ==> Closes(j.s.hist, g) > 0)
  {
    if r.JointNext? {
      Parts(r.before, g);
      var j := JointExec(r.before, g);
      match r.step
      case Serverside(step) => ServerStepParts(r.before, step, g);
      case Clientside(own) =>
        assert OutBytes(j.s.hist, g) + [] == OutBytes(j.s.hist, g);
        OwnStepKeepsShut(j.c, own);
      case NewsOfClose =>
        assert OutBytes(j.s.hist, g) + [] == OutBytes(j.s.hist, g);
    }
  }

  lemma OwnStepKeepsShut(c: C.ClientState, own: C.ClientStep)
    requires C.Enabled(c, own) && !own.Put? && !own.Shut?
    ensures C.Apply(c, own).shut == c.shut
  {
  }

  lemma ServerStepParts(before: JointSchedule, step: Step, g: int)
    requires JointLegal(JointNext(before, Serverside(step)), g)
    requires var j := JointExec(before, g);
      && Legal(ServerPart(before)) && Exec(ServerPart(before)) == j.s
      && C.PutBy(ClientPart(before, g)) == OutBytes(j.s.hist, g)
      && (j.c.shut ==> Closes(j.s.hist, g) > 0)
    ensures var j := JointExec(before, g);
      var s' := Apply(j.s, step);
      && (j.c.shut ==> Carried(j.s.hist, s'.hist, g) == [])
      && OutBytes(s'.hist, g) == OutBytes(j.s.hist, g) + Carried(j.s.hist, s'.hist, g)
      && Closes(j.s.hist, g) <= Closes(s'.hist, g)
  {
    hide Enabled, Apply;
    var j := JointExec(before, g);
    OutBytesCarried(j.s, step, g);
    ClosesGrowStep(j.s, step, g);
    if j.c.shut {
      assert Legal(Next(ServerPart(before), step));
      ClosedIsSilent(ServerPart(before), step, g);
    }
  }

  /** Under every interleaving of the whole server process with the client: what the server's sends put on the
      connection is, in order, what the client's application was told of, what its receiving thread has in hand and
      what is under way. Once receive has returned 0, the application was told of all of it. */
  lemma EndToEndStream(r: JointSchedule, g: int)
    requires JointLegal(r, g)
    ensures var j := JointExec(r, g);
      && OutBytes(j.s.hist, g) == C.Joined(j.c.heard) + C.InHand(j.c.pc) + j.c.wire
      && C.WellHeard(j.c.heard) && (C.Ended(j.c.heard) ==> j.c.pc.Exited?)
      && (C.SawEnd(j.c.log) ==> C.Joined(j.c.heard) == OutBytes(j.s.hist, g) && Closes(j.s.hist, g) > 0)
  {
    Parts(r, g);
    var cr := ClientPart(r, g);
    C.ClientHearsStream(cr);
    if C.SawEnd(JointExec(r, g).c.log) {
      C.OrderlyEnd(cr);
    }
  }

  // ---------------------------------------------------------------- a running client and a server

  /** A running client whose calls and callbacks come about in a joint schedule: its application really heard the
      first bytes of what the server's sends put on the connection, and all of them once receive has returned 0. */
  lemma RunningClientHearsServer(client: TcpClienting.TcpClient, r: JointSchedule, g: int)
    requires client.Valid() && JointLegal(r, g)
    requires JointExec(r, g).c.log == client.core.log && JointExec(r, g).c.heard == client.app.heard
    ensures Legal(ServerPart(r))
    ensures var out := OutBytes(Exec(ServerPart(r)).hist, g);
      && C.Joined(client.app.heard) <= C.Got(client.core.log) <= out && C.WellHeard(client.app.heard)
      && (C.SawEnd(client.core.log) ==> C.Joined(client.app.heard) == out && Closes(Exec(ServerPart(r)).hist, g) > 0)
  {
    Parts(r, g);
    EndToEndStream(r, g);
    C.ClientHearsStream(ClientPart(r, g));
  }

  /** The server may have sent what a client received: the received bytes come first in what the server's sends put
      on the connection, and if the client saw the end they are all of it and the server has closed. */
  ghost predicate CameFrom(log: seq<Call>, h: History, g: int) {
    && C.Got(log) <= OutBytes(h, g)
    && (C.SawEnd(log) ==> C.Got(log) == OutBytes(h, g) && Closes(h, g) > 0)
  }

  /** Then, and only then, the two come about together: every running client is in a joint schedule with every
      server process that may have sent what it received. */
  lemma ClientMeetsServer(client: TcpClienting.TcpClient, r0: Schedule, g: int)
    requires client.Valid() && Legal(r0)
    ensures CameFrom(client.core.log, Exec(r0).hist, g)
      <==> exists r :: Meeting(client.core.log, client.app.heard, r0, g, r)
  {
    if CameFrom(client.core.log, Exec(r0).hist, g) {
      var r := Meet(client.run, r0, g);
      assert Meeting(client.core.log, client.app.heard, r0, g, r);
    }
    forall r | Meeting(client.core.log, client.app.heard, r0, g, r)
      ensures CameFrom(client.core.log, Exec(r0).hist, g)
    {
      RunningClientHearsServer(client, r, g);
      Parts(r, g);
      EndToEndStream(r, g);
      C.ClientHearsStream(ClientPart(r, g));
    }
  }

  ghost predicate Meeting(log: seq<Call>, heard: seq<C.Notice>, r0: Schedule, g: int, r: JointSchedule) {
    && JointLegal(r, g) && ServerPart(r) == r0
    && JointExec(r, g).c.log == log && JointExec(r, g).c.heard == heard
  }

  /** All of the server's steps, before any of the client's. */
  function Ahead(r0: Schedule): JointSchedule {
    match r0
    case Start => JointStart
    case Next(before, step) => JointNext(Ahead(before), Serverside(step))
  }

  lemma {:induction false} AheadRuns(r0: Schedule, g: int)
    requires Legal(r0)
    ensures JointLegal(Ahead(r0), g) && ServerPart(Ahead(r0)) == r0
    ensures JointExec(Ahead(r0), g) == Joint(Exec(r0), C.Init().(wire := OutBytes(Exec(r0).hist, g)))
  {
    hide Enabled, Apply;
    match r0
    case Start =>
    case Next(before, step) =>
      AheadRuns(before, g);
      OutBytesCarried(Exec(before), step, g);
  }

  /** The client's state, but for what it has received of a stream that was put on the wire before. */
  function Behind(c: C.ClientState, out: Bytes, shut: bool): C.ClientState
    requires |C.Got(c.log)| <= |out|
  {
    c.(wire := out[|C.Got(c.log)|..], shut := shut)
  }

  /** A step the client took is one it can take on that wire, and it leads to the like state. */
  lemma StepBehind(r: C.ClientSchedule, step: C.ClientStep, out: Bytes, shut: bool)
    requires C.Legal(C.Next(r, step)) && !step.Put? && !step.Shut?
    requires var log := C.Exec(C.Next(r, step)).log; C.Got(log) <= out && (C.SawEnd(log) ==> C.Got(log) == out && shut)
    ensures C.Got(C.Exec(r).log) <= out
    ensures var c := Behind(C.Exec(r), out, shut);
      C.Enabled(c, step) && C.Apply(c, step) == Behind(C.Apply(C.Exec(r), step), out, shut)
  {
    hide C.Enabled, C.Apply, C.Got, C.SawEnd, Behind;
    var c := C.Exec(r);
    if step.Take? {
      TakeBehind(c, step.n, out, shut);
    } else {
      NothingTaken(c, step);
      OtherBehind(c, step, out, shut);
    }
  }

  lemma NothingTaken(c: C.ClientState, step: C.ClientStep)
    requires C.Enabled(c, step) && !step.Take?
    ensures C.Got(C.Apply(c, step).log) == C.Got(c.log)
    ensures step == C.TakeNothing(0) ==> C.SawEnd(C.Apply(c, step).log)
  {
    var c' := C.Apply(c, step);
    if c'.log != c.log {
      var call := c'.log[|c.log|];
      assert c'.log == c.log + [call];
      C.GotMore(c.log, call);
      C.SawEndMore(c.log, call);
    }
  }

  lemma OtherBehind(c: C.ClientState, step: C.ClientStep, out: Bytes, shut: bool)
    requires C.Enabled(c, step) && !step.Take? && !step.Put? && !step.Shut? && C.Got(c.log) <= out
    requires C.Got(C.Apply(c, step).log) == C.Got(c.log)
    requires step == C.TakeNothing(0) ==> C.Got(c.log) == out && shut
    ensures C.Enabled(Behind(c, out, shut), step)
    ensures C.Apply(Behind(c, out, shut), step) == Behind(C.Apply(c, step), out, shut)
  {
    hide C.Got;
  }

  lemma TakeBehind(c: C.ClientState, n: int, out: Bytes, shut: bool)
    requires C.Enabled(c, C.Take(n)) && C.Got(C.Apply(c, C.Take(n)).log) <= out
    ensures C.Got(c.log) <= out
    ensures C.Enabled(Behind(c, out, shut), C.Take(n))
    ensures C.Apply(Behind(c, out, shut), C.Take(n)) == Behind(C.Apply(c, C.Take(n)), out, shut)
  {
    var k := |C.Got(c.log)|;
    C.GotMore(c.log, Received(c.sockfd, n, c.wire[..n]));
    assert out[..k + n] == C.Got(c.log) + c.wire[..n];
    assert out[..k] == out[..k + n][..k];
    assert out[k..][..n] == out[..k + n][k..];
    assert out[k..][n..] == out[k + n..];
  }

  /** What a client received before a step came from the server if what it received after it did. */
  lemma EarlierCame(r: C.ClientSchedule, step: C.ClientStep, out: Bytes)
    requires C.Legal(C.Next(r, step)) && C.Got(C.Exec(C.Next(r, step)).log) <= out
    ensures C.Got(C.Exec(r).log) <= out
    ensures C.SawEnd(C.Exec(r).log) ==>
      C.SawEnd(C.Exec(C.Next(r, step)).log) && C.Got(C.Exec(r).log) == C.Got(C.Exec(C.Next(r, step)).log)
  {
    var c := C.Exec(r);
    var c' := C.Apply(c, step);
    C.ThroughAlways(r);
    if c'.log != c.log {
      var call := c'.log[|c.log|];
      assert c'.log == c.log + [call];
      C.GotMore(c.log, call);
      C.SawEndMore(c.log, call);
    }
  }

  /** The client's own steps, replayed after those of the server. */
  lemma {:induction false} Replay(cr: C.ClientSchedule, r1: JointSchedule, g: int, out: Bytes, shut: bool)
      returns (r: JointSchedule)
    requires C.Legal(cr) && JointLegal(r1, g)
    requires JointExec(r1, g).c == C.Init().(wire := out, shut := shut)
    requires C.Got(C.Exec(cr).log) <= out
    requires C.SawEnd(C.Exec(cr).log) ==> C.Got(C.Exec(cr).log) == out && shut
    ensures JointLegal(r, g) && ServerPart(r) == ServerPart(r1) && JointExec(r, g).s == JointExec(r1, g).s
    ensures JointExec(r, g).c == Behind(C.Exec(cr), out, shut)
    decreases cr
  {
    hide JointEnabled, C.Enabled, C.Apply, C.SawEnd;
    match cr
    case Start =>
      r := r1;
      NothingGot(out);
    case Next(before, step) =>
      EarlierCame(before, step, out);
      var r' := Replay(before, r1, g, out, shut);
      if step.Put? || step.Shut? {
        r := r';
        EnvironmentOnly(C.Exec(before), step);
      } else {
        StepBehind(before, step, out, shut);
        r := JointNext(r', Clientside(step));
        OwnStep(JointExec(r', g), g, step);
      }
  }

  lemma NothingGot(out: Bytes)
    ensures Behind(C.Init(), out, false).wire == out && C.Got(C.Init().log) == []
  {
  }

  lemma EnvironmentOnly(c: C.ClientState, step: C.ClientStep)
    requires C.Enabled(c, step) && (step.Put? || step.Shut?)
    ensures var c' := C.Apply(c, step); c' == c.(wire := c'.wire, shut := c'.shut)
  {
  }

  lemma OwnStep(j: Joint, g: int, own: C.ClientStep)
    requires C.Enabled(j.c, own) && !own.Put? && !own.Shut?
    ensures JointEnabled(j, g, Clientside(own)) && JointApply(j, g, Clientside(own)) == j.(c := C.Apply(j.c, own))
  {
  }

  lemma Meet(cr: C.ClientSchedule, r0: Schedule, g: int) returns (r: JointSchedule)
    requires C.Legal(cr) && Legal(r0) && CameFrom(C.Exec(cr).log, Exec(r0).hist, g)
    ensures Meeting(C.Exec(cr).log, C.Exec(cr).heard, r0, g, r)
  {
    AheadRuns(r0, g);
    var r1 := Ahead(r0);
    var shut := C.SawEnd(C.Exec(cr).log);
    if shut {
      r1 := JointNext(r1, NewsOfClose);
    }
    r := Replay(cr, r1, g, OutBytes(Exec(r0).hist, g), shut);
  }
}
