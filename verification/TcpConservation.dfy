/** What the engine neither loses nor invents: descriptors, received bytes, callbacks, broadcast bytes. */
module TcpConservation {
  import opened TcpEvents
  import opened TcpProtocol
  import opened TcpInvariant
  import opened TcpFrames

  // ---------------------------------------------------------------- descriptors

  /** Generation g is behind an open descriptor. */
  ghost predicate IsOpen(os: map<int, int>, g: int) { exists fd :: fd in os && os[fd] == g }

  /** A generation this server obtained was closed once if it is no longer open, else never; and it never
      closed any other. */
  ghost predicate ClosedOnce(s: State, g: int) {
    Closes(s.hist, g) == if g in s.owned && !IsOpen(s.os, g) then 1 else 0
  }

  lemma OpenAfterOpen(os: map<int, int>, fd: int, n: int, g: int)
    requires fd !in os
    ensures IsOpen(os[fd := n], g) <==> IsOpen(os, g) || g == n
  {
    var os' := os[fd := n];
    assert fd in os' && os'[fd] == n;
    if IsOpen(os, g) {
      var a :| a in os && os[a] == g;
      assert a in os' && os'[a] == g;
    }
  }

  lemma OpenAfterClose(os: map<int, int>, fd: int, g: int)
    requires fd in os
    requires forall a, b :: a in os && b in os && os[a] == os[b] ==> a == b
    ensures IsOpen(os - {fd}, g) <==> IsOpen(os, g) && g != os[fd]
  {
    var os' := os - {fd};
    if IsOpen(os, g) && g != os[fd] {
      var a :| a in os && os[a] == g;
      assert a in os' && os'[a] == g;
    }
  }

  lemma OpenStep(s: State, step: Step, g: int)
    requires Inv(s) && Enabled(s, step) && ClosedOnce(s, g) && ByOwner(step)
    ensures ClosedOnce(Apply(s, step), g)
  {
    match step
    case OpenSocket(fd) => OpenAfterOpen(s.os, fd, s.nextGen, g);
    case CloseClient(h) => OpenAfterClose(s.os, h, g);
    case CloseListener => if s.sockfd != INVALID_SOCKET { OpenAfterClose(s.os, s.sockfd, g); }
    case _ =>
  }

  predicate ChangesOs(step: Step) { step.AcceptOk? || step.DropClose? || step.ForeignOpen? || step.ForeignClose? }

  lemma CloseStep(s: State, step: Step, g: int)
    requires Inv(s) && Enabled(s, step) && ClosedOnce(s, g) && ChangesOs(step)
    ensures ClosedOnce(Apply(s, step), g)
  {
    match step
    case AcceptOk(fd, addr) => OpenAfterOpen(s.os, fd, s.nextGen, g);
    case DropClose => if s.server.fd in s.clients { OpenAfterClose(s.os, s.server.fd, g); }
    case ForeignOpen(fd) => OpenAfterOpen(s.os, fd, s.nextGen, g);
    case ForeignClose(fd) => OpenAfterClose(s.os, fd, g);
  }

  lemma OsFrame(s: State, step: Step)
    requires Enabled(s, step) && !ByOwner(step) && !ChangesOs(step)
    ensures Apply(s, step).os == s.os
  {
    if BySender(step) {
      hide Enabled, Apply;
      SenderFrame(s, step);
    } else if Receiving(step) {
      hide Enabled, Apply;
      ReceivingFrame(s, step);
    } else if Selecting(step) {
      hide Enabled, Apply;
      SelectingFrame(s, step);
    } else if Calling(step) {
      hide Enabled, Apply;
      AcceptingFrame(s, step);
    }
  }

  lemma StepClosesOnce(s: State, step: Step, g: int)
    requires Inv(s) && Enabled(s, step) && ClosedOnce(s, g)
    ensures ClosedOnce(Apply(s, step), g)
  {
    hide Inv, Enabled, Apply, IsOpen;
    if ByOwner(step) {
      OpenStep(s, step, g);
    } else if ChangesOs(step) {
      CloseStep(s, step, g);
    } else {
      OsFrame(s, step);
      OwnedFrame(s, step);
      LogFrame(s, step);
    }
  }

  /** No descriptor is ever closed twice, none that this server did not obtain is closed, and one it obtained
      is open until it is closed. */
  lemma {:induction false} NeverClosedTwice(r: Schedule, g: int)
    requires Legal(r)
    ensures ClosedOnce(Exec(r), g)
  {
    match r
    case Start =>
    case Next(before, step) =>
      NeverClosedTwice(before, g);
      Safety(before);
      StepClosesOnce(Exec(before), step, g);
  }

  lemma BornStep(s: State, step: Step)
    requires Inv(s) && Enabled(s, step) && s.owned == Born(s.hist)
    ensures Apply(s, step).owned == Born(Apply(s, step).hist)
  {
    hide Enabled, Apply, Inv;
    if step.OpenSocket? || step.AcceptOk? {
      BornNow(s, step);
    } else {
      LogFrame(s, step);
      OwnedFrame(s, step);
    }
  }

  lemma BornNow(s: State, step: Step)
    requires Inv(s) && Enabled(s, step) && s.owned == Born(s.hist) && (step.OpenSocket? || step.AcceptOk?)
    ensures Apply(s, step).owned == Born(Apply(s, step).hist)
  {
  }

  lemma {:induction false} OwnedAreBorn(r: Schedule)
    requires Legal(r)
    ensures Exec(r).owned == Born(Exec(r).hist)
  {
    match r
    case Start =>
    case Next(before, step) =>
      OwnedAreBorn(before);
      Safety(before);
      BornStep(Exec(before), step);
  }

  lemma NothingLeftOpen(s: State, g: int)
    requires Inv(s) && s.owner.Finished? && g in s.owned
    ensures !IsOpen(s.os, g)
  {
  }

  /** When finish has returned, every descriptor that start or accept obtained has been closed exactly once,
      whatever happened before: a start that failed at any stage, peers that hung up, receive errors. */
  lemma FinishClosesEverything(r: Schedule, g: int)
    requires Legal(r) && Exec(r).owner.Finished?
    ensures Closes(Exec(r).hist, g) == if g in Born(Exec(r).hist) then 1 else 0
  {
    Safety(r);
    OwnedAreBorn(r);
    NeverClosedTwice(r, g);
    if g in Exec(r).owned {
      NothingLeftOpen(Exec(r), g);
    }
  }

  /** Shutting down has begun and the server thread has gone. */
  predicate ShuttingDown(s: State) {
    && !Running(s.server)
    && (s.owner.Joining? || s.owner.Closing? || s.owner.Clearing? || s.owner.Finished?)
  }

  lemma ShutdownIsFinal(s: State, step: Step)
    requires Inv(s) && Enabled(s, step) && ShuttingDown(s)
    ensures ShuttingDown(Apply(s, step)) && Apply(s, step).owned == s.owned
  {
    if !ByOwner(step) {
      hide Inv, Apply;
      ShutOthers(s, step);
      OwnedFrame(s, step);
    }
  }

  lemma ShutOthers(s: State, step: Step)
    requires Enabled(s, step) && ShuttingDown(s) && !ByOwner(step)
    ensures ShuttingDown(Apply(s, step)) && !step.AcceptOk?
  {
  }

  lemma {:induction false} StaysShut(r: Schedule, r0: Schedule)
    requires Legal(r) && Legal(r0) && Extends(r, r0) && ShuttingDown(Exec(r0))
    ensures ShuttingDown(Exec(r)) && Exec(r).owned == Exec(r0).owned
  {
    if r != r0 {
      StaysShut(r.before, r0);
      Safety(r.before);
      ShutdownIsFinal(Exec(r.before), r.step);
    }
  }

  lemma {:induction false} ClosesGrow(r: Schedule, r0: Schedule, g: int)
    requires Legal(r) && Legal(r0) && Extends(r, r0)
    ensures Closes(Exec(r0).hist, g) <= Closes(Exec(r).hist, g)
  {
    if r != r0 {
      ClosesGrow(r.before, r0, g);
      ClosesGrowStep(Exec(r.before), r.step, g);
    }
  }

  lemma ClosesGrowStep(s: State, step: Step, g: int)
    requires Enabled(s, step)
    ensures Closes(s.hist, g) <= Closes(Apply(s, step).hist, g)
  {
    hide Enabled, Apply;
    LogFrame(s, step);
  }

  /** Once finish has returned, nothing closes a descriptor any more: not a second finish, nor a third. */
  lemma SecondFinishClosesNothing(r: Schedule, r0: Schedule, g: int)
    requires Legal(r) && Legal(r0) && Extends(r, r0) && Exec(r0).owner.Finished?
    ensures Closes(Exec(r).hist, g) == Closes(Exec(r0).hist, g)
  {
    Safety(r0);
    FinishClosesEverything(r0, g);
    OwnedAreBorn(r0);
    StaysShut(r, r0);
    NeverClosedTwice(r, g);
    ClosesGrow(r, r0, g);
  }

  // ---------------------------------------------------------------- received bytes

  /** The chunk of connection g that was received and not handed over yet. */
  function InHand(s: State, g: int): Bytes {
    if s.server.At? && s.server.stage.TellData? && EntryGen(s, s.server.fd) == g then s.server.stage.data else []
  }

  /** What was received is what was handed over and what is in hand, and comes first in what the peer sent. */
  ghost predicate BytesKept(s: State, g: int) {
    && InBytes(s.hist, g) == DataBytes(s.hist, g) + InHand(s, g)
    && InBytes(s.hist, g) <= SentBy(s, g)
  }

  lemma ReceiveKeeps(s: State, n: int, g: int)
    requires Inv(s) && Enabled(s, RecvData(n)) && BytesKept(s, g)
    ensures BytesKept(AfterRecvData(s, n), g)
  {
    var gen := s.os[s.server.fd];
    assert gen == EntryGen(s, s.server.fd);
    if g == gen {
      var k := |InBytes(s.hist, g)|;
      var data := Unread(s, g)[..n];
      assert SentBy(s, g)[..k] == InBytes(s.hist, g);
      assert SentBy(s, g)[..k + n] == InBytes(s.hist, g) + data;
      assert DataBytes(s.hist, g) + [] == DataBytes(s.hist, g);
    }
  }

  lemma HandOverKeeps(s: State, g: int)
    requires Enabled(s, NotifyData) && BytesKept(s, g)
    ensures BytesKept(AfterNotifyData(s), g)
  {
  }

  lemma ServerKeepsBytes(s: State, step: Step, g: int)
    requires Inv(s) && Enabled(s, step) && BytesKept(s, g)
    requires ByServer(step) && !step.RecvData? && !step.NotifyData?
    ensures BytesKept(Apply(s, step), g)
  {
    hide Inv, Enabled, Apply;
    assert DataBytes(s.hist, g) + [] == DataBytes(s.hist, g);
    assert InBytes(s.hist, g) + [] == InBytes(s.hist, g);
    NothingInHand(s, step);
    ServerFrame(s, step);
    LogFrame(s, step);
  }

  lemma NothingInHand(s: State, step: Step)
    requires Enabled(s, step) && ByServer(step) && !step.RecvData? && !step.NotifyData?
    ensures !(s.server.At? && s.server.stage.TellData?)
    ensures var s' := Apply(s, step); !(s'.server.At? && s'.server.stage.TellData?)
  {
  }

  lemma OthersKeepBytes(s: State, step: Step, g: int)
    requires Inv(s) && Enabled(s, step) && BytesKept(s, g) && !ByServer(step)
    ensures BytesKept(Apply(s, step), g)
  {
    if ByOwner(step) {
      OwnerKeepsBytes(s, step, g);
    } else if BySender(step) {
      hide Inv, Enabled, Apply;
      SenderFrame(s, step);
    } else {
      OutsideKeepsBytes(s, step, g);
    }
  }

  lemma OutsideKeepsBytes(s: State, step: Step, g: int)
    requires Enabled(s, step) && BytesKept(s, g) && Outside(step)
    ensures BytesKept(Apply(s, step), g)
  {
  }

  lemma OwnerKeepsBytes(s: State, step: Step, g: int)
    requires Inv(s) && Enabled(s, step) && BytesKept(s, g) && ByOwner(step)
    ensures BytesKept(Apply(s, step), g)
  {
    OwnerFrame(s, step);
  }

  lemma StepKeepsBytes(s: State, step: Step, g: int)
    requires Inv(s) && Enabled(s, step) && BytesKept(s, g)
    ensures BytesKept(Apply(s, step), g)
  {
    if step.RecvData? {
      ReceiveKeeps(s, step.n, g);
    } else if step.NotifyData? {
      HandOverKeeps(s, g);
    } else if ByServer(step) {
      ServerKeepsBytes(s, step, g);
    } else {
      OthersKeepBytes(s, step, g);
    }
  }

  /** For every connection, under every interleaving: the chunks handed to the owner, put together, are the
      bytes received so far in order, except the chunk just received, and these are what the peer sent first. */
  lemma {:induction false} InboundBytesConserved(r: Schedule, g: int)
    requires Legal(r)
    ensures BytesKept(Exec(r), g)
  {
    match r
    case Start =>
    case Next(before, step) =>
      InboundBytesConserved(before, g);
      Safety(before);
      StepKeepsBytes(Exec(before), step, g);
  }

  /** A full packet of 65536 bytes is received in one piece if it is there, and nothing larger. */
  lemma LargestPacket(s: State)
    requires Stage?(s, Serve) && s.server.fd in s.os && |Unread(s, s.os[s.server.fd])| >= 65536
    ensures Enabled(s, RecvData(65536)) && forall n :: n > 65536 ==> !Enabled(s, RecvData(n))
  {
  }

  lemma ChunkStep(s: State, step: Step)
    requires Inv(s) && Enabled(s, step) && ChunksBounded(s.hist)
    ensures ChunksBounded(Apply(s, step).hist)
  {
    hide Enabled, Apply, Inv;
    if step.NotifyData? {
      ChunkHandedOver(s);
    } else {
      LogFrame(s, step);
    }
  }

  lemma ChunkHandedOver(s: State)
    requires Inv(s) && Enabled(s, NotifyData) && ChunksBounded(s.hist)
    ensures ChunksBounded(Apply(s, NotifyData).hist)
  {
  }

  lemma {:induction false} ChunksFitPackets(r: Schedule)
    requires Legal(r)
    ensures ChunksBounded(Exec(r).hist)
  {
    match r
    case Start =>
    case Next(before, step) =>
      ChunksFitPackets(before);
      Safety(before);
      ChunkStep(Exec(before), step);
  }
}
