/** The threads of the engine are not stuck, and the server thread ends once it is told to. */
module TcpProgress {
  import opened TcpProtocol
  import opened TcpInvariant
  import opened TcpFrames
  import opened TcpSafety
  import Sets

  // ---------------------------------------------------------------- no thread is stuck

  /** A step the server thread can take. */
  function ServerNext(server: ServerPc, stop: bool): Step
    requires Running(server)
  {
    match server
    case Top => if stop then Quit else Enter
    case Polling => SelectIdle
    case At(ready, maxfd, fd, stage) =>
      match stage
      case Look => if fd >= maxfd then EndPass else if fd in ready then Lookup else Skip
      case Serve => RecvErr
      case Drop => DropClose
      case DropClr => DropClear
      case DropErase => DropEntry
      case TellGone => NotifyGone
      case TellData(data) => NotifyData
      case Accepting => AcceptFail
      case Emplace(c, addr, gen) => EmplaceEntry
      case Arm(c) => ArmFd
      case TellNew(c) => NotifyNew
  }

  lemma ServerCanStepIn(s: State)
    requires Inv(s) && Running(s.server) && (s.lock.Free? || s.lock.ServerHolds?)
    ensures ByServer(ServerNext(s.server, s.stop)) && Enabled(s, ServerNext(s.server, s.stop))
  {
    hide Inv;
    MutexIn(s);
  }

  lemma MutexIn(s: State)
    requires Inv(s)
    ensures Locks(s.lock, s.server, s.owner, s.sender)
  {
  }

  /** A running server thread waits for nothing but the mutex. */
  lemma ServerCanStep(r: Schedule)
    requires Legal(r) && Running(Exec(r).server)
    requires Exec(r).lock.Free? || Exec(r).lock.ServerHolds?
    ensures Legal(Next(r, ServerNext(Exec(r).server, Exec(r).stop)))
  {
    Safety(r);
    ServerCanStepIn(Exec(r));
  }

  /** A step the holder of the mutex can take. */
  ghost predicate HolderStep(s: State, step: Step) {
    match s.lock
    case Free => false
    case ServerHolds => step.DropClear? || step.DropEntry?
    case SenderHolds => step.BcastSend? || step.BcastEnd?
    case OwnerHolds => step.CloseClient? || step.CloseListener? || step.ClearUnlock?
  }

  lemma HolderCanStepIn(s: State) returns (step: Step)
    requires Inv(s) && !s.lock.Free?
    ensures Enabled(s, step) && HolderStep(s, step)
  {
    match s.lock
    case ServerHolds => step := if s.server.stage.DropClr? then DropClear else DropEntry;
    case SenderHolds =>
      step := BcastEnd;
      if s.sender.failed.None? && s.sender.left != {} {
        var h := Sets.Pick(s.sender.left);
        step := BcastSend(h, -1);
      }
    case OwnerHolds =>
      step := if s.owner.Clearing? then ClearUnlock else CloseListener;
      if s.owner.Closing? && s.owner.left != {} {
        var h := Sets.Pick(s.owner.left);
        step := CloseClient(h);
      }
  }

  /** Whoever holds the mutex can go on towards releasing it. */
  lemma HolderCanStep(r: Schedule)
    requires Legal(r) && !Exec(r).lock.Free?
    ensures exists step :: HolderStep(Exec(r), step) && Legal(Next(r, step))
  {
    Safety(r);
    var step := HolderCanStepIn(Exec(r));
    assert HolderStep(Exec(r), step) && Legal(Next(r, step));
  }

  // ---------------------------------------------------------------- the mutex is released

  /** How many steps the holder of the mutex can still take at most before it releases it: closing, clearing and
      erasing a client for the server thread, a send per client for a broadcast, a close per client and one for
      the listener in finish. */
  function HoldLeft(s: State): nat {
    match s.lock
    case Free => 0
    case ServerHolds => if Stage?(s, DropClr) then 2 else 1
    case SenderHolds => if s.sender.Sending? && s.sender.failed.None? then |s.sender.left| + 1 else 1
    case OwnerHolds => if s.owner.Closing? then |s.owner.left| + 2 else 1
  }

  /** The step s to s' brings the release of the mutex nearer, or is the release. */
  predicate Nearer(s: State, s': State) {
    HoldLeft(s') < HoldLeft(s) && (s'.lock.Free? || s'.lock == s.lock) && (s'.lock.Free? <==> HoldLeft(s') == 0)
  }

  lemma DroppingDescends(s: State, step: Step)
    requires Locks(s.lock, s.server, s.owner, s.sender) && Enabled(s, step) && s.lock.ServerHolds?
    requires step.DropClear? || step.DropEntry?
    ensures Nearer(s, Apply(s, step))
  {
  }

  lemma SendingDescends(s: State, step: Step)
    requires Locks(s.lock, s.server, s.owner, s.sender) && Enabled(s, step) && s.lock.SenderHolds?
    requires step.BcastSend? || step.BcastEnd?
    ensures Nearer(s, Apply(s, step))
  {
  }

  lemma ClosingDescends(s: State, step: Step)
    requires Locks(s.lock, s.server, s.owner, s.sender) && Enabled(s, step) && s.lock.OwnerHolds?
    requires step.CloseClient? || step.CloseListener? || step.ClearUnlock?
    ensures Nearer(s, Apply(s, step))
  {
  }

  lemma HolderDescends(s: State, step: Step)
    requires Inv(s) && Enabled(s, step) && HolderStep(s, step)
    ensures Nearer(s, Apply(s, step))
  {
    hide Inv, Enabled, Apply, Nearer, Locks;
    MutexIn(s);
    match s.lock
    case ServerHolds => DroppingDescends(s, step);
    case SenderHolds => SendingDescends(s, step);
    case OwnerHolds => ClosingDescends(s, step);
  }

  /** While the mutex is held, nobody else changes that, nor what the holder has yet to do. */
  lemma OthersKeepHold(s: State, step: Step)
    requires Inv(s) && Enabled(s, step) && !s.lock.Free? && !HolderStep(s, step)
    ensures Apply(s, step).lock == s.lock && HoldLeft(Apply(s, step)) == HoldLeft(s)
  {
    hide Inv, Enabled, Apply, HolderStep, HoldLeft, Locks;
    MutexIn(s);
    if ByOwner(step) {
      OwnerKeepsHold(s, step);
    } else if Receiving(step) {
      ReceivingKeepsHold(s, step);
    } else if Calling(step) {
      CallingKeepsHold(s, step);
    } else if ByServer(step) {
      ServerKeepsHold(s, step);
    } else if BySender(step) {
      SenderIsHolder(s, step);
    } else {
      OutsideKeepsHold(s, step);
    }
  }

  lemma OwnerKeepsHold(s: State, step: Step)
    requires Locks(s.lock, s.server, s.owner, s.sender) && Enabled(s, step)
    requires !s.lock.Free? && !HolderStep(s, step) && ByOwner(step)
    ensures Apply(s, step).lock == s.lock && HoldLeft(Apply(s, step)) == HoldLeft(s)
  {
  }

  lemma ReceivingKeepsHold(s: State, step: Step)
    requires Locks(s.lock, s.server, s.owner, s.sender) && Enabled(s, step)
    requires !s.lock.Free? && Receiving(step)
    ensures Apply(s, step).lock == s.lock && HoldLeft(Apply(s, step)) == HoldLeft(s)
  {
  }

  lemma CallingKeepsHold(s: State, step: Step)
    requires Locks(s.lock, s.server, s.owner, s.sender) && Enabled(s, step)
    requires !s.lock.Free? && Calling(step) && !Receiving(step)
    ensures Apply(s, step).lock == s.lock && HoldLeft(Apply(s, step)) == HoldLeft(s)
  {
  }

  lemma ServerKeepsHold(s: State, step: Step)
    requires Locks(s.lock, s.server, s.owner, s.sender) && Enabled(s, step)
    requires !s.lock.Free? && !HolderStep(s, step) && ByServer(step) && !Calling(step)
    ensures Apply(s, step).lock == s.lock && HoldLeft(Apply(s, step)) == HoldLeft(s)
  {
  }

  lemma SenderIsHolder(s: State, step: Step)
    requires Locks(s.lock, s.server, s.owner, s.sender) && Enabled(s, step) && !s.lock.Free? && BySender(step)
    ensures HolderStep(s, step)
  {
  }

  lemma OutsideKeepsHold(s: State, step: Step)
    requires Enabled(s, step) && Outside(step)
    ensures Apply(s, step).lock == s.lock && HoldLeft(Apply(s, step)) == HoldLeft(s)
  {
  }

  /** The mutex was not free in any state from r0 to r. */
  ghost predicate HeldThrough(r: Schedule, r0: Schedule)
    requires Extends(r, r0) && Legal(r)
  {
    !Exec(r).lock.Free? && (r == r0 || HeldThrough(r.before, r0))
  }

  /** The steps of the holder in r after r0. */
  ghost function HolderSteps(r: Schedule, r0: Schedule): nat
    requires Extends(r, r0) && Legal(r)
  {
    if r == r0 then 0 else HolderSteps(r.before, r0) + if HolderStep(Exec(r.before), r.step) then 1 else 0
  }

  /** Whoever holds the mutex keeps it for fewer steps of its own than it had left: after that many it has
      released it, whatever the other threads do. */
  lemma {:induction false} ReleasesWithin(r: Schedule, r0: Schedule)
    requires Legal(r) && Extends(r, r0) && HeldThrough(r, r0) && Legal(r0)
    ensures Exec(r).lock == Exec(r0).lock
    ensures HolderSteps(r, r0) + HoldLeft(Exec(r)) <= HoldLeft(Exec(r0)) && 0 < HoldLeft(Exec(r))
  {
    hide Inv, Enabled, Apply, HolderStep;
    if r != r0 {
      var s := Exec(r.before);
      ReleasesWithin(r.before, r0);
      Safety(r.before);
      if HolderStep(s, r.step) {
        HolderDescends(s, r.step);
      } else {
        OthersKeepHold(s, r.step);
      }
    }
  }

  // ---------------------------------------------------------------- the server thread ends

  /** How many steps a descriptor can still take at most, from a stage of serving it on. */
  function StageSteps(stage: Stage): nat {
    match stage
    case Look => 6
    case Serve => 5
    case Drop => 4
    case DropClr => 3
    case DropErase => 2
    case TellGone => 1
    case TellData(_) => 1
    case Accepting => 4
    case Emplace(_, _, _) => 3
    case Arm(_) => 2
    case TellNew(_) => 1
  }

  /** How many steps the server thread can still take at most once the stop flag is set, if the descriptors
      select is given are below m. */
  function StepsLeft(server: ServerPc, m: nat): nat {
    match server
    case Off => 0
    case Exited => 0
    case Top => 1
    case Polling => 6 * m + 3
    case At(_, maxfd, fd, stage) => 2 + if fd < maxfd then 6 * (maxfd - fd - 1) + StageSteps(stage) else 0
  }

  /** What select was given, or is about to be given, is below m. */
  ghost predicate Below(server: ServerPc, sockfd: int, clients: map<int, Entry>, m: nat) {
    && (server.Polling? ==> sockfd < m && forall h :: h in clients ==> clients[h].sockfd < m)
    && (server.At? ==> server.maxfd <= m)
  }

  /** A descriptor is only served if it is in the range of the scan. */
  predicate InRange(server: ServerPc) { server.At? && !server.stage.Look? ==> server.fd < server.maxfd }

  lemma ServedInRange(s: State)
    requires Inv(s) && PassOk(s)
    ensures InRange(s.server)
  {
  }

  lemma ReceivingDescends(s: State, step: Step, m: nat)
    requires Enabled(s, step) && Receiving(step) && Below(s.server, s.sockfd, s.clients, m) && InRange(s.server)
    ensures var s' := Apply(s, step);
      Below(s'.server, s.sockfd, s.clients, m) && StepsLeft(s'.server, m) < StepsLeft(s.server, m)
  {
  }

  lemma SelectingDescends(s: State, step: Step, m: nat)
    requires Enabled(s, step) && Selecting(step) && Below(s.server, s.sockfd, s.clients, m)
    ensures var s' := Apply(s, step);
      Below(s'.server, s.sockfd, s.clients, m) && StepsLeft(s'.server, m) < StepsLeft(s.server, m)
  {
  }

  lemma CallingDescends(s: State, step: Step, m: nat)
    requires Enabled(s, step) && (step.DropClose? || step.AcceptFail? || step.AcceptOk?)
    requires Below(s.server, s.sockfd, s.clients, m) && InRange(s.server)
    ensures var s' := Apply(s, step);
      Below(s'.server, s.sockfd, s.clients, m) && StepsLeft(s'.server, m) < StepsLeft(s.server, m)
  {
  }

  lemma OthersDescend(s: State, step: Step, m: nat)
    requires Enabled(s, step) && ByServer(step) && !Calling(step) && s.stop
    requires Below(s.server, s.sockfd, s.clients, m) && InRange(s.server)
    ensures var s' := Apply(s, step);
      && !s'.server.Polling? && Below(s'.server, s'.sockfd, s'.clients, m)
      && StepsLeft(s'.server, m) < StepsLeft(s.server, m)
  {
  }

  lemma ServerDescends(s: State, step: Step, m: nat)
    requires Inv(s) && PassOk(s) && Enabled(s, step) && ByServer(step) && s.stop
    requires Below(s.server, s.sockfd, s.clients, m)
    ensures var s' := Apply(s, step);
      Below(s'.server, s'.sockfd, s'.clients, m) && StepsLeft(s'.server, m) < StepsLeft(s.server, m)
  {
    hide Inv, PassOk, Enabled, Apply, StepsLeft, Below, InRange;
    ServedInRange(s);
    if Receiving(step) {
      ReceivingDescends(s, step, m);
      CallingFrame(s, step);
    } else if Selecting(step) {
      SelectingDescends(s, step, m);
      CallingFrame(s, step);
    } else if Calling(step) {
      CallingDescends(s, step, m);
      CallingFrame(s, step);
    } else {
      OthersDescend(s, step, m);
    }
  }

  lemma StopStays(s: State, step: Step)
    requires Enabled(s, step)
    ensures s.stop ==> Apply(s, step).stop
  {
    if ByServer(step) {
      hide Enabled, Apply;
      ServerRuns(s, step);
    } else if BySender(step) {
      hide Enabled, Apply;
      SenderFrame(s, step);
    } else if Outside(step) {
      hide Enabled, Apply;
      OutsideFrame(s, step);
    }
  }

  /** Whatever the other threads do, the server thread stays where it is and what it polls stays in range. */
  lemma OthersLeaveIt(s: State, step: Step, m: nat)
    requires Inv(s) && Enabled(s, step) && !ByServer(step) && !s.server.Off? && Below(s.server, s.sockfd, s.clients, m)
    ensures var s' := Apply(s, step); s'.server == s.server && Below(s'.server, s'.sockfd, s'.clients, m)
  {
    if ByOwner(step) {
    } else if BySender(step) {
      hide Inv, Enabled, Apply, Below;
      SenderFrame(s, step);
    } else {
      hide Inv, Below;
      OutsideFrame(s, step);
    }
  }

  /** The steps of the server thread in r after r0. */
  function ServerSteps(r: Schedule, r0: Schedule): nat
    requires Extends(r, r0)
  {
    if r == r0 then 0 else ServerSteps(r.before, r0) + if ByServer(r.step) then 1 else 0
  }

  lemma StepsBounded(s: State, m: nat)
    requires Inv(s) && Below(s.server, s.sockfd, s.clients, m)
    ensures StepsLeft(s.server, m) <= 6 * m + 3
  {
  }

  lemma NoneLeft(server: ServerPc, m: nat)
    requires !server.Off? && StepsLeft(server, m) == 0
    ensures server.Exited?
  {
  }

  /** Once the stop flag is set, the server thread, wherever it stands in a pass, takes no more than a bounded
      number of steps of its own before it has ended, which is what waiting for it in finish relies on. */
  lemma {:induction false} StopsWithin(r: Schedule, r0: Schedule, m: nat)
    requires Legal(r) && Legal(r0) && Extends(r, r0) && Exec(r0).stop && !Exec(r0).server.Off?
    requires Below(Exec(r0).server, Exec(r0).sockfd, Exec(r0).clients, m)
    ensures ServerSteps(r, r0) + StepsLeft(Exec(r).server, m) <= StepsLeft(Exec(r0).server, m) <= 6 * m + 3
    ensures Exec(r).stop && !Exec(r).server.Off? && Below(Exec(r).server, Exec(r).sockfd, Exec(r).clients, m)
    ensures StepsLeft(Exec(r).server, m) == 0 ==> Exec(r).server.Exited?
  {
    hide Inv, PassOk, Enabled, Apply, StepsLeft, Below;
    Safety(r0);
    StepsBounded(Exec(r0), m);
    if StepsLeft(Exec(r).server, m) == 0 && !Exec(r).server.Off? {
      NoneLeft(Exec(r).server, m);
    }
    if r != r0 {
      var s := Exec(r.before);
      StopsWithin(r.before, r0, m);
      Safety(r.before);
      EveryReadyDescriptorServedOnce(r.before);
      StopStays(s, r.step);
      if ByServer(r.step) {
        ServerDescends(s, r.step, m);
        ServerRuns(s, r.step);
      } else {
        OthersLeaveIt(s, r.step, m);
      }
    }
  }
}
