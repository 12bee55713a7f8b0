/** The client end of a connection as a step system: the receiving thread, the thread that connects, sends and
    finishes, and the other end of the connection take atomic steps in any order. */
module TcpClientProtocol {
  import opened TcpEvents

  datatype Notice = Arrived(data: Bytes) | Disconnected

  /** Where the receiving thread stands: not started, about to look at the stop flag, in select, about to receive,
      about to raise the flag, about to tell the application something, or ended. */
  datatype ReceiverPc = Off | Top | Waiting | Reading | Ending | TellData(data: Bytes) | TellGone | Exited

  /** What the thread that connects and finishes has done. */
  datatype AppPc = Fresh | Created | Failed | Up | Joining | Finished

  datatype ClientState = ClientState(
    pc: ReceiverPc,
    app: AppPc,
    stop: bool,
    sockfd: int,
    wire: Bytes,        // what the other end put on the connection and was not received yet
    shut: bool,         // the other end has closed it
    log: seq<Call>,
    heard: seq<Notice>  // what the application was told
  )

  datatype ClientStep =
    // the thread that connects, sends and finishes
    | OpenFail
    | OpenSocket(fd: int)
    | SetupFail
    | SetupDone
    | SendOut(msg: Bytes, n: int)
    | Stop
    | JoinAndClose
    // the receiving thread
    | Quit
    | Enter
    | SelectNothing
    | SelectReady
    | Take(n: int)
    | TakeNothing(n: int)
    | RaiseFlag
    | NotifyData
    | NotifyGone
    // the other end
    | Put(data: Bytes)
    | Shut

  function Init(): ClientState { ClientState(Off, Fresh, false, INVALID_SOCKET, [], false, [], []) }

  /** Receive returns 0 only once the other end has closed the connection and everything was received; it may fail
      at any time. */
  predicate Enabled(c: ClientState, step: ClientStep) {
    match step
    case OpenFail => c.app.Fresh?
    case OpenSocket(fd) => c.app.Fresh? && 0 <= fd
    case SetupFail => c.app.Created?
    case SetupDone => c.app.Created?
    case SendOut(msg, n) => -1 <= n <= |msg|
    case Stop => c.app.Fresh? || c.app.Failed? || c.app.Up? || c.app.Finished?
    case JoinAndClose => c.app.Joining? && (c.pc.Off? || c.pc.Exited?)
    case Quit => c.pc.Top? && c.stop
    case Enter => c.pc.Top? && !c.stop
    case SelectNothing => c.pc.Waiting?
    case SelectReady => c.pc.Waiting?
    case Take(n) => c.pc.Reading? && 1 <= n <= MAX_PACKET_SIZE && n <= |c.wire|
    case TakeNothing(n) => c.pc.Reading? && ((n == 0 && c.shut && c.wire == []) || n == -1)
    case RaiseFlag => c.pc.Ending?
    case NotifyData => c.pc.TellData?
    case NotifyGone => c.pc.TellGone?
    case Put(data) => c.shut ==> data == []
    case Shut => true
  }

  function Log(c: ClientState, call: Call): ClientState { c.(log := c.log + [call]) }

  function Apply(c: ClientState, step: ClientStep): ClientState
    requires Enabled(c, step)
  {
    match step
    case OpenFail => c.(app := Failed)
    case OpenSocket(fd) => Log(c, Call.Opened(fd)).(app := Created, sockfd := fd)
    case SetupFail => c.(app := Failed)
    case SetupDone => c.(app := Up, pc := Top)
    case SendOut(msg, n) => Log(c, Call.Sent(c.sockfd, n, msg))
    case Stop => c.(app := Joining, stop := true)
    case JoinAndClose =>
      (if c.sockfd == INVALID_SOCKET then c else Log(c, Closed(c.sockfd))).(app := Finished, sockfd := INVALID_SOCKET)
    case Quit => c.(pc := Exited)
    case Enter => c.(pc := Waiting)
    case SelectNothing => Log(c, Selected({})).(pc := Top)
    case SelectReady => Log(c, Selected({c.sockfd})).(pc := Reading)
    case Take(n) => Log(c, Received(c.sockfd, n, c.wire[..n])).(pc := TellData(c.wire[..n]), wire := c.wire[n..])
    case TakeNothing(n) => Log(c, Received(c.sockfd, n, [])).(pc := Ending)
    case RaiseFlag => c.(stop := true, pc := TellGone)
    case NotifyData => c.(heard := c.heard + [Arrived(c.pc.data)], pc := Top)
    case NotifyGone => c.(heard := c.heard + [Disconnected], pc := Exited)
    case Put(data) => c.(wire := c.wire + data)
    case Shut => c.(shut := true)
  }

  predicate ByReceiver(step: ClientStep) {
    || step.Quit? || step.Enter? || step.SelectNothing? || step.SelectReady? || step.Take? || step.TakeNothing?
    || step.RaiseFlag? || step.NotifyData? || step.NotifyGone?
  }

  datatype ClientSchedule = Start | Next(before: ClientSchedule, step: ClientStep)

  predicate Legal(r: ClientSchedule)
    decreases r, 0
  {
    match r
    case Start => true
    case Next(before, step) => Legal(before) && Enabled(Exec(before), step)
  }

  function Exec(r: ClientSchedule): ClientState
    requires Legal(r)
    decreases r, 1
  {
    match r
    case Start => Init()
    case Next(before, step) => Apply(Exec(before), step)
  }

  predicate Extends(r: ClientSchedule, r0: ClientSchedule) {
    r == r0 || (r.Next? && Extends(r.before, r0))
  }

  /** All the bytes the other end put on the connection. */
  function PutBy(r: ClientSchedule): Bytes {
    match r
    case Start => []
    case Next(before, step) => PutBy(before) + if step.Put? then step.data else []
  }

  // ---------------------------------------------------------------- what is received and what is heard

  /** The bytes received, put together. */
  function Got(log: seq<Call>): Bytes {
    if log == [] then []
    else
      var c := log[|log| - 1];
      Got(log[..|log| - 1]) + if c.Received? then c.data else []
  }

  /** The data the application was told of, put together. */
  function Joined(heard: seq<Notice>): Bytes {
    if heard == [] then []
    else
      var n := heard[|heard| - 1];
      Joined(heard[..|heard| - 1]) + if n.Arrived? then n.data else []
  }

  /** Received, and the application not told yet. */
  function InHand(pc: ReceiverPc): Bytes { if pc.TellData? then pc.data else [] }

  /** Data in chunks of one byte to one packet, then at most one Disconnected and nothing after it. */
  predicate WellHeard(heard: seq<Notice>) {
    && (forall i :: 0 <= i < |heard| && heard[i].Disconnected? ==> i == |heard| - 1)
    && (forall i :: 0 <= i < |heard| && heard[i].Arrived? ==> 1 <= |heard[i].data| <= 65536)
  }

  predicate Ended(heard: seq<Notice>) { heard != [] && heard[|heard| - 1].Disconnected? }

  lemma GotMore(log: seq<Call>, c: Call)
    ensures Got(log + [c]) == Got(log) + if c.Received? then c.data else []
  {
    assert (log + [c])[..|log|] == log;
  }

  lemma HearMore(heard: seq<Notice>, n: Notice)
    requires WellHeard(heard) && !Ended(heard)
    requires n.Arrived? ==> 1 <= |n.data| <= MAX_PACKET_SIZE
    ensures WellHeard(heard + [n]) && (Ended(heard + [n]) <==> n.Disconnected?)
    ensures Joined(heard + [n]) == Joined(heard) + if n.Arrived? then n.data else []
  {
    assert (heard + [n])[..|heard|] == heard;
  }

  /** The descriptors opened and not closed again. */
  function Unclosed(log: seq<Call>): int {
    if log == [] then 0
    else
      var c := log[|log| - 1];
      Unclosed(log[..|log| - 1]) + if c.Opened? then 1 else if c.Closed? then -1 else 0
  }

  lemma UnclosedMore(log: seq<Call>, c: Call)
    ensures Unclosed(log + [c]) == Unclosed(log) + if c.Opened? then 1 else if c.Closed? then -1 else 0
  {
    assert (log + [c])[..|log|] == log;
  }

  /** The two threads of the client know of each other. */
  predicate Phases(c: ClientState) {
    && (c.pc.Off? ==> c.heard == [])
    && (!c.pc.Off? && !c.pc.Exited? ==> (c.app.Up? || c.app.Joining?) && c.sockfd != INVALID_SOCKET)
    && (c.app.Fresh? || c.app.Created? ==> c.pc.Off?)
    && (c.app.Fresh? || c.app.Finished? ==> c.sockfd == INVALID_SOCKET)
    && (c.app.Created? ==> c.sockfd != INVALID_SOCKET)
    && (c.app.Joining? || c.app.Finished? || c.pc.TellGone? || c.pc.Exited? ==> c.stop)
    && Unclosed(c.log) == if c.sockfd == INVALID_SOCKET then 0 else 1
  }

  /** What the receiving thread told, has in hand, and left on the wire is what was put on the connection; and it
      has told of the end only if it is through. */
  predicate Stream(c: ClientState, put: Bytes) {
    && Got(c.log) + c.wire == put
    && Got(c.log) == Joined(c.heard) + InHand(c.pc)
    && WellHeard(c.heard)
    && (Ended(c.heard) ==> c.pc.Exited?)
    && (c.pc.TellData? ==> 1 <= |c.pc.data| <= MAX_PACKET_SIZE)
  }

  lemma PhasesKept(c: ClientState, step: ClientStep)
    requires Phases(c) && Enabled(c, step)
    ensures Phases(Apply(c, step))
  {
    hide Unclosed;
    var c' := Apply(c, step);
    if c'.log != c.log {
      UnclosedMore(c.log, c'.log[|c.log|]);
      assert c'.log == c.log + [c'.log[|c.log|]];
    }
  }

  lemma TakeKeepsStream(c: ClientState, n: int, put: Bytes)
    requires Stream(c, put) && Enabled(c, Take(n))
    ensures Stream(Apply(c, Take(n)), put)
  {
    hide Got, Joined, WellHeard, Ended;
    var taken := c.wire[..n];
    GotMore(c.log, Received(c.sockfd, n, taken));
    assert c.wire == taken + c.wire[n..];
    assert (Got(c.log) + taken) + c.wire[n..] == Got(c.log) + (taken + c.wire[n..]);
  }

  lemma TellingKeepsStream(c: ClientState, step: ClientStep, put: Bytes)
    requires Stream(c, put) && Enabled(c, step) && (step.NotifyData? || step.NotifyGone?)
    ensures Stream(Apply(c, step), put)
  {
    hide Got, Joined, WellHeard, Ended;
    HearMore(c.heard, if step.NotifyData? then Arrived(c.pc.data) else Disconnected);
  }

  /** A step of the receiving thread takes from the wire, hands over, or does neither. */
  lemma ReceiverKeepsStream(c: ClientState, step: ClientStep, put: Bytes)
    requires Stream(c, put) && Enabled(c, step) && ByReceiver(step)
    ensures Stream(Apply(c, step), put)
  {
    hide Got, Joined, WellHeard, Ended;
    if step.Take? {
      TakeKeepsStream(c, step.n, put);
    } else if step.NotifyData? || step.NotifyGone? {
      TellingKeepsStream(c, step, put);
    } else {
      var c' := Apply(c, step);
      if c'.log != c.log {
        GotMore(c.log, c'.log[|c.log|]);
        assert c'.log == c.log + [c'.log[|c.log|]];
      }
    }
  }

  lemma OthersKeepStream(c: ClientState, step: ClientStep, put: Bytes)
    requires Stream(c, put) && Phases(c) && Enabled(c, step) && !ByReceiver(step)
    ensures Stream(Apply(c, step), put + if step.Put? then step.data else [])
  {
    hide Got, Joined, WellHeard, Ended, Unclosed;
    var c' := Apply(c, step);
    if c'.log != c.log {
      GotMore(c.log, c'.log[|c.log|]);
      assert c'.log == c.log + [c'.log[|c.log|]];
    }
  }

  /** Receive returned 0 once. */
  predicate SawEnd(log: seq<Call>) { exists i :: 0 <= i < |log| && log[i].Received? && log[i].n == 0 }

  lemma SawEndMore(log: seq<Call>, c: Call)
    ensures SawEnd(log + [c]) <==> SawEnd(log) || (c.Received? && c.n == 0)
  {
    var l := log + [c];
    assert l[|log|] == c && forall i :: 0 <= i < |log| ==> l[i] == log[i];
  }

  /** Then nothing is left to come, to receive or to hand over. */
  predicate Through(c: ClientState) {
    SawEnd(c.log) ==> c.shut && c.wire == [] && (c.pc.Ending? || c.pc.TellGone? || c.pc.Exited?)
  }

  lemma ThroughKept(c: ClientState, step: ClientStep)
    requires Through(c) && Phases(c) && Enabled(c, step)
    ensures Through(Apply(c, step))
  {
    var c' := Apply(c, step);
    if c'.log != c.log {
      SawEndMore(c.log, c'.log[|c.log|]);
      assert c'.log == c.log + [c'.log[|c.log|]];
    }
  }

  /** Under every interleaving: what the application was told of, what the receiving thread has in hand and what is
      still on the wire are, in this order, exactly what the other end put on the connection; data comes in chunks
      of one byte to one packet, then at most one Disconnected, which ends the thread. */
  lemma {:induction false} ClientHearsStream(r: ClientSchedule)
    requires Legal(r)
    ensures var c := Exec(r);
      && PutBy(r) == Joined(c.heard) + InHand(c.pc) + c.wire
      && Stream(c, PutBy(r)) && Phases(c)
  {
    if r.Next? {
      var c, step := Exec(r.before), r.step;
      ClientHearsStream(r.before);
      PhasesKept(c, step);
      assert PutBy(r.before) + [] == PutBy(r.before);
      if ByReceiver(step) {
        ReceiverKeepsStream(c, step, PutBy(r.before));
      } else {
        OthersKeepStream(c, step, PutBy(r.before));
      }
    }
  }

  /** A receive returned less than one byte. */
  predicate SawNothing(log: seq<Call>) { exists i :: 0 <= i < |log| && log[i].Received? && log[i].n < 1 }

  lemma SawNothingMore(log: seq<Call>, c: Call)
    ensures SawNothing(log + [c]) <==> SawNothing(log) || (c.Received? && c.n < 1)
  {
    var l := log + [c];
    assert l[|log|] == c && forall i :: 0 <= i < |log| ==> l[i] == log[i];
  }

  /** Then the receiving thread is about to tell the application of the end, or has. */
  predicate EndUnderWay(c: ClientState) {
    SawNothing(c.log) <==> c.pc.Ending? || c.pc.TellGone? || Ended(c.heard)
  }

  lemma EndUnderWayKept(c: ClientState, step: ClientStep, put: Bytes)
    requires EndUnderWay(c) && Phases(c) && Stream(c, put) && Enabled(c, step)
    ensures EndUnderWay(Apply(c, step))
  {
    var c' := Apply(c, step);
    if c'.log != c.log {
      SawNothingMore(c.log, c'.log[|c.log|]);
      assert c'.log == c.log + [c'.log[|c.log|]];
    }
  }

  /** The application is told of the end exactly if a receive returned less than one byte, be it the end of the
      connection or a failure: as soon as the receiving thread is through. */
  lemma {:induction false} EndToldExactly(r: ClientSchedule)
    requires Legal(r)
    ensures EndUnderWay(Exec(r))
    ensures Exec(r).pc.Exited? ==> (Ended(Exec(r).heard) <==> SawNothing(Exec(r).log))
  {
    if r.Next? {
      EndToldExactly(r.before);
      ClientHearsStream(r.before);
      EndUnderWayKept(Exec(r.before), r.step, PutBy(r.before));
    }
  }

  /** How often select was called. */
  function Selections(log: seq<Call>): nat {
    if log == [] then 0 else Selections(log[..|log| - 1]) + if log[|log| - 1].Selected? then 1 else 0
  }

  lemma SelectionsMore(log: seq<Call>, c: Call)
    ensures Selections(log + [c]) == Selections(log) + if c.Selected? then 1 else 0
  {
    assert (log + [c])[..|log|] == log;
  }

  // ---------------------------------------------------------------- the end

  lemma {:induction false} ThroughAlways(r: ClientSchedule)
    requires Legal(r)
    ensures Through(Exec(r))
  {
    if r.Next? {
      ThroughAlways(r.before);
      ClientHearsStream(r.before);
      ThroughKept(Exec(r.before), r.step);
    }
  }

  /** An orderly end loses nothing: once receive has returned 0, the application was told of every byte that was
      put on the connection, and no more will be. */
  lemma OrderlyEnd(r: ClientSchedule)
    requires Legal(r) && SawEnd(Exec(r).log)
    ensures Joined(Exec(r).heard) == PutBy(r) && Exec(r).shut
  {
    hide Stream, Phases;
    ThroughAlways(r);
    ClientHearsStream(r);
    assert Joined(Exec(r).heard) + [] + [] == Joined(Exec(r).heard);
  }

  lemma EndStays(c: ClientState, step: ClientStep)
    requires Phases(c) && Enabled(c, step) && c.pc.Exited?
    ensures Apply(c, step).pc.Exited? && Apply(c, step).heard == c.heard
  {
  }

  /** After the receiving thread has ended, by itself or because it was told to, the application hears nothing. */
  lemma {:induction false} NothingAfterEnd(r: ClientSchedule, r0: ClientSchedule)
    requires Legal(r) && Legal(r0) && Extends(r, r0) && Exec(r0).pc.Exited?
    ensures Exec(r).pc.Exited? && Exec(r).heard == Exec(r0).heard
  {
    if r != r0 {
      NothingAfterEnd(r.before, r0);
      ClientHearsStream(r.before);
      EndStays(Exec(r.before), r.step);
    }
  }

  /** When finish has returned, the socket, if there was one, was closed, and the receiving thread does not run. */
  lemma FinishedIsClosed(r: ClientSchedule)
    requires Legal(r) && Exec(r).app.Finished?
    ensures Unclosed(Exec(r).log) == 0 && (Exec(r).pc.Off? || Exec(r).pc.Exited?)
  {
    ClientHearsStream(r);
  }

  /** How many steps the receiving thread can still take at most once the flag is set. */
  function StepsLeft(pc: ReceiverPc): nat {
    match pc
    case Off => 0
    case Exited => 0
    case Top => 1
    case TellGone => 1
    case TellData(_) => 2
    case Ending => 2
    case Reading => 3
    case Waiting => 4
  }

  lemma Descends(c: ClientState, step: ClientStep)
    requires Enabled(c, step) && c.stop
    ensures Apply(c, step).stop
    ensures ByReceiver(step) ==> StepsLeft(Apply(c, step).pc) < StepsLeft(c.pc)
    ensures !ByReceiver(step) && !step.SetupDone? ==> Apply(c, step).pc == c.pc
  {
  }

  function ReceiverSteps(r: ClientSchedule, r0: ClientSchedule): nat
    requires Extends(r, r0)
  {
    if r == r0 then 0 else ReceiverSteps(r.before, r0) + if ByReceiver(r.step) then 1 else 0
  }

  /** Once the flag is set the receiving thread takes at most four more steps before it has ended. */
  lemma {:induction false} StopsWithin(r: ClientSchedule, r0: ClientSchedule)
    requires Legal(r) && Legal(r0) && Extends(r, r0) && Exec(r0).stop && !Exec(r0).pc.Off?
    ensures ReceiverSteps(r, r0) + StepsLeft(Exec(r).pc) <= StepsLeft(Exec(r0).pc) <= 4
    ensures Exec(r).stop && !Exec(r).pc.Off? && (StepsLeft(Exec(r).pc) == 0 ==> Exec(r).pc.Exited?)
  {
    if r != r0 {
      StopsWithin(r.before, r0);
      ClientHearsStream(r.before);
      Descends(Exec(r.before), r.step);
    }
  }

  /** A step the receiving thread can take. */
  function ReceiverNext(pc: ReceiverPc, stop: bool): ClientStep
    requires !pc.Off? && !pc.Exited?
  {
    match pc
    case Top => if stop then Quit else Enter
    case Waiting => SelectNothing
    case Reading => TakeNothing(-1)
    case Ending => RaiseFlag
    case TellData(_) => NotifyData
    case TellGone => NotifyGone
  }

  /** The receiving thread never waits for the others: until it has ended, every schedule goes on with a step of
      its own. */
  lemma ReceiverCanStep(r: ClientSchedule)
    requires Legal(r) && !Exec(r).pc.Off? && !Exec(r).pc.Exited?
    ensures var step := ReceiverNext(Exec(r).pc, Exec(r).stop); ByReceiver(step) && Legal(Next(r, step))
  {
  }
}
