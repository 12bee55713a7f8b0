/** Converting messages from topic to topics through a table that three threads use at once. */
module Routing {
  import opened Publishing
  import opened Subscribing
  import opened Options

  type Table = map<string, seq<string>>
  type Trace = seq<Message<string>>

  const RECEIVER_TOPIC := "zmqStack-0-ingress"

  /** The topic a message is looked up under: its first frame, unless that is all there is. */
  function Topic(msgs: Frames): string
    requires msgs != []
  {
    if |msgs| == 1 then RECEIVER_TOPIC else msgs[0]
  }

  function Payload(msgs: Frames): string
    requires msgs != []
  {
    if |msgs| == 1 then msgs[0] else msgs[1]
  }

  // ---------------------------------------------------------------- what one operation does

  datatype Op =
    | Forward(msgs: Frames)
    | AddConversion(topic: string, topics: seq<string>)
    | RemoveConversion(topic: string)

  predicate Proper(op: Op) { op.Forward? ==> op.msgs != [] }

  /** The block of messages an operation publishes under a table. */
  function Block(table: Table, op: Op): Trace
    requires Proper(op)
  {
    if op.Forward? && Topic(op.msgs) in table then Fanout(table[Topic(op.msgs)], Payload(op.msgs)) else []
  }

  function ChangedTable(table: Table, op: Op): Table {
    match op
    case Forward(_) => table
    case AddConversion(t, topics) => table[t := topics]
    case RemoveConversion(t) => table - {t}
  }

  predicate Touches(op: Op, t: string) { !op.Forward? && op.topic == t }

  /** The table after operations done one after the other, and everything they publish. */
  function TableAfter(init: Table, ops: seq<Op>): Table {
    if ops == [] then init else ChangedTable(TableAfter(init, ops[..|ops| - 1]), ops[|ops| - 1])
  }

  function Published(init: Table, ops: seq<Op>): Trace
    requires forall op :: op in ops ==> Proper(op)
  {
    if ops == [] then []
    else
      var before := ops[..|ops| - 1];
      Published(init, before) + Block(TableAfter(init, before), ops[|ops| - 1])
  }

  class ConvStack {
    var conversionMap: Table
    const stack: ZmqStack
    const publisher: Publisher<string>

    constructor (topics: seq<string>, conversions: Table)
      ensures conversionMap == conversions && stack.subscriber.filters == Initially(topics)
      ensures publisher.sent == [] && stack.subscriptions == Listing(topics)
    {
      stack := new ZmqStack(topics);
      publisher := new Publisher<string>();
      conversionMap := conversions;
    }

    method OnReceivedMessage(msgs: Frames)
      requires msgs != []
      modifies publisher
      ensures publisher.sent == old(publisher.sent) + Block(conversionMap, Forward(msgs))
      ensures publisher.sent == old(publisher.sent) +
        (if |msgs| == 1 then
           (if "zmqStack-0-ingress" in conversionMap then Fanout(conversionMap["zmqStack-0-ingress"], msgs[0]) else [])
         else if msgs[0] in conversionMap then Fanout(conversionMap[msgs[0]], msgs[1])
         else [])
    {
      var topic, msg;
      if |msgs| == 1 {
        topic := RECEIVER_TOPIC;
        msg := msgs[0];
      } else {
        topic := msgs[0];
        msg := msgs[1];
      }
      if topic in conversionMap {
        var topics := conversionMap[topic];
        publisher.PublishAll(topics, msg);
      }
    }

    method AddConversion(subTopic: string, pubTopics: seq<string>)
      modifies this, stack, stack.subscriber`filters
      ensures conversionMap == ChangedTable(old(conversionMap), Op.AddConversion(subTopic, pubTopics))
      ensures stack.subscriber.filters == ChangedFilters(old(stack.subscriber.filters), Add(subTopic))
      ensures stack.subscriptions == ChangedSet(old(stack.subscriptions), Add(subTopic))
    {
      stack.Subscribe(subTopic);
      conversionMap := conversionMap[subTopic := pubTopics];
    }

    method RemoveConversion(subTopic: string)
      modifies this, stack, stack.subscriber`filters
      ensures conversionMap == ChangedTable(old(conversionMap), Op.RemoveConversion(subTopic))
      ensures stack.subscriber.filters == ChangedFilters(old(stack.subscriber.filters), Drop(subTopic))
      ensures stack.subscriptions == ChangedSet(old(stack.subscriptions), Drop(subTopic))
    {
      stack.Unsubscribe(subTopic);
      conversionMap := map t | t in conversionMap && t != subTopic :: conversionMap[t];
    }
  }

  // ---------------------------------------------------------------- three threads and one lock

  datatype Thread = SubscriberThread | ReceiverThread | ControlThread

  /** Where a thread is: outside, at the lock, just inside it, publishing what is left of a list it copied,
      between changing the filters and changing the table, or about to let go of the lock. */
  datatype Place =
    | Idle
    | Waiting(op: Op)
    | Entered(op: Op)
    | Sending(op: Op, left: seq<string>)
    | Halfway(op: Op)
    | Leaving(op: Op)

  datatype State = State(
    table: Table,
    filters: multiset<string>,
    trace: Trace,
    sub: Place,
    recv: Place,
    control: Place,
    holder: Option<Thread>)

  datatype Step =
    | Call(thread: Thread, op: Op)
    | Acquire(thread: Thread, op: Op)
    | Work(thread: Thread)
    | Release(thread: Thread)

  datatype Schedule = Start | Then(past: Schedule, last: Step)

  function At(s: State, w: Thread): Place {
    match w
    case SubscriberThread => s.sub
    case ReceiverThread => s.recv
    case ControlThread => s.control
  }

  function Moved(s: State, w: Thread, p: Place): State {
    match w
    case SubscriberThread => s.(sub := p)
    case ReceiverThread => s.(recv := p)
    case ControlThread => s.(control := p)
  }

  predicate Enabled(s: State, step: Step) {
    var p := At(s, step.thread);
    match step
    case Call(w, op) => p.Idle? && Proper(op) && (w.ControlThread? <==> !op.Forward?)
    case Acquire(_, op) => p == Waiting(op) && s.holder.None?
    case Work(_) => (p.Entered? || p.Sending? || p.Halfway?) && Proper(p.op)
    case Release(_) => p.Leaving?
  }

  /** What an operation works on while it holds the lock. */
  datatype Shared = Shared(place: Place, table: Table, filters: multiset<string>, trace: Trace)

  function SharedBy(s: State, w: Thread): Shared { Shared(At(s, w), s.table, s.filters, s.trace) }

  /** One step of an operation inside the lock. */
  function Advance(x: Shared): Shared
    requires (x.place.Entered? || x.place.Sending? || x.place.Halfway?) && Proper(x.place.op)
  {
    match x.place
    case Entered(Forward(msgs)) =>
      x.(place := Sending(Forward(msgs), if Topic(msgs) in x.table then x.table[Topic(msgs)] else []))
    case Entered(AddConversion(t, topics)) =>
      x.(place := Halfway(Op.AddConversion(t, topics)), filters := ChangedFilters(x.filters, Add(t)))
    case Entered(RemoveConversion(t)) =>
      x.(place := Halfway(Op.RemoveConversion(t)), filters := ChangedFilters(x.filters, Drop(t)))
    case Sending(op, left) =>
      if left == [] || !op.Forward? then x.(place := Leaving(op))
      else x.(place := Sending(op, left[1..]), trace := x.trace + [Message(left[0], Payload(op.msgs))])
    case Halfway(op) => x.(place := Leaving(op), table := ChangedTable(x.table, op))
  }

  function Apply(s: State, step: Step): State
    requires Enabled(s, step)
  {
    match step
    case Call(w, op) => Moved(s, w, Waiting(op))
    case Acquire(w, op) => Moved(s.(holder := Some(w)), w, Entered(op))
    case Work(w) =>
      var x := Advance(SharedBy(s, w));
      Moved(s.(table := x.table, filters := x.filters, trace := x.trace), w, x.place)
    case Release(w) => Moved(s.(holder := None), w, Idle)
  }

  function Init(table: Table, filters: multiset<string>): State {
    State(table, filters, [], Idle, Idle, Idle, None)
  }

  predicate Legal(init: State, r: Schedule)
    decreases r, 0
  {
    match r
    case Start => true
    case Then(past, step) => Legal(init, past) && Enabled(Exec(init, past), step)
  }

  function Exec(init: State, r: Schedule): State
    requires Legal(init, r)
    decreases r, 1
  {
    match r
    case Start => init
    case Then(past, step) => Apply(Exec(init, past), step)
  }

  /** The operations in the order in which they got the lock. */
  function Linear(r: Schedule): seq<Op> {
    match r
    case Start => []
    case Then(past, step) => if step.Acquire? then Linear(past) + [step.op] else Linear(past)
  }

  /** The operations thread w called, and those it got the lock for. */
  function Called(r: Schedule, w: Thread): seq<Op> {
    match r
    case Start => []
    case Then(past, step) => if step.Call? && step.thread == w then Called(past, w) + [step.op] else Called(past, w)
  }

  function Acquired(r: Schedule, w: Thread): seq<Op> {
    match r
    case Start => []
    case Then(past, step) =>
      if step.Acquire? && step.thread == w then Acquired(past, w) + [step.op] else Acquired(past, w)
  }

  predicate Inside(p: Place) { !p.Idle? && !p.Waiting? }

  predicate Sound(w: Thread, p: Place) {
    && (!p.Idle? ==> Proper(p.op) && (w.ControlThread? <==> !p.op.Forward?))
    && (p.Sending? ==> p.op.Forward?)
    && (p.Halfway? ==> !p.op.Forward?)
  }

  /** Inside the lock is exactly the thread that holds it, and every operation under way is a proper one. */
  predicate Exclusive(s: State) {
    forall w :: Sound(w, At(s, w)) && (s.holder == Some(w) <==> Inside(At(s, w)))
  }

  lemma ExclusiveKept(s: State, step: Step)
    requires Exclusive(s) && Enabled(s, step)
    ensures Exclusive(Apply(s, step))
  {
    var t := Apply(s, step);
    assert Sound(step.thread, At(s, step.thread)) && (s.holder == Some(step.thread) <==> Inside(At(s, step.thread)));
    forall v
      ensures Sound(v, At(t, v)) && (t.holder == Some(v) <==> Inside(At(t, v)))
    {
      assert Sound(v, At(s, v)) && (s.holder == Some(v) <==> Inside(At(s, v)));
    }
  }

  lemma {:induction false} AlwaysExclusive(table: Table, filters: multiset<string>, r: Schedule)
    requires Legal(Init(table, filters), r)
    ensures Exclusive(Exec(Init(table, filters), r))
  {
    if r.Then? {
      AlwaysExclusive(table, filters, r.past);
      ExclusiveKept(Exec(Init(table, filters), r.past), r.last);
    }
  }

  /** The holder of the lock can always go on, and if nobody holds it, whoever waits can have it. */
  lemma NeverStuck(table: Table, filters: multiset<string>, r: Schedule, w: Thread)
    requires Legal(Init(table, filters), r)
    ensures var s := Exec(Init(table, filters), r);
      && (s.holder == Some(w) ==> Enabled(s, Work(w)) || Enabled(s, Release(w)))
      && (s.holder.None? && At(s, w).Waiting? ==> Enabled(s, Acquire(w, At(s, w).op)))
  {
    AlwaysExclusive(table, filters, r);
  }

  /** What an operation has yet to publish. */
  function Owed(p: Place, table: Table): Trace
    requires p.Sending? || p.Entered? ==> Proper(p.op) && (p.Sending? ==> p.op.Forward?)
  {
    match p
    case Entered(op) => Block(table, op)
    case Sending(op, left) => Fanout(left, Payload(op.msgs))
    case _ => []
  }

  /** The table an operation will leave behind. */
  function Left(p: Place, table: Table): Table {
    if p.Entered? || p.Halfway? then ChangedTable(table, p.op) else table
  }

  /** What the holder of the lock has yet to publish, and the table it will leave behind. */
  function Pending(s: State): Trace
    requires Exclusive(s)
  {
    if s.holder.None? then [] else Owed(At(s, s.holder.value), s.table)
  }

  function Due(s: State): Table
    requires Exclusive(s)
  {
    if s.holder.None? then s.table else Left(At(s, s.holder.value), s.table)
  }

  lemma AdvanceSettles(w: Thread, x: Shared)
    requires (x.place.Entered? || x.place.Sending? || x.place.Halfway?) && Sound(w, x.place)
    ensures var y := Advance(x); Sound(w, y.place) && Inside(y.place)
    ensures var y := Advance(x); y.trace + Owed(y.place, y.table) == x.trace + Owed(x.place, x.table)
    ensures var y := Advance(x); Left(y.place, y.table) == Left(x.place, x.table)
  {
    hide ChangedFilters, Payload, Topic;
    var p := x.place;
    if p.Sending? && p.left != [] {
      SendOne(p.left, Payload(p.op.msgs));
      var m := [Message(p.left[0], Payload(p.op.msgs))];
      var rest := Fanout(p.left[1..], Payload(p.op.msgs));
      assert (x.trace + m) + rest == x.trace + (m + rest);
    }
  }

  lemma SendOne(topics: seq<string>, payload: string)
    requires topics != []
    ensures Fanout(topics, payload) == [Message(topics[0], payload)] + Fanout(topics[1..], payload)
  {
  }

  /** Getting the lock adds the whole block and the whole change; no other step adds anything. */
  lemma StepSettles(s: State, step: Step)
    requires Exclusive(s) && Enabled(s, step)
    ensures Exclusive(Apply(s, step))
    ensures step.Acquire? ==>
      && Proper(step.op) && Pending(s) == [] && Due(s) == s.table
      && Apply(s, step).trace + Pending(Apply(s, step)) == s.trace + Block(s.table, step.op)
      && Due(Apply(s, step)) == ChangedTable(s.table, step.op)
    ensures !step.Acquire? ==>
      && Apply(s, step).trace + Pending(Apply(s, step)) == s.trace + Pending(s)
      && Due(Apply(s, step)) == Due(s)
  {
    hide Advance, Owed, Left, Block, ChangedTable, Proper;
    ExclusiveKept(s, step);
    var w := step.thread;
    assert Sound(w, At(s, w)) && (s.holder == Some(w) <==> Inside(At(s, w)));
    match step
    case Call(_, _) =>
    case Acquire(_, op) => JustEntered(op, s.table);
    case Work(_) => AdvanceSettles(w, SharedBy(s, w));
    case Release(_) => NothingOwed(At(s, w).op, s.table);
  }

  lemma JustEntered(op: Op, table: Table)
    requires Proper(op)
    ensures Owed(Entered(op), table) == Block(table, op) && Left(Entered(op), table) == ChangedTable(table, op)
  {
  }

  lemma NothingOwed(op: Op, table: Table)
    ensures Owed(Leaving(op), table) == [] && Left(Leaving(op), table) == table
  {
  }

  lemma {:induction false} LinearProper(table: Table, filters: multiset<string>, r: Schedule)
    requires Legal(Init(table, filters), r)
    ensures forall op :: op in Linear(r) ==> Proper(op)
  {
    if r.Then? {
      LinearProper(table, filters, r.past);
      AlwaysExclusive(table, filters, r.past);
    }
  }

  lemma NothingPending(table: Table, filters: multiset<string>)
    ensures var s := Init(table, filters); Exclusive(s) && s.trace + Pending(s) == [] && Due(s) == table
  {
  }

  /** At every moment of every run, what was published, together with what the holder of the lock still owes,
      is one unbroken block after another, one for each operation in the order in which they got the lock, each
      under the table the operations before it left. */
  lemma {:induction false} AtomicRouting(table: Table, filters: multiset<string>, r: Schedule)
    requires Legal(Init(table, filters), r)
    ensures forall op :: op in Linear(r) ==> Proper(op)
    ensures var s := Exec(Init(table, filters), r);
      && Exclusive(s)
      && s.trace + Pending(s) == Published(table, Linear(r))
      && Due(s) == TableAfter(table, Linear(r))
  {
    hide Apply, Enabled, Pending, Due, Exclusive, Block, ChangedTable, Proper;
    LinearProper(table, filters, r);
    AlwaysExclusive(table, filters, r);
    if r.Start? {
      NothingPending(table, filters);
    } else {
      var s := Exec(Init(table, filters), r.past);
      AtomicRouting(table, filters, r.past);
      StepSettles(s, r.last);
      if r.last.Acquire? {
        assert Linear(r)[..|Linear(r)| - 1] == Linear(r.past);
      }
    }
  }

  function AtLock(p: Place): seq<Op> { if p.Waiting? then [p.op] else [] }

  lemma StepWaits(s: State, step: Step, w: Thread)
    requires Enabled(s, step) && (step.Work? ==> Sound(step.thread, At(s, step.thread)))
    ensures AtLock(At(Apply(s, step), w)) ==
      if step.thread != w then AtLock(At(s, w)) else if step.Call? then [step.op] else []
    ensures step.thread == w ==> AtLock(At(s, w)) == if step.Acquire? then [step.op] else []
  {
    hide Advance;
    if step.Work? {
      AdvanceSettles(step.thread, SharedBy(s, step.thread));
    }
  }

  /** Every thread's operations get the lock once each and in the order of its calls; only the last may wait. */
  lemma {:induction false} EveryCallOnce(table: Table, filters: multiset<string>, r: Schedule, w: Thread)
    requires Legal(Init(table, filters), r)
    ensures Called(r, w) == Acquired(r, w) + AtLock(At(Exec(Init(table, filters), r), w))
  {
    hide Apply, Enabled, At;
    if r.Then? {
      EveryCallOnce(table, filters, r.past, w);
      AlwaysExclusive(table, filters, r.past);
      StepWaits(Exec(Init(table, filters), r.past), r.last, w);
    } else {
      assert At(Init(table, filters), w) == Idle by { Outside(table, filters, w); }
    }
  }

  lemma Outside(table: Table, filters: multiset<string>, w: Thread)
    ensures At(Init(table, filters), w) == Idle
  {
  }

  /** The last change of a topic decides: i is the place of the last operation that touches t, or -1. */
  lemma {:induction false} LastChangeWins(init: Table, ops: seq<Op>, i: int, t: string)
    requires -1 <= i < |ops| && (i >= 0 ==> Touches(ops[i], t))
    requires forall m :: i < m < |ops| ==> !Touches(ops[m], t)
    ensures t in TableAfter(init, ops) <==> if i < 0 then t in init else ops[i].AddConversion?
    ensures t in TableAfter(init, ops) ==> TableAfter(init, ops)[t] == if i < 0 then init[t] else ops[i].topics
  {
    if ops != [] && i < |ops| - 1 {
      LastChangeWins(init, ops[..|ops| - 1], i, t);
    }
  }

  /** What becomes of a message depends on the last change of its whole topic before its turn, and on nothing
      else: its payload goes to every topic on the list that change left, in list order. */
  lemma ExactForwarding(init: Table, ops: seq<Op>, n: nat, i: int)
    requires n < |ops| && ops[n].Forward? && Proper(ops[n])
    requires -1 <= i < n && (i >= 0 ==> Touches(ops[i], Topic(ops[n].msgs)))
    requires forall m :: i < m < n ==> !Touches(ops[m], Topic(ops[n].msgs))
    ensures var t, payload := Topic(ops[n].msgs), Payload(ops[n].msgs);
      Block(TableAfter(init, ops[..n]), ops[n]) ==
        if i >= 0 then (if ops[i].AddConversion? then Fanout(ops[i].topics, payload) else [])
        else if t in init then Fanout(init[t], payload)
        else []
  {
    LastChangeWins(init, ops[..n], i, Topic(ops[n].msgs));
  }

  // ---------------------------------------------------------------- from the sockets to the topics

  /** What is published for the messages a thread hands over, while the table stays as it is. */
  function StreamOut(table: Table, handed: seq<Handed>): Trace {
    if handed == [] then []
    else
      var m := handed[|handed| - 1];
      StreamOut(table, handed[..|handed| - 1]) +
      if m.Incoming? && m.msgs != [] then Block(table, Forward(m.msgs)) else []
  }

  lemma StreamMore(table: Table, handed: seq<Handed>, msgs: Frames)
    requires msgs != []
    ensures StreamOut(table, handed + [Incoming(msgs)]) == StreamOut(table, handed) + Block(table, Forward(msgs))
    ensures StreamOut(table, handed + [Control(msgs)]) == StreamOut(table, handed)
  {
    assert (handed + [Incoming(msgs)])[..|handed|] == handed;
    assert (handed + [Control(msgs)])[..|handed|] == handed;
  }

  /** m is a conversion of what poll p brought. */
  predicate Converts(table: Table, p: Poll, m: Message<string>) {
    && p.Ready? && p.msgs != []
    && Topic(p.msgs) in table && m.topic in table[Topic(p.msgs)] && m.payload == Payload(p.msgs)
  }

  lemma BlockConverts(table: Table, msgs: Frames, m: Message<string>)
    requires msgs != []
    ensures m in Block(table, Forward(msgs)) <==> Converts(table, Ready(msgs), m)
  {
    if Converts(table, Ready(msgs), m) {
      var topics := table[Topic(msgs)];
      var k :| 0 <= k < |topics| && topics[k] == m.topic;
      assert Fanout(topics, Payload(msgs))[k] == m;
    }
  }

  /** What a thread's poll is handed on as. */
  function PartOf(p: Poll, subscriber: bool): seq<Handed> { if subscriber then Part(p) else PulledPart(p) }

  /** What is published for a stream of polls, where the message poll i brings has its turn under tables[i]. */
  function Output(tables: seq<Table>, polls: seq<Poll>, subscriber: bool): Trace
    requires |tables| == |polls|
  {
    if polls == [] then []
    else
      var n := |polls| - 1;
      Output(tables[..n], polls[..n], subscriber) + StreamOut(tables[n], PartOf(polls[n], subscriber))
  }

  /** As long as the table stays the same this is what is published for all that the thread hands on. */
  lemma {:induction false} OutputOfHanded(table: Table, polls: seq<Poll>, tables: seq<Table>)
    requires |tables| == |polls| && forall i :: 0 <= i < |tables| ==> tables[i] == table
    ensures Output(tables, polls, true) == StreamOut(table, HandedOn(polls))
    ensures Output(tables, polls, false) == StreamOut(table, Pulled(polls))
  {
    if polls != [] {
      var n := |polls| - 1;
      OutputOfHanded(table, polls[..n], tables[..n]);
      StreamInTurn(table, HandedOn(polls[..n]), Part(polls[n]));
      StreamInTurn(table, Pulled(polls[..n]), PulledPart(polls[n]));
    }
  }

  lemma {:induction false} StreamInTurn(table: Table, a: seq<Handed>, b: seq<Handed>)
    ensures StreamOut(table, a + b) == StreamOut(table, a) + StreamOut(table, b)
  {
    hide Block;
    if b == [] {
      assert a + b == a;
    } else {
      assert (a + b)[..|a + b| - 1] == a + b[..|b| - 1];
      StreamInTurn(table, a, b[..|b| - 1]);
    }
  }

  /** Poll p converts to m under a table. A subscriber leaves out welcome and control frames. */
  predicate Source(table: Table, p: Poll, m: Message<string>, subscriber: bool) {
    Converts(table, p, m) && (subscriber ==> !IsWelcome(p) && !IsControl(p))
  }

  /** Some message that was brought converts to m under the table in force when it had its turn. */
  ghost predicate HasSource(tables: seq<Table>, polls: seq<Poll>, m: Message<string>, subscriber: bool)
    requires |tables| == |polls|
  {
    exists i :: 0 <= i < |polls| && Source(tables[i], polls[i], m, subscriber)
  }

  lemma PartConverts(table: Table, p: Poll, m: Message<string>, subscriber: bool)
    requires WellFormed(p)
    ensures m in StreamOut(table, PartOf(p, subscriber)) <==> Source(table, p, m, subscriber)
  {
    hide Block, Topic;
    assert StreamOut(table, []) == [];
    if p.Ready? {
      assert [] + [Incoming(p.msgs)] == [Incoming(p.msgs)] && [] + [Control(p.msgs)] == [Control(p.msgs)];
      StreamMore(table, [], p.msgs);
      BlockConverts(table, p.msgs, m);
    }
  }

  lemma SourceMore(tables: seq<Table>, polls: seq<Poll>, m: Message<string>, subscriber: bool)
    requires |tables| == |polls| && polls != []
    ensures var n := |polls| - 1;
      HasSource(tables, polls, m, subscriber)
      <==> HasSource(tables[..n], polls[..n], m, subscriber) || Source(tables[n], polls[n], m, subscriber)
  {
    hide Source;
    var n := |polls| - 1;
    if HasSource(tables[..n], polls[..n], m, subscriber) {
      var i :| 0 <= i < n && Source(tables[..n][i], polls[..n][i], m, subscriber);
      assert Source(tables[i], polls[i], m, subscriber);
    }
    if HasSource(tables, polls, m, subscriber) {
      var i :| 0 <= i <= n && Source(tables[i], polls[i], m, subscriber);
      if i < n {
        assert Source(tables[..n][i], polls[..n][i], m, subscriber);
      }
    }
  }

  lemma {:induction false} OutputExactly(tables: seq<Table>, polls: seq<Poll>, m: Message<string>, subscriber: bool)
    requires |tables| == |polls| && forall p :: p in polls ==> WellFormed(p)
    ensures m in Output(tables, polls, subscriber) <==> HasSource(tables, polls, m, subscriber)
  {
    hide HasSource, Source, StreamOut, PartOf;
    if polls == [] {
      NoSource(m, subscriber);
    } else {
      var n := |polls| - 1;
      assert polls[n] in polls;
      OutputExactly(tables[..n], polls[..n], m, subscriber);
      SourceMore(tables, polls, m, subscriber);
      PartConverts(tables[n], polls[n], m, subscriber);
    }
  }

  lemma NoSource(m: Message<string>, subscriber: bool)
    ensures !HasSource([], [], m, subscriber)
  {
  }

  /** What the subscriber's messages are converted to, however the table changes from one to the next: delivery by
      prefix does not matter, only whether the whole topic is in the table when the message has its turn; and
      welcome and control frames are never converted, even if the table has them. */
  lemma SubscribedStream(tables: seq<Table>, polls: seq<Poll>, m: Message<string>)
    requires |tables| == |polls| && forall p :: p in polls ==> WellFormed(p)
    ensures m in Output(tables, polls, true)
      <==> exists i :: 0 <= i < |polls|
             && Converts(tables[i], polls[i], m) && !IsWelcome(polls[i]) && !IsControl(polls[i])
  {
    OutputExactly(tables, polls, m, true);
    assert forall i :: 0 <= i < |polls| ==>
      (Source(tables[i], polls[i], m, true)
       <==> Converts(tables[i], polls[i], m) && !IsWelcome(polls[i]) && !IsControl(polls[i]));
  }

  /** The receiver's messages are converted whatever their first frame. */
  lemma PulledStream(tables: seq<Table>, polls: seq<Poll>, m: Message<string>)
    requires |tables| == |polls| && forall p :: p in polls ==> WellFormed(p)
    ensures m in Output(tables, polls, false) <==> exists i :: 0 <= i < |polls| && Converts(tables[i], polls[i], m)
  {
    OutputExactly(tables, polls, m, false);
    assert forall i :: 0 <= i < |polls| ==>
      (Source(tables[i], polls[i], m, false) <==> Converts(tables[i], polls[i], m));
  }

  /** A message of one frame, as a sender sends it: whatever it says, it goes, as it is, where zmqStack-0-ingress
      goes, and nowhere if that is not in the table. */
  lemma OneFrame(table: Table, m: string)
    ensures Output([table], [Ready([m])], false)
         == if "zmqStack-0-ingress" in table then Fanout(table["zmqStack-0-ingress"], m) else []
    ensures m != "\U{F3}\0\0" && m != "ctrl" ==>
      Output([table], [Ready([m])], true) == Output([table], [Ready([m])], false)
  {
    hide Fanout;
    OnePollOutput(table, Ready([m]));
    assert Output([table], [Ready([m])], false) == Block(table, Forward([m]));
  }

  /** A message of several frames: the second goes where the first says, and the rest is not looked at. */
  lemma SeveralFrames(table: Table, topic: string, m: string, rest: seq<string>)
    ensures Output([table], [Ready([topic, m] + rest)], false)
         == if topic in table then Fanout(table[topic], m) else []
    ensures topic != "\U{F3}\0\0" && topic != "ctrl" ==>
      Output([table], [Ready([topic, m] + rest)], true) == Output([table], [Ready([topic, m] + rest)], false)
    ensures topic == "\U{F3}\0\0" || topic == "ctrl" ==> Output([table], [Ready([topic, m] + rest)], true) == []
  {
    hide Fanout;
    var msgs := [topic, m] + rest;
    OnePollOutput(table, Ready(msgs));
    assert msgs[0] == topic && msgs[1] == m;
  }

  lemma OutputOfOne(table: Table, p: Poll, subscriber: bool)
    ensures Output([table], [p], subscriber) == StreamOut(table, PartOf(p, subscriber))
  {
    hide StreamOut, PartOf;
    assert [p][..0] == [] && [table][..0] == [];
    assert Output([], [], subscriber) == [];
    assert Output([table], [p], subscriber) == [] + StreamOut(table, PartOf(p, subscriber));
  }

  lemma StreamOfOne(table: Table, m: Handed)
    requires m.msgs != []
    ensures StreamOut(table, []) == []
    ensures StreamOut(table, [m]) == if m.Incoming? then Block(table, Forward(m.msgs)) else []
  {
    hide Block;
    StreamMore(table, [], m.msgs);
    assert [] + [m] == [m];
  }

  lemma OnePollOutput(table: Table, p: Poll)
    requires WellFormed(p)
    ensures Output([table], [p], false) == if p.Ready? then Block(table, Forward(p.msgs)) else []
    ensures Output([table], [p], true)
         == if p.Ready? && !IsWelcome(p) && !IsControl(p) then Block(table, Forward(p.msgs)) else []
  {
    hide Block, Output, StreamOut;
    OutputOfOne(table, p, true);
    OutputOfOne(table, p, false);
    StreamOfOne(table, Incoming(if p.Ready? then p.msgs else [""]));
    StreamOfOne(table, Control(if p.Ready? then p.msgs else [""]));
  }

  /** So a control frame that comes in through the receiver can be converted, and not through the subscriber. */
  lemma ReceiverConvertsControl()
    ensures var table: Table := map[CTRL := ["t"]];
      var polls := [Ready([CTRL, "x"])];
      Message("t", "x") in Output([table], polls, false) && Message("t", "x") !in Output([table], polls, true)
  {
    var table: Table := map[CTRL := ["t"]];
    var p := Ready([CTRL, "x"]);
    var m := Message("t", "x");
    assert Converts(table, p, m) && IsControl(p);
    assert [table][0] == table && [p][0] == p;
    PulledStream([table], [p], m);
    SubscribedStream([table], [p], m);
  }

  // ---------------------------------------------------------------- which conversions are delivered

  function ChangeOf(op: Op): seq<Change> {
    match op
    case Forward(_) => []
    case AddConversion(t, _) => [Add(t)]
    case RemoveConversion(t) => [Drop(t)]
  }

  /** The changes to the filters that operations make, one after the other. */
  function Changes(ops: seq<Op>): seq<Change> {
    if ops == [] then [] else Changes(ops[..|ops| - 1]) + ChangeOf(ops[|ops| - 1])
  }

  /** The change an operation that just got the lock is about to make. */
  function AboutTo(p: Place): seq<Change> { if p.Entered? then ChangeOf(p.op) else [] }

  /** The changes made to the filters so far. */
  function Made(init: State, r: Schedule): seq<Change>
    requires Legal(init, r)
  {
    match r
    case Start => []
    case Then(past, step) =>
      Made(init, past) + if step.Work? then AboutTo(At(Exec(init, past), step.thread)) else []
  }

  lemma AdvanceChanges(x: Shared)
    requires (x.place.Entered? || x.place.Sending? || x.place.Halfway?) && Proper(x.place.op)
    ensures Advance(x).filters == FiltersAfter(x.filters, AboutTo(x.place)) && AboutTo(Advance(x).place) == []
  {
    var made := AboutTo(x.place);
    assert made == [] || made[..0] == [];
  }

  lemma StepChanges(s: State, step: Step)
    requires Exclusive(s) && Enabled(s, step)
    ensures var made := if step.Work? then AboutTo(At(s, step.thread)) else [];
      && Apply(s, step).filters == FiltersAfter(s.filters, made)
      && made + AboutTo(Apply(s, step).control)
         == AboutTo(s.control) + if step.Acquire? then ChangeOf(step.op) else []
  {
    assert Sound(step.thread, At(s, step.thread)) && Sound(ControlThread, At(s, ControlThread));
    if step.Work? {
      hide Advance, FiltersAfter;
      AdvanceChanges(SharedBy(s, step.thread));
    }
  }

  /** The filters follow the operations in the order in which they got the lock; only the change of the one that
      just got it may be outstanding. */
  lemma {:induction false} FiltersFollow(table: Table, filters: multiset<string>, r: Schedule)
    requires Legal(Init(table, filters), r)
    ensures var s := Exec(Init(table, filters), r);
      var made := Made(Init(table, filters), r);
      s.filters == FiltersAfter(filters, made) && made + AboutTo(s.control) == Changes(Linear(r))
  {
    hide Enabled, Apply, Exclusive, AboutTo, ChangeOf, FiltersAfter;
    if r.Start? {
      NothingMade(table, filters);
    } else {
      var s := Exec(Init(table, filters), r.past);
      FiltersFollow(table, filters, r.past);
      AlwaysExclusive(table, filters, r.past);
      StepChanges(s, r.last);
      var before := Made(Init(table, filters), r.past);
      var made := if r.last.Work? then AboutTo(At(s, r.last.thread)) else [];
      FiltersInTurn(filters, before, made);
      if r.last.Acquire? {
        assert Linear(r)[..|Linear(r)| - 1] == Linear(r.past);
        assert Changes(Linear(r)) == Changes(Linear(r.past)) + ChangeOf(r.last.op);
      } else {
        assert Changes(Linear(r)) == Changes(Linear(r.past)) + [];
      }
      assert (before + made) + AboutTo(Exec(Init(table, filters), r).control)
        == before + (made + AboutTo(Exec(Init(table, filters), r).control));
    }
  }

  lemma NothingMade(table: Table, filters: multiset<string>)
    ensures AboutTo(Init(table, filters).control) == [] && FiltersAfter(filters, []) == filters
  {
  }

  /** The topics of the table that were no filters at the start and were neither added nor removed since. */
  function Orphans(table: Table, filters: multiset<string>, made: seq<Change>): set<string> {
    set t | t in table && t !in filters && Untouched(made, t)
  }

  /** Every topic in the table, or about to be, is a filter, except the given ones and the one whose filter a
      removal has just taken back. */
  ghost predicate Deliverable(table: Table, filters: multiset<string>, control: Place, orphans: set<string>) {
    && (forall t :: t in table ==> t in filters || control == Halfway(Op.RemoveConversion(t)) || t in orphans)
    && (control.Halfway? && control.op.AddConversion? ==> control.op.topic in filters)
  }

  lemma DeliverableKept(s: State, step: Step, orphans: set<string>, rest: set<string>)
    requires Exclusive(s) && Enabled(s, step) && Deliverable(s.table, s.filters, s.control, orphans)
    requires forall t :: t in orphans && (step.Work? ==> Untouched(AboutTo(At(s, step.thread)), t)) ==> t in rest
    ensures var t := Apply(s, step); Deliverable(t.table, t.filters, t.control, rest)
  {
    var p := At(s, step.thread);
    assert Sound(step.thread, p);
    if step.Work? && p.Entered? && !p.op.Forward? {
      assert forall t :: t != p.op.topic ==> Untouched(AboutTo(p), t);
    } else if step.Work? {
      assert AboutTo(p) == [];
    }
  }

  lemma OrphansLeft(table: Table, filters: multiset<string>, before: seq<Change>, made: seq<Change>, t: string)
    requires t in Orphans(table, filters, before) && Untouched(made, t)
    ensures t in Orphans(table, filters, before + made)
  {
  }

  /** In every state, from every start, even halfway through a change: every topic in the table is a filter, except
      one whose filter a removal has just taken back, and those that the start had in the table without their
      filter and nobody added or removed since. */
  lemma {:induction false} KeysAreFilters(table: Table, filters: multiset<string>, r: Schedule)
    requires Legal(Init(table, filters), r)
    ensures var s := Exec(Init(table, filters), r);
      Deliverable(s.table, s.filters, s.control, Orphans(table, filters, Made(Init(table, filters), r)))
  {
    hide Enabled, Apply, Exclusive, Orphans, AboutTo, Deliverable, Untouched;
    if r.Start? {
      StartDeliverable(table, filters);
    } else {
      var init := Init(table, filters);
      var s := Exec(init, r.past);
      KeysAreFilters(table, filters, r.past);
      AlwaysExclusive(table, filters, r.past);
      var before := Made(init, r.past);
      var made := if r.last.Work? then AboutTo(At(s, r.last.thread)) else [];
      var orphans, rest := Orphans(table, filters, before), Orphans(table, filters, Made(init, r));
      forall t | t in orphans && (r.last.Work? ==> Untouched(AboutTo(At(s, r.last.thread)), t))
        ensures t in rest
      {
        NoneTouched(t);
        OrphansLeft(table, filters, before, made, t);
      }
      DeliverableKept(s, r.last, orphans, rest);
    }
  }

  lemma NoneTouched(t: string)
    ensures Untouched([], t)
  {
  }

  lemma StartDeliverable(table: Table, filters: multiset<string>)
    ensures Deliverable(table, filters, Idle, Orphans(table, filters, []))
  {
  }

  /** Exactly which conversions are delivered, in every state from every start: a topic in the table is, unless it
      is one that the start had without its filter; then it is exactly if a shorter filter that lets it through is
      set. */
  lemma KeysDelivered(table: Table, filters: multiset<string>, r: Schedule, t: string)
    requires Legal(Init(table, filters), r)
    requires var s := Exec(Init(table, filters), r); t in s.table && s.control != Halfway(Op.RemoveConversion(t))
    ensures var s := Exec(Init(table, filters), r);
      var made := Made(Init(table, filters), r);
      Delivered(s.filters, t)
      <==> t !in Orphans(table, filters, made) || exists f :: f < t && IsSet(filters, made, f)
  {
    hide Legal, Exec, Made;
    var s := Exec(Init(table, filters), r);
    var made := Made(Init(table, filters), r);
    KeysAreFilters(table, filters, r);
    FiltersFollow(table, filters, r);
    if t in Orphans(table, filters, made) {
      UntouchedCount(filters, made, t);
      OnlyShorter(filters, made, t);
    } else {
      assert t in s.filters && t <= t;
    }
  }

  lemma OnlyShorter(filters: multiset<string>, made: seq<Change>, t: string)
    requires t !in FiltersAfter(filters, made)
    ensures Delivered(FiltersAfter(filters, made), t) <==> exists f :: f < t && IsSet(filters, made, f)
  {
    hide IsSet, FiltersAfter;
    DeliveredAfter(filters, made, t);
    SetExactly(filters, made, t);
    if Delivered(FiltersAfter(filters, made), t) {
      var f :| f <= t && IsSet(filters, made, f);
      assert f != t;
      assert f < t;
    }
  }

  /** A configuration may have a conversion that only a shorter filter lets through; it stops being delivered when
      that one is dropped, and stays in the table. */
  lemma ShorterFilterDropped()
    ensures var table: Table := map["topic1" := ["a"], "topic10" := ["b"]];
      var filters := Initially(["topic1"]);
      && Delivered(filters, "topic10")
      && "topic10" in ChangedTable(table, Op.RemoveConversion("topic1"))
      && !Delivered(ChangedFilters(filters, Drop("topic1")), "topic10")
  {
    var filters := Initially(["topic1"]);
    assert "topic1" in filters && "topic10"[..6] == "topic1";
    var left := ChangedFilters(filters, Drop("topic1"));
    assert forall f :: f in left ==> f == WELCOME || f == CTRL;
    assert WELCOME[0] != "topic10"[0] && CTRL[0] != "topic10"[0];
  }
}
