/** Converters that hear each other: when does a conversion come to an end? The proxy between them is an ideal
    one, which hands every message to every converter whose filters let it through, in any order of time. */
module Cascade {
  import opened Publishing
  import opened Subscribing
  import opened Routing

  datatype Converter = Converter(filters: multiset<string>, table: Table)

  type Network = seq<Converter>

  /** The message gets past the converter's filters and its subscriber does not keep it for itself. */
  ghost predicate Hears(c: Converter, topic: string) {
    Delivered(c.filters, topic) && topic != WELCOME && topic != CTRL
  }

  /** A message under way to one converter. */
  datatype Copy = Copy(at: nat, topic: string)

  /** The copies the proxy makes of a message, one for each of the first n converters that hears it. */
  ghost function Spread(net: Network, topic: string, n: nat): seq<Copy>
    requires n <= |net|
  {
    if n == 0 then []
    else Spread(net, topic, n - 1) + if Hears(net[n - 1], topic) then [Copy(n - 1, topic)] else []
  }

  ghost function SpreadAll(net: Network, topics: seq<string>): seq<Copy> {
    if topics == [] then [] else Spread(net, topics[0], |net|) + SpreadAll(net, topics[1..])
  }

  predicate Placed(net: Network, c: Copy) { c.at < |net| }

  /** What converter c.at publishes when its turn comes. */
  function Targets(net: Network, c: Copy): seq<string>
    requires Placed(net, c)
  {
    var table := net[c.at].table;
    if c.topic in table then table[c.topic] else []
  }

  ghost predicate Flying(net: Network, bag: seq<Copy>) {
    forall c :: c in bag ==> Placed(net, c) && Hears(net[c.at], c.topic)
  }

  /** The k-th copy is received and converted. */
  ghost function Take(net: Network, bag: seq<Copy>, k: nat): seq<Copy>
    requires k < |bag| && Placed(net, bag[k])
  {
    bag[..k] + bag[k + 1..] + SpreadAll(net, Targets(net, bag[k]))
  }

  /** ks picks, time after time, a copy that is under way. */
  ghost predicate CanRun(net: Network, bag: seq<Copy>, ks: seq<nat>)
    decreases |ks|
  {
    ks != [] ==> ks[0] < |bag| && Placed(net, bag[ks[0]]) && CanRun(net, Take(net, bag, ks[0]), ks[1..])
  }

  ghost function End(net: Network, bag: seq<Copy>, ks: seq<nat>): seq<Copy>
    requires CanRun(net, bag, ks)
    decreases |ks|
  {
    if ks == [] then bag else End(net, Take(net, bag, ks[0]), ks[1..])
  }

  lemma {:induction false} SpreadHas(net: Network, topic: string, n: nat, c: Copy)
    requires n <= |net|
    ensures c in Spread(net, topic, n) <==> c.at < n && c.topic == topic && Hears(net[c.at], topic)
  {
    if n > 0 {
      SpreadHas(net, topic, n - 1, c);
    }
  }

  lemma {:induction false} SpreadAllHas(net: Network, topics: seq<string>, c: Copy)
    ensures c in SpreadAll(net, topics) <==> Placed(net, c) && c.topic in topics && Hears(net[c.at], c.topic)
  {
    if topics != [] {
      SpreadHas(net, topics[0], |net|, c);
      SpreadAllHas(net, topics[1..], c);
      assert c.topic in topics <==> c.topic == topics[0] || c.topic in topics[1..];
    }
  }

  lemma StillFlying(net: Network, bag: seq<Copy>, k: nat)
    requires Flying(net, bag) && k < |bag|
    ensures Flying(net, Take(net, bag, k))
  {
    hide Hears;
    forall c | c in Take(net, bag, k)
      ensures Placed(net, c) && Hears(net[c.at], c.topic)
    {
      SpreadAllHas(net, Targets(net, bag[k]), c);
    }
  }

  lemma HandsOnHeard(topic: string, payload: string)
    requires topic != WELCOME && topic != CTRL
    ensures HandedOn([Ready([topic, payload])]) == [Incoming([topic, payload])]
  {
    assert [Ready([topic, payload])][..0] == [];
  }

  lemma HeardIsOrdinary(c: Converter, topic: string)
    requires Hears(c, topic)
    ensures topic != WELCOME && topic != CTRL
  {
  }

  /** Taking a copy is what a converter does with the message, from its subscriber's loop to its publisher. */
  lemma CopyIsConverted(net: Network, c: Copy, payload: string)
    requires Placed(net, c) && Hears(net[c.at], c.topic)
    ensures StreamOut(net[c.at].table, HandedOn([Ready([c.topic, payload])])) == Fanout(Targets(net, c), payload)
  {
    hide Hears, HandedOn, StreamOut, Fanout;
    HeardIsOrdinary(net[c.at], c.topic);
    HandsOnHeard(c.topic, payload);
    OneConverted(net[c.at].table, c.topic, payload);
  }

  lemma OneConverted(table: Table, topic: string, payload: string)
    ensures StreamOut(table, [Incoming([topic, payload])])
         == Fanout(if topic in table then table[topic] else [], payload)
  {
    hide Fanout;
    var msgs := [topic, payload];
    var m := Incoming(msgs);
    assert [m][..0] == [] && StreamOut(table, []) == [];
    assert StreamOut(table, [m]) == [] + Block(table, Forward(msgs));
    NoTopics(payload);
  }

  lemma NoTopics(payload: string)
    ensures Fanout([], payload) == []
  {
  }

  // ---------------------------------------------------------------- the conversion graph

  /** Some converter hears t and turns it into u. */
  ghost predicate Edge(net: Network, t: string, u: string) {
    exists c :: Placed(net, c) && c.topic == t && Hears(net[c.at], t) && u in Targets(net, c)
  }

  ghost predicate Path(net: Network, p: seq<string>) {
    p != [] && forall i :: 0 <= i < |p| - 1 ==> Edge(net, p[i], p[i + 1])
  }

  ghost predicate Cycle(net: Network, p: seq<string>) {
    |p| >= 2 && Path(net, p) && p[0] == p[|p| - 1]
  }

  ghost predicate Acyclic(net: Network) { forall p :: !Cycle(net, p) }

  /** Every path from t has fewer than n edges. */
  ghost predicate Dies(net: Network, n: nat, t: string) {
    n > 0 && forall u :: Edge(net, t, u) ==> Dies(net, n - 1, u)
  }

  lemma {:induction false} DiesLater(net: Network, n: nat, t: string)
    requires Dies(net, n, t)
    ensures Dies(net, n + 1, t)
  {
    forall u | Edge(net, t, u)
      ensures Dies(net, n, u)
    {
      DiesLater(net, n - 1, u);
    }
  }

  // ---------------------------------------------------------------- work

  /** How many copies have to be received because of this one, itself included, when followed n deep. */
  ghost function Weight(net: Network, n: nat, c: Copy): nat
    decreases n, 0
  {
    if n == 0 || !Placed(net, c) then 0 else 1 + Work(net, n - 1, SpreadAll(net, Targets(net, c)))
  }

  ghost function Work(net: Network, n: nat, bag: seq<Copy>): nat
    decreases n, 1 + |bag|
  {
    if bag == [] then 0 else Weight(net, n, bag[0]) + Work(net, n, bag[1..])
  }

  ghost predicate AllDie(net: Network, n: nat, bag: seq<Copy>) {
    forall c :: c in bag ==> Dies(net, n, c.topic)
  }

  lemma {:induction false} WorkOfSum(net: Network, n: nat, a: seq<Copy>, b: seq<Copy>)
    ensures Work(net, n, a + b) == Work(net, n, a) + Work(net, n, b)
  {
    if a == [] {
      assert a + b == b;
    } else {
      assert (a + b)[1..] == a[1..] + b;
      WorkOfSum(net, n, a[1..], b);
    }
  }

  /** What a heard copy turns into dies one step earlier. */
  lemma OffspringDie(net: Network, n: nat, c: Copy)
    requires n > 0 && Placed(net, c) && Hears(net[c.at], c.topic) && Dies(net, n, c.topic)
    ensures var next := SpreadAll(net, Targets(net, c)); Flying(net, next) && AllDie(net, n - 1, next)
  {
    hide Hears;
    var next := SpreadAll(net, Targets(net, c));
    forall d | d in next
      ensures Placed(net, d) && Hears(net[d.at], d.topic) && Dies(net, n - 1, d.topic)
    {
      SpreadAllHas(net, Targets(net, c), d);
      assert Edge(net, c.topic, d.topic);
    }
  }

  /** Following deeper than a topic's paths go finds nothing more. */
  lemma {:induction false} WorkSettles(net: Network, n: nat, bag: seq<Copy>)
    requires Flying(net, bag) && AllDie(net, n, bag)
    ensures Work(net, n, bag) == Work(net, n + 1, bag)
    decreases n, |bag|
  {
    if bag != [] {
      var c := bag[0];
      assert c in bag && Dies(net, n, c.topic);
      OffspringDie(net, n, c);
      WorkSettles(net, n - 1, SpreadAll(net, Targets(net, c)));
      WorkSettles(net, n, bag[1..]);
    }
  }

  /** Receiving one copy takes exactly one off the work. */
  lemma TakeWorks(net: Network, n: nat, bag: seq<Copy>, k: nat)
    requires Flying(net, bag) && AllDie(net, n, bag) && k < |bag|
    ensures Flying(net, Take(net, bag, k)) && AllDie(net, n, Take(net, bag, k))
    ensures Work(net, n, Take(net, bag, k)) == Work(net, n, bag) - 1
  {
    var c := bag[k];
    assert c in bag && Dies(net, n, c.topic);
    var next := SpreadAll(net, Targets(net, c));
    StillFlying(net, bag, k);
    OffspringDie(net, n, c);
    forall d | d in Take(net, bag, k)
      ensures Dies(net, n, d.topic)
    {
      if d in next {
        DiesLater(net, n - 1, d.topic);
      }
    }
    WorkSettles(net, n - 1, next);
    assert bag == bag[..k] + ([c] + bag[k + 1..]);
    WorkOfSum(net, n, bag[..k], [c] + bag[k + 1..]);
    assert ([c] + bag[k + 1..])[1..] == bag[k + 1..];
    WorkOfSum(net, n, bag[..k] + bag[k + 1..], next);
    WorkOfSum(net, n, bag[..k], bag[k + 1..]);
  }

  /** Whatever the order, a run that came s steps far has s less work left; so a run ends after exactly as many
      steps as there was work, and not before. */
  lemma {:induction false} RunsAreExact(net: Network, n: nat, bag: seq<Copy>, ks: seq<nat>)
    requires Flying(net, bag) && AllDie(net, n, bag) && CanRun(net, bag, ks)
    ensures Work(net, n, End(net, bag, ks)) == Work(net, n, bag) - |ks|
    ensures End(net, bag, ks) == [] <==> |ks| == Work(net, n, bag)
    ensures Flying(net, End(net, bag, ks))
    decreases |ks|
  {
    if ks == [] {
      if bag != [] {
        assert bag[0] in bag;
      }
    } else {
      TakeWorks(net, n, bag, ks[0]);
      RunsAreExact(net, n, Take(net, bag, ks[0]), ks[1..]);
    }
  }

  // ---------------------------------------------------------------- without a cycle

  /** The topics some converter has in its table. */
  ghost function Keys(net: Network): set<string> {
    if net == [] then {} else net[0].table.Keys + Keys(net[1..])
  }

  lemma {:induction false} KeysHas(net: Network, i: nat, t: string)
    requires i < |net| && t in net[i].table
    ensures t in Keys(net)
  {
    if i > 0 {
      KeysHas(net[1..], i - 1, t);
    }
  }

  lemma EdgeFromKey(net: Network, t: string, u: string)
    requires Edge(net, t, u)
    ensures t in Keys(net)
  {
    var c :| Placed(net, c) && c.topic == t && Hears(net[c.at], t) && u in Targets(net, c);
    KeysHas(net, c.at, t);
  }

  /** More places than values means that a value comes twice. */
  lemma {:induction false} Pigeonhole(p: seq<string>, s: set<string>) returns (i: nat, j: nat)
    requires forall x :: x in p ==> x in s
    requires |p| > |s|
    ensures i < j < |p| && p[i] == p[j]
    decreases |p|
  {
    var rest, x := p[..|p| - 1], p[|p| - 1];
    if x in rest {
      i :| 0 <= i < |rest| && rest[i] == x;
      j := |p| - 1;
    } else {
      assert x in p;
      i, j := Pigeonhole(rest, s - {x});
    }
  }

  lemma {:induction false} LongPath(net: Network, n: nat, t: string) returns (p: seq<string>)
    requires !Dies(net, n, t)
    ensures Path(net, p) && |p| == n + 1 && p[0] == t
  {
    if n == 0 {
      p := [t];
    } else {
      var u :| Edge(net, t, u) && !Dies(net, n - 1, u);
      var rest := LongPath(net, n - 1, u);
      p := [t] + rest;
    }
  }

  lemma LongPathCycles(net: Network, t: string) returns (cycle: seq<string>)
    requires !Dies(net, |Keys(net)| + 1, t)
    ensures Cycle(net, cycle)
  {
    hide Edge, Keys, Dies;
    var n := |Keys(net)| + 1;
    var p := LongPath(net, n, t);
    forall x | x in p[..n]
      ensures x in Keys(net)
    {
      var i :| 0 <= i < n && p[i] == x;
      EdgeFromKey(net, p[i], p[i + 1]);
    }
    var i, j := Pigeonhole(p[..n], Keys(net));
    cycle := p[i..j + 1];
  }

  lemma AcyclicDies(net: Network, t: string)
    requires Acyclic(net)
    ensures Dies(net, |Keys(net)| + 1, t)
  {
    if !Dies(net, |Keys(net)| + 1, t) {
      var p := LongPathCycles(net, t);
    }
  }

  /** The work a bag of messages is, in a network without a cycle. */
  ghost function TotalWork(net: Network, bag: seq<Copy>): nat { Work(net, |Keys(net)| + 1, bag) }

  /** Without a cycle every run comes to an end, and takes exactly the total work. */
  lemma AcyclicQuiesces(net: Network, bag: seq<Copy>, ks: seq<nat>)
    requires Acyclic(net) && Flying(net, bag) && CanRun(net, bag, ks)
    ensures |ks| <= TotalWork(net, bag)
    ensures End(net, bag, ks) == [] <==> |ks| == TotalWork(net, bag)
  {
    var n := |Keys(net)| + 1;
    forall c | c in bag
      ensures Dies(net, n, c.topic)
    {
      AcyclicDies(net, c.topic);
    }
    RunsAreExact(net, n, bag, ks);
  }

  // ---------------------------------------------------------------- with a cycle

  /** Some copy under way is about to be taken one step further along p. */
  ghost predicate Circling(net: Network, p: seq<string>, bag: seq<Copy>) {
    exists c, i :: c in bag && 0 <= i < |p| - 1 && Placed(net, c) && c.topic == p[i] && p[i + 1] in Targets(net, c)
  }

  /** A message whose topic is on the cycle has a copy that goes on along it. */
  lemma EntersCycle(net: Network, p: seq<string>, i: nat, topics: seq<string>)
    requires Cycle(net, p) && i < |p| && p[i] in topics
    ensures Circling(net, p, SpreadAll(net, topics))
  {
    var j := if i == |p| - 1 then 0 else i;
    assert Edge(net, p[j], p[j + 1]);
    var c :| Placed(net, c) && c.topic == p[j] && Hears(net[c.at], p[j]) && p[j + 1] in Targets(net, c);
    SpreadAllHas(net, topics, c);
  }

  lemma KeepsCircling(net: Network, p: seq<string>, bag: seq<Copy>, k: nat)
    requires Cycle(net, p) && Circling(net, p, bag) && k < |bag| && Placed(net, bag[k])
    ensures Circling(net, p, Take(net, bag, k))
  {
    var c, i :| c in bag && 0 <= i < |p| - 1 && Placed(net, c) && c.topic == p[i] && p[i + 1] in Targets(net, c);
    if c == bag[k] {
      EntersCycle(net, p, i + 1, Targets(net, c));
      var next := SpreadAll(net, Targets(net, c));
      var d, j :| d in next && 0 <= j < |p| - 1 && Placed(net, d) && d.topic == p[j] && p[j + 1] in Targets(net, d);
      assert d in Take(net, bag, k);
    } else {
      assert c in bag[..k] + bag[k + 1..];
      assert c in Take(net, bag, k);
    }
  }

  lemma CirclingSome(net: Network, p: seq<string>, bag: seq<Copy>)
    requires Circling(net, p, bag)
    ensures bag != []
  {
  }

  /** A message on a cycle never dies out, whatever the order. */
  lemma {:induction false} CycleNeverDies(net: Network, p: seq<string>, bag: seq<Copy>, ks: seq<nat>)
    requires Cycle(net, p) && Circling(net, p, bag) && CanRun(net, bag, ks)
    ensures End(net, bag, ks) != []
    decreases |ks|
  {
    if ks != [] {
      KeepsCircling(net, p, bag, ks[0]);
      CycleNeverDies(net, p, Take(net, bag, ks[0]), ks[1..]);
    }
  }

  /** And it can go on for any number of steps. */
  lemma {:induction false} CycleRunsOn(net: Network, p: seq<string>, bag: seq<Copy>, n: nat) returns (ks: seq<nat>)
    requires Cycle(net, p) && Circling(net, p, bag) && Flying(net, bag)
    ensures CanRun(net, bag, ks) && |ks| == n
    decreases n
  {
    hide Circling, Cycle, Hears, Targets, Take;
    if n == 0 {
      ks := [];
    } else {
      CirclingSome(net, p, bag);
      assert bag[0] in bag;
      KeepsCircling(net, p, bag, 0);
      StillFlying(net, bag, 0);
      var rest := CycleRunsOn(net, p, Take(net, bag, 0), n - 1);
      ks := [0] + rest;
    }
  }

  ghost predicate AtMost(net: Network, bag: seq<Copy>, n: nat) { forall ks :: CanRun(net, bag, ks) ==> |ks| <= n }

  /** There is a bound on the runs from the bag. */
  ghost predicate Bounded(net: Network, bag: seq<Copy>) { exists n: nat :: AtMost(net, bag, n) }

  lemma AcyclicBounded(net: Network, bag: seq<Copy>)
    requires Acyclic(net) && Flying(net, bag)
    ensures Bounded(net, bag)
  {
    hide Acyclic, Flying, CanRun;
    forall ks | CanRun(net, bag, ks)
      ensures |ks| <= TotalWork(net, bag)
    {
      AcyclicQuiesces(net, bag, ks);
    }
    assert AtMost(net, bag, TotalWork(net, bag));
  }

  lemma CycleUnbounded(net: Network, p: seq<string>)
    requires |p| >= 2 && Cycle(net, p)
    ensures var bag := SpreadAll(net, [p[0]]); Flying(net, bag) && !Bounded(net, bag)
  {
    hide Cycle, Circling, CanRun, Hears;
    var bag := SpreadAll(net, [p[0]]);
    EntersCycle(net, p, 0, [p[0]]);
    forall c | c in bag
      ensures Placed(net, c) && Hears(net[c.at], c.topic)
    {
      SpreadAllHas(net, [p[0]], c);
    }
    forall n: nat
      ensures !AtMost(net, bag, n)
    {
      var ks := CycleRunsOn(net, p, bag, n + 1);
    }
  }

  /** All messages come to rest exactly if the conversions of the network form no cycle. */
  lemma QuiescesIffAcyclic(net: Network)
    ensures Acyclic(net) <==> forall bag :: Flying(net, bag) ==> Bounded(net, bag)
  {
    hide Flying, Bounded, Cycle;
    if Acyclic(net) {
      forall bag | Flying(net, bag)
        ensures Bounded(net, bag)
      {
        AcyclicBounded(net, bag);
      }
    } else {
      var p :| Cycle(net, p);
      CycleHasLength(net, p);
      CycleUnbounded(net, p);
    }
  }

  lemma CycleHasLength(net: Network, p: seq<string>)
    requires Cycle(net, p)
    ensures |p| >= 2
  {
  }

  // ---------------------------------------------------------------- replicas of one converter

  /** The weight of a message among k replicas: one, and k times the weight of every topic it is turned into that
      the replicas hear. */
  ghost function ReplicaWeight(c: Converter, k: nat, n: nat, t: string): nat
    decreases n, 0
  {
    if n == 0 then 0 else 1 + k * ReplicaSum(c, k, n - 1, if t in c.table then c.table[t] else [])
  }

  ghost function ReplicaSum(c: Converter, k: nat, n: nat, topics: seq<string>): nat
    decreases n, 1 + |topics|
  {
    if topics == [] then 0
    else (if Hears(c, topics[0]) then ReplicaWeight(c, k, n, topics[0]) else 0) + ReplicaSum(c, k, n, topics[1..])
  }

  predicate Replicas(net: Network, c: Converter) { forall i :: 0 <= i < |net| ==> net[i] == c }

  lemma {:induction false} ReplicaCopy(net: Network, c: Converter, n: nat, t: string, i: nat)
    requires Replicas(net, c) && i < |net|
    ensures Weight(net, n, Copy(i, t)) == ReplicaWeight(c, |net|, n, t)
    decreases n, 0, 0
  {
    if n > 0 {
      ReplicaSpreadAll(net, c, n - 1, Targets(net, Copy(i, t)));
    }
  }

  lemma {:induction false} ReplicaSpread(net: Network, c: Converter, n: nat, t: string, m: nat)
    requires Replicas(net, c) && m <= |net|
    ensures Work(net, n, Spread(net, t, m)) == if Hears(c, t) then m * ReplicaWeight(c, |net|, n, t) else 0
    decreases n, 1, m
  {
    hide Hears, Weight, ReplicaWeight;
    if m > 0 {
      ReplicaSpread(net, c, n, t, m - 1);
      if Hears(c, t) {
        var x := Copy(m - 1, t);
        WorkOfSum(net, n, Spread(net, t, m - 1), [x]);
        assert Work(net, n, [x]) == Weight(net, n, x);
        ReplicaCopy(net, c, n, t, m - 1);
        OneMoreTime(m, ReplicaWeight(c, |net|, n, t));
      } else {
        assert Spread(net, t, m - 1) + [] == Spread(net, t, m - 1);
      }
    }
  }

  lemma OneMoreTime(m: nat, w: nat)
    requires m > 0
    ensures (m - 1) * w + w == m * w
  {
  }

  lemma {:induction false} ReplicaSpreadAll(net: Network, c: Converter, n: nat, topics: seq<string>)
    requires Replicas(net, c)
    ensures Work(net, n, SpreadAll(net, topics)) == |net| * ReplicaSum(c, |net|, n, topics)
    decreases n, 2, |topics|
  {
    hide Hears, ReplicaWeight, Weight, Work, Spread;
    if topics == [] {
      NoWork(net, n);
    } else {
      ReplicaSpread(net, c, n, topics[0], |net|);
      ReplicaSpreadAll(net, c, n, topics[1..]);
      WorkOfSum(net, n, Spread(net, topics[0], |net|), SpreadAll(net, topics[1..]));
      var w := if Hears(c, topics[0]) then ReplicaWeight(c, |net|, n, topics[0]) else 0;
      Distribute(|net|, w, ReplicaSum(c, |net|, n, topics[1..]));
    }
  }

  lemma NoWork(net: Network, n: nat)
    ensures Work(net, n, []) == 0
  {
  }

  lemma Distribute(k: nat, a: nat, b: nat)
    ensures k * (a + b) == k * a + k * b
  {
  }

  /** With k replicas of a converter and no cycle, a message the replicas hear is done with after k times its
      weight. */
  lemma ReplicasQuiesce(net: Network, c: Converter, t: string, ks: seq<nat>)
    requires Replicas(net, c) && Acyclic(net) && Hears(c, t)
    requires CanRun(net, Spread(net, t, |net|), ks)
    ensures End(net, Spread(net, t, |net|), ks) == []
      <==> |ks| == |net| * ReplicaWeight(c, |net|, |Keys(net)| + 1, t)
  {
    hide Hears, Spread, CanRun, End, Acyclic, Work, ReplicaWeight, Keys;
    var bag := Spread(net, t, |net|);
    forall x | x in bag
      ensures Placed(net, x) && Hears(net[x.at], x.topic)
    {
      SpreadHas(net, t, |net|, x);
    }
    AcyclicQuiesces(net, bag, ks);
    ReplicaSpread(net, c, |Keys(net)| + 1, t, |net|);
  }

  /** Then the weight is the solution of W(t) = 1 + k * (sum of W(u)) over the heard topics t is turned into. */
  lemma WeightEquation(net: Network, c: Converter, t: string)
    requires Replicas(net, c) && net != [] && Acyclic(net) && Hears(c, t)
    ensures var n := |Keys(net)| + 1;
      ReplicaWeight(c, |net|, n, t)
      == 1 + |net| * ReplicaSum(c, |net|, n, if t in c.table then c.table[t] else [])
  {
    var n := |Keys(net)| + 1;
    var x := Copy(0, t);
    AcyclicDies(net, t);
    OffspringDie(net, n, x);
    WorkSettles(net, n - 1, SpreadAll(net, Targets(net, x)));
    ReplicaSpreadAll(net, c, n - 1, Targets(net, x));
    ReplicaSpreadAll(net, c, n, Targets(net, x));
  }

  // ---------------------------------------------------------------- the shipped tables

  /** Two topics that are turned into each other. */
  const SWAP := Converter(Initially(["topic1", "topic2"]), map["topic1" := ["topic2"], "topic2" := ["topic1"]])

  lemma HearsOwnTopic(topics: seq<string>, table: Table, t: string)
    requires t in topics && t != WELCOME && t != CTRL
    ensures Hears(Converter(Initially(topics), table), t)
  {
    assert t in Initially(topics) && t <= t;
  }

  lemma SwapCycles(net: Network, i: nat)
    requires i < |net| && net[i] == SWAP
    ensures Cycle(net, ["topic1", "topic2", "topic1"])
  {
    HearsOwnTopic(["topic1", "topic2"], SWAP.table, "topic1");
    HearsOwnTopic(["topic1", "topic2"], SWAP.table, "topic2");
    assert "topic2" in Targets(net, Copy(i, "topic1"));
    assert "topic1" in Targets(net, Copy(i, "topic2"));
    assert Edge(net, "topic1", "topic2") && Edge(net, "topic2", "topic1");
  }

  /** With this table, in whatever company, a single message on topic1 is converted for ever. */
  lemma SwapNeverQuiesces(net: Network, i: nat, ks: seq<nat>)
    requires i < |net| && net[i] == SWAP && CanRun(net, SpreadAll(net, ["topic1"]), ks)
    ensures End(net, SpreadAll(net, ["topic1"]), ks) != []
    ensures !Bounded(net, SpreadAll(net, ["topic1"]))
  {
    var p := ["topic1", "topic2", "topic1"];
    SwapCycles(net, i);
    EntersCycle(net, p, 0, ["topic1"]);
    CycleNeverDies(net, p, SpreadAll(net, ["topic1"]), ks);
    CycleUnbounded(net, p);
  }

  /** No converter hears what another makes of the messages it hears. */
  ghost predicate OneHop(net: Network) {
    forall t, u, i :: Edge(net, t, u) && 0 <= i < |net| ==> !Hears(net[i], u)
  }

  lemma HasFirst(bag: seq<Copy>)
    ensures bag != [] ==> bag[0] in bag
  {
  }

  lemma NothingNext(net: Network, bag: seq<Copy>, k: nat)
    requires OneHop(net) && Flying(net, bag) && k < |bag|
    ensures SpreadAll(net, Targets(net, bag[k])) == []
  {
    hide Hears;
    var x := bag[k];
    var next := SpreadAll(net, Targets(net, x));
    forall d
      ensures d !in next
    {
      SpreadAllHas(net, Targets(net, x), d);
      if Placed(net, d) && d.topic in Targets(net, x) {
        assert Edge(net, x.topic, d.topic);
      }
    }
    HasFirst(next);
  }

  /** Then every copy is received once, and that is all. */
  lemma {:induction false} OneHopRuns(net: Network, bag: seq<Copy>, ks: seq<nat>)
    requires OneHop(net) && Flying(net, bag) && CanRun(net, bag, ks)
    ensures |End(net, bag, ks)| + |ks| == |bag|
    decreases |ks|
  {
    if ks != [] {
      NothingNext(net, bag, ks[0]);
      StillFlying(net, bag, ks[0]);
      OneHopRuns(net, Take(net, bag, ks[0]), ks[1..]);
    }
  }

  lemma {:induction false} SpreadLength(net: Network, topic: string, n: nat)
    requires n <= |net|
    ensures |Spread(net, topic, n)| <= n
  {
    if n > 0 {
      SpreadLength(net, topic, n - 1);
    }
  }

  lemma OneHopMessage(net: Network, t: string, ks: seq<nat>)
    requires OneHop(net) && CanRun(net, Spread(net, t, |net|), ks)
    ensures |End(net, Spread(net, t, |net|), ks)| + |ks| == |Spread(net, t, |net|)| <= |net|
  {
    hide OneHop, Hears;
    var bag := Spread(net, t, |net|);
    forall x | x in bag
      ensures Placed(net, x) && Hears(net[x.at], x.topic)
    {
      SpreadHas(net, t, |net|, x);
    }
    OneHopRuns(net, bag, ks);
    SpreadLength(net, t, |net|);
  }

  function IngressTopics(): seq<string> {
    [
      "stack-a-ingress", "stack-b-ingress",
      "zmqStack-0-ingress", "zmqStack-1-ingress", "zmqStack-2-ingress", "zmqStack-3-ingress",
      "net-stack-0-ingress", "net-stack-1-ingress", "net-stack-2-ingress", "net-stack-3-ingress"
    ]
  }

  function Bridges(): Table {
    map[
      "stack-a-ingress" := ["stack-b-egress"],
      "stack-b-ingress" := ["stack-a-egress"],
      "zmqStack-0-ingress" := ["zmqStack-1-egress"],
      "zmqStack-1-ingress" := ["zmqStack-2-egress"],
      "zmqStack-2-ingress" := ["zmqStack-3-egress"],
      "zmqStack-3-ingress" := ["zmqStack-0-egress"],
      "net-stack-0-ingress" := ["net-stack-1-egress"],
      "net-stack-1-ingress" := ["net-stack-0-egress"],
      "net-stack-2-ingress" := ["net-stack-3-egress"],
      "net-stack-3-ingress" := ["net-stack-2-egress"]
    ]
  }

  /** The table that bridges the services in the cluster. */
  function Bridge(): Converter { Converter(Initially(IngressTopics()), Bridges()) }

  /** The place where s goes on with -ingress. */
  predicate IngressAt(s: string, k: nat) { |s| > k + 1 && s[k] == '-' && s[k + 1] == 'i' }

  predicate IngressName(s: string) { IngressAt(s, 7) || IngressAt(s, 10) || IngressAt(s, 11) }

  predicate EgressName(s: string) {
    s != [] && s[0] != CTRL[0] && s[0] != WELCOME[0] && !IngressName(s)
  }

  lemma NotAPrefix(f: string, u: string)
    requires f == WELCOME || f == CTRL || IngressName(f)
    requires EgressName(u)
    ensures !(f <= u)
  {
  }

  /** A converter with ingress filters does not hear egress topics. */
  lemma EgressUnheard(topics: seq<string>, table: Table, u: string)
    requires (forall t :: t in topics ==> IngressName(t)) && EgressName(u)
    ensures !Hears(Converter(Initially(topics), table), u)
  {
    hide IngressName, EgressName;
    forall f | f in Initially(topics)
      ensures !(f <= u)
    {
      assert f == WELCOME || f == CTRL || f in topics;
      NotAPrefix(f, u);
    }
  }

  lemma BridgesAreOneHop(net: Network, c: Converter, topics: seq<string>)
    requires Replicas(net, c) && c.filters == Initially(topics)
    requires forall t :: t in topics ==> IngressName(t)
    requires forall t :: t in c.table ==> forall u :: u in c.table[t] ==> EgressName(u)
    ensures OneHop(net)
  {
    hide Hears, IngressName, EgressName;
    forall v, u, i | Edge(net, v, u) && 0 <= i < |net|
      ensures !Hears(net[i], u)
    {
      var x :| Placed(net, x) && x.topic == v && Hears(net[x.at], v) && u in Targets(net, x);
      EgressUnheard(topics, c.table, u);
    }
  }

  lemma AllIngress()
    ensures forall t :: t in IngressTopics() ==> IngressName(t)
  {
  }

  lemma AllEgress(t: string)
    requires t in Bridges()
    ensures |Bridges()[t]| == 1 && EgressName(Bridges()[t][0])
  {
  }

  /** Among any number of replicas with that table, every message is received at most once by each, and what
      becomes of it is received by none. */
  lemma BridgeOneHop(net: Network, t: string, ks: seq<nat>)
    requires Replicas(net, Bridge()) && CanRun(net, Spread(net, t, |net|), ks)
    ensures |End(net, Spread(net, t, |net|), ks)| + |ks| == |Spread(net, t, |net|)| <= |net|
  {
    hide IngressTopics, Bridges, IngressName, EgressName, OneHop, CanRun, End, Spread;
    AllIngress();
    forall v | v in Bridges()
      ensures forall u :: u in Bridges()[v] ==> EgressName(u)
    {
      AllEgress(v);
    }
    BridgesAreOneHop(net, Bridge(), IngressTopics());
    OneHopMessage(net, t, ks);
  }
}
