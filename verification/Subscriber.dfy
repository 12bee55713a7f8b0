/** Prefix filters, the loops of the two receiving threads, the subscriptions of a stack, and its health probe. */
module Subscribing {
  import opened Options
  import opened Topics

  // ---------------------------------------------------------------- filters

  const WELCOME := "\U{F3}\0\0"
  const CTRL := "ctrl"

  /** A message, frame by frame. The first frame is its topic if there is another one. */
  type Frames = seq<string>

  /** A subscribing socket counts how often each filter was set, and passes a message on if the message starts
      with any filter. */
  ghost predicate Delivered(filters: multiset<string>, topic: string) {
    exists f :: f in filters && f <= topic
  }

  // ---------------------------------------------------------------- the receiving loops

  /** What one poll of a socket comes to. */
  datatype Poll = Timeout | Ready(msgs: Frames)

  /** What a receiving thread hands to its target. */
  datatype Handed = Control(msgs: Frames) | Incoming(msgs: Frames)

  /** Multipart messages have at least one frame. */
  predicate WellFormed(p: Poll) { p.Ready? ==> p.msgs != [] }

  predicate IsWelcome(p: Poll) { p.Ready? && p.msgs != [] && p.msgs[0] == WELCOME }

  predicate IsControl(p: Poll) { p.Ready? && p.msgs != [] && p.msgs[0] == CTRL }

  /** What a subscriber hands on of one poll. */
  function Part(p: Poll): seq<Handed> {
    if p.Timeout? || IsWelcome(p) then []
    else if IsControl(p) then [Control(p.msgs)]
    else [Incoming(p.msgs)]
  }

  /** The polls the subscriber's loop counts: timeouts and application messages. */
  function Counted(polls: seq<Poll>): nat {
    if polls == [] then 0
    else
      var p := polls[|polls| - 1];
      Counted(polls[..|polls| - 1]) + if IsWelcome(p) || IsControl(p) then 0 else 1
  }

  /** What a subscriber hands on, in order. */
  function HandedOn(polls: seq<Poll>): seq<Handed> {
    if polls == [] then []
    else
      var p := polls[|polls| - 1];
      HandedOn(polls[..|polls| - 1]) + Part(p)
  }

  function PulledPart(p: Poll): seq<Handed> { if p.Ready? then [Incoming(p.msgs)] else [] }

  /** What a receiver hands on: every message, whatever its first frame. */
  function Pulled(polls: seq<Poll>): seq<Handed> {
    if polls == [] then []
    else
      var p := polls[|polls| - 1];
      Pulled(polls[..|polls| - 1]) + PulledPart(p)
  }

  lemma OnePoll(polls: seq<Poll>, k: nat)
    requires k < |polls|
    ensures HandedOn(polls[..k + 1]) == HandedOn(polls[..k]) + Part(polls[k])
    ensures Counted(polls[..k + 1]) == Counted(polls[..k]) + if IsWelcome(polls[k]) || IsControl(polls[k]) then 0 else 1
  {
    assert polls[..k + 1][..k] == polls[..k];
  }

  lemma NoPolls()
    ensures HandedOn([]) == [] && Counted([]) == 0
  {
  }

  lemma CountOn(start: nat, n: nat)
    ensures ((start + n) % UINT32_RANGE + 1) % UINT32_RANGE == (start + n + 1) % UINT32_RANGE
  {
  }

  class Subscriber {
    var filters: multiset<string>
    var count: nat
    var handed: seq<Handed>

    constructor ()
      ensures filters == multiset{} && count == 0 && handed == []
    {
      filters := multiset{};
      count := 0;
      handed := [];
    }

    /** The thread, until it sees the shutdown flag after the given polls. Before poll i other threads make the
        changes others[i] to the filters. */
    method Run(topics: seq<string>, polls: seq<Poll>, others: seq<seq<Change>>)
      requires (forall p :: p in polls ==> WellFormed(p)) && |others| == |polls|
      requires count < UINT32_RANGE
      modifies this
      ensures filters == FiltersAfter(old(filters) + Initially(topics), Flattened(others))
      ensures handed == old(handed) + HandedOn(polls)
      ensures count == (old(count) + Counted(polls)) % UINT32_RANGE
    {
      hide HandedOn, Counted, FiltersAfter, Flattened;
      SubscribeAll(topics);
      Loop(polls, others);
    }

    method SubscribeAll(topics: seq<string>)
      modifies this`filters
      ensures filters == old(filters) + Initially(topics)
    {
      Subscribe(WELCOME);
      Subscribe(CTRL);
      ghost var builtin := filters;
      for i := 0 to |topics|
        invariant filters == builtin + multiset(topics[..i])
      {
        assert topics[..i + 1] == topics[..i] + [topics[i]];
        Subscribe(topics[i]);
      }
      assert topics[..|topics|] == topics;
    }

    /** What other threads do to the filters between two polls. */
    method Interfere(changes: seq<Change>)
      modifies this`filters
      ensures filters == FiltersAfter(old(filters), changes)
    {
      for i := 0 to |changes|
        invariant filters == FiltersAfter(old(filters), changes[..i])
      {
        assert changes[..i + 1][..i] == changes[..i];
        if changes[i].Add? {
          Subscribe(changes[i].topic);
        } else {
          Unsubscribe(changes[i].topic);
        }
      }
      assert changes[..|changes|] == changes;
    }

    method Loop(polls: seq<Poll>, others: seq<seq<Change>>)
      requires (forall p :: p in polls ==> WellFormed(p)) && |others| == |polls|
      requires count < UINT32_RANGE
      modifies this
      ensures filters == FiltersAfter(old(filters), Flattened(others))
      ensures handed == old(handed) + HandedOn(polls)
      ensures count == (old(count) + Counted(polls)) % UINT32_RANGE
    {
      hide HandedOn, Counted, FiltersAfter, Flattened;
      NoPolls();
      NoChanges(filters);
      var round := 0;
      while round < |polls|
        invariant round <= |polls|
        invariant filters == FiltersAfter(old(filters), Flattened(others[..round]))
        invariant handed == old(handed) + HandedOn(polls[..round])
        invariant count == (old(count) + Counted(polls[..round])) % UINT32_RANGE
      {
        MoreChanges(old(filters), others, round);
        Interfere(others[round]);
        var p := polls[round];
        assert p in polls;
        OnePoll(polls, round);
        CountOn(old(count), Counted(polls[..round]));
        round := round + 1;
        if p.Ready? {
          if p.msgs[0] == WELCOME {
            continue;
          }
          if p.msgs[0] == CTRL {
            handed := handed + [Control(p.msgs)];
            continue;
          }
          handed := handed + [Incoming(p.msgs)];
        }
        count := (count + 1) % UINT32_RANGE;
      }
      assert polls[..|polls|] == polls && others[..|others|] == others;
    }

    method Subscribe(topic: string)
      modifies this`filters
      ensures filters == old(filters) + multiset{topic}
    {
      filters := filters[topic := filters[topic] + 1];
    }

    /** Taking back a filter that is not set does nothing. */
    method Unsubscribe(topic: string)
      modifies this`filters
      ensures filters == old(filters) - multiset{topic}
    {
      if topic in filters {
        filters := filters[topic := filters[topic] - 1];
      }
    }

    method Count() returns (n: nat)
      ensures n == count
    {
      n := count;
    }
  }

  lemma OnePull(polls: seq<Poll>, k: nat)
    requires k < |polls|
    ensures Pulled(polls[..k + 1]) == Pulled(polls[..k]) + PulledPart(polls[k])
  {
    assert polls[..k + 1][..k] == polls[..k];
  }

  lemma NothingPulled()
    ensures Pulled([]) == []
  {
  }

  class Receiver {
    var count: nat
    var handed: seq<Handed>

    constructor ()
      ensures count == 0 && handed == []
    {
      count := 0;
      handed := [];
    }

    method Run(polls: seq<Poll>)
      requires count < UINT32_RANGE
      modifies this
      ensures handed == old(handed) + Pulled(polls)
      ensures count == (old(count) + |polls|) % UINT32_RANGE
    {
      hide Pulled;
      NothingPulled();
      var round := 0;
      while round < |polls|
        invariant round <= |polls|
        invariant handed == old(handed) + Pulled(polls[..round])
        invariant count == (old(count) + round) % UINT32_RANGE
      {
        var p := polls[round];
        OnePull(polls, round);
        CountOn(old(count), round);
        if p.Ready? {
          handed := handed + [Incoming(p.msgs)];
        }
        count := (count + 1) % UINT32_RANGE;
        round := round + 1;
      }
      assert polls[..|polls|] == polls;
    }
  }

  /** Whatever arrives, the subscriber's target is never given a welcome frame, and given a control frame only
      as a control message. */
  lemma {:induction false} NoControlAmongIncoming(polls: seq<Poll>)
    requires forall p :: p in polls ==> WellFormed(p)
    ensures forall m :: m in HandedOn(polls) ==>
      m.msgs != [] && m.msgs[0] != WELCOME && (m.Control? <==> m.msgs[0] == CTRL)
  {
    if polls != [] {
      NoControlAmongIncoming(polls[..|polls| - 1]);
      assert polls[|polls| - 1] in polls;
    }
  }

  /** The messages that were brought, without those whose first frame is the welcome topic. */
  function Brought(polls: seq<Poll>): seq<Frames> {
    if polls == [] then []
    else
      var p := polls[0];
      (if p.Ready? && p.msgs != [] && p.msgs[0] != "\U{F3}\0\0" then [p.msgs] else []) + Brought(polls[1..])
  }

  /** How many polls timed out or brought neither a welcome nor a control frame. */
  function Ordinary(polls: seq<Poll>): nat {
    if polls == [] then 0
    else
      var p := polls[0];
      (if p.Ready? && p.msgs != [] && (p.msgs[0] == "\U{F3}\0\0" || p.msgs[0] == "ctrl") then 0 else 1)
      + Ordinary(polls[1..])
  }

  /** All the messages that were brought. */
  function Arrivals(polls: seq<Poll>): seq<Frames> {
    if polls == [] then []
    else (if polls[0].Ready? then [polls[0].msgs] else []) + Arrivals(polls[1..])
  }

  lemma {:induction false} Appended(polls: seq<Poll>, p: Poll)
    ensures Brought(polls + [p]) == Brought(polls) + Brought([p])
    ensures Ordinary(polls + [p]) == Ordinary(polls) + Ordinary([p])
    ensures Arrivals(polls + [p]) == Arrivals(polls) + Arrivals([p])
  {
    if polls == [] {
      assert [] + [p] == [p];
    } else {
      assert (polls + [p])[1..] == polls[1..] + [p];
      Appended(polls[1..], p);
    }
  }

  lemma OnlyPoll(p: Poll)
    requires WellFormed(p)
    ensures |Part(p)| == |Brought([p])|
    ensures forall k :: 0 <= k < |Part(p)| ==>
      Part(p)[k].msgs == Brought([p])[k] && (Part(p)[k].Control? <==> Part(p)[k].msgs[0] == "ctrl")
    ensures Ordinary([p]) == if IsWelcome(p) || IsControl(p) then 0 else 1
    ensures |PulledPart(p)| == |Arrivals([p])|
    ensures forall k :: 0 <= k < |PulledPart(p)| ==> PulledPart(p)[k] == Incoming(Arrivals([p])[k])
  {
  }

  /** A subscriber hands on every message but welcome frames, in order and frame by frame, as a control message
      exactly if its first frame is ctrl, and counts the polls that timed out or brought anything else. */
  lemma {:induction false} EverythingHandedOn(polls: seq<Poll>)
    requires forall p :: p in polls ==> WellFormed(p)
    ensures |HandedOn(polls)| == |Brought(polls)| && Counted(polls) == Ordinary(polls)
    ensures forall k :: 0 <= k < |HandedOn(polls)| ==>
      && HandedOn(polls)[k].msgs == Brought(polls)[k] && Brought(polls)[k] != []
      && (HandedOn(polls)[k].Control? <==> Brought(polls)[k][0] == "ctrl")
  {
    if polls != [] {
      hide Brought, Ordinary, Part;
      var before, p := polls[..|polls| - 1], polls[|polls| - 1];
      assert polls == before + [p] && p in polls;
      EverythingHandedOn(before);
      Appended(before, p);
      OnlyPoll(p);
      NothingEmpty(p);
    }
  }

  lemma NothingEmpty(p: Poll)
    ensures forall k :: 0 <= k < |Brought([p])| ==> Brought([p])[k] != []
  {
  }

  /** A receiver hands on every message, in order, as an ordinary one. */
  lemma {:induction false} EverythingPulled(polls: seq<Poll>)
    requires forall p :: p in polls ==> WellFormed(p)
    ensures |Pulled(polls)| == |Arrivals(polls)|
    ensures forall k :: 0 <= k < |Pulled(polls)| ==> Pulled(polls)[k] == Incoming(Arrivals(polls)[k])
  {
    if polls != [] {
      hide Arrivals, PulledPart;
      var before, p := polls[..|polls| - 1], polls[|polls| - 1];
      assert polls == before + [p] && p in polls;
      EverythingPulled(before);
      Appended(before, p);
      OnlyPoll(p);
    }
  }

  // ---------------------------------------------------------------- subscriptions against filters

  datatype Change = Add(topic: string) | Drop(topic: string)

  /** The filters a stack sets when it starts, and the topics it lists as subscribed. */
  function Initially(topics: seq<string>): multiset<string> { multiset{WELCOME, CTRL} + multiset(topics) }

  function Listing(topics: seq<string>): set<string> { set t | t in topics }

  function ChangedFilters(f: multiset<string>, c: Change): multiset<string> {
    if c.Add? then f + multiset{c.topic} else f - multiset{c.topic}
  }

  function ChangedSet(s: set<string>, c: Change): set<string> {
    if c.Add? then s + {c.topic} else s - {c.topic}
  }

  function FiltersAfter(init: multiset<string>, h: seq<Change>): multiset<string> {
    if h == [] then init else ChangedFilters(FiltersAfter(init, h[..|h| - 1]), h[|h| - 1])
  }

  function SubscriptionsAfter(init: set<string>, h: seq<Change>): set<string> {
    if h == [] then init else ChangedSet(SubscriptionsAfter(init, h[..|h| - 1]), h[|h| - 1])
  }

  function Flattened(h: seq<seq<Change>>): seq<Change> {
    if h == [] then [] else Flattened(h[..|h| - 1]) + h[|h| - 1]
  }

  lemma {:induction false} FiltersInTurn(init: multiset<string>, a: seq<Change>, b: seq<Change>)
    ensures FiltersAfter(init, a + b) == FiltersAfter(FiltersAfter(init, a), b)
  {
    if b == [] {
      assert a + b == a;
    } else {
      assert (a + b)[..|a + b| - 1] == a + b[..|b| - 1];
      FiltersInTurn(init, a, b[..|b| - 1]);
    }
  }

  lemma MoreChanges(init: multiset<string>, h: seq<seq<Change>>, k: nat)
    requires k < |h|
    ensures FiltersAfter(init, Flattened(h[..k + 1])) == FiltersAfter(FiltersAfter(init, Flattened(h[..k])), h[k])
  {
    assert h[..k + 1][..k] == h[..k];
    FiltersInTurn(init, Flattened(h[..k]), h[k]);
  }

  lemma NoChanges(init: multiset<string>)
    ensures FiltersAfter(init, Flattened([])) == init
  {
  }

  /** How many more times t was added than dropped. */
  function Balance(h: seq<Change>, t: string): int {
    if h == [] then 0
    else
      var c := h[|h| - 1];
      Balance(h[..|h| - 1], t) + if c.topic != t then 0 else if c.Add? then 1 else -1
  }

  /** Some stretch of h that reaches to its end has at least n more additions of t than drops. */
  ghost predicate Surplus(h: seq<Change>, t: string, n: int) {
    exists k :: 0 <= k <= |h| && Balance(h[k..], t) >= n
  }

  /** The last change to t, if there is one, is c. */
  ghost predicate LastIs(h: seq<Change>, c: Change) {
    exists k :: 0 <= k < |h| && h[k] == c && forall m :: k < m < |h| ==> h[m].topic != c.topic
  }

  predicate Untouched(h: seq<Change>, t: string) { forall k :: 0 <= k < |h| ==> h[k].topic != t }

  lemma BalanceStep(h: seq<Change>, k: nat, t: string)
    requires k < |h|
    ensures Balance(h[k..], t) == Balance(h[..|h| - 1][k..], t)
      + if h[|h| - 1].topic != t then 0 else if h[|h| - 1].Add? then 1 else -1
  {
    assert h[k..][..|h[k..]| - 1] == h[..|h| - 1][k..];
  }

  /** How often a filter is set: taking back stops at zero, so only what was added since matters. A count of at
      least n > 0 means that some stretch up to now has a surplus of n, or the whole history has it together
      with the initial count. */
  lemma {:induction false} FilterCount(init: multiset<string>, h: seq<Change>, t: string, n: int)
    requires n > 0
    ensures FiltersAfter(init, h)[t] >= n <==> Surplus(h, t, n) || init[t] + Balance(h, t) >= n
  {
    if h == [] {
      assert forall k :: 0 <= k <= 0 ==> h[k..] == [];
    } else {
      var p, c := h[..|h| - 1], h[|h| - 1];
      var d := if c.topic != t then 0 else if c.Add? then 1 else -1;
      forall k | 0 <= k < |h|
        ensures Balance(h[k..], t) == Balance(p[k..], t) + d
      {
        BalanceStep(h, k, t);
      }
      assert h[|h|..] == [];
      assert p[|p|..] == [];
      if n - d > 0 {
        FilterCount(init, p, t, n - d);
      }
    }
  }

  lemma LastIsStep(p: seq<Change>, c: Change, t: string)
    ensures LastIs(p + [c], Add(t)) <==> c == Add(t) || (c.topic != t && LastIs(p, Add(t)))
    ensures Untouched(p + [c], t) <==> c.topic != t && Untouched(p, t)
  {
    var h := p + [c];
    assert h[|p|] == c;
    assert forall k :: 0 <= k < |p| ==> h[k] == p[k];
    if LastIs(h, Add(t)) && c != Add(t) {
      var k :| 0 <= k < |h| && h[k] == Add(t) && forall m :: k < m < |h| ==> h[m].topic != t;
      assert p[k] == Add(t);
    }
    if c.topic != t && LastIs(p, Add(t)) {
      var k :| 0 <= k < |p| && p[k] == Add(t) && forall m :: k < m < |p| ==> p[m].topic != t;
      assert h[k] == Add(t);
    }
  }

  /** A filter is set after a history of changes: it has a surplus of additions over some stretch up to now, or over
      the whole of it together with the initial count. */
  ghost predicate IsSet(init: multiset<string>, h: seq<Change>, f: string) {
    Surplus(h, f, 1) || init[f] + Balance(h, f) >= 1
  }

  /** A stack that just started is delivered what starts with the welcome topic, with ctrl, or with one of its
      topics, and nothing else. */
  lemma DeliveredAtFirst(topics: seq<string>, topic: string)
    ensures Delivered(Initially(topics), topic)
      <==> "\U{F3}\0\0" <= topic || "ctrl" <= topic || exists t :: t in topics && t <= topic
  {
    var filters := Initially(topics);
    assert "\U{F3}\0\0" in filters && "ctrl" in filters;
    assert forall t :: t in topics ==> t in filters;
    if Delivered(filters, topic) {
      var f :| f in filters && f <= topic;
      assert f == "\U{F3}\0\0" || f == "ctrl" || f in topics;
    }
  }

  /** After any history of changes, a topic is delivered exactly if one of its prefixes is set. */
  lemma DeliveredAfter(init: multiset<string>, h: seq<Change>, topic: string)
    ensures Delivered(FiltersAfter(init, h), topic) <==> exists f :: f <= topic && IsSet(init, h, f)
  {
    hide FiltersAfter, IsSet;
    forall f
      ensures f in FiltersAfter(init, h) <==> IsSet(init, h, f)
    {
      SetExactly(init, h, f);
    }
  }

  lemma SetExactly(init: multiset<string>, h: seq<Change>, f: string)
    ensures f in FiltersAfter(init, h) <==> IsSet(init, h, f)
  {
    FilterCount(init, h, f, 1);
  }

  lemma {:induction false} UntouchedCount(init: multiset<string>, h: seq<Change>, t: string)
    requires Untouched(h, t)
    ensures FiltersAfter(init, h)[t] == init[t]
  {
    if h != [] {
      UntouchedCount(init, h[..|h| - 1], t);
    }
  }

  /** Subscriptions lists a topic exactly if its last change added it, or it had none and was there at first. */
  lemma {:induction false} Listed(init: set<string>, h: seq<Change>, t: string)
    ensures t in SubscriptionsAfter(init, h) <==> LastIs(h, Add(t)) || (Untouched(h, t) && t in init)
  {
    hide LastIs, Untouched;
    if h == [] {
      NothingTouched(t);
    } else {
      var p, c := h[..|h| - 1], h[|h| - 1];
      Listed(init, p, t);
      LastIsStep(p, c, t);
      assert h == p + [c];
    }
  }

  lemma NothingTouched(t: string)
    ensures Untouched([], t) && !LastIs([], Add(t))
  {
  }

  /** Every listed subscription is a filter, after any changes. */
  lemma {:induction false} SubscriptionsAreFilters(topics: seq<string>, h: seq<Change>)
    ensures forall t :: t in SubscriptionsAfter(Listing(topics), h) ==> t in FiltersAfter(Initially(topics), h)
  {
    if h != [] {
      SubscriptionsAreFilters(topics, h[..|h| - 1]);
    }
  }

  /** A topic is a filter without being listed exactly if its last change did not add it, or it had none and was
      not asked for at first, and still a stretch of changes up to now, or the whole history with the initial
      filters, adds it more often than it drops it. */
  lemma LeftoverFilter(topics: seq<string>, h: seq<Change>, t: string)
    ensures t in FiltersAfter(Initially(topics), h) && t !in SubscriptionsAfter(Listing(topics), h)
      <==>
        && !LastIs(h, Add(t)) && !(Untouched(h, t) && t in topics)
        && (Surplus(h, t, 1) || Initially(topics)[t] + Balance(h, t) >= 1)
  {
    hide LastIs, Untouched, Surplus;
    FilterCount(Initially(topics), h, t, 1);
    Listed(Listing(topics), h, t);
  }

  /** So a topic subscribed to twice and dropped once is no longer listed, and is still delivered. */
  lemma SubscribedTwiceDroppedOnce(t: string)
    requires t != WELCOME && t != CTRL
    ensures var h := [Add(t), Drop(t)];
      && t !in SubscriptionsAfter(Listing([t]), h)
      && Delivered(FiltersAfter(Initially([t]), h), t)
  {
    var h := [Add(t), Drop(t)];
    assert h[..1] == [Add(t)] && h[..1][..0] == [];
    assert FiltersAfter(Initially([t]), [Add(t)]) == Initially([t]) + multiset{t};
    assert t in FiltersAfter(Initially([t]), h);
  }

  /** The topics two instances of one service listen to stay apart: each instance's filters deliver the other's
      topic only if they are the same instance, or the common name starts with one of the built-in filters. */
  lemma InstanceIsolation(name: string, i: nat, j: nat)
    ensures Delivered(Initially([TopicOf(name, i, Egress)]), TopicOf(name, j, Egress))
      <==> i == j || CTRL <= name || WELCOME <= name
  {
    var t, u := TopicOf(name, i, Egress), TopicOf(name, j, Egress);
    var f := Initially([t]);
    assert WELCOME in f && CTRL in f && t in f;
    assert forall x :: x in f ==> x == WELCOME || x == CTRL || x == t;
    InstanceTopicsPrefixFree(name, i, Egress, j, Egress);
    assert u[..|name|] == name && u[|name|] == '-';
    StartsWithin(CTRL, name, u);
    StartsWithin(WELCOME, name, u);
  }

  /** A word without a dash starts a name followed by a dash exactly if it starts the name. */
  lemma StartsWithin(word: string, name: string, u: string)
    requires '-' !in word && |u| > |name| && u[..|name|] == name && u[|name|] == '-'
    ensures word <= u <==> word <= name
  {
    if |word| > |name| {
      assert word[|name|] in word;
      assert word[|name|] != u[|name|];
    }
    if word <= name {
      assert u[..|word|] == name[..|word|];
    }
  }

  /** The isolation fails for a service whose name starts like the control topic. */
  lemma ControlNamesCollide(i: nat, j: nat)
    ensures Delivered(Initially([TopicOf("ctrl", i, Egress)]), TopicOf("ctrl", j, Egress))
  {
    InstanceIsolation("ctrl", i, j);
  }

  class ZmqStack {
    var subscriptions: set<string>
    const subscriber: Subscriber

    constructor (topics: seq<string>)
      ensures fresh(subscriber) && subscriber.count == 0 && subscriber.handed == []
      ensures subscriber.filters == Initially(topics)
      ensures subscriptions == Listing(topics)
    {
      var s := new Subscriber();
      s.Run(topics, [], []);
      var inserted := {};
      for i := 0 to |topics|
        invariant inserted == Listing(topics[..i])
      {
        inserted := inserted + {topics[i]};
      }
      subscriber := s;
      subscriptions := inserted;
    }

    method Subscribe(topic: string)
      modifies this, subscriber`filters
      ensures subscriptions == ChangedSet(old(subscriptions), Add(topic))
      ensures subscriber.filters == ChangedFilters(old(subscriber.filters), Add(topic))
    {
      subscriptions := subscriptions + {topic};
      subscriber.Subscribe(topic);
    }

    method Unsubscribe(topic: string)
      modifies this, subscriber`filters
      ensures subscriptions == ChangedSet(old(subscriptions), Drop(topic))
      ensures subscriber.filters == ChangedFilters(old(subscriber.filters), Drop(topic))
    {
      subscriptions := subscriptions - {topic};
      subscriber.Unsubscribe(topic);
    }

    /** The value the previous probe left behind is shared by all the stacks of a process. */
    method Health(process: Process) returns (status: int)
      modifies process
      ensures status == Verdict(old(process.lastCount), subscriber.count)
      ensures process.lastCount == subscriber.count
    {
      var count := subscriber.Count();
      status := if process.lastCount != count then 0 else 1;
      process.lastCount := count;
    }
  }

  class Process {
    var lastCount: nat

    constructor ()
      ensures lastCount == 0
    {
      lastCount := 0;
    }
  }

  // ---------------------------------------------------------------- the health probe

  /** 0 is healthy. */
  function Verdict(lastCount: nat, count: nat): int { if lastCount != count then 0 else 1 }

  /** What the stacks of one process do, as far as the probe is concerned. */
  datatype Act = Polled(stack: nat, p: Poll) | Probed(stack: nat)

  predicate Counts(a: Act, k: nat) { a.Polled? && a.stack == k && !IsWelcome(a.p) && !IsControl(a.p) }

  /** The iterations stack k has counted, without wrapping around. */
  function Iterations(h: seq<Act>, k: nat): nat {
    if h == [] then 0 else Iterations(h[..|h| - 1], k) + if Counts(h[|h| - 1], k) then 1 else 0
  }

  /** The iterations stack k has counted since it was last probed itself. */
  function SinceProbe(h: seq<Act>, k: nat): nat {
    if h == [] || h[|h| - 1] == Probed(k) then 0
    else SinceProbe(h[..|h| - 1], k) + if Counts(h[|h| - 1], k) then 1 else 0
  }

  /** The counter of stack k when it was last probed itself. */
  function OwnCount(h: seq<Act>, k: nat): nat {
    if h == [] then 0
    else if h[|h| - 1] == Probed(k) then Iterations(h[..|h| - 1], k) % UINT32_RANGE
    else OwnCount(h[..|h| - 1], k)
  }

  /** The stack probed last. */
  function LastProbed(h: seq<Act>): Option<nat> {
    if h == [] then None
    else
      match h[|h| - 1]
      case Polled(_, _) => LastProbed(h[..|h| - 1])
      case Probed(k) => Some(k)
  }

  /** What the last probe left behind. */
  function LastCount(h: seq<Act>): nat {
    if h == [] then 0
    else
      match h[|h| - 1]
      case Polled(_, _) => LastCount(h[..|h| - 1])
      case Probed(k) => Iterations(h[..|h| - 1], k) % UINT32_RANGE
  }

  /** What a probe of stack k reports after h. */
  function Probe(h: seq<Act>, k: nat): int { Verdict(LastCount(h), Iterations(h, k) % UINT32_RANGE) }

  /** The polls of stack k among the acts. */
  function PollsOf(h: seq<Act>, k: nat): seq<Poll> {
    if h == [] then []
    else
      var a := h[|h| - 1];
      PollsOf(h[..|h| - 1], k) + if a.Polled? && a.stack == k then [a.p] else []
  }

  /** The subscriber's own counter is what the probe of its stack reads. */
  lemma {:induction false} CounterReadByProbe(h: seq<Act>, k: nat)
    ensures Counted(PollsOf(h, k)) == Iterations(h, k)
  {
    if h != [] {
      var a := h[|h| - 1];
      CounterReadByProbe(h[..|h| - 1], k);
      var w := PollsOf(h[..|h| - 1], k);
      if a.Polled? && a.stack == k {
        assert (w + [a.p])[..|w|] == w;
      } else {
        assert w + [] == w;
      }
    }
  }

  lemma OneMore(a: nat, b: nat)
    requires a % UINT32_RANGE == b % UINT32_RANGE
    ensures (a + 1) % UINT32_RANGE == (b + 1) % UINT32_RANGE
  {
  }

  lemma {:induction false} CounterMoves(h: seq<Act>, k: nat)
    ensures Iterations(h, k) % UINT32_RANGE == (OwnCount(h, k) + SinceProbe(h, k)) % UINT32_RANGE
    ensures OwnCount(h, k) < UINT32_RANGE
  {
    if h != [] {
      var p, a := h[..|h| - 1], h[|h| - 1];
      CounterMoves(p, k);
      OneMore(Iterations(p, k), OwnCount(p, k) + SinceProbe(p, k));
      if a == Probed(k) {
        var n := Iterations(p, k);
        assert Iterations(h, k) == n && OwnCount(h, k) == n % UINT32_RANGE;
      } else {
        assert OwnCount(h, k) == OwnCount(p, k);
      }
    }
  }

  lemma Moved(last: nat, n: nat)
    requires last < UINT32_RANGE
    ensures last == (last + n) % UINT32_RANGE <==> n % UINT32_RANGE == 0
  {
    assert n == UINT32_RANGE * (n / UINT32_RANGE) + n % UINT32_RANGE;
  }

  lemma {:induction false} OwnIsLast(h: seq<Act>, k: nat)
    requires LastProbed(h) == None || LastProbed(h) == Some(k)
    ensures LastCount(h) == OwnCount(h, k)
  {
    if h != [] && h[|h| - 1].Polled? {
      OwnIsLast(h[..|h| - 1], k);
    }
  }

  /** A probe of stack k is right if it reports 0 exactly when k has moved on since its own previous probe. */
  predicate Right(h: seq<Act>, k: nat) { Probe(h, k) == 0 <==> SinceProbe(h, k) % UINT32_RANGE != 0 }

  /** Exactly when it is right: the count the last probe left behind is the one of k's own previous probe, or it
      is neither that nor k's count now. */
  lemma ProbeRightExactly(h: seq<Act>, k: nat)
    ensures var now, own, left := Iterations(h, k) % UINT32_RANGE, OwnCount(h, k), LastCount(h);
      Right(h, k) <==> left == own || (now != left && now != own)
    ensures SinceProbe(h, k) < UINT32_RANGE ==> (Right(h, k) <==> (Probe(h, k) == 0 <==> SinceProbe(h, k) > 0))
  {
    CounterMoves(h, k);
    Moved(OwnCount(h, k), SinceProbe(h, k));
  }

  /** So it is right whenever no other stack was probed since k was, whatever the others do. */
  lemma ProbeAgain(h: seq<Act>, k: nat)
    requires LastProbed(h) == None || LastProbed(h) == Some(k)
    ensures Probe(h, k) == 0 <==> SinceProbe(h, k) % UINT32_RANGE != 0
    ensures SinceProbe(h, k) < UINT32_RANGE ==> (Probe(h, k) == 0 <==> SinceProbe(h, k) > 0)
  {
    OwnIsLast(h, k);
    ProbeRightExactly(h, k);
  }

  lemma {:induction false} OnlyProbed(h: seq<Act>, k: nat)
    requires forall a :: a in h && a.Probed? ==> a.stack == k
    ensures LastProbed(h) == None || LastProbed(h) == Some(k)
  {
    if h != [] {
      assert h[|h| - 1] in h;
      OnlyProbed(h[..|h| - 1], k);
    }
  }

  /** With one stack probed in the process, a probe reports 0 exactly if the iterations counted since the previous
      probe are not a multiple of 2^32; so it is exact as long as they stay below. */
  lemma ProbeAlone(h: seq<Act>, k: nat)
    requires forall a :: a in h && a.Probed? ==> a.stack == k
    ensures Probe(h, k) == 0 <==> SinceProbe(h, k) % UINT32_RANGE != 0
    ensures SinceProbe(h, k) < UINT32_RANGE ==> (Probe(h, k) == 0 <==> SinceProbe(h, k) > 0)
  {
    OnlyProbed(h, k);
    ProbeAgain(h, k);
  }

  lemma {:induction false} QuietAfter(h: seq<Act>, tail: seq<Act>, k: nat)
    requires forall a :: a in tail ==> a.Polled? && !Counts(a, k)
    ensures Iterations(h + tail, k) == Iterations(h, k) && LastCount(h + tail) == LastCount(h)
  {
    if tail == [] {
      assert h + [] == h;
    } else {
      assert (h + tail)[..|h + tail| - 1] == h + tail[..|tail| - 1];
      assert tail[|tail| - 1] in tail;
      QuietAfter(h, tail[..|tail| - 1], k);
    }
  }

  /** A stack probed twice is reported as failed if in between its subscriber, however busy, only received
      welcome and control frames. */
  lemma OnlyControlLooksDead(h: seq<Act>, k: nat, tail: seq<Act>)
    requires forall a :: a in tail ==> a.Polled? && (a.stack == k ==> IsWelcome(a.p) || IsControl(a.p))
    ensures Probe(h + [Probed(k)] + tail, k) == 1
  {
    var before := h + [Probed(k)];
    assert before[..|h|] == h;
    QuietAfter(before, tail, k);
  }

  /** With several stacks, the probe compares against whichever stack was probed last. */
  lemma ProbeShared(h: seq<Act>, i: nat, tail: seq<Act>, k: nat)
    requires forall a :: a in tail ==> a.Polled?
    ensures Probe(h + [Probed(i)] + tail, k) == 0
      <==> Iterations(h + [Probed(i)] + tail, k) % UINT32_RANGE != Iterations(h, i) % UINT32_RANGE
  {
    var before := h + [Probed(i)];
    assert before[..|h|] == h;
    LastUnchanged(before, tail);
  }

  lemma {:induction false} LastUnchanged(h: seq<Act>, tail: seq<Act>)
    requires forall a :: a in tail ==> a.Polled?
    ensures LastCount(h + tail) == LastCount(h)
  {
    if tail == [] {
      assert h + [] == h;
    } else {
      assert (h + tail)[..|h + tail| - 1] == h + tail[..|tail| - 1];
      assert tail[|tail| - 1] in tail;
      LastUnchanged(h, tail[..|tail| - 1]);
    }
  }

  /** Two stacks in one process mislead it both ways: stack 1 ran between its probes and is reported as failed;
      later it stood still between its probes and is reported as healthy. */
  lemma SharedProbeMisleads()
    ensures var run := [Probed(1), Polled(0, Timeout), Polled(1, Timeout), Probed(0)];
      && SinceProbe(run, 1) == 1 && Probe(run, 1) == 1 && !Right(run, 1)
      && var later := run + [Probed(1), Polled(0, Timeout), Probed(0)];
         SinceProbe(later, 1) == 0 && Probe(later, 1) == 0 && !Right(later, 1)
  {
    var t := Timeout;
    var r1 := [Probed(1)];
    var r2 := r1 + [Polled(0, t)];
    var r3 := r2 + [Polled(1, t)];
    var r4 := r3 + [Probed(0)];
    var r5 := r4 + [Probed(1)];
    var r6 := r5 + [Polled(0, t)];
    var r7 := r6 + [Probed(0)];
    assert r4 == [Probed(1), Polled(0, t), Polled(1, t), Probed(0)];
    assert r7 == r4 + [Probed(1), Polled(0, t), Probed(0)];
    assert r1[..0] == [] && r2[..1] == r1 && r3[..2] == r2 && r4[..3] == r3;
    assert r5[..4] == r4 && r6[..5] == r5 && r7[..6] == r6;
    assert Iterations(r1, 0) == 0 && Iterations(r1, 1) == 0;
    assert Iterations(r2, 0) == 1 && Iterations(r2, 1) == 0;
    assert Iterations(r3, 0) == 1 && Iterations(r3, 1) == 1;
    assert Iterations(r4, 0) == 1 && Iterations(r4, 1) == 1;
    assert Iterations(r5, 0) == 1 && Iterations(r5, 1) == 1;
    assert Iterations(r6, 0) == 2 && Iterations(r6, 1) == 1;
    assert Iterations(r7, 0) == 2 && Iterations(r7, 1) == 1;
    assert SinceProbe(r1, 1) == 0 && SinceProbe(r2, 1) == 0 && SinceProbe(r3, 1) == 1 && SinceProbe(r4, 1) == 1;
    assert SinceProbe(r5, 1) == 0 && SinceProbe(r6, 1) == 0 && SinceProbe(r7, 1) == 0;
  }
}
