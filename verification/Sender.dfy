/** A sender that reconnects after every tenth message. */
module Sending {
  /** How a reconnect ends: it detaches from the endpoint and attaches to it again; if detaching fails, attaching
      is not tried. */
  datatype Reconnect = Done | DetachFailed | AttachFailed

  datatype Act = Sent(msg: string, ok: bool) | Reconnected(how: Reconnect)

  const PERIOD := 10

  /** What becomes of one message: whether it is sent, and, should it be time for a reconnect, whether detaching
      from an attached endpoint and attaching again would work. */
  datatype Outcome = Outcome(msg: string, ok: bool, detach: bool, attach: bool)

  class Sender {
    var count: nat
    /** Whether the socket is attached to the endpoint. */
    var attached: bool
    var trace: seq<Act>

    constructor (attach: bool)
      ensures count == 0 && attached == attach && trace == []
    {
      count := 0;
      attached := attach;
      trace := [];
    }

    /** The socket refuses to detach from an endpoint it is not attached to. */
    method SendMsg(o: Outcome)
      modifies this
      ensures (count, attached, trace) == After((old(count), old(attached), old(trace)), o)
    {
      trace := trace + [Sent(o.msg, o.ok)];
      count := count + 1;
      if count % PERIOD == 0 {
        count := 0;
        if attached && o.detach {
          attached := o.attach;
          trace := trace + [Reconnected(if attached then Done else AttachFailed)];
        } else {
          trace := trace + [Reconnected(DetachFailed)];
        }
      }
    }
  }

  /** The counter, whether the socket is attached, and everything done so far. */
  type Books = (nat, bool, seq<Act>)

  function After(b: Books, o: Outcome): Books {
    var sent := b.2 + [Sent(o.msg, o.ok)];
    if (b.0 + 1) % PERIOD != 0 then (b.0 + 1, b.1, sent)
    else if !b.1 || !o.detach then (0, b.1, sent + [Reconnected(DetachFailed)])
    else (0, o.attach, sent + [Reconnected(if o.attach then Done else AttachFailed)])
  }

  function AfterAll(attach: bool, os: seq<Outcome>): Books {
    if os == [] then (0, attach, []) else After(AfterAll(attach, os[..|os| - 1]), os[|os| - 1])
  }

  /** Place k of the trace is a reconnect exactly at the end of every eleven. */
  predicate Rhythm(trace: seq<Act>) {
    forall k :: 0 <= k < |trace| ==> (trace[k].Reconnected? <==> k % 11 == 10)
  }

  lemma OneMore(n: nat)
    ensures (n + 1) % PERIOD == if n % PERIOD == PERIOD - 1 then 0 else n % PERIOD + 1
    ensures (n + 1) / PERIOD == if n % PERIOD == PERIOD - 1 then n / PERIOD + 1 else n / PERIOD
    ensures (n + n / PERIOD) % (PERIOD + 1) == n % PERIOD
  {
    var q, m := n / PERIOD, n % PERIOD;
    assert n == PERIOD * q + m;
    assert n + q == (PERIOD + 1) * q + m;
  }

  /** After n messages, however they fared, the counter is n modulo ten, there were n div ten attempts to
      reconnect, and the attempts stand exactly after every tenth message. */
  lemma {:induction false} Rotation(attach: bool, os: seq<Outcome>)
    ensures var (count, _, trace) := AfterAll(attach, os);
      count == |os| % 10 && |trace| == |os| + |os| / 10 && Rhythm(trace)
  {
    if os != [] {
      hide Rhythm;
      var n := |os| - 1;
      Rotation(attach, os[..n]);
      OneMore(n);
      var before, after := AfterAll(attach, os[..n]).2, AfterAll(attach, os).2;
      RhythmMore(before, Sent(os[n].msg, os[n].ok));
      if n % PERIOD == PERIOD - 1 {
        var sent := before + [Sent(os[n].msg, os[n].ok)];
        OneLonger(|before|);
        assert after == sent + [after[|sent|]];
        RhythmMore(sent, after[|sent|]);
      }
    }
  }

  lemma RhythmMore(trace: seq<Act>, a: Act)
    requires Rhythm(trace) && (a.Reconnected? <==> |trace| % 11 == 10)
    ensures Rhythm(trace + [a])
  {
  }

  lemma OneLonger(n: nat)
    ensures n % (PERIOD + 1) == PERIOD - 1 ==> (n + 1) % (PERIOD + 1) == PERIOD
  {
  }

  /** The message sent as number i stands at place i + i / 10, so none is lost, repeated or reordered. */
  lemma {:induction false} EveryMessageSent(attach: bool, os: seq<Outcome>, i: nat)
    requires i < |os|
    ensures var trace := AfterAll(attach, os).2;
      i + i / 10 < |trace| && trace[i + i / 10] == Sent(os[i].msg, os[i].ok)
  {
    var n := |os| - 1;
    Rotation(attach, os[..n]);
    if i < n {
      EveryMessageSent(attach, os[..n], i);
    }
  }

  /** Message i is the last of ten, and the reconnect after it would lose the endpoint. */
  predicate Loses(os: seq<Outcome>, i: nat)
    requires i < |os|
  {
    i % 10 == 9 && os[i].detach && !os[i].attach
  }

  /** A sender is attached exactly if it was attached at first and no reconnect so far detached it without
      attaching it again: one such failure, and no later reconnect helps. */
  lemma {:induction false} AttachedExactly(attach: bool, os: seq<Outcome>)
    ensures AfterAll(attach, os).1 <==> attach && forall i :: 0 <= i < |os| ==> !Loses(os, i)
  {
    if os != [] {
      var n := |os| - 1;
      var before := os[..n];
      AttachedExactly(attach, before);
      Rotation(attach, before);
      OneMore(n);
      forall i | 0 <= i < n
        ensures Loses(os, i) == Loses(before, i)
      {
        assert before[i] == os[i];
      }
      assert AfterAll(attach, os).1 == (AfterAll(attach, before).1 && !Loses(os, n));
    }
  }

  /** How the reconnect after message i, the last of ten, is recorded: it cannot detach if the endpoint was lost
      before, or detaching fails; else attaching fails or the reconnect is done. */
  lemma {:induction false} ReconnectsRecorded(attach: bool, os: seq<Outcome>, i: nat)
    requires i < |os| && i % 10 == 9
    ensures var trace := AfterAll(attach, os).2;
      var attached := attach && forall j :: 0 <= j < i ==> !Loses(os, j);
      && i + i / 10 + 1 < |trace|
      && trace[i + i / 10 + 1] ==
         Reconnected(if !attached || !os[i].detach then DetachFailed else if os[i].attach then Done else AttachFailed)
  {
    hide Rhythm, AfterAll, After, Loses;
    var n := |os| - 1;
    var before := os[..n];
    Rotation(attach, before);
    SameLosses(os, n, i);
    if i < n {
      ReconnectsRecorded(attach, before, i);
      RoomBefore(i, n);
      KeepsTrace(attach, os);
    } else {
      AttachedExactly(attach, before);
      LastReconnect(attach, os);
    }
  }

  lemma SameLosses(os: seq<Outcome>, n: nat, i: nat)
    requires i <= n <= |os|
    ensures forall j :: 0 <= j < i ==> Loses(os[..n], j) == Loses(os, j)
  {
  }

  lemma KeepsTrace(attach: bool, os: seq<Outcome>)
    requires os != []
    ensures AfterAll(attach, os[..|os| - 1]).2 <= AfterAll(attach, os).2
  {
  }

  lemma LastReconnect(attach: bool, os: seq<Outcome>)
    requires |os| % 10 == 0 && os != []
    ensures var b, o := AfterAll(attach, os[..|os| - 1]), os[|os| - 1];
      AfterAll(attach, os).2 == b.2 + [Sent(o.msg, o.ok), Reconnected(
        if !b.1 || !o.detach then DetachFailed else if o.attach then Done else AttachFailed)]
  {
    hide Rhythm;
    Rotation(attach, os[..|os| - 1]);
    assert (|os| - 1) % 10 == 9;
  }

  lemma RoomBefore(i: nat, n: nat)
    requires i < n && i % 10 == 9
    ensures i + i / 10 + 1 < n + n / 10
  {
  }

  /** Ten messages after which attaching fails, and ten more after which it would have worked: the sender is
      still detached, and its last reconnect did not get as far as attaching. */
  lemma DetachedForGood(bad: Outcome, good: Outcome)
    requires bad.detach && !bad.attach && good.detach && good.attach
    ensures var os := seq(10, _ => bad) + seq(10, _ => good);
      !AfterAll(true, os).1 && AfterAll(true, os).2[|AfterAll(true, os).2| - 1] == Reconnected(DetachFailed)
      && AfterAll(true, seq(10, _ => good)).1
  {
    var os := seq(10, _ => bad) + seq(10, _ => good);
    assert Loses(os, 9);
    AttachedExactly(true, os);
    AttachedExactly(true, seq(10, _ => good));
    Rotation(true, os[..|os| - 1]);
    assert Loses(os[..|os| - 1], 9);
    AttachedExactly(true, os[..|os| - 1]);
  }
}
