/** The stream of a connection over all the messages sent to it. */
module TcpStreams {
  import opened Options
  import opened TcpEvents
  import opened TcpProtocol
  import opened TcpInvariant
  import opened TcpPieces

  /** One attempt to send a message: send took the first n bytes, or failed if n is negative. */
  datatype Attempt = Attempt(msg: Bytes, n: int)

  /** The attempts made on connection g, in order. */
  function Attempts(h: History, g: int): seq<Attempt> {
    match h
    case Nil => []
    case Then(past, e) =>
      Attempts(past, g) + if e.Sys? && e.call.Sent? && e.target == g then [Attempt(e.call.msg, e.call.n)] else []
  }

  predicate Whole(a: Attempt) { a.n == |a.msg| }

  /** A part of the message was taken, but not all of it. */
  predicate Fragment(a: Attempt) { 0 < a.n < |a.msg| }

  function Stream(attempts: seq<Attempt>): Bytes {
    if attempts == [] then []
    else
      var a := attempts[|attempts| - 1];
      Stream(attempts[..|attempts| - 1]) + Taken(a.n, a.msg)
  }

  /** The messages taken as a whole, put together. */
  function Messages(attempts: seq<Attempt>): Bytes {
    if attempts == [] then []
    else
      var a := attempts[|attempts| - 1];
      Messages(attempts[..|attempts| - 1]) + if Whole(a) then a.msg else []
  }

  lemma {:induction false} StreamIsOutBytes(h: History, g: int)
    ensures Stream(Attempts(h, g)) == OutBytes(h, g)
  {
    if h.Then? {
      var w := Attempts(h.past, g);
      StreamIsOutBytes(h.past, g);
      var e := h.last;
      if e.Sys? && e.call.Sent? && e.target == g {
        assert (w + [Attempt(e.call.msg, e.call.n)])[..|w|] == w;
      } else {
        assert w + [] == w;
        assert OutBytes(h.past, g) + [] == OutBytes(h.past, g);
      }
    }
  }

  predicate Unbroken(attempts: seq<Attempt>) { forall i :: 0 <= i < |attempts| ==> !Fragment(attempts[i]) }

  lemma {:induction false} UnbrokenOrLonger(attempts: seq<Attempt>)
    ensures Unbroken(attempts) ==> Stream(attempts) == Messages(attempts)
    ensures |Messages(attempts)| <= |Stream(attempts)|
    ensures !Unbroken(attempts) ==> |Messages(attempts)| < |Stream(attempts)|
  {
    if attempts != [] {
      var before, a := attempts[..|attempts| - 1], attempts[|attempts| - 1];
      UnbrokenOrLonger(before);
      assert forall i :: 0 <= i < |before| ==> before[i] == attempts[i];
      assert a.msg[..|a.msg|] == a.msg;
      if Unbroken(before) && !Fragment(a) {
        assert Unbroken(attempts);
      }
    }
  }

  /** What arrives on a connection is whole messages, one after the other, and what the last send took of its
      message, exactly if no send before it took a part of its message only. */
  lemma WholeMessagesExactly(h: History, g: int)
    requires Attempts(h, g) != []
    ensures var w := Attempts(h, g);
      var before, last := w[..|w| - 1], w[|w| - 1];
      OutBytes(h, g) == Messages(before) + Taken(last.n, last.msg) <==> Unbroken(before)
  {
    var w := Attempts(h, g);
    var before, last := w[..|w| - 1], w[|w| - 1];
    StreamIsOutBytes(h, g);
    UnbrokenOrLonger(before);
    assert OutBytes(h, g) == Stream(before) + Taken(last.n, last.msg);
    if OutBytes(h, g) == Messages(before) + Taken(last.n, last.msg) {
      assert |Messages(before)| == |Stream(before)|;
    }
  }

  /** A broadcast to the only client, of which n bytes are taken. */
  lemma BroadcastToOne(r: Schedule, s: State, h: int, msg: Bytes, n: int) returns (r': Schedule)
    requires Leads(r, s) && s.lock.Free? && s.sender.Idle? && s.clients.Keys == {h} && 0 <= n <= |msg|
    ensures Extends(r', r) && Leads(r', s.(hist := AfterSend(s, h, msg, n).hist))
    ensures h in s.clients && s.clients[h].sockfd == h
    ensures OutBytes(AfterSend(s, h, msg, n).hist, s.clients[h].gen) == OutBytes(s.hist, s.clients[h].gen) + msg[..n]
  {
    assert h in s.clients;
    hide Leads;
    SendableClient(r, s, h);
    SentOnly(r, s, h, msg, n);
    var r1 := BeginRun(r, s, msg);
    var s1 := s.(lock := SenderHolds, sender := Sending(msg, s.clients.Keys, None, s.hist));
    var r2 := BcastSendRun(r1, s1, h, n);
    var s2 := AfterBcastSend(s1, h, n);
    r' := EndRun(r2, s2);
    ExtendsFurther(r2, r1, r);
    ExtendsFurther(r', r2, r);
  }

  /** It does happen: wherever a server with one client stands, a broadcast may be taken in part, after which the
      client is still in the map, and the next broadcast follows the fragment. */
  lemma MessageAfterFragment(r: Schedule, h: int, one: Bytes, n: int, two: Bytes) returns (r': Schedule)
    requires Legal(r) && Exec(r).lock.Free? && Exec(r).sender.Idle? && Exec(r).clients.Keys == {h} && 0 < n < |one|
    ensures Legal(r') && Extends(r', r) && Exec(r').clients == Exec(r).clients && h in Exec(r).clients
    ensures var g := Exec(r).clients[h].gen; OutBytes(Exec(r').hist, g) == OutBytes(Exec(r).hist, g) + one[..n] + two
  {
    var s := Exec(r);
    Safety(r);
    var r1 := BroadcastToOne(r, s, h, one, n);
    var s1 := s.(hist := AfterSend(s, h, one, n).hist);
    r' := BroadcastToOne(r1, s1, h, two, |two|);
    assert two[..|two|] == two;
    ExtendsFurther(r', r1, r);
  }
}
