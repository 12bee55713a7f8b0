/** The callbacks of each handle form sessions, over every schedule. */
module TcpCallbacks {
  import opened TcpEvents
  import opened TcpProtocol
  import opened TcpInvariant
  import opened TcpFrames

  lemma OfSnoc(w: seq<Callback>, cb: Callback, handle: int)
    ensures Of(w + [cb], handle) == if cb.handle == handle then Of(w, handle) + [cb] else Of(w, handle)
  {
    assert (w + [cb])[..|w|] == w;
  }

  lemma SessionsSnoc(w: seq<Callback>, cb: Callback)
    requires Sessions(w) && (cb.Connect? <==> !Open(w))
    ensures Sessions(w + [cb]) && (Open(w + [cb]) <==> !cb.Disconnect?)
  {
    forall i | 0 <= i <= |w|
      ensures (w + [cb])[i].Connect? <==> !Open((w + [cb])[..i])
    {
      assert (w + [cb])[..i] == w[..i];
      assert w[..|w|] == w;
    }
  }

  function Told(h: History, handle: int): seq<Callback> { Of(Callbacks(h), handle) }

  /** The callbacks of a handle form sessions, and while the server thread runs the last one is open exactly
      when the owner counts the handle among its clients. */
  ghost predicate SessionOk(s: State, handle: int) {
    && Sessions(Told(s.hist, handle))
    && (Running(s.server) ==> (Open(Told(s.hist, handle)) <==> handle in s.mirror))
    && (s.server.Off? ==> Callbacks(s.hist) == [])
  }

  lemma CallbackKeeps(s: State, handle: int, cb: Callback, gen: int, s': State)
    requires SessionOk(s, handle) && Running(s.server) && !s'.server.Off?
    requires s'.hist == Then(s.hist, Cb(cb, gen))
    requires cb.handle == handle ==> (cb.Connect? <==> handle !in s.mirror)
    requires handle in s'.mirror <==> if cb.handle == handle then !cb.Disconnect? else handle in s.mirror
    ensures SessionOk(s', handle)
  {
    OfSnoc(Callbacks(s.hist), cb, handle);
    if cb.handle == handle {
      SessionsSnoc(Told(s.hist, handle), cb);
    }
  }

  lemma TellingKeepsSessions(s: State, step: Step, handle: int)
    requires Inv(s) && Enabled(s, step) && SessionOk(s, handle)
    requires step.NotifyNew? || step.NotifyData? || step.NotifyGone?
    ensures SessionOk(Apply(s, step), handle)
  {
    var s' := Apply(s, step);
    CallbackKeeps(s, handle, s'.hist.last.cb, s'.hist.last.gen, s');
  }

  lemma ServerKeepsSessions(s: State, step: Step, handle: int)
    requires Enabled(s, step) && SessionOk(s, handle) && ByServer(step)
    requires !step.NotifyNew? && !step.NotifyData? && !step.NotifyGone?
    ensures SessionOk(Apply(s, step), handle)
  {
    hide Enabled, Apply;
    ServerFrame(s, step);
    ServerRuns(s, step);
    LogFrame(s, step);
  }

  lemma OthersKeepSessions(s: State, step: Step, handle: int)
    requires Inv(s) && Enabled(s, step) && SessionOk(s, handle) && !ByServer(step)
    ensures SessionOk(Apply(s, step), handle)
  {
    hide Enabled, Apply, Inv;
    if ByOwner(step) {
      OwnerKeepsSessions(s, step, handle);
    } else if BySender(step) {
      SenderFrame(s, step);
    } else {
      OutsideFrame(s, step);
    }
  }

  lemma OwnerKeepsSessions(s: State, step: Step, handle: int)
    requires Inv(s) && Enabled(s, step) && SessionOk(s, handle) && ByOwner(step)
    ensures SessionOk(Apply(s, step), handle)
  {
    OwnerFrame(s, step);
  }

  /** Over every schedule, and however often its number is reused, the callbacks of a handle are a prefix of
      (Connect Data* Disconnect)*. */
  lemma {:induction false} CallbacksFormSessions(r: Schedule, handle: int)
    requires Legal(r)
    ensures SessionOk(Exec(r), handle)
  {
    match r
    case Start =>
    case Next(before, step) =>
      CallbacksFormSessions(before, handle);
      Safety(before);
      if step.NotifyNew? || step.NotifyData? || step.NotifyGone? {
        TellingKeepsSessions(Exec(before), step, handle);
      } else if ByServer(step) {
        ServerKeepsSessions(Exec(before), step, handle);
      } else {
        OthersKeepSessions(Exec(before), step, handle);
      }
  }
}
