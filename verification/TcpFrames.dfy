/** What the steps of one thread leave alone. */
module TcpFrames {
  import opened TcpEvents
  import opened TcpProtocol

  /** The history gained at most one event. */
  predicate OneMore(h: History, h': History) { h' == h || (h'.Then? && h'.past == h) }

  predicate IsSys(h: History) { h.Then? && h.last.Sys? }

  /** The steps that can add an event to the history. */
  predicate Logs(step: Step) {
    || step.OpenSocket? || step.CloseClient? || step.CloseListener? || step.SelectIdle? || step.SelectReady?
    || step.RecvErr? || step.RecvEof? || step.RecvData? || step.DropClose? || step.AcceptFail? || step.AcceptOk?
    || step.NotifyGone? || step.NotifyData? || step.NotifyNew? || step.BcastSend? || step.SendTo?
  }

  /** Which step adds which kind of event. */
  predicate Kind(step: Step, e: Event) {
    match e
    case Cb(cb, _) =>
      (match cb
       case Connect(_) => step.NotifyNew?
       case Data(_, _) => step.NotifyData?
       case Disconnect(_) => step.NotifyGone?)
    case Sys(call, _, _, born) =>
      && (step.OpenSocket? || step.AcceptOk? || born == -1)
      && match call
         case Opened(_) => step.OpenSocket?
         case Selected(_) => step.SelectIdle? || step.SelectReady?
         case Accepted(_, _, _) => step.AcceptFail? || step.AcceptOk?
         case Received(_, _, data) => step.RecvData? || ((step.RecvErr? || step.RecvEof?) && data == [])
         case Sent(_, _, _) => step.BcastSend? || step.SendTo?
         case Closed(_) => step.CloseClient? || step.CloseListener? || step.DropClose?
  }

  /** h' is h, or h and one event that the step adds. */
  predicate LogsTo(step: Step, h: History, h': History) {
    h' == h || (h'.Then? && h'.past == h && Kind(step, h'.last))
  }

  lemma Unlogged(s: State, step: Step)
    requires Enabled(s, step) && !Logs(step)
    ensures Apply(s, step).hist == s.hist
  {
  }

  /** The steps of the server thread that call the operating system. */
  predicate Calling(step: Step) {
    || step.SelectIdle? || step.SelectReady? || step.RecvErr? || step.RecvEof? || step.RecvData? || step.DropClose?
    || step.AcceptFail? || step.AcceptOk?
  }

  predicate Receiving(step: Step) { step.RecvErr? || step.RecvEof? || step.RecvData? }

  lemma LoggedReceive(s: State, step: Step)
    requires Enabled(s, step) && Receiving(step)
    ensures LogsTo(step, s.hist, Apply(s, step).hist)
  {
  }

  predicate Selecting(step: Step) { step.SelectIdle? || step.SelectReady? }

  lemma LoggedSelect(s: State, step: Step)
    requires Enabled(s, step) && Selecting(step)
    ensures LogsTo(step, s.hist, Apply(s, step).hist)
  {
  }

  lemma LoggedAccept(s: State, step: Step)
    requires Enabled(s, step) && (step.AcceptFail? || step.AcceptOk?)
    ensures LogsTo(step, s.hist, Apply(s, step).hist)
  {
  }

  lemma LoggedDrop(s: State)
    requires Enabled(s, DropClose)
    ensures LogsTo(DropClose, s.hist, Apply(s, DropClose).hist)
  {
  }

  predicate Telling(step: Step) { step.NotifyGone? || step.NotifyData? || step.NotifyNew? }

  lemma LoggedTell(s: State, step: Step)
    requires Enabled(s, step) && Telling(step)
    ensures LogsTo(step, s.hist, Apply(s, step).hist)
  {
  }

  lemma LoggedSend(s: State, step: Step)
    requires Enabled(s, step) && BySender(step) && Logs(step)
    ensures LogsTo(step, s.hist, Apply(s, step).hist)
  {
  }

  lemma LoggedElse(s: State, step: Step)
    requires Enabled(s, step) && (step.OpenSocket? || step.CloseClient? || step.CloseListener?)
    ensures LogsTo(step, s.hist, Apply(s, step).hist)
  {
  }

  lemma LogFrame(s: State, step: Step)
    requires Enabled(s, step)
    ensures LogsTo(step, s.hist, Apply(s, step).hist)
  {
    hide Enabled, Apply, Kind;
    if Receiving(step) {
      LoggedReceive(s, step);
    } else if Selecting(step) {
      LoggedSelect(s, step);
    } else if step.DropClose? {
      LoggedDrop(s);
    } else if Calling(step) {
      LoggedAccept(s, step);
    } else if Telling(step) {
      LoggedTell(s, step);
    } else if BySender(step) && Logs(step) {
      LoggedSend(s, step);
    } else if Logs(step) {
      LoggedElse(s, step);
    } else {
      Unlogged(s, step);
    }
  }

  lemma OwnerFrame(s: State, step: Step)
    requires Enabled(s, step) && ByOwner(step)
    ensures var s' := Apply(s, step);
      && OneMore(s.hist, s'.hist)
      && (s'.hist != s.hist ==> IsSys(s'.hist) && (s'.hist.last.call.Opened? || s'.hist.last.call.Closed?))
      && (step.SetupDone? || s'.server == s.server)
      && (step.ClearMirror? || s'.mirror == s.mirror)
      && (step.ClearUnlock? || s'.clients == s.clients)
      && s'.sender == s.sender && s'.sent == s.sent
  {
  }

  lemma SenderFrame(s: State, step: Step)
    requires Enabled(s, step) && BySender(step)
    ensures var s' := Apply(s, step);
      && OneMore(s.hist, s'.hist)
      && (s'.hist != s.hist ==> IsSys(s'.hist) && s'.hist.last.call.Sent?)
      && s'.server == s.server && s'.mirror == s.mirror && s'.clients == s.clients && s'.owner == s.owner
      && s'.os == s.os && s'.owned == s.owned && s'.sent == s.sent && s'.stop == s.stop && s'.sockfd == s.sockfd
  {
    if step.BcastSend? || step.SendTo? {
      SendingFrame(s, step);
    }
  }

  lemma SendingFrame(s: State, step: Step)
    requires Enabled(s, step) && (step.BcastSend? || step.SendTo?)
    ensures var s' := Apply(s, step);
      && OneMore(s.hist, s'.hist)
      && (s'.hist != s.hist ==> IsSys(s'.hist) && s'.hist.last.call.Sent?)
      && s'.server == s.server && s'.mirror == s.mirror && s'.clients == s.clients && s'.owner == s.owner
      && s'.os == s.os && s'.owned == s.owned && s'.sent == s.sent && s'.stop == s.stop && s'.sockfd == s.sockfd
  {
  }

  lemma OutsideFrame(s: State, step: Step)
    requires Enabled(s, step) && Outside(step)
    ensures var s' := Apply(s, step);
      && s'.hist == s.hist && s'.server == s.server && s'.mirror == s.mirror && s'.clients == s.clients
      && s'.owner == s.owner && s'.sender == s.sender && s'.owned == s.owned && s'.stop == s.stop
      && s'.sockfd == s.sockfd
  {
  }

  lemma ServerFrame(s: State, step: Step)
    requires Enabled(s, step) && ByServer(step)
    ensures var s' := Apply(s, step);
      && (step.NotifyNew? || step.NotifyGone? || s'.mirror == s.mirror)
      && (step.DropEntry? || step.EmplaceEntry? || s'.clients == s.clients)
      && s'.sent == s.sent && s'.sockfd == s.sockfd && s'.sender == s.sender
  {
    if Calling(step) {
      CallingFrame(s, step);
    }
  }

  lemma CallingFrame(s: State, step: Step)
    requires Enabled(s, step) && Calling(step)
    ensures var s' := Apply(s, step);
      && s'.mirror == s.mirror && s'.clients == s.clients && s'.sent == s.sent && s'.sockfd == s.sockfd
      && s'.sender == s.sender && (step.AcceptOk? || s'.owned == s.owned)
  {
    hide Enabled, Apply;
    if Receiving(step) {
      ReceivingFrame(s, step);
    } else if Selecting(step) {
      SelectingFrame(s, step);
    } else if step.DropClose? {
      DropFrame(s);
    } else {
      AcceptingFrame(s, step);
    }
  }

  lemma ReceivingFrame(s: State, step: Step)
    requires Enabled(s, step) && Receiving(step)
    ensures var s' := Apply(s, step);
      && s'.mirror == s.mirror && s'.clients == s.clients && s'.sent == s.sent && s'.sockfd == s.sockfd
      && s'.sender == s.sender && s'.owned == s.owned && s'.os == s.os
  {
  }

  lemma SelectingFrame(s: State, step: Step)
    requires Enabled(s, step) && Selecting(step)
    ensures var s' := Apply(s, step);
      && s'.mirror == s.mirror && s'.clients == s.clients && s'.sent == s.sent && s'.sockfd == s.sockfd
      && s'.sender == s.sender && s'.owned == s.owned && s'.os == s.os
  {
  }

  lemma DropFrame(s: State)
    requires Enabled(s, DropClose)
    ensures var s' := Apply(s, DropClose);
      && s'.mirror == s.mirror && s'.clients == s.clients && s'.sent == s.sent && s'.sockfd == s.sockfd
      && s'.sender == s.sender && s'.owned == s.owned
  {
  }

  lemma AcceptingFrame(s: State, step: Step)
    requires Enabled(s, step) && (step.AcceptFail? || step.AcceptOk?)
    ensures var s' := Apply(s, step);
      && s'.mirror == s.mirror && s'.clients == s.clients && s'.sent == s.sent && s'.sockfd == s.sockfd
      && s'.sender == s.sender && (step.AcceptOk? || (s'.owned == s.owned && s'.os == s.os))
  {
  }

  /** Only opening and accepting add to what the server owns. */
  lemma OwnedFrame(s: State, step: Step)
    requires Enabled(s, step) && !step.OpenSocket? && !step.AcceptOk?
    ensures Apply(s, step).owned == s.owned
  {
    hide Enabled, Apply;
    if Calling(step) {
      CallingFrame(s, step);
    } else if BySender(step) {
      SenderFrame(s, step);
    } else if Outside(step) {
      OutsideFrame(s, step);
    } else {
      RestKeepsOwned(s, step);
    }
  }

  lemma RestKeepsOwned(s: State, step: Step)
    requires Enabled(s, step) && (ByOwner(step) || ByServer(step)) && !step.OpenSocket? && !Calling(step)
    ensures Apply(s, step).owned == s.owned
  {
  }

  /** A running server thread does not touch what the thread that started it does, and does not start over. */
  lemma ServerRuns(s: State, step: Step)
    requires Enabled(s, step) && ByServer(step)
    ensures var s' := Apply(s, step);
      s'.owner == s.owner && s'.stop == s.stop && (Running(s'.server) ==> Running(s.server)) && !s'.server.Off?
  {
  }
}
