/** The client end of a connection as it runs. Next to its fields the client keeps a schedule of the client's step
    system; every method shows that what it did to its fields, to the socket calls and to the application is the
    execution of that schedule. */
module TcpClienting {
  import opened TcpEvents
  import opened TcpClientProtocol
  import opened Sockets

  class ClientApp {
    ghost var heard: seq<Notice>

    constructor ()
      ensures heard == []
    {
      heard := [];
    }

    method OnReceiveData(data: Bytes)
      modifies this
      ensures heard == old(heard) + [Arrived(data)]
    {
      heard := heard + [Arrived(data)];
    }

    method OnDisconnect()
      modifies this
      ensures heard == old(heard) + [Disconnected]
    {
      heard := heard + [Disconnected];
    }
  }

  /** r is a schedule that leads to c. */
  ghost predicate Leads(r: ClientSchedule, c: ClientState) { Legal(r) && Exec(r) == c }

  lemma Took(r: ClientSchedule, c: ClientState, step: ClientStep) returns (r': ClientSchedule)
    requires Leads(r, c) && Enabled(c, step)
    ensures Leads(r', Apply(c, step)) && Extends(r', r)
  {
    r' := Next(r, step);
  }

  lemma {:induction false} ExtendsFurther(r: ClientSchedule, r1: ClientSchedule, r0: ClientSchedule)
    requires Extends(r, r1) && Extends(r1, r0)
    ensures Extends(r, r0)
  {
    if r != r1 {
      ExtendsFurther(r.before, r1, r0);
    }
  }

  lemma PhasesIn(r: ClientSchedule, c: ClientState)
    requires Leads(r, c)
    ensures Phases(c)
  {
    ClientHearsStream(r);
  }

  class TcpClient {
    const core: SocketCore
    const app: ClientApp
    var sockfd: int
    var stop: bool
    var thread: bool            // the receiving thread is joinable
    ghost var run: ClientSchedule
    ghost var st: ClientState

    /** The running client is in the state its schedule leads to. What the other end sends is put on the wire at
        the moment it is received. */
    ghost predicate Valid()
      reads this, core, app
    {
      && Leads(run, st) && st.wire == []
      && core.log == st.log && app.heard == st.heard
      && sockfd == st.sockfd && stop == st.stop
      && (sockfd != INVALID_SOCKET ==> sockfd in core.open)
      && (st.shut ==> st.pc.Ending? || st.pc.TellGone? || st.pc.Exited?)
      && (thread ==> !st.pc.Off?) && (!st.pc.Off? && !st.pc.Exited? ==> thread)
    }

    constructor (others: set<int>, app: ClientApp)
      requires app.heard == []
      ensures Valid() && st == Init() && !thread && this.app == app && fresh(core) && core.open == others
    {
      core := new SocketCore(others);
      this.app := app;
      sockfd := INVALID_SOCKET;
      stop := false;
      thread := false;
      run := Start;
      st := Init();
    }

    /** Open a socket, connect it and start the receiving thread. A connect that fails after the socket was opened
        leaves it to Finish. */
    method ConnectTo() returns (ok: bool)
      requires Valid() && st.app.Fresh?
      modifies this`sockfd, this`thread, this`run, this`st, core
      ensures Valid() && Extends(run, old(run)) && app.heard == old(app.heard) && stop == old(stop)
      ensures old(core.setup) <= core.setup && ClientPrepared(0, core.setup[|old(core.setup)|..], sockfd, ok)
      ensures ok ==> thread && st.app.Up? && st.pc.Top?
      ensures !ok ==> st.app.Failed? && st.pc.Off? && !thread
      ensures sockfd == INVALID_SOCKET ==> !ok && core.open == old(core.open)
      ensures sockfd != INVALID_SOCKET ==> sockfd !in old(core.open) && core.open == old(core.open) + {sockfd}
    {
      hide Leads, ClientPrepared;
      ghost var r0 := run;
      PhasesIn(run, st);
      ok := OpenSocket();
      ghost var r1 := run;
      if ok {
        run := Took(run, st, SetupDone);
        st := st.(app := Up, pc := Top);
        thread := true;
      } else {
        run := Took(run, st, if st.app.Fresh? then OpenFail else SetupFail);
        st := st.(app := Failed);
      }
      ExtendsFurther(run, r1, r0);
    }

    /** The stages of a connect. */
    method OpenSocket() returns (ok: bool)
      requires Valid() && st.app.Fresh? && sockfd == INVALID_SOCKET && st.pc.Off?
      modifies this`sockfd, this`run, this`st, core
      ensures Valid() && Extends(run, old(run)) && st.pc.Off?
      ensures old(core.setup) <= core.setup && ClientPrepared(0, core.setup[|old(core.setup)|..], sockfd, ok)
      ensures st.app == if sockfd == INVALID_SOCKET then Fresh else Created
      ensures sockfd == INVALID_SOCKET ==> !ok && core.open == old(core.open)
      ensures sockfd != INVALID_SOCKET ==> sockfd !in old(core.open) && core.open == old(core.open) + {sockfd}
    {
      hide Leads, ClientPrepared;
      ghost var setup := core.setup;
      ok := false;
      var result := core.Initialize();
      assert core.setup[|setup|..] == [Initialized(result)];
      if result != 0 {
        ClientFails(0, Initialized(result), sockfd);
        return;
      }
      sockfd := core.Socket();
      if sockfd == INVALID_SOCKET {
        ClientFails(1, SocketMade(sockfd), sockfd);
        ClientGoesOn(0, Initialized(result), [SocketMade(sockfd)], sockfd, false);
        assert core.setup[|setup|..] == [Initialized(result)] + [SocketMade(sockfd)];
        return;
      }
      run := Took(run, st, ClientStep.OpenSocket(sockfd));
      st := Apply(st, ClientStep.OpenSocket(sockfd));
      ghost var more := core.setup;
      ok := Configure();
      ghost var rest := core.setup[|more|..];
      ClientGoesOn(1, SocketMade(sockfd), rest, sockfd, ok);
      ClientGoesOn(0, Initialized(result), [SocketMade(sockfd)] + rest, sockfd, ok);
      assert core.setup[|setup|..] == [Initialized(result)] + ([SocketMade(sockfd)] + rest);
    }

    /** The stages of a connect after the socket is open. */
    method Configure() returns (ok: bool)
      modifies core`setup
      ensures old(core.setup) <= core.setup && ClientPrepared(2, core.setup[|old(core.setup)|..], sockfd, ok)
    {
      var option := core.SetSockOpt(sockfd, RcvBuf);
      if option < 0 {
        return false;
      }
      option := core.SetSockOpt(sockfd, SndBuf);
      if option < 0 {
        return false;
      }
      var found := core.LookupHost();
      if found != 0 {
        return false;
      }
      var connected := core.Connect(sockfd);
      return connected != -1;
    }

    method SendMsg(msg: Bytes) returns (ok: bool, ghost n: int)
      requires Valid()
      modifies this`run, this`st, core`log
      ensures Valid() && Extends(run, old(run))
      ensures -1 <= n <= |msg| && (ok <==> n == |msg|)
      ensures st == old(st).(log := old(st.log) + [Call.Sent(sockfd, n, msg)])
    {
      hide Leads;
      var numBytesSent := core.Send(sockfd, msg);
      n := numBytesSent;
      run := Took(run, st, SendOut(msg, n));
      st := Apply(st, SendOut(msg, n));
      ok := true;
      if numBytesSent < 0 {
        ok := false;
      } else if numBytesSent < |msg| {
        ok := false;
      }
    }

    /** The receiving thread went through select and what follows, and told the application at most once. */
    twostate predicate Rounded()
      reads this, app
    {
      && Extends(run, old(run)) && st.app == old(st.app)
      && (st.pc.Top? || st.pc.Exited?) && (st.pc.Exited? <==> Ended(app.heard)) && stop == (old(stop) || st.pc.Exited?)
      && old(app.heard) <= app.heard && |app.heard| <= |old(app.heard)| + 1
    }

    /** Select was called n times more. */
    twostate predicate Selected?(n: nat)
      reads core
    {
      Selections(core.log) == old(Selections(core.log)) + n
    }

    /** The body of the receiving thread's loop. */
    method Round()
      requires Valid() && st.pc.Waiting? && !Ended(app.heard)
      modifies this`stop, this`run, this`st, core`log, app
      ensures Valid() && Rounded() && Selected?(1)
    {
      hide Leads;
      ghost var r0 := run;
      var selectRet, fds := core.Select(sockfd + 1, {sockfd});
      SelectionsMore(old(core.log), Selected(fds));
      if selectRet > 0 && sockfd in fds {
        assert fds == {sockfd};
        run := Took(run, st, SelectReady);
        st := Apply(st, SelectReady);
        ghost var r1 := run;
        Receive();
        ExtendsFurther(run, r1, r0);
      } else {
        assert fds == {};
        run := Took(run, st, SelectNothing);
        st := Apply(st, SelectNothing);
      }
    }

    /** Receive, and tell the application of the data or of the end. */
    method Receive()
      requires Valid() && st.pc.Reading? && !Ended(app.heard)
      modifies this`stop, this`run, this`st, core`log, app
      ensures Valid() && Rounded() && Selected?(0)
    {
      hide Leads, Selections, Extends;
      ghost var r0 := run;
      var n, data := core.Recv(sockfd, MAX_PACKET_SIZE);
      SelectionsMore(old(core.log), Received(sockfd, n, data));
      if n < 1 {
        run, st := NothingRun(run, st, n);
        ghost var r1 := run;
        stop := true;
        run, st := GoneRun(run, st);
        app.OnDisconnect();
        ExtendsFurther(run, r1, r0);
      } else {
        run, st := DataRun(run, st, data);
        ghost var r1 := run;
        run := Took(run, st, NotifyData);
        st := Apply(st, NotifyData);
        app.OnReceiveData(data);
        ExtendsFurther(run, r1, r0);
      }
    }

    /** The receiving thread's loop, for as many rounds as it is followed. It ends when the flag is set, by finish or
        by itself upon the end of the connection. If interrupted, finish raises the flag during the last of the
        rounds, should there be one. */
    method ReceiveTask(rounds: nat, interrupted: bool)
      requires Valid() && thread && (st.pc.Top? || st.pc.Exited?)
      requires interrupted ==> st.app.Up?
      modifies this`stop, this`run, this`st, core`log, app
      ensures Valid() && Extends(run, old(run))
      ensures (st.pc.Exited? <==> stop) && (old(stop) ==> stop)
      ensures st.app == old(st.app) || (interrupted && st.app.Joining?)
      ensures old(stop) ==> app.heard == old(app.heard) && core.log == old(core.log) && st.app == old(st.app)
      ensures stop && !old(stop) ==> Ended(app.heard) || (interrupted && st.app.Joining?)
      ensures interrupted && 0 < rounds ==> stop
      ensures interrupted && rounds == 1 && !old(stop) ==> st.app.Joining?
      ensures |app.heard| <= |old(app.heard)| + rounds && old(app.heard) <= app.heard
      ensures !stop ==> Selected?(rounds)
    {
      hide Leads;
      ghost var r0 := run;
      var round := 0;
      while !stop && round < rounds
        invariant Valid() && round <= rounds && Extends(run, r0) && (st.pc.Top? || st.pc.Exited?)
        invariant st.app == old(st.app) || (interrupted && st.app.Joining? && stop)
        invariant old(stop) ==> run == r0 && st == old(st) && app.heard == old(app.heard) && core.log == old(core.log)
        invariant stop && !old(stop) ==> Ended(app.heard) || (interrupted && st.app.Joining?)
        invariant round == 0 ==> stop == old(stop)
        invariant interrupted && round == rounds && 0 < rounds ==> stop
        invariant interrupted && round == rounds == 1 && !old(stop) ==> st.app.Joining?
        invariant |app.heard| <= |old(app.heard)| + round && old(app.heard) <= app.heard
        invariant Selections(core.log) == old(Selections(core.log)) + round
        decreases rounds - round
      {
        ghost var r1 := run;
        PhasesIn(run, st);
        EndsExit(run, st);
        run := Took(run, st, Enter);
        st := Apply(st, Enter);
        ghost var r2 := run;
        ExtendsFurther(r2, r1, r0);
        if interrupted && round == rounds - 1 {
          RaiseStop();
          ExtendsFurther(run, r2, r0);
        }
        ghost var r3 := run;
        Round();
        ExtendsFurther(run, r3, r0);
        round := round + 1;
      }
      PhasesIn(run, st);
      if stop && st.pc.Top? {
        ghost var r1 := run;
        run := Took(run, st, Quit);
        st := Apply(st, Quit);
        ExtendsFurther(run, r1, r0);
      }
    }

    method RaiseStop()
      requires Valid() && (st.app.Fresh? || st.app.Failed? || st.app.Up? || st.app.Finished?)
      modifies this`stop, this`run, this`st
      ensures Valid() && Extends(run, old(run)) && stop && st == old(st).(app := Joining, stop := true)
    {
      hide Leads;
      run := Took(run, st, Stop);
      st := Apply(st, Stop);
      stop := true;
    }

    /** Raise the flag, wait for the receiving thread, which may be late: already past its check of the flag, and
        close the socket if there is one. */
    method Finish()
      requires Valid() && (st.app.Fresh? || st.app.Failed? || st.app.Up? || st.app.Finished?)
      requires thread ==> st.pc.Top? || st.pc.Exited?
      modifies this, core, app
      ensures Valid() && Extends(run, old(run))
      ensures st.app.Finished? && stop && !thread && sockfd == INVALID_SOCKET && Unclosed(core.log) == 0
      ensures old(app.heard) <= app.heard && |app.heard| <= |old(app.heard)| + 1
      ensures !old(thread) || old(stop) ==> app.heard == old(app.heard)
      ensures old(sockfd) == INVALID_SOCKET ==> core.open == old(core.open) && core.log == old(core.log)
      ensures old(sockfd) != INVALID_SOCKET ==> core.open == old(core.open) - {old(sockfd)}
    {
      hide Leads;
      ghost var r0 := run;
      Join();
      ghost var r1 := run;
      if sockfd != INVALID_SOCKET {
        core.Close(sockfd);
      }
      run := Took(run, st, JoinAndClose);
      st := Apply(st, JoinAndClose);
      sockfd := INVALID_SOCKET;
      ExtendsFurther(run, r1, r0);
      FinishedIsClosed(run);
    }

    method Join()
      requires Valid() && (st.app.Fresh? || st.app.Failed? || st.app.Up? || st.app.Finished?)
      requires thread ==> st.pc.Top? || st.pc.Exited?
      modifies this`stop, this`thread, this`run, this`st, core`log, app
      ensures Valid() && Extends(run, old(run))
      ensures st.app.Joining? && (st.pc.Off? || st.pc.Exited?) && stop && !thread
      ensures old(app.heard) <= app.heard && |app.heard| <= |old(app.heard)| + 1
      ensures !old(thread) || old(stop) ==> app.heard == old(app.heard)
      ensures old(sockfd) == INVALID_SOCKET ==> core.log == old(core.log)
    {
      hide Leads;
      ghost var r0 := run;
      PhasesIn(run, st);
      var late: bool := *;
      if thread && late && !stop {
        ReceiveTask(1, true);
      } else {
        RaiseStop();
        ghost var r1 := run;
        if thread {
          ReceiveTask(0, false);
          ExtendsFurther(run, r1, r0);
        }
      }
      thread := false;
    }
  }

  /** The application was told of the end only if the receiving thread ended. */
  lemma EndsExit(r: ClientSchedule, c: ClientState)
    requires Leads(r, c)
    ensures Ended(c.heard) ==> c.pc.Exited?
  {
    ClientHearsStream(r);
  }

  /** The other end puts data on the wire and the client receives it. */
  lemma DataRun(r: ClientSchedule, c: ClientState, data: Bytes) returns (r': ClientSchedule, c': ClientState)
    requires Leads(r, c) && c.pc.Reading? && c.wire == [] && 1 <= |data| <= MAX_PACKET_SIZE && !c.shut
    ensures Leads(r', c') && Extends(r', r)
    ensures c' == c.(pc := TellData(data), log := c.log + [Received(c.sockfd, |data|, data)])
  {
    hide Leads;
    var r1 := Took(r, c, Put(data));
    var c1 := Apply(c, Put(data));
    assert c1.wire == data && data[..|data|] == data && data[|data|..] == [];
    r' := Took(r1, c1, Take(|data|));
    c' := Apply(c1, Take(|data|));
    ExtendsFurther(r', r1, r);
  }

  /** The other end closes the connection, or receiving fails. */
  lemma NothingRun(r: ClientSchedule, c: ClientState, n: int) returns (r': ClientSchedule, c': ClientState)
    requires Leads(r, c) && c.pc.Reading? && c.wire == [] && (n == 0 || n == -1)
    ensures Leads(r', c') && Extends(r', r)
    ensures c' == c.(pc := Ending, log := c.log + [Received(c.sockfd, n, [])], shut := c.shut || n == 0)
  {
    hide Leads;
    var r1, c1 := r, c;
    if n == 0 {
      r1 := Took(r, c, Shut);
      c1 := Apply(c, Shut);
    }
    r' := Took(r1, c1, TakeNothing(n));
    c' := Apply(c1, TakeNothing(n));
    ExtendsFurther(r', r1, r);
  }

  /** The flag is raised, and the application told of the end. */
  lemma GoneRun(r: ClientSchedule, c: ClientState) returns (r': ClientSchedule, c': ClientState)
    requires Leads(r, c) && c.pc.Ending?
    ensures Leads(r', c') && Extends(r', r)
    ensures c' == c.(stop := true, pc := Exited, heard := c.heard + [Disconnected])
  {
    hide Leads;
    var r1 := Took(r, c, RaiseFlag);
    r' := Took(r1, Apply(c, RaiseFlag), NotifyGone);
    c' := Apply(Apply(c, RaiseFlag), NotifyGone);
    ExtendsFurther(r', r1, r);
  }

  /** What the step system's properties say of a running client: what its application really heard is what was put
      on the connection, in order, and all of it once receive has returned 0; and an application that was told of
      the end hears nothing more. */
  lemma RunningClientHearsStream(client: TcpClient)
    requires client.Valid()
    ensures WellHeard(client.app.heard) && (Ended(client.app.heard) ==> client.stop)
    ensures Joined(client.app.heard) + InHand(client.st.pc) == PutBy(client.run) == Got(client.core.log)
    ensures SawEnd(client.core.log) ==> Joined(client.app.heard) == PutBy(client.run)
  {
    ClientHearsStream(client.run);
    if SawEnd(client.core.log) {
      OrderlyEnd(client.run);
    }
  }
}
