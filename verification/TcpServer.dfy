/** The TCP engine and its owner as they run: objects whose methods update their fields in place and call the
    operating system. Next to the real fields the server keeps a ghost schedule of the step system; every
    method shows that what it did is the execution of that schedule. */
module TcpServing {
  import opened Options
  import opened TcpEvents
  import opened TcpProtocol
  import opened TcpPieces
  import opened TcpBroadcast
  import opened TcpConservation
  import opened TcpSafety
  import opened TcpCallbacks
  import opened TcpRecords
  import opened Publishing
  import opened Sockets
  import Sets

  /** What a sequence of callbacks makes the owner publish: each chunk once per topic, in order. */
  function PublishedFor(heard: seq<Callback>, topics: seq<string>): seq<Message<Bytes>> {
    if heard == [] then []
    else
      var cb := heard[|heard| - 1];
      PublishedFor(heard[..|heard| - 1], topics) + if cb.Data? then Fanout(topics, cb.data) else []
  }

  /** The chunks among the callbacks, in order. */
  function Chunks(heard: seq<Callback>): seq<Bytes> {
    if heard == [] then []
    else
      var cb := heard[|heard| - 1];
      Chunks(heard[..|heard| - 1]) + if cb.Data? then [cb.data] else []
  }

  /** Message number i * |topics| + j published is chunk number i on topic number j. */
  lemma {:induction false} EachChunkOncePerTopic(heard: seq<Callback>, topics: seq<string>, i: nat, j: nat)
    requires i < |Chunks(heard)| && j < |topics|
    ensures |PublishedFor(heard, topics)| == |Chunks(heard)| * |topics|
    ensures i * |topics| + j < |Chunks(heard)| * |topics|
    ensures PublishedFor(heard, topics)[i * |topics| + j] == Message(topics[j], Chunks(heard)[i])
  {
    PublishedCount(heard, topics);
    BlockBound(i, j, |Chunks(heard)|, |topics|);
    var init := heard[..|heard| - 1];
    if i < |Chunks(init)| {
      EachChunkOncePerTopic(init, topics, i, j);
    } else {
      PublishedCount(init, topics);
    }
  }

  lemma {:induction false} BlockBound(i: nat, j: nat, m: nat, k: nat)
    requires i < m && j < k
    ensures i * k + j < m * k
  {
    if i + 1 < m {
      BlockBound(i, j, m - 1, k);
    }
    OneMoreBlock(m - 1, k);
  }

  lemma OneMoreBlock(m: nat, k: nat)
    ensures (m + 1) * k == m * k + k
  {
  }

  lemma {:induction false} PublishedCount(heard: seq<Callback>, topics: seq<string>)
    ensures |PublishedFor(heard, topics)| == |Chunks(heard)| * |topics|
  {
    if heard != [] {
      var init := heard[..|heard| - 1];
      PublishedCount(init, topics);
      OneMoreBlock(|Chunks(init)|, |topics|);
    }
  }

  /** One send of msg on fd was made and recorded; ok tells whether all of it was taken. */
  ghost predicate SendMade(log: seq<Call>, log': seq<Call>, fd: int, msg: Bytes, ok: bool) {
    exists n :: -1 <= n <= |msg| && log' == log + [Call.Sent(fd, n, msg)] && (ok <==> n == |msg|)
  }

  /** The calls of a broadcast of msg to the clients with the given descriptors: sends of msg, to no client twice,
      all of which but perhaps the last took all of it. It succeeds exactly if there is one for every client and
      each took all; if it fails it is because the last did not. */
  ghost predicate BroadcastCalls(calls: seq<Call>, clients: set<int>, msg: Bytes, ok: bool) {
    && (forall i :: 0 <= i < |calls| ==>
          calls[i].Sent? && calls[i].fd in clients && calls[i].msg == msg && -1 <= calls[i].n <= |msg|)
    && (forall i, j :: 0 <= i < j < |calls| ==> calls[i].fd != calls[j].fd)
    && (forall i :: 0 <= i < |calls| - 1 ==> calls[i].n == |msg|)
    && (ok <==> (forall h :: h in clients ==> exists i :: 0 <= i < |calls| && calls[i].fd == h)
                && (forall i :: 0 <= i < |calls| ==> calls[i].n == |msg|))
    && (!ok ==> calls != [] && calls[|calls| - 1].n < |msg|)
  }

  /** A broadcast under way: the sends so far all took all of msg, and left are the clients without one. */
  ghost predicate SoFar(calls: seq<Call>, clients: set<int>, left: set<int>, msg: Bytes) {
    && (forall i :: 0 <= i < |calls| ==> calls[i].Sent? && calls[i].msg == msg && calls[i].n == |msg|)
    && (forall i :: 0 <= i < |calls| ==> calls[i].fd in clients && calls[i].fd !in left)
    && (forall i, j :: 0 <= i < j < |calls| ==> calls[i].fd != calls[j].fd)
    && (forall h :: h in clients && h !in left ==> exists i :: 0 <= i < |calls| && calls[i].fd == h)
  }

  lemma OneMoreSent(calls: seq<Call>, clients: set<int>, left: set<int>, msg: Bytes, h: int, n: int)
    requires SoFar(calls, clients, left, msg) && h in left && h in clients && -1 <= n <= |msg|
    ensures n == |msg| ==> SoFar(calls + [Call.Sent(h, n, msg)], clients, left - {h}, msg)
    ensures n < |msg| ==> BroadcastCalls(calls + [Call.Sent(h, n, msg)], clients, msg, false)
  {
    var more := calls + [Call.Sent(h, n, msg)];
    assert more[|calls|].fd == h && more[|calls|].n == n;
    assert forall i :: 0 <= i < |calls| ==> more[i] == calls[i];
  }

  lemma NothingSentYet(clients: set<int>, msg: Bytes)
    ensures SoFar([], clients, clients, msg)
  {
  }

  lemma Recorded(log: seq<Call>, log': seq<Call>, fd: int, msg: Bytes, ok: bool) returns (n: int)
    requires SendMade(log, log', fd, msg, ok)
    ensures -1 <= n <= |msg| && log' == log + [Call.Sent(fd, n, msg)] && (ok <==> n == |msg|)
  {
    n :| -1 <= n <= |msg| && log' == log + [Call.Sent(fd, n, msg)] && (ok <==> n == |msg|);
  }

  lemma AllSent(calls: seq<Call>, clients: set<int>, msg: Bytes)
    requires SoFar(calls, clients, {}, msg)
    ensures BroadcastCalls(calls, clients, msg, true)
  {
  }

  /** The owner of the server: it mirrors the client set, publishes what clients send, and broadcasts what
      it receives. */
  class NetStack {
    var clients: set<int>
    var server: TcpServer?
    const publisher: Publisher<Bytes>
    const pubTopics: seq<string>
    var udpTx: nat
    var udpRx: nat
    ghost var heard: seq<Callback>

    constructor (pubTopics: seq<string>)
      ensures clients == {} && server == null && heard == [] && this.pubTopics == pubTopics
      ensures fresh(publisher) && InStep()
      ensures udpTx == 0
    {
      clients := {};
      server := null;
      publisher := new Publisher<Bytes>();
      this.pubTopics := pubTopics;
      udpTx, udpRx := 0, 0;
      heard := [];
    }

    /** What the owner published and counted follows from what it was told. */
    ghost predicate InStep()
      reads this, publisher
    {
      publisher.sent == PublishedFor(heard, pubTopics) && udpRx == |Chunks(heard)|
    }

    method OnClientConnect(client: int)
      requires server != null && InStep()
      modifies this`clients, this`heard
      ensures heard == old(heard) + [Connect(client)] && InStep()
      ensures clients == if client in server.clients then old(clients) + {client} else old(clients)
    {
      var found, addr, connected := server.GetClientInfo(client);
      if found {
        clients := clients + {client};
      }
      heard := heard + [Connect(client)];
      assert heard[..|heard| - 1] == old(heard);
    }

    method OnReceiveClientData(client: int, data: Bytes)
      requires InStep()
      modifies this`heard, this`udpRx, publisher
      ensures heard == old(heard) + [Data(client, data)] && InStep()
      ensures publisher.sent == old(publisher.sent) + Fanout(pubTopics, data)
    {
      publisher.PublishAll(pubTopics, data);
      udpRx := udpRx + 1;
      heard := heard + [Data(client, data)];
      assert heard[..|heard| - 1] == old(heard);
    }

    method OnClientDisconnect(client: int)
      requires InStep()
      modifies this`clients, this`heard
      ensures heard == old(heard) + [Disconnect(client)] && InStep()
      ensures clients == old(clients) - {client}
    {
      clients := clients - {client};
      heard := heard + [Disconnect(client)];
      assert heard[..|heard| - 1] == old(heard);
    }

    /** Broadcast the second frame of a message to every TCP client; whether that succeeded is not looked at. */
    method OnReceivedMessage(msgs: seq<Bytes>)
      requires 2 <= |msgs|
      requires server != null && server.Valid() && server.callback == this
      modifies server`run, server`st, server.core`log, this`udpTx
      ensures server == old(server) && server.Valid() && Extends(server.run, old(server.run))
      ensures old(server.core.log) <= server.core.log
      ensures exists ok ::
        && Outcome(ok, old(server.st.hist), server.st.hist, server.st.clients, msgs[1])
        && BroadcastCalls(server.core.log[|old(server.core.log)|..], server.clients.Keys, msgs[1], ok)
      ensures server.st == old(server.st).(hist := server.st.hist)
      ensures udpTx == old(udpTx) + 1
    {
      hide Leads, Fits, Outcome, Extends, BroadcastCalls;
      var ok := server.SendBcast(msgs[1]);
      udpTx := udpTx + 1;
    }

    /** Shut the server down and forget the clients. The server's own destructor finishes it a second time. */
    method Destroy()
      requires server != null && server.Valid() && server.callback == this
      requires server.st.owner.Failed? || server.st.owner.Up?
      requires server.thread ==> server.st.server.Top?
      modifies server, server.core, this`clients, this`heard, this`udpRx, publisher
      ensures server == old(server) && server.Valid() && server.st.owner.Finished?
      ensures clients == {} && server.clients == map[]
      ensures forall g :: Closes(server.st.hist, g) == if g in Born(server.st.hist) then 1 else 0
      ensures forall fd :: fd in server.core.open ==>
        fd in server.st.os && server.st.os[fd] !in Born(server.st.hist)
    {
      hide Leads, Fits, Extends;
      server.Finish();
      FitsMirrorCleared(server.Now(), server.st);
      clients := {};
      server.run := MirrorRun(server.run, server.st);
      server.st := server.st.(mirror := {});
      server.Finish();
    }
  }

  /** The TCP server. Next to the real fields it keeps a schedule of the step system and the state it leads
      to; the object is valid if the running program fits that state. */
  class TcpServer {
    const core: SocketCore
    const callback: NetStack
    var sockfd: int
    var fds: set<int>
    var clients: map<int, Client>
    var stop: bool
    var thread: bool            // the server thread is joinable
    ghost var run: Schedule
    ghost var st: State

    ghost function Now(): World
      reads this, core, callback
    {
      World(core.open, core.log, sockfd, fds, clients, stop, thread, callback.clients, callback.heard)
    }

    ghost predicate Valid()
      reads this, core, callback, callback.publisher
    {
      && callback.server == this && callback.InStep()
      && Leads(run, st) && Fits(Now(), st) && st.lock.Free? && st.sender.Idle?
    }

    /** A server not started yet, in a process that may have other descriptors open, those of other servers
        among them. */
    constructor (others: set<int>, callback: NetStack)
      requires callback.server == null && callback.InStep() && callback.heard == [] && callback.clients == {}
      requires forall fd :: fd in others ==> 0 <= fd
      modifies callback`server
      ensures Valid() && st.owner.Fresh? && !thread && this.callback == callback
      ensures fresh(core) && core.open == others
    {
      core := new SocketCore(others);
      this.callback := callback;
      sockfd := INVALID_SOCKET;
      fds := {};
      clients := map[];
      stop := false;
      thread := false;
      run := Schedule.Start;
      st := Init();
      new;
      callback.server := this;
      ghost var left := others;
      FitsInit(Now());
      while left != {}
        invariant left <= core.open && callback.server == this && callback.InStep()
        invariant Leads(run, st) && Fits(Now().(open := core.open - left), st)
        invariant st.owner.Fresh? && st.lock.Free? && st.sender.Idle?
        decreases left
      {
        var w := Now().(open := core.open - left);
        FitsClients(w, st);
        Sets.Inhabited(left);
        var fd :| fd in left;
        FitsForeign(w, st, fd);
        run := ForeignRun(run, st, fd);
        st := st.(os := st.os[fd := st.nextGen], nextGen := st.nextGen + 1);
        assert core.open - (left - {fd}) == w.open + {fd};
        left := left - {fd};
      }
      assert core.open - {} == core.open;
    }

    /** What is known of a client. */
    method GetClientInfo(clientId: int) returns (found: bool, addr: Address, connected: bool)
      ensures found <==> clientId in clients
      ensures found ==> addr == clients[clientId].addr && connected == clients[clientId].connected
    {
      found, addr, connected := false, Address("", 0), false;
      if clientId in clients {
        found, addr, connected := true, clients[clientId].addr, clients[clientId].connected;
      }
    }

    /** Close the connection, stop monitoring it, and forget it. */
    method DeleteClient(handle: int) returns (ok: bool)
      requires Valid() && Stage?(st, Drop) && st.server.fd == handle
      modifies this`fds, this`clients, this`run, this`st, core
      ensures Valid() && ok
      ensures Extends(run, old(run)) && st == Dropped(old(st)) && TurnedTo(old(st), st, TellGone)
    {
      hide Leads, Fits, Selects, Dropped;
      DropTurns(st);
      FitsClients(Now(), st);
      Serving(run, st);
      ClientsAreOpen(run, st, handle);
      FitsDrop(Now(), st);
      ok := handle in clients;
      if ok {
        var client := clients[handle];
        core.Close(client.sockfd);
        fds := fds - {client.sockfd};
        clients := clients - {handle};
        run := DropRun(run, st);
        st := Dropped(st);
      }
    }

    /** Receive from the client being served, and clear its connected flag if nothing came. */
    method Receive(fd: int) returns (n: int, data: Bytes)
      requires Valid() && Stage?(st, Serve) && st.server.fd == fd
      modifies this`clients, this`run, this`st, core`log
      ensures Valid() && Extends(run, old(run)) && -1 <= n <= MAX_PACKET_SIZE
      ensures n < 0 ==> st == AfterRecvErr(old(st)) && MovedOn(old(st), st)
      ensures n == 0 ==> st == AfterRecvEof(old(st)) && TurnedTo(old(st), st, Stage.Drop)
      ensures 1 <= n ==> st == Chunked(old(st), data) && TurnedTo(old(st), st, TellData(data))
    {
      hide Leads, Fits, Selects, AfterRecvErr, AfterRecvEof, Chunked;
      FitsClients(Now(), st);
      Serving(run, st);
      FitsNothing(Now(), st);
      n, data := core.Recv(fd, MAX_PACKET_SIZE);
      ReceiveTurns(st, data);
      if n < 1 {
        clients := clients[fd := clients[fd].(connected := false)];
        if n == 0 {
          run := EofRun(run, st);
          st := AfterRecvEof(st);
        } else {
          run := ErrRun(run, st);
          st := AfterRecvErr(st);
        }
      } else {
        FitsChunk(old(Now()), st, data);
        run := DataRun(run, st, data);
        st := Chunked(st, data);
      }
    }

    /** The server thread has told the owner and turns to the next descriptor. */
    twostate predicate Told(cb: Callback)
      reads this, callback
    {
      callback.heard == old(callback.heard) + [cb] && Moved()
    }

    /** The server thread is done with its descriptor and turns to the next. */
    twostate predicate Moved()
      reads this
    {
      Extends(run, old(run)) && MovedOn(old(st), st)
    }

    method PublishDisconnected(client: int)
      requires Valid() && Stage?(st, TellGone) && st.server.fd == client
      modifies this`run, this`st, callback`clients, callback`heard
      ensures Valid() && Told(Disconnect(client))
    {
      hide Leads, Fits, Selects, AfterNotifyGone;
      GoneMoves(st);
      FitsGone(Now(), st);
      callback.OnClientDisconnect(client);
      run := GoneRun(run, st);
      st := AfterNotifyGone(st);
    }

    method PublishClientMsg(client: int, msg: Bytes)
      requires Valid() && Stage?(st, TellData(msg)) && st.server.fd == client
      modifies this`run, this`st, callback`heard, callback`udpRx, callback.publisher
      ensures Valid() && Told(Data(client, msg))
    {
      hide Leads, Fits, Selects, AfterNotifyData;
      DataMoves(st);
      FitsData(Now(), st, msg);
      callback.OnReceiveClientData(client, msg);
      run := DataToldRun(run, st);
      st := AfterNotifyData(st);
    }

    method PublishClientConnect(client: int)
      requires Valid() && Stage?(st, TellNew(client))
      modifies this`run, this`st, callback`clients, callback`heard
      ensures Valid() && Told(Connect(client))
    {
      hide Leads, Fits, Selects, AfterNotifyNew;
      NewMoves(st);
      FitsNew(Now(), st, client);
      callback.OnClientConnect(client);
      run := NewRun(run, st);
      st := AfterNotifyNew(st);
    }

    /** The client being served hung up: forget it and tell the owner. */
    method ForgetClient(fd: int)
      requires Valid() && Stage?(st, Drop) && st.server.fd == fd
      modifies this`fds, this`clients, this`run, this`st, core
      modifies callback`clients, callback`heard
      ensures Valid() && Moved()
    {
      hide Leads, Fits, Selects, Dropped;
      ghost var r0 := run;
      var ok := DeleteClient(fd);
      ghost var r1 := run;
      PublishDisconnected(fd);
      ExtendsFurther(run, r1, r0);
    }

    /** Serve a client: hand its data over, forget it if it hung up, leave it if receiving failed. */
    method ServeClient(fd: int)
      requires Valid() && Stage?(st, Serve) && st.server.fd == fd
      modifies this`fds, this`clients, this`run, this`st, core
      modifies callback`clients, callback`heard, callback`udpRx, callback.publisher
      ensures Valid() && Moved()
    {
      hide Leads, Fits, Selects, AfterRecvErr, AfterRecvEof, Chunked;
      ghost var r0 := run;
      var n, data := Receive(fd);
      ghost var r1 := run;
      if n == 0 {
        ForgetClient(fd);
        ExtendsFurther(run, r1, r0);
      } else if 1 <= n {
        PublishClientMsg(fd, data);
        ExtendsFurther(run, r1, r0);
      }
    }

    /** Accept a connection and enter it into the map and the select set. */
    method Admit(fd: int) returns (c: int)
      requires Valid() && Stage?(st, Accepting) && st.server.fd == fd
      modifies this`fds, this`clients, this`run, this`st, core
      ensures Valid() && Extends(run, old(run))
      ensures c == -1 ==> st == AfterAcceptFail(old(st)) && MovedOn(old(st), st)
      ensures c != -1 ==> TurnedTo(old(st), st, TellNew(c)) && exists addr :: st == Admitted(old(st), c, addr)
    {
      hide Leads, Fits, Selects, AfterAcceptFail, Admitted;
      ghost var w := Now();
      FitsClients(w, st);
      var addr;
      c, addr := core.Accept(fd);
      AdmitTurns(st, c, addr);
      if c == -1 {
        FitsRefused(w, st);
        run := RefusedRun(run, st);
        st := AfterAcceptFail(st);
      } else {
        run := AdmitRun(run, st, c, addr);
        FitsAdmit(w, st, c, addr);
        st := Admitted(st, c, addr);
        if c !in clients {
          clients := clients[c := Client(addr, c, true)];
        }
        fds := fds + {c};
      }
    }

    /** Serve the listener: accept a connection and tell the owner. */
    method AcceptClient(fd: int)
      requires Valid() && Stage?(st, Accepting) && st.server.fd == fd
      modifies this`fds, this`clients, this`run, this`st, core
      modifies callback`clients, callback`heard
      ensures Valid() && Moved()
    {
      hide Leads, Fits, Selects, AfterAcceptFail, Admitted;
      ghost var r0 := run;
      var c := Admit(fd);
      ghost var r1 := run;
      if c != -1 {
        PublishClientConnect(c);
        ExtendsFurther(run, r1, r0);
      }
    }

    /** One more than the largest descriptor in use, for select. */
    method FindMaxFd() returns (maxfd: int)
      ensures sockfd < maxfd && forall h :: h in clients ==> clients[h].sockfd < maxfd
      ensures maxfd == sockfd + 1 || exists h :: h in clients && maxfd == clients[h].sockfd + 1
    {
      maxfd := sockfd;
      var left := clients.Keys;
      while left != {}
        invariant left <= clients.Keys
        invariant sockfd <= maxfd && forall h :: h in clients && h !in left ==> clients[h].sockfd <= maxfd
        invariant maxfd == sockfd || exists h :: h in clients && maxfd == clients[h].sockfd
        decreases left
      {
        Sets.Inhabited(left);
        var h :| h in left;
        if maxfd < clients[h].sockfd {
          maxfd := clients[h].sockfd;
        }
        left := left - {h};
      }
      maxfd := maxfd + 1;
    }

    /** The server thread is back at the top of its loop, having called select once more. */
    twostate predicate Passed()
      reads this
    {
      && Extends(run, old(run)) && st.server.Top?
      && Selects(st.hist) == old(Selects(st.hist)) + 1
    }

    /** One step of the scan: serve the descriptor if select reported it. */
    method Visit(ready: set<int>, fd: int)
      requires Valid() && Stage?(st, Look) && st.server.ready == ready && st.server.fd == fd && fd < st.server.maxfd
      modifies this`fds, this`clients, this`run, this`st, core
      modifies callback`clients, callback`heard, callback`udpRx, callback.publisher
      ensures Valid() && Moved()
    {
      hide Leads, Fits, Selects;
      ghost var r0 := run;
      FitsClients(Now(), st);
      FitsMove(Now(), st, Looked(st));
      run := LookRun(run, st);
      st := st.(server := Looked(st));
      if fd in ready {
        ghost var r1 := run;
        if fd in clients {
          ServeClient(fd);
        } else {
          AcceptClient(fd);
        }
        ExtendsFurther(run, r1, r0);
      }
    }

    /** Serve, in ascending order, every descriptor that select reported. */
    method Scan(ready: set<int>, maxfds: int)
      requires Valid() && st.server == At(ready, maxfds, 0, Look)
      modifies this`fds, this`clients, this`run, this`st, core
      modifies callback`clients, callback`heard, callback`udpRx, callback.publisher
      ensures Valid() && Extends(run, old(run)) && st.server.Top?
      ensures Selects(st.hist) == old(Selects(st.hist))
      ensures st.owner == old(st.owner) && st.stop == old(st.stop)
    {
      hide Leads, Fits, Selects, Extends;
      ghost var r0 := run;
      ExtendsItself(r0);
      var fd := 0;
      while fd < maxfds
        invariant Valid() && Extends(run, r0) && st.server == At(ready, maxfds, fd, Look)
        invariant Selects(st.hist) == old(Selects(st.hist))
        invariant st.owner == old(st.owner) && st.stop == old(st.stop)
      {
        ghost var r1 := run;
        Visit(ready, fd);
        ExtendsFurther(run, r1, r0);
        fd := fd + 1;
      }
      ghost var r1 := run;
      FitsMove(Now(), st, Top);
      run := LookRun(run, st);
      st := st.(server := Top);
      ExtendsFurther(run, r1, r0);
    }

    /** Raise the stop flag. */
    method RaiseStop()
      requires Valid() && (st.owner.Fresh? || st.owner.Failed? || st.owner.Up? || st.owner.Finished?)
      modifies this`stop, this`run, this`st
      ensures Valid() && Extends(run, old(run)) && stop
      ensures st == old(st).(owner := Joining, stop := true)
    {
      hide Leads, Fits, Extends;
      FitsStopped(Now(), st);
      run := StopRun(run, st);
      st := st.(owner := Joining, stop := true);
      stop := true;
    }

    /** One round of the server thread's loop: wait for descriptors and serve those that are ready. If
        interrupted, another thread raises the stop flag meanwhile, which this round does not look at. */
    method Pass(interrupted: bool)
      requires Valid() && st.server.Top? && !stop && (interrupted ==> st.owner.Up?)
      modifies this`fds, this`clients, this`stop, this`run, this`st, core
      modifies callback`clients, callback`heard, callback`udpRx, callback.publisher
      ensures Valid() && Passed() && stop == interrupted
      ensures st.owner == if interrupted then Joining else old(st.owner)
    {
      hide Leads, Fits, Extends, Selects;
      ghost var r0 := run;
      FitsClients(Now(), st);
      FitsMove(Now(), st, Polling);
      run := EnterRun(run, st);
      st := st.(server := Polling);
      ghost var r1 := run;
      if interrupted {
        RaiseStop();
        ExtendsFurther(run, r1, r0);
      }
      ghost var r2 := run;
      Wait();
      ExtendsFurther(run, r2, r0);
    }

    /** The body of a round. */
    method Wait()
      requires Valid() && st.server.Polling?
      modifies this`fds, this`clients, this`run, this`st, core
      modifies callback`clients, callback`heard, callback`udpRx, callback.publisher
      ensures Valid() && Passed()
      ensures st.owner == old(st.owner) && stop == old(stop)
    {
      hide Leads, Fits, Extends;
      ghost var r0 := run;
      FitsClients(Now(), st);
      var readSet := fds;
      var maxfds := FindMaxFd();
      ListenerUp(run, st);
      var selectRet;
      ghost var w := Now();
      selectRet, readSet := core.Select(maxfds, readSet);
      FitsSelect(w, st, readSet, maxfds);
      if selectRet <= 0 {
        run := IdleRun(run, st);
        st := AfterSelectIdle(st);
      } else {
        run := ReadyRun(run, st, readSet, maxfds);
        st := AfterSelectReady(st, readSet, maxfds);
        ghost var r1 := run;
        Scan(readSet, maxfds);
        ExtendsFurther(run, r1, r0);
      }
    }

    /** The server thread's loop, for as many rounds as it is followed; if the stop flag is set it ends at once. If
        interrupted, another thread raises the flag during the last of the rounds, and the thread ends after it. */
    method ServerTask(rounds: nat, interrupted: bool)
      requires Valid() && st.server.Top? && (interrupted ==> 0 < rounds && !stop && st.owner.Up?)
      modifies this`fds, this`clients, this`stop, this`run, this`st, core
      modifies callback`clients, callback`heard, callback`udpRx, callback.publisher
      ensures Valid() && Extends(run, old(run))
      ensures stop == (old(stop) || interrupted)
      ensures st.owner == if interrupted then Joining else old(st.owner)
      ensures old(stop) ==> st == old(st).(server := Exited) && clients == old(clients)
      ensures old(stop) ==> core.log == old(core.log) && core.open == old(core.open)
      ensures old(stop) ==> callback.clients == old(callback.clients)
      ensures !old(stop) ==>
        Selects(st.hist) == old(Selects(st.hist)) + rounds && st.server == if interrupted then Exited else Top
    {
      hide Leads, Fits;
      ghost var r0 := run;
      FitsClients(Now(), st);
      var round := 0;
      while !stop && round < rounds
        invariant Valid() && Extends(run, r0) && st.server.Top? && round <= rounds
        invariant stop == (old(stop) || (interrupted && round == rounds))
        invariant st.owner == if interrupted && round == rounds then Joining else old(st.owner)
        invariant old(stop) ==> round == 0 && st == old(st) && run == r0 && clients == old(clients)
        invariant old(stop) ==> core.log == old(core.log) && core.open == old(core.open)
        invariant old(stop) ==> callback.clients == old(callback.clients)
        invariant Selects(st.hist) == old(Selects(st.hist)) + round
        decreases rounds - round
      {
        ghost var r1 := run;
        Pass(interrupted && round == rounds - 1);
        ExtendsFurther(run, r1, r0);
        FitsClients(Now(), st);
        round := round + 1;
      }
      if stop {
        ghost var r1 := run;
        FitsClients(Now(), st);
        FitsExit(Now(), st);
        run := QuitRun(run, st);
        st := st.(server := Exited);
        ExtendsFurther(run, r1, r0);
      }
    }

    /** Open, configure, bind and listen, then start the server thread. A start that fails after the socket was
        opened leaves it to Finish. */
    method Start() returns (ok: bool)
      requires Valid() && st.owner.Fresh? && !thread
      modifies this`sockfd, this`fds, this`thread, this`run, this`st, core
      ensures Valid() && Extends(run, old(run))
      ensures ok ==> st.owner.Up? && st.server.Top? && thread && fds == {sockfd}
      ensures !ok ==> st.owner.Failed? && st.server == old(st.server) && !thread
      ensures sockfd == INVALID_SOCKET ==> !ok && core.open == old(core.open)
      ensures sockfd != INVALID_SOCKET ==> sockfd !in old(core.open) && core.open == old(core.open) + {sockfd}
      ensures stop == old(stop)
      ensures old(core.setup) <= core.setup && ServerPrepared(0, core.setup[|old(core.setup)|..], sockfd, ok)
    {
      hide Leads, Fits, Extends, ServerPrepared;
      ghost var r0 := run;
      ok := OpenListener();
      ghost var r1 := run;
      if ok {
        FitsStarted(Now(), st);
        run := StartedRun(run, st);
        st := st.(owner := Up, fds := {st.sockfd}, server := Top);
        fds := {sockfd};
        thread := true;
      } else {
        FitsOwner(Now(), st, Failed, st.lock);
        run := FailRun(run, st);
        st := st.(owner := Failed);
      }
      ExtendsFurther(run, r1, r0);
    }

    /** The stages of a start up to listening. */
    method OpenListener() returns (ok: bool)
      requires Valid() && st.owner.Fresh? && !thread
      modifies this`sockfd, this`run, this`st, core
      ensures Valid() && Extends(run, old(run))
      ensures st.server == old(st.server) && st.server.Off?
      ensures st.owner == if sockfd == INVALID_SOCKET then Fresh else Created
      ensures sockfd == INVALID_SOCKET ==> !ok && core.open == old(core.open)
      ensures sockfd != INVALID_SOCKET ==> sockfd !in old(core.open) && core.open == old(core.open) + {sockfd}
      ensures old(core.setup) <= core.setup && ServerPrepared(0, core.setup[|old(core.setup)|..], sockfd, ok)
    {
      hide Leads, Fits, Extends, ServerPrepared;
      ghost var r0 := run;
      ghost var setup := core.setup;
      FreshServer(run, st);
      FitsClients(Now(), st);
      ok := false;
      var result := core.Initialize();
      if result != 0 {
        ServerFails(0, Initialized(result), sockfd);
      }
      assert core.setup[|setup|..] == [Initialized(result)];
      if result == 0 {
        ghost var w := Now();
        sockfd := core.Socket();
        if sockfd == INVALID_SOCKET {
          ServerFails(1, SocketMade(sockfd), sockfd);
        }
        if sockfd != INVALID_SOCKET {
          FitsOpened(w, st, sockfd);
          run := SocketRun(run, st, sockfd);
          st := AfterOpenSocket(st, sockfd);
          ghost var more := core.setup;
          ok := Configure();
          ghost var rest := core.setup[|more|..];
          ServerGoesOn(1, SocketMade(sockfd), rest, sockfd, ok);
          ServerGoesOn(0, Initialized(result), [SocketMade(sockfd)] + rest, sockfd, ok);
          assert core.setup[|setup|..] == [Initialized(result)] + ([SocketMade(sockfd)] + rest);
        } else {
          ServerGoesOn(0, Initialized(result), [SocketMade(sockfd)], sockfd, false);
          assert core.setup[|setup|..] == [Initialized(result)] + [SocketMade(sockfd)];
        }
      }
      ExtendsItself(r0);
    }

    /** The stages of a start after the socket is open. */
    method Configure() returns (ok: bool)
      modifies core`setup
      ensures old(core.setup) <= core.setup && ServerPrepared(2, core.setup[|old(core.setup)|..], sockfd, ok)
    {
      var option := core.SetSockOpt(sockfd, ReuseAddr);
      if option < 0 {
        return false;
      }
      option := core.SetSockOpt(sockfd, RcvBuf);
      if option < 0 {
        return false;
      }
      option := core.SetSockOpt(sockfd, SndBuf);
      if option < 0 {
        return false;
      }
      var bound := core.Bind(sockfd);
      if bound == -1 {
        return false;
      }
      var listening := core.Listen(sockfd);
      return listening != -1;
    }

    /** Stop and join the server thread, then close every client and the listener. */
    method Finish()
      requires Valid() && (st.owner.Fresh? || st.owner.Failed? || st.owner.Up? || st.owner.Finished?)
      requires thread ==> st.server.Top?
      modifies this, core, callback`clients, callback`heard, callback`udpRx, callback.publisher
      ensures Valid() && Extends(run, old(run)) && st.owner.Finished?
      ensures clients == map[] && sockfd == INVALID_SOCKET && stop && !thread
      ensures callback.clients == st.mirror && (!old(thread) ==> callback.clients == old(callback.clients))
      ensures forall g :: Closes(st.hist, g) == if g in Born(st.hist) then 1 else 0
      ensures core.open == st.os.Keys && forall fd :: fd in st.os ==> st.os[fd] !in Born(st.hist)
      ensures old(st.owner.Finished?) ==> core.log == old(core.log) && core.open == old(core.open)
    {
      hide Leads, Fits;
      ghost var r0 := run;
      FitsClients(Now(), st);
      if st.owner.Finished? {
        FinishedIsEmpty(run, st);
      }
      StopAndJoin();
      ghost var r1 := run;
      CloseAll();
      ExtendsFurther(run, r1, r0);
      FinishedIsEmpty(run, st);
      FitsClients(Now(), st);
    }

    /** Raise the flag and wait for the server thread, which is at the top of its loop, or late: already past its
        check of the flag, with a whole pass to go. */
    method StopAndJoin()
      requires Valid() && (st.owner.Fresh? || st.owner.Failed? || st.owner.Up? || st.owner.Finished?)
      requires thread ==> st.server.Top?
      modifies this, core, callback`clients, callback`heard, callback`udpRx, callback.publisher
      ensures Valid() && Extends(run, old(run))
      ensures st.owner.Joining? && !Running(st.server) && stop && !thread
      ensures sockfd == old(sockfd)
      ensures !old(thread) ==> clients.Keys == old(clients.Keys) && callback.clients == old(callback.clients)
      ensures !old(thread) ==> core.log == old(core.log) && core.open == old(core.open)
    {
      hide Leads, Fits;
      ghost var r0 := run;
      FitsClients(Now(), st);
      RunningIsUp(run, st);
      var late: bool := *;
      if thread && late && !stop {
        ServerTask(1, true);
      } else {
        RaiseStop();
        ghost var r1 := run;
        if thread {
          ServerTask(0, false);
          ExtendsFurther(run, r1, r0);
        }
      }
      FitsClients(Now(), st);
      FitsJoined(Now(), st);
      thread := false;
    }

    /** Under the mutex: close every client in any order, close the listener, forget both. */
    method CloseAll()
      requires Valid() && st.owner.Joining? && !Running(st.server)
      modifies this`sockfd, this`clients, this`run, this`st, core
      ensures Valid() && Extends(run, old(run)) && st.owner.Finished?
      ensures clients == map[] && sockfd == INVALID_SOCKET
      ensures old(clients.Keys) == {} && old(sockfd) == INVALID_SOCKET ==>
        core.log == old(core.log) && core.open == old(core.open)
    {
      hide Leads, Fits, Extends;
      ghost var r0 := run;
      FitsClients(Now(), st);
      FitsOwner(Now(), st, Closing(st.clients.Keys), OwnerHolds);
      run := JoinRun(run, st);
      st := st.(owner := Closing(st.clients.Keys), lock := OwnerHolds);
      var left := clients.Keys;
      while left != {}
        invariant callback.server == this && callback.InStep() && Leads(run, st) && Fits(Now(), st) && Extends(run, r0)
        invariant st.owner == Closing(left) && st.lock.OwnerHolds? && st.sender.Idle? && left <= clients.Keys
        invariant sockfd == old(sockfd) && clients == old(clients)
        invariant left == {} && old(clients.Keys) == {} ==> core.log == old(core.log) && core.open == old(core.open)
        decreases left
      {
        ghost var r1 := run;
        FitsClients(Now(), st);
        Sets.Inhabited(left);
        var h :| h in left;
        FitsClose(Now(), st, clients[h].sockfd, st.clients[h].gen, Closing(left - {h}));
        run := CloseClientRun(run, st, h);
        st := AfterCloseClient(st, h);
        core.Close(clients[h].sockfd);
        left := left - {h};
        ExtendsFurther(run, r1, r0);
      }
      ghost var r1 := run;
      CloseTheListener();
      ExtendsFurther(run, r1, r0);
    }

    method CloseTheListener()
      requires callback.server == this && callback.InStep() && Leads(run, st) && Fits(Now(), st)
      requires st.owner == Closing({}) && st.sender.Idle?
      modifies this`sockfd, this`clients, this`run, this`st, core
      ensures Valid() && Extends(run, old(run)) && st.owner.Finished?
      ensures clients == map[] && sockfd == INVALID_SOCKET
      ensures old(sockfd) == INVALID_SOCKET ==> core.log == old(core.log) && core.open == old(core.open)
    {
      hide Leads, Fits;
      FitsClients(Now(), st);
      FitsFinished(Now(), st);
      if sockfd != INVALID_SOCKET {
        core.Close(sockfd);
      }
      sockfd := INVALID_SOCKET;
      clients := map[];
      run := FinishRun(run, st);
      st := AfterClearUnlock(AfterCloseListener(st));
    }

    /** Send a message to one client: success if all of it was taken. A client without a socket is passed over. */
    method SendMsg(client: Client, msg: Bytes) returns (ok: bool, ghost n: int)
      modifies core`log
      ensures client.sockfd == INVALID_SOCKET ==> ok && core.log == old(core.log)
      ensures client.sockfd != INVALID_SOCKET ==>
        && -1 <= n <= |msg| && (0 <= n ==> client.sockfd in core.open)
        && core.log == old(core.log) + [Call.Sent(client.sockfd, n, msg)]
        && (ok <==> n == |msg|)
    {
      ok, n := true, -1;
      if client.sockfd != INVALID_SOCKET {
        var numBytesSent := core.Send(client.sockfd, msg);
        n := numBytesSent;
        if numBytesSent < 0 {
          ok := false;
        } else if numBytesSent < |msg| {
          ok := false;
        }
      }
    }

    /** Send a message to every client, giving up at the first send that does not take all of it. */
    method SendBcast(msg: Bytes) returns (ok: bool)
      requires Valid()
      modifies this`run, this`st, core`log
      ensures Valid() && Extends(run, old(run))
      ensures Outcome(ok, old(st.hist), st.hist, st.clients, msg)
      ensures st == old(st).(hist := st.hist)
      ensures old(core.log) <= core.log
      ensures BroadcastCalls(core.log[|old(core.log)|..], clients.Keys, msg, ok)
    {
      hide Leads, Fits, Outcome, Extends, BroadcastCalls, SoFar, SendMade;
      ghost var log0 := core.log;
      ghost var calls: seq<Call> := [];
      ghost var r0 := run;
      ghost var s0 := st;
      FitsClients(Now(), st);
      FitsSender(Now(), st, SenderHolds, Sending(msg, st.clients.Keys, None, st.hist));
      run := BeginRun(run, st, msg);
      st := st.(lock := SenderHolds, sender := Sending(msg, st.clients.Keys, None, st.hist));
      ok := true;
      var left := clients.Keys;
      NothingSentYet(left, msg);
      while left != {} && ok
        invariant core.log == log0 + calls
        invariant if ok then SoFar(calls, clients.Keys, left, msg) else BroadcastCalls(calls, clients.Keys, msg, false)
        invariant callback.server == this && callback.InStep() && Leads(run, st) && Fits(Now(), st) && Extends(run, r0)
        invariant st.sender.Sending? && left <= clients.Keys && (ok <==> st.sender.failed.None?)
        invariant st == s0.(hist := st.hist, lock := SenderHolds,
                            sender := Sending(msg, left, st.sender.failed, s0.hist))
        decreases left
      {
        Sets.Inhabited(left);
        var h :| h in left;
        ghost var before := left;
        left := left - {h};
        ghost var r1 := run;
        ok := SendOne(h, msg);
        ExtendsFurther(run, r1, r0);
        ghost var n := Recorded(log0 + calls, core.log, h, msg, ok);
        OneMoreSent(calls, clients.Keys, before, msg, h, n);
        calls := calls + [Call.Sent(h, n, msg)];
      }
      if ok {
        AllSent(calls, clients.Keys, msg);
      }
      assert core.log[|log0|..] == calls;
      ghost var r1 := run;
      FitsSender(Now(), st, Free, Idle);
      run := EndRun(run, st);
      st := st.(lock := Free, sender := Idle);
      ExtendsFurther(run, r1, r0);
    }

    /** One round of the broadcast loop. */
    method SendOne(h: int, msg: Bytes) returns (ok: bool)
      requires callback.server == this && callback.InStep() && Leads(run, st) && Fits(Now(), st)
      requires st.lock.SenderHolds? && st.sender.Sending? && st.sender.failed.None? && st.sender.msg == msg
      requires h in clients && h in st.sender.left
      modifies this`run, this`st, core`log
      ensures callback.server == this && callback.InStep() && Leads(run, st) && Fits(Now(), st)
      ensures Extends(run, old(run))
      ensures st == old(st).(hist := st.hist, sender := st.sender)
      ensures st.sender == old(st.sender).(left := old(st.sender.left) - {h}, failed := if ok then None else Some(h))
      ensures SendMade(old(core.log), core.log, h, msg, ok)
    {
      hide Leads, Fits;
      FitsClients(Now(), st);
      SendableClient(run, st, h);
      ghost var n;
      ghost var w := Now();
      ok, n := SendMsg(clients[h], msg);
      FitsSent(w, st, h, msg, n);
      run := BcastSendRun(run, st, h, n);
      FitsSender(Now(), AfterSend(st, h, msg, n), st.lock, AfterBcastSend(st, h, n).sender);
      st := AfterBcastSend(st, h, n);
    }

    /** Send a message to one client, if there is such a client. */
    method SendClientMessage(clientId: int, msg: Bytes) returns (ok: bool)
      requires Valid()
      modifies this`run, this`st, core`log
      ensures Valid() && Extends(run, old(run))
      ensures clientId !in clients ==> !ok && st == old(st) && core.log == old(core.log)
      ensures clientId in clients ==> SendMade(old(core.log), core.log, clientId, msg, ok)
      ensures clientId in clients && ok ==> Grew(old(st.hist), st.hist, st.clients[clientId].gen, msg)
      ensures clientId in clients && !ok ==> GrewInPart(old(st.hist), st.hist, st.clients[clientId].gen, msg)
      ensures st == old(st).(hist := st.hist)
      ensures forall g :: (clientId in clients ==> g != st.clients[clientId].gen) ==> Grew(old(st.hist), st.hist, g, [])
    {
      hide Leads, Fits;
      FitsClients(Now(), st);
      ok := false;
      if clientId in clients {
        SendableClient(run, st, clientId);
        ghost var n;
        ghost var w := Now();
        ghost var s0 := st;
        ok, n := SendMsg(clients[clientId], msg);
        FitsSent(w, st, clientId, msg, n);
        SentOnly(run, st, clientId, msg, n);
        run := SendToRun(run, st, clientId, msg, n);
        st := AfterSend(st, clientId, msg, n);
        ghost var data := if n < 0 then [] else msg[..n];
        assert data == msg[..|data|];
        assert Grew(s0.hist, st.hist, st.clients[clientId].gen, data);
      }
    }
  }

  /** What the step system's properties say of a running server: the calls it really made, the callbacks its
      owner really heard, and what the owner published. */
  lemma RunningServerKeepsItsPromises(server: TcpServer, handle: int, g: int)
    requires server.Valid()
    ensures server.core.log == Calls(server.st.hist) && server.callback.heard == Callbacks(server.st.hist)
    ensures OnTarget(server.st.hist) && NoYoungRecv(server.st.hist)
    ensures PassesComplete(server.st.hist) && ChunksBounded(server.st.hist)
    ensures Sessions(Of(server.callback.heard, handle))
    ensures server.callback.publisher.sent == PublishedFor(server.callback.heard, server.callback.pubTopics)
    ensures HandlesMean(server.st.hist)
    ensures forall h :: h in server.clients ==>
      var g := server.st.clients[h].gen;
      && AddressOf(server.st.hist, g) == Some(server.clients[h].addr) && LatestOn(server.st.hist, h) == g
      && (server.clients[h].connected <==> !CameToNothing(server.st.hist, g))
    ensures BetweenEvents(server.st.server) ==>
      && server.fds == {server.sockfd} + server.clients.Keys
      && server.callback.clients == server.clients.Keys
      && InBytes(server.st.hist, g) == DataBytes(server.st.hist, g)
  {
    var r := server.run;
    EveryCallReachesItsConnection(r);
    NewcomersWaitForNextPass(r);
    EveryReadyDescriptorServedOnce(r);
    ChunksFitPackets(r);
    CallbacksFormSessions(r, handle);
    InboundBytesConserved(r, g);
    CallbacksMeanConnections(r);
    forall h | h in server.clients
      ensures AddressOf(server.st.hist, server.st.clients[h].gen) == Some(server.clients[h].addr)
      ensures LatestOn(server.st.hist, h) == server.st.clients[h].gen
      ensures server.clients[h].connected <==> !CameToNothing(server.st.hist, server.st.clients[h].gen)
    {
      EntriesAreTrue(r, h);
    }
    if BetweenEvents(server.st.server) {
      FourWayAgreement(r);
    }
  }
}
