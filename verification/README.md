# Verification of the ZeroMQ playground services

A Dafny model of three parts of the repository, and proofs about them for every input, every run and every
interleaving of the threads involved.

**The TCP server and its owner** (`common/TcpServer.h`, `net-stack/NetStack.cpp`). A `select` loop copies a set of
descriptors, scans it in ascending order, and changes the live set, the client map and the descriptor table of the
operating system while it scans. Its owner mirrors the client set from callbacks; other threads broadcast through
the same map. The engine is modelled twice.

- `TcpProtocol` is a step system: the server thread, the thread that starts and finishes the server, broadcasting
  threads, the other parts of the process that open and close descriptors, and the peers take atomic steps in any
  order. Critical sections under the client mutex are several steps. Accept returns any number that is not open
  (section 2.14, File Descriptor Allocation, of POSIX.1-2017 System Interfaces), so numbers are reused freely, even
  within a pass; a *generation* tells the connections behind one number apart. `TcpInvariant` holds what every step
  keeps, and `TcpSafety`, `TcpCallbacks`, `TcpRecords`, `TcpConservation`, `TcpBroadcast`, `TcpStreams` and
  `TcpProgress` the properties of all schedules.
- `TcpServing` has the classes `TcpServer` and `NetStack`, with their fields and loops. Each server has its own
  `SocketCore` (module `Sockets`), whose results are arbitrary within the contracts of the socket calls, and recorded.
  A `TcpServer` carries a ghost schedule; every method shows that what it did to its fields, to its socket calls and to
  its owner is an execution of that schedule (`TcpPieces` holds the pieces of that argument). So what holds of all
  schedules holds of the running object.
- The client end is done in the same way: `TcpClientProtocol` is its step system, with the receiving thread, the thread
  that connects and finishes, and the other end of the connection, and `TcpClienting` the class that executes it.
  `TcpEndToEnd` joins the two systems: what the server's sends put on a connection is what travels to its client.

**Routing** (`common/Subscriber.h`, `common/Receiver.h`, `common/ZmqStack.cpp`, `common/Publisher.cpp`,
`common/Sender.cpp`, `conv-stack/ConvStack.cpp`). `Subscribing` has the receiving loops, the reference-counted prefix
filters of a subscribing socket (RFC 29/PUBSUB of ZeroMQ), the subscription set of a stack and its health probe.
`Routing` has the converter, as a class and as three threads that share a table under one lock. `Cascade` has networks
of converters that hear each other's messages. `Sending` has the sender that reconnects now and then.

**Text** (`common/Util.h` and the naming lines of the mains). `Topics` has splitting and joining, reading an instance
number off a host name, and the topics named after instances.

## What was found

The following hold only under a condition. Each is stated together with its exact condition, and with a concrete
case where it fails.

- A topic taken back with `Unsubscribe` is no longer listed, but it is still delivered if it was subscribed to more
  often than taken back (`common/ZmqStack.cpp:55-67`): `LeftoverFilter`, `SubscribedTwiceDroppedOnce`. A converter does
  not forward such messages, because forwarding looks at its table only: `ExactForwarding`.
- Two instances of a service hear each other exactly if the name of the service starts with `ctrl` or with the welcome
  topic, which every subscriber subscribes to (`common/Subscriber.h:49-50`): `InstanceIsolation`, `ControlNamesCollide`.
- The health probe compares against a value shared by all stacks of a process (`common/ZmqStack.cpp:107`). It is right
  about a stack exactly if the value left behind is the stack's count at its own previous probe, or is neither that nor
  its count now (`ProbeRightExactly`); so it is right if no other stack was probed in between (`ProbeAgain`,
  `ProbeAlone`), and with two stacks probed in turn it is wrong both ways (`SharedProbeMisleads`). No program of the
  repository probes two stacks: a health endpoint is built for one object per process (`zmq-stack/ZmqStackMain.cpp:177`,
  `net-stack/NetStackMain.cpp:171`, `conv-stack/ConvStackMain.cpp:171`), and `inproc-stack` has none.
- The probe counts timeouts and application messages, so it reports 0 exactly if one of these came (`ProbeAlone`): a
  subscriber that received only control frames between two probes is reported as failed although it works
  (`OnlyControlLooksDead`). The comment at `common/ZmqStack.cpp:105-106` does not say that these rounds skip the counter.
- Control and welcome frames are never converted when they come through the subscriber, and can be when they come
  through the receiver: `SubscribedStream`, `PulledStream`, `ReceiverConvertsControl`.
- The topics a converter subscribes to and its conversions are read independently
  (`conv-stack/ConvStackMain.cpp:126-138`), so a conversion may have no filter of its own. It is delivered exactly as
  long as a shorter filter lets it through (`KeysDelivered`), and no longer once that topic is removed, though it stays
  in the table (`ShorterFilterDropped`).
- The table of `conv-stack/config/conv-stack.yaml:14-16` turns two topics into each other, so one message is converted
  for ever, in any company (`SwapNeverQuiesces`); the table of `Kubernetes/conv-stack.yaml:29-39` takes one hop
  (`BridgeOneHop`).
- A sender is attached exactly if it was at first and no reconnect detached it without attaching it again
  (`AttachedExactly`): after one such failure each later attempt fails at detaching, even if attaching would work by
  then (`DetachedForGood`).
- What arrives on a connection is whole messages one after the other exactly if no send before the last took a part of
  its message only (`WholeMessagesExactly`). A client whose send was cut short stays in the map
  (`common/TcpServer.h:225-230`), so the next broadcast follows the fragment (`MessageAfterFragment`).
- The instance number of a host name comes back exactly if it is below 2^32; above, it is reduced, and read as 0 from
  2^64 on: `InstanceRoundTrip`, `LargeInstances`.

## Model

| member | source | states |
|---|---|---|
| TcpInvariant.StepKeepsInv | common/TcpServer.h:198-510 | every step of every thread keeps the invariant that ties the select set, the client map, the owner's set, the descriptor table, the mutex and the server thread's position together |
| TcpInvariant.Safety | common/TcpServer.h:198-510 | every state of every schedule satisfies it |
| TcpSafety.UnknownReadableIsListener | common/TcpServer.h:475-505 | a readable descriptor the map does not know is the listener and nothing else; accept is called on the listener alone; the accepted number is not a key, so inserting never drops a connection |
| TcpSafety.NewcomersWaitForNextPass | common/TcpServer.h:457-510 | a connection accepted in a pass is not read before the next select, even if its number was closed and reused in that pass |
| TcpSafety.EveryCallReachesItsConnection | common/TcpServer.h:198-233 | under every interleaving each accept, receive, send and close reaches an open descriptor, and the very connection the map entry was made for |
| TcpSafety.FourWayAgreement | common/TcpServer.h:468-508 | between events: select set = listener and clients = open descriptors this server obtained; keys = descriptors; the owner's set = the key set |
| TcpSafety.EveryReadyDescriptorServedOnce | common/TcpServer.h:471-508 | in every pass each descriptor select reported gets exactly one turn, in ascending order, whatever happens to the map meanwhile |
| TcpProgress.ServerCanStep | common/TcpServer.h:453-511 | a running server thread waits for nothing but the mutex |
| TcpProgress.HolderCanStep | common/TcpServer.h:198-293 | whoever holds the mutex can go on towards releasing it |
| TcpProgress.ReleasesWithin | common/TcpServer.h:198-293 | whoever holds the mutex releases it within a bounded number of its own steps, whatever others do: at most 2 for a deletion, one more than the clients left for a broadcast, two more for finish |
| TcpProgress.StopsWithin | common/TcpServer.h:270-279 | once the stop flag is set, the server thread, wherever it stands in a pass and whatever others do, ends within 6 m + 3 steps of its own, m being above every descriptor it polls |
| TcpCallbacks.CallbacksFormSessions | common/TcpServer.h:407-435 | the callbacks of every handle are a prefix of (Connect Data* Disconnect)*, across reuse of its number, and a session is open exactly while the owner counts the handle |
| TcpRecords.EntriesAreTrue | common/TcpServer.h:477-504 | every entry holds the address accept reported for the connection accepted last on its number, and is marked as not connected exactly if some receive on that connection returned less than one byte |
| TcpRecords.CallbacksMeanConnections | common/TcpServer.h:477-505 | every callback is about the connection accepted last on its handle, and a Disconnect only comes once that one has hung up |
| TcpRecords.ClientUntilHangUp | common/TcpServer.h:477-488 | between events of a running server an accepted connection is a client exactly until a receive on it returned 0; a failed receive does not end it |
| TcpConservation.NeverClosedTwice | common/TcpServer.h:198-211 | a descriptor the server obtained was closed once if it is no longer open, and not yet if it is; no other was ever closed |
| TcpConservation.OwnedAreBorn | common/TcpServer.h:489-505 | what the server owns is exactly what socket and accept gave it |
| TcpConservation.FinishClosesEverything | common/TcpServer.h:270-293 | when finish has returned, each descriptor ever obtained has been closed exactly once, whichever stage of start failed and whatever peers did |
| TcpConservation.SecondFinishClosesNothing | net-stack/NetStack.cpp:28-32 | after that nothing closes any descriptor again, in any continuation |
| TcpConservation.InboundBytesConserved | common/TcpServer.h:477-488 | per connection, the chunks handed over, put together, are the bytes received, less the chunk in hand, and those are the first bytes the peer sent |
| TcpConservation.ChunksFitPackets | common/TcpServer.h:477-488 | every chunk handed over has between 1 and 65536 bytes |
| TcpBroadcast.BroadcastOutcome | common/TcpServer.h:220-233 | success: every client's stream grew by exactly the message; failure: one client's by a part of it and every other's by all or nothing; no other connection got anything, whatever threads that respect the mutex did meanwhile (a direct send whose lookup came before the broadcast is taken as one step before it) |
| TcpBroadcast.SharesAlways | common/TcpServer.h:220-233 | at every moment of a broadcast each client got all, a part, or nothing, according to whether its turn has come (direct sends as above) |
| TcpStreams.WholeMessagesExactly | common/TcpServer.h:368-397 | over all sends to a connection, what arrives is whole messages and a part of the last exactly if no send before the last was cut short |
| TcpStreams.MessageAfterFragment | common/TcpServer.h:224-231 | wherever a server has one client, a broadcast may be cut short, the client stays, and the next broadcast follows the fragment |
| TcpServing.TcpServer.constructor | common/TcpServer.h:47-52 | a fresh server, beside any descriptors the process has open, fits the initial state |
| TcpServing.TcpServer.Start | common/TcpServer.h:79-189 | over the recorded results of the stages (initialize, socket, three options, bind, listen): each is tried only if all before it worked, and start succeeds exactly if all did; then the thread runs and the select set is the listener; else no thread runs, and a socket is left open exactly if it was created |
| TcpServing.TcpServer.DeleteClient | common/TcpServer.h:198-211 | closes, stops monitoring and forgets exactly the client being served |
| TcpServing.TcpServer.GetClientInfo | common/TcpServer.h:305-315 | finds exactly the keys of the map, and their address and flag |
| TcpServing.TcpServer.FindMaxFd | common/TcpServer.h:442-448 | one more than the largest of the listener and the clients' descriptors, and no more |
| TcpServing.TcpServer.Receive | common/TcpServer.h:477-487 | no data clears the flag and, on hang-up, leads to dropping the client; data becomes a chunk in hand |
| TcpServing.TcpServer.ServeClient | common/TcpServer.h:475-488 | serving a client, whichever way it goes, is a run of the step system up to the next descriptor |
| TcpServing.TcpServer.Admit | common/TcpServer.h:493-504 | a refused accept changes nothing; an accepted one is entered, with the address accept reported, in the map and the select set |
| TcpServing.TcpServer.AcceptClient | common/TcpServer.h:489-507 | accepting, whichever way it goes, is a run of the step system up to the next descriptor |
| TcpServing.TcpServer.PublishDisconnected | common/TcpServer.h:416-426 | the owner hears exactly one Disconnect for the handle and no longer counts it |
| TcpServing.TcpServer.PublishClientMsg | common/TcpServer.h:407-409 | the owner hears exactly one Data with exactly the chunk |
| TcpServing.TcpServer.PublishClientConnect | common/TcpServer.h:433-435 | the owner hears exactly one Connect for the handle |
| TcpServing.TcpServer.Scan | common/TcpServer.h:471-508 | the scan of a read set is a run of the step system from its first descriptor to the top of the loop |
| TcpServing.TcpServer.Pass | common/TcpServer.h:457-509 | one round of the loop calls select once and is a run of the step system, also if finish raises the flag during it |
| TcpServing.TcpServer.ServerTask | common/TcpServer.h:453-511 | any number of rounds is; with the flag set at the top the thread ends without touching anything, and raised during a round it ends after that round |
| TcpServing.TcpServer.Finish | common/TcpServer.h:270-293 | from any phase, the thread being at the top of its loop or with a whole pass to go: everything obtained is closed exactly once, the map is empty, only foreign descriptors remain open; a second call makes no call to the system |
| TcpServing.TcpServer.SendMsg | common/TcpServer.h:368-397 | success exactly if all bytes were taken; a client without a socket counts as success and gets nothing |
| TcpServing.TcpServer.SendBcast | common/TcpServer.h:220-233 | the calls are one send of the message to each of distinct clients; all but the last took all of it; success exactly if every client has such a call and all took all, so failure needs a last send that took less; the growth of the streams satisfies the broadcast outcome; nothing but the history changes |
| TcpServing.TcpServer.SendClientMessage | common/TcpServer.h:243-265 | an unknown client fails and no call is made; else exactly one send of the message to it is made, success means all of it was taken and its stream grew by it, failure that a part was, and no other stream grew |
| TcpServing.RunningServerKeepsItsPromises | common/TcpServer.h:453-511 | the calls the running object really made and the callbacks its owner really heard have the properties above and below; every entry of its map has the address of its connection, and the flag of whether a receive on it came to nothing |
| TcpServing.NetStack.OnClientConnect | net-stack/NetStack.cpp:51-61 | the client is counted exactly if the server knows it |
| TcpServing.NetStack.OnReceiveClientData | net-stack/NetStack.cpp:44-49 | the chunk is published once per topic, in list order, and counted |
| TcpServing.NetStack.OnClientDisconnect | net-stack/NetStack.cpp:63-67 | the client is no longer counted; no other is affected |
| TcpServing.NetStack.OnReceivedMessage | net-stack/NetStack.cpp:34-38 | the second frame is broadcast, with the calls and the outcome of a broadcast, and counted |
| TcpServing.NetStack.Destroy | net-stack/NetStack.cpp:28-32 | finishing twice leaves no descriptor of the server open and none closed twice |
| TcpServing.EachChunkOncePerTopic | net-stack/NetStack.cpp:44-49 | published message number i * topics + j is chunk i on topic j, and there are no others |
| TcpClienting.TcpClient.constructor | common/TcpClient.h:39-44 | a fresh client, beside any descriptors the process has open |
| TcpClienting.TcpClient.ConnectTo | common/TcpClient.h:72-158 | over the recorded results of the stages (initialize, socket, two options, host lookup, connect): each is tried only if all before it worked, and the connect succeeds, and the receiving thread runs, exactly if all did; a socket is left open exactly if it was created |
| TcpClienting.TcpClient.SendMsg | common/TcpClient.h:167-194 | success exactly if all bytes were taken |
| TcpClienting.TcpClient.Round | common/TcpClient.h:238-276 | one select, and at most one receive and one callback, as a run of the client's step system; the thread ends exactly if it told of the end |
| TcpClienting.TcpClient.ReceiveTask | common/TcpClient.h:235-277 | any number of rounds is such a run; the thread ends exactly if the flag is set, by itself upon the end of the connection or by finish, also during a round |
| TcpClienting.TcpClient.Finish | common/TcpClient.h:199-210 | the thread is joined, being at the top of its loop or with a round to go, in which it may still tell the application once; the socket is closed if there is one, and nothing is left open; a second call makes no call to the system |
| TcpClientProtocol.ClientHearsStream | common/TcpClient.h:235-277 | under every interleaving, what the application was told of, what the receiving thread has in hand and what is on the wire are, in order, exactly what the other end put on the connection; chunks of 1 to 65536 bytes, then at most one Disconnect, which ends the thread |
| TcpClientProtocol.OrderlyEnd | common/TcpClient.h:251-273 | once receive has returned 0 the application was told of every byte that was and will be put on the connection |
| TcpClientProtocol.EndToldExactly | common/TcpClient.h:251-273 | when the receiving thread has ended, its last notice is Disconnect exactly if a receive returned less than one byte, be it an end or a failure |
| TcpClientProtocol.NothingAfterEnd | common/TcpClient.h:237-277 | once the receiving thread has ended the application hears nothing more, in any continuation |
| TcpClientProtocol.FinishedIsClosed | common/TcpClient.h:199-210 | in every finished state no socket is left open and the receiving thread does not run |
| TcpClientProtocol.StopsWithin | common/TcpClient.h:235-277 | once the flag is set the receiving thread ends within four steps of its own |
| TcpClientProtocol.ReceiverCanStep | common/TcpClient.h:235-277 | until it has ended, the receiving thread can always go on, whatever the others do |
| TcpClienting.RunningClientHearsStream | common/TcpClient.h:219-277 | the callbacks the running object's application really heard have these properties, with respect to the bytes the object really received (in its own schedule, what is put on the connection is what is received) |
| TcpEndToEnd.ClosedIsSilent | common/TcpServer.h:198-233 | once the server has closed a connection no send puts anything on it |
| TcpEndToEnd.EndToEndStream | common/TcpClient.h:235-277 | under every interleaving of the whole server process with the client, what the server's sends put on the connection is what the client's application was told of, has in hand, and is under way, in order; once receive has returned 0, all of it was told |
| TcpEndToEnd.RunningClientHearsServer | common/TcpClient.h:235-277 | a running client whose calls and callbacks come about in a joint schedule: its application really heard a prefix of what the server's sends put on the connection, and all of it after an orderly end, upon which the server has closed |
| TcpEndToEnd.ClientMeetsServer | common/TcpClient.h:235-277 | every running client is in a joint schedule with exactly those server schedules whose sends put on the connection what it received, or more, and, if it saw the end, nothing more and then a close |
| Publishing.Publisher.PublishMsg | common/Publisher.cpp:23-34 | one message is appended to what was sent, and counted |
| Publishing.Publisher.PublishAll | common/Publisher.cpp:36-47 | one message per topic is appended, in list order, all with the same payload |
| Topics.StringStream.GetLine | common/Util.h:12-14 | takes the text up to the next delimiter, drops the delimiter, and fails exactly when nothing is left |
| Topics.Split | common/Util.h:7-16 | the loop computes the pieces |
| Topics.JoinOfSplit | common/Util.h:7-16 | joining the pieces gives the text back, less a delimiter at its end |
| Topics.SplitOfJoin | common/Util.h:7-16 | splitting a joined list gives it back exactly if no piece holds the delimiter and the last is not empty |
| Topics.PieceCount | common/Util.h:7-16 | as many pieces as delimiters, one more if the text is not empty and does not end in one |
| Topics.StoulOfDecimal | common/Util.h:28 | a decimal number is read as itself, unless it does not fit in 64 bits |
| Topics.InstanceRoundTrip | common/Util.h:18-35 | base-n is read as n exactly if n is below 2^32, for every base name; what it is read as otherwise |
| Topics.NoDash | common/Util.h:20-25 | a host name without a dash is instance 0, whatever else it holds |
| Topics.InstanceOfNumber | common/Util.h:26-29 | what follows the last dash may have white space and a plus sign before its digits and any text after them; the digits count, below 2^64, modulo 2^32 |
| Topics.InstanceOfNoNumber | common/Util.h:26-32 | without a digit in that place the instance is 0 |
| Topics.OddHostNames | common/Util.h:20-33 | cases: web-a-12b is 12, web-007 is 7 |
| Topics.LargeInstances | common/Util.h:28 | cases of the round trip: web-4294967295 is itself, web-4294967299 is 3, 2^64 - 1 is reduced and 2^64 + 1 is 0 |
| Topics.TopicPrefix | net-stack/NetStackMain.cpp:141-152 | one service's topic is a prefix of another's exactly if they are the same or the other's base name starts with the whole of it |
| Topics.InstanceTopicsPrefixFree | zmq-stack/ZmqStackMain.cpp:140-145 | among instances of one name, and both directions, no topic is a prefix of another |
| Topics.NamesInFull | net-stack/NetStackMain.cpp:141-152 | two topic names written out in full |
| Subscribing.Subscriber.Run | common/Subscriber.h:44-97 | sets the built-in filters and the topics; hands on and counts as the loop's specification, pinned down by EverythingHandedOn, says, modulo 2^32, for any number of rounds and any changes other threads make to the filters between them |
| Subscribing.Subscriber.Subscribe | common/Subscriber.h:99 | one more count of one filter |
| Subscribing.Subscriber.Unsubscribe | common/Subscriber.h:101 | one less, and nothing if there is none |
| Subscribing.Receiver.Run | common/Receiver.h:42-76 | hands on as the specification pinned down by EverythingPulled says, and counts every iteration modulo 2^32 |
| Subscribing.EverythingHandedOn | common/Subscriber.h:69-90 | every message brought but welcome frames is handed on, once, in order and frame by frame, as a control message exactly if its first frame is ctrl; timeouts and application messages are counted, nothing else |
| Subscribing.EverythingPulled | common/Receiver.h:55-68 | every message brought is handed on, in order, as an ordinary one |
| Subscribing.NoControlAmongIncoming | common/Subscriber.h:78-88 | no welcome frame is handed on; a control frame only as a control message, and nothing else so |
| Subscribing.FilterCount | common/Subscriber.h:99-101 | how often a filter is set after any changes: the best surplus of additions over some stretch up to now |
| Subscribing.DeliveredAfter | common/Subscriber.h:99-101 | after any changes a topic is delivered exactly if one of its prefixes has a surplus of additions |
| Subscribing.DeliveredAtFirst | common/Subscriber.h:47-58 | a stack that just started is delivered exactly what starts with the welcome topic, with ctrl, or with one of its topics |
| Subscribing.Listed | common/ZmqStack.cpp:55-72 | a topic is listed exactly if its last change added it, or it had none and was there at first |
| Subscribing.SubscriptionsAreFilters | common/ZmqStack.cpp:55-67 | every listed subscription is a filter, after any changes |
| Subscribing.LeftoverFilter | common/ZmqStack.cpp:55-67 | exactly when a topic is still a filter without being listed |
| Subscribing.SubscribedTwiceDroppedOnce | common/ZmqStack.cpp:55-67 | a case of it: no longer listed, still delivered |
| Subscribing.InstanceIsolation | common/Subscriber.h:57-58 | the filters of one instance deliver the topic of another exactly if they are the same or the name starts with a built-in filter |
| Subscribing.ControlNamesCollide | common/Subscriber.h:47-50 | a case of it: every instance of a service called ctrl hears every other |
| Subscribing.ZmqStack.constructor | common/ZmqStack.cpp:6-32 | the filters and the listed subscriptions at the start |
| Subscribing.ZmqStack.Subscribe | common/ZmqStack.cpp:55-60 | both the listing and the filters gain the topic |
| Subscribing.ZmqStack.Unsubscribe | common/ZmqStack.cpp:62-67 | the listing loses it, the filters lose one count of it |
| Subscribing.ZmqStack.Health | common/ZmqStack.cpp:103-112 | 0 exactly if the counter differs from the shared value, which it overwrites |
| Subscribing.CounterReadByProbe | common/ZmqStack.cpp:108 | the counter the probe reads is the one the subscriber's loop keeps |
| Subscribing.ProbeRightExactly | common/ZmqStack.cpp:107-110 | a probe tells whether a stack has moved on since its own previous probe exactly if the value left behind is its count then, or is neither that nor its count now |
| Subscribing.ProbeAgain | common/ZmqStack.cpp:103-112 | it does whenever no other stack was probed since, whatever the others do |
| Subscribing.ProbeAlone | common/ZmqStack.cpp:103-112 | with one stack probed, 0 exactly if the iterations counted since the previous probe are not a multiple of 2^32; so exact below 2^32 |
| Subscribing.OnlyControlLooksDead | common/Subscriber.h:78-85 | a subscriber that only got welcome and control frames between two probes is reported as failed |
| Subscribing.ProbeShared | common/ZmqStack.cpp:107-110 | with several stacks, 0 exactly if the counter differs from that of the stack probed last, at that time |
| Subscribing.SharedProbeMisleads | common/ZmqStack.cpp:107-110 | a working stack reported as failed and a standing one as healthy |
| Routing.ConvStack.OnReceivedMessage | conv-stack/ConvStack.cpp:14-32 | a message of one frame is published on every topic zmqStack-0-ingress is converted to, one of several frames, its second frame, on every topic its first frame is; nothing if that is not in the table; so it publishes the block of the message |
| Routing.ConvStack.AddConversion | conv-stack/ConvStack.cpp:38-42 | the table, the filters and the listing change as an addition says |
| Routing.ConvStack.RemoveConversion | conv-stack/ConvStack.cpp:44-48 | the table, the filters and the listing change as a removal says; other topics keep theirs |
| Routing.AlwaysExclusive | conv-stack/ConvStack.cpp:15 | inside the lock is exactly the thread that holds it |
| Routing.NeverStuck | conv-stack/ConvStack.cpp:15 | the holder can always go on, and whoever waits can have a free lock |
| Routing.AtomicRouting | conv-stack/ConvStack.cpp:14-48 | at every moment of every interleaving, what was published and what the holder still owes are unbroken blocks, one per operation in lock order, each under the table left by the operations before it |
| Routing.EveryCallOnce | common/Receiver.h:55-68 | each thread's operations get the lock once each, in the order of its calls |
| Routing.LastChangeWins | conv-stack/ConvStack.cpp:38-48 | the last addition or removal of a topic decides whether and to what it is converted |
| Routing.ExactForwarding | conv-stack/ConvStack.cpp:26-31 | what becomes of a message depends on the last change of its whole topic before its turn, and on nothing else |
| Routing.OneFrame | conv-stack/ConvStack.cpp:18-31 | from a poll that brings one frame to what is published: the frame itself, wherever zmqStack-0-ingress goes, through the receiver, and through the subscriber unless it is a built-in topic |
| Routing.SeveralFrames | conv-stack/ConvStack.cpp:21-31 | with several frames: the second, wherever the first says, the rest not being looked at; through the subscriber nothing if the first is a built-in topic |
| Routing.SubscribedStream | common/Subscriber.h:69-90 | a message is published for the subscriber's stream exactly if some non-control, non-welcome message brought it and its whole topic is in the table in force when that has its turn |
| Routing.PulledStream | common/Receiver.h:55-68 | for the receiver's stream, exactly if some message brought it, whatever its first frame, likewise however the table changes |
| Routing.ReceiverConvertsControl | common/Receiver.h:60-66 | a control frame converted through the receiver and not through the subscriber |
| Routing.FiltersFollow | conv-stack/ConvStack.cpp:38-48 | the filters are what the operations make of them in lock order; only the change of the one that just got the lock is outstanding |
| Routing.KeysAreFilters | conv-stack/ConvStack.cpp:38-48 | from every start, in every state, every topic in the table is a filter, except one whose filter a removal has just taken back and those the start had without their filter and nobody changed since |
| Routing.KeysDelivered | conv-stack/ConvStackMain.cpp:126-138 | a topic in the table is delivered exactly if it is none of those the start had without their filter, or a shorter filter that lets it through is set |
| Routing.ShorterFilterDropped | conv-stack/ConvStack.cpp:44-48 | a case of it: a conversion that stays in the table and is no longer delivered once a shorter topic is removed |
| Cascade.CopyIsConverted | conv-stack/ConvStack.cpp:14-32 | what a copy is turned into is what the converter's loop, table and publisher make of it |
| Cascade.RunsAreExact | conv-stack/ConvStack.cpp:14-32 | receiving one copy takes exactly one off the work, in whatever order copies are received |
| Cascade.AcyclicQuiesces | conv-stack/ConvStack.cpp:14-32 | without a cycle every run is at most the total work long, and is over exactly then |
| Cascade.CycleNeverDies | conv-stack/ConvStack.cpp:14-32 | a message on a cycle never dies out, whatever the order |
| Cascade.CycleUnbounded | conv-stack/ConvStack.cpp:14-32 | and its runs have no bound |
| Cascade.QuiescesIffAcyclic | conv-stack/ConvStack.cpp:14-32 | all messages come to rest exactly if the conversions form no cycle |
| Cascade.ReplicasQuiesce | conv-stack/ConvStack.cpp:14-32 | with k replicas, a message is done with after exactly k times its weight |
| Cascade.WeightEquation | common/Publisher.cpp:36-47 | the weight solves W(t) = 1 + k * (sum of W(u) over the heard topics t is turned into) |
| Cascade.SwapNeverQuiesces | conv-stack/config/conv-stack.yaml:11-16 | with this table one message on topic1 is converted for ever |
| Cascade.BridgeOneHop | Kubernetes/conv-stack.yaml:18-39 | with this table, and any number of replicas, every replica receives a message at most once and nothing it makes of it |
| Sending.Sender.SendMsg | common/Sender.cpp:26-50 | what one message does to the counter, the attachment and the trace, whether sending, detaching and attaching work or fail |
| Sending.Rotation | common/Sender.cpp:40-41 | after n messages the counter is n mod 10, and the n div 10 attempts to reconnect stand exactly after every tenth message, whatever failed |
| Sending.EveryMessageSent | common/Sender.cpp:26-31 | message i stands at place i + i div 10 of the trace: none lost, repeated or reordered |
| Sending.ReconnectsRecorded | common/Sender.cpp:40-48 | how the reconnect after each tenth message ends: it cannot detach if the endpoint was lost before or detaching fails; else attaching fails, or it is done |
| Sending.AttachedExactly | common/Sender.cpp:42-48 | a sender is attached exactly if it was at first and no reconnect so far detached it without attaching it again |
| Sending.DetachedForGood | common/Sender.cpp:42-48 | a case of it: ten messages, attaching fails, ten more, and it is still detached although attaching would have worked |

## Left out

- The values of socket options, the addresses to bind and connect to, and error texts: of a start or connect, which stages are tried, in which order, on which descriptor, and with which result.
- The inside of ZeroMQ and of the proxy: filters, polls and messages are taken as their specifications say, nothing throws but a failed detach or attach, a multipart message has at least one frame, and one for a `NetStack` or a control message at least two. Detaching a socket from an endpoint it is not attached to fails.
- Calls of `deleteClient` from elsewhere than `common/TcpServer.h:483`, of which there are none; one `start` per server and one connect per client, since the stop flag is never cleared; descriptors below `FD_SETSIZE`.
- The lifetime of the client pointer in `sendClientMessage` after the lock is released (`common/TcpServer.h:243-265`), and with it the direct send that falls between another thread's steps under the mutex. Nothing in the repository calls it.
- TcpServing.TcpServer.SendClientMessage: looking the client up and sending to it are one step.
- TcpBroadcast.BroadcastOutcome: for that reason no direct send falls inside a broadcast.
- TcpBroadcast.SharesAlways: likewise.
- Data races on the select set and on the fields outside the mutex: steps are atomic. Threads started inside constructors: runs begin with the constructed object.
- Loops that run until a flag is set are followed for any number of rounds, and end when it is; that they go on for ever otherwise is not expressed.
- TcpServing.TcpServer.Scan: in the class, no other thread acts during the call; the step system has the other threads, and the foreign descriptors that come and go during a pass.
- TcpServing.TcpServer.Pass: likewise, except that finish may raise the stop flag right after the check at the top; raised anywhere later in the pass it is the step system's.
- TcpServing.TcpServer.ServerTask: likewise.
- TcpServing.TcpServer.Finish: likewise, the server thread is joined from the top of its loop or from right after its check of the flag.
- TcpServing.NetStack.Destroy: likewise.
- TcpClienting.TcpClient.Round: likewise, no other thread acts between select and the callback.
- TcpClienting.TcpClient.ReceiveTask: likewise, finish may raise the flag right after the check at the top; raised anywhere later in the round it is the client's step system's.
- TcpClienting.TcpClient.Finish: likewise.
- Subscribing.Subscriber.Run: other threads change the filters between two rounds, not within one; the shutdown flag, which only the top of the loop reads, is seen after any number of rounds. Which messages a filter lets through is stated apart from the loop, whose polls are arbitrary.
- Topics.InstanceRoundTrip: an unset HOSTNAME, for which the behaviour of the original is undefined.
- Cascade.QuiescesIffAcyclic: the tables stay as they are while messages are under way.
- Contents of control commands, which are only logged; the proxy, metrics, YAML, command lines, the HTTP health endpoint, logging and deployment files, except the two conversion tables.
