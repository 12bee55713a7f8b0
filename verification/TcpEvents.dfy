/** What the TCP engine does to the operating system and tells its owner, recorded as a history,
    together with the vocabulary in which the properties of that history are stated. */
module TcpEvents {
  import opened Options

  const INVALID_SOCKET := -1
  const MAX_PACKET_SIZE := 65536

  newtype Byte = b: int | 0 <= b < 256
  type Bytes = seq<Byte>

  datatype Address = Address(ip: string, port: nat)

  /** A socket call together with its outcome. */
  datatype Call =
    | Opened(fd: int)
    | Selected(ready: set<int>)
    | Accepted(listener: int, fd: int, from: Option<Address>)
    | Received(fd: int, n: int, data: Bytes)
    | Sent(fd: int, n: int, msg: Bytes)
    | Closed(fd: int)

  /** What the server tells its owner. */
  datatype Callback =
    | Connect(handle: int)
    | Data(handle: int, data: Bytes)
    | Disconnect(handle: int)

  /** Descriptor numbers are reused, so every descriptor the operating system hands out also gets a
      generation, a number used once. For a call, target is the generation behind the descriptor at the
      time of the call, intended the generation the server meant to address, and born the generation of
      the descriptor the call created; each is -1 where there is none. For a callback, gen is the
      generation of the connection the handle stands for. */
  datatype Event =
    | Sys(call: Call, target: int, intended: int, born: int)
    | Cb(cb: Callback, gen: int)

  /** A history, most recent event last. */
  datatype History = Nil | Then(past: History, last: Event)

  function Closes(h: History, g: int): nat {
    match h
    case Nil => 0
    case Then(past, e) =>
      Closes(past, g) + if e.Sys? && e.call.Closed? && e.target == g then 1 else 0
  }

  /** The generations obtained by opening the listener and by accepting. */
  function Born(h: History): set<int> {
    match h
    case Nil => {}
    case Then(past, e) => if e.Sys? && e.born >= 0 then Born(past) + {e.born} else Born(past)
  }

  /** The bytes Recv took off connection g. */
  function InBytes(h: History, g: int): Bytes {
    match h
    case Nil => []
    case Then(past, e) =>
      InBytes(past, g) + if e.Sys? && e.call.Received? && e.target == g then e.call.data else []
  }

  /** The part of a message that Send took: the first n bytes, or nothing if it failed. */
  function Taken(n: int, msg: Bytes): Bytes { if 0 <= n <= |msg| then msg[..n] else [] }

  /** The bytes Send put on connection g. */
  function OutBytes(h: History, g: int): Bytes {
    match h
    case Nil => []
    case Then(past, e) =>
      OutBytes(past, g) + if e.Sys? && e.call.Sent? && e.target == g then Taken(e.call.n, e.call.msg) else []
  }

  /** The bytes handed to the owner for connection g. */
  function DataBytes(h: History, g: int): Bytes {
    match h
    case Nil => []
    case Then(past, e) =>
      DataBytes(past, g) + if e.Cb? && e.cb.Data? && e.gen == g then e.cb.data else []
  }

  /** The generations accepted since the last Select. */
  function Young(h: History): set<int> {
    match h
    case Nil => {}
    case Then(past, e) =>
      if e.Sys? && e.call.Selected? then {}
      else if e.Sys? && e.call.Accepted? then Young(past) + {e.born}
      else Young(past)
  }

  /** No connection is read in the scan pass that accepted it. */
  predicate NoYoungRecv(h: History) {
    match h
    case Nil => true
    case Then(past, e) =>
      && NoYoungRecv(past)
      && (e.Sys? && e.call.Received? ==> e.target !in Young(past))
  }

  /** Every accept, receive, send and close reaches an open descriptor, and the very connection it was meant for. */
  predicate OnTarget(h: History) {
    match h
    case Nil => true
    case Then(past, e) =>
      && OnTarget(past)
      && (e.Sys? && (e.call.Accepted? || e.call.Received? || e.call.Sent? || e.call.Closed?)
          ==> 0 <= e.target == e.intended)
  }

  /** Every chunk handed to the owner holds between one byte and one packet. */
  predicate ChunksBounded(h: History) {
    match h
    case Nil => true
    case Then(past, e) =>
      ChunksBounded(past) && (e.Cb? && e.cb.Data? ==> 1 <= |e.cb.data| <= 65536)
  }

  function Selects(h: History): nat {
    match h
    case Nil => 0
    case Then(past, e) => Selects(past) + if e.Sys? && e.call.Selected? then 1 else 0
  }

  function Calls(h: History): seq<Call> {
    match h
    case Nil => []
    case Then(past, e) => if e.Sys? then Calls(past) + [e.call] else Calls(past)
  }

  function Callbacks(h: History): seq<Callback> {
    match h
    case Nil => []
    case Then(past, e) => if e.Cb? then Callbacks(past) + [e.cb] else Callbacks(past)
  }

  /** The callbacks of one handle. */
  function Of(w: seq<Callback>, handle: int): seq<Callback> {
    if w == [] then []
    else
      var rest := Of(w[..|w| - 1], handle);
      if w[|w| - 1].handle == handle then rest + [w[|w| - 1]] else rest
  }

  /** A prefix of (Connect Data* Disconnect)*, said of neighbours: a session starts at the beginning or
      after a Disconnect, and everything else follows a Connect or a Data. */
  predicate Sessions(w: seq<Callback>) {
    forall i :: 0 <= i < |w| ==> (w[i].Connect? <==> !Open(w[..i]))
  }

  /** The last session of w has not ended. */
  predicate Open(w: seq<Callback>) {
    w != [] && !w[|w| - 1].Disconnect?
  }
}
