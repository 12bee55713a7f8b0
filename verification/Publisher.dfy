/** Publishing one payload to several topics, in order. The payload is text on the topic side and bytes on
    the TCP side. */
module Publishing {
  datatype Message<P> = Message(topic: string, payload: P)

  /** One message per topic, in list order. */
  function Fanout<P>(topics: seq<string>, payload: P): (r: seq<Message<P>>)
    ensures |r| == |topics|
    ensures forall i :: 0 <= i < |topics| ==> r[i] == Message(topics[i], payload)
  {
    if topics == [] then [] else Fanout(topics[..|topics| - 1], payload) + [Message(topics[|topics| - 1], payload)]
  }

  /** sent is what was handed to the publisher's socket, count the metric of published messages. */
  class Publisher<P> {
    var sent: seq<Message<P>>
    var count: nat

    constructor ()
      ensures sent == [] && count == 0
    {
      sent := [];
      count := 0;
    }

    method PublishMsg(topic: string, payload: P)
      modifies this
      ensures sent == old(sent) + [Message(topic, payload)]
      ensures count == old(count) + 1
    {
      sent := sent + [Message(topic, payload)];
      count := count + 1;
    }

    method PublishAll(topics: seq<string>, payload: P)
      modifies this
      ensures sent == old(sent) + Fanout(topics, payload)
      ensures count == old(count) + |topics|
    {
      for i := 0 to |topics|
        invariant sent == old(sent) + Fanout(topics[..i], payload)
        invariant count == old(count) + i
      {
        assert topics[..i + 1][..i] == topics[..i];
        PublishMsg(topics[i], payload);
      }
      assert topics[..|topics|] == topics;
    }
  }
}
