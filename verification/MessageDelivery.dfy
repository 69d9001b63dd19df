/** Messages over the transport: framing on top of one connection epoch. */
module MessageDelivery {
  import opened Bytes
  import opened Sending
  import opened Delivery
  import opened Framing
  import EndToEnd
  import Messages
  import AckRanges

  /** Over any run of the transport, if what the application queued on a stream so far is the frames of a list of
      messages, then however the delivered bytes are chunked, the parser at the peer completes a prefix of that list. */
  lemma MessagesArriveInOrder(states: seq<System>, events: seq<Delivery.Event>, k: nat, id: StreamId,
                              messages: seq<seq<byte>>, chunks: seq<seq<byte>>)
    requires IsRun(states, events) && k < |states|
    requires id in states[k].history && states[k].history[id] == Frames(messages)
    requires forall i :: 0 <= i < |messages| ==> |messages[i]| <= MAX_LENGTH
    requires Concat(chunks) == Got(states[k].delivered, id)
    ensures TakeAll(Ready, chunks).ok && TakeAll(Ready, chunks).messages <= messages
  {
    EndToEnd.DeliveredIsPrefix(states, events, k, id);
    PrefixDelivers(messages, chunks);
  }

  /** Once the sender is idle, the whole list has come out, except a final empty message, which the parser completes
      only with the next byte. */
  lemma IdleMeansMessagesArrived(states: seq<System>, events: seq<Delivery.Event>, k: nat, id: StreamId,
                                 messages: seq<seq<byte>>, chunks: seq<seq<byte>>)
    requires IsRun(states, events) && k < |states|
    requires states[k].sender.established && IsIdle(states[k].sender)
    requires id in states[k].history && states[k].history[id] == Frames(messages)
    requires forall i :: 0 <= i < |messages| ==> |messages[i]| <= MAX_LENGTH
    requires Concat(chunks) == Got(states[k].delivered, id)
    ensures TakeAll(Ready, chunks).messages ==
      if messages != [] && messages[|messages| - 1] == [] then messages[..|messages| - 1] else messages
  {
    EndToEnd.IdleMeansDelivered(states, events, k, id);
    ChunkingIrrelevant(Ready, chunks);
    FramesRoundTrip(messages);
  }

  lemma {:induction false} RunAtMostSum(s: seq<nat>, i: nat)
    requires i < |s|
    ensures s[i] <= AckRanges.Sum(s)
  {
    if i > 0 { RunAtMostSum(s[1..], i - 1); }
  }

  /** The ACK a receiver puts on the wire is the ACK the sender's handler reads. */
  lemma AckCrossesWire(list: AckRanges.AckList, src: nat, dst: nat)
    requires AckRanges.WellFormed(list) && list.largest + 1 < Range(8) && src < Range(4) && dst < Range(4)
    ensures Messages.DecodeAck(Messages.EncodeAck(src, dst, list.largest, list.ranges))
         == Some(Messages.Ack(dst, src, MakeAck(list).largest, MakeAck(list).ranges))
  {
    forall i | 0 <= i < |list.ranges| ensures Messages.Fits(list.ranges[i], 8) {
      RunAtMostSum(list.ranges, i);
    }
    Messages.AckRoundTrip(src, dst, list.largest, list.ranges);
  }
}
