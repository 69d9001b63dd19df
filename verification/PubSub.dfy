/** The PubSubNode object: its deduplication ring, and the paths a message takes through it. */
module PubSub {
  import opened Bytes
  import opened Witness
  import opened Relay
  import opened Trace
  import Dedup

  class PubSubNode {
    const key: Key
    var events: seq<seq<nat>>
    var idx: nat
    var ids: set<nat>
    /** Messages passing through, by connection and stream id. */
    var through: map<(nat, nat), Through>

    function View(): Dedup.Ring
      reads this
    {
      Dedup.Ring(events, idx, ids)
    }

    ghost predicate Valid()
      reads this
    {
      |events| == Dedup.BUCKETS && idx < Dedup.BUCKETS
    }

    constructor (key: Key)
      ensures Valid() && this.key == key && View() == Dedup.FreshRing() && through == map[]
    {
      this.key := key;
      events, idx, ids := Dedup.NoEvents(Dedup.BUCKETS), 0, {};
      through := map[];
    }

    /** The deduplication timer: moves to the next bucket and forgets what is in it. */
    method MessageIdTimerCb()
      requires Valid()
      modifies this`idx, this`events, this`ids
      ensures Valid() && View() == Dedup.Tick(old(View()))
    {
      // The index wraps like an octet.
      idx := (idx + 1) % Dedup.BUCKETS;
      var bucket := events[idx];
      ghost var ids0 := ids;
      for i := 0 to |bucket|
        invariant events == old(events) && idx == (old(idx) + 1) % Dedup.BUCKETS
        invariant ids == ids0 - Dedup.Elements(bucket[..i])
      {
        assert bucket[..i + 1] == bucket[..i] + [bucket[i]];
        ids := ids - {bucket[i]};
      }
      assert bucket[..|bucket|] == bucket;
      events := events[idx := []];
    }

    method Record(id: nat)
      requires Valid() && id !in ids
      modifies this`events, this`ids
      ensures Valid() && View() == Dedup.Record(old(View()), id)
    {
      ids := ids + {id};
      events := events[idx := events[idx] + [id]];
    }

    /** `send_message_on_channel`: whether the message goes out. */
    method SendMessageOnChannel(id: nat) returns (sends: bool)
      requires Valid()
      modifies this`events, this`ids
      ensures Valid() && sends == (id !in old(ids)) && View() == Dedup.Record(old(View()), id)
    {
      if id in ids { return false; } // seen within the window
      Record(id);
      return true;
    }

    /** Builds a MESSAGE in a buffer of its own. */
    method CreateMessage(channel: nat, id: nat, data: seq<byte>, prev: Header) returns (m: array<byte>)
      requires HeaderOk(prev)
      ensures fresh(m) && m[..] == Create(key, id, channel, prev, data)
    {
      hide EncodeBe, EncodeLe, Witnessed;
      var attestation := Attested(prev);
      var size := HEADER + |attestation| + WITNESS + |data|;
      m := new byte[size](_ => 0);
      m[0] := MESSAGE;
      WriteBytes(m, 1, EncodeBe(id, 8));
      assert m[..9] == [MESSAGE] + EncodeBe(id, 8);
      WriteBytes(m, 9, EncodeBe(channel, 2));
      assert m[..11] == [MESSAGE] + EncodeBe(id, 8) + EncodeBe(channel, 2);

      var offset := HEADER;
      WriteBytes(m, offset, attestation);
      offset := offset + |attestation|;
      assert m[..offset] == [MESSAGE] + EncodeBe(id, 8) + EncodeBe(channel, 2) + attestation;
      ghost var head := m[..offset];
      var w := new BloomWitnesser(key);
      w.WriteWitness(m, offset, prev.trail);
      assert m[..offset + WITNESS] == head + Witnessed(key, prev.trail);
      ghost var head2 := m[..offset + WITNESS];
      offset := offset + WITNESS;
      WriteBytes(m, offset, data);
      assert m[..] == head2 + data;
    }

    /** `did_recv_MESSAGE` on a whole message with its type octet: 0 or -1, and the message if it is accepted.
        An id counts as seen only once the header has parsed. */
    method DidRecvMessage(m: seq<byte>) returns (code: int, accepted: Option<Parsed>)
      requires Valid() && |m| > 0 && m[0] == MESSAGE
      modifies this`events, this`ids
      ensures Valid()
      ensures var seen := |m| >= HEADER && DecodeBe(m[1..9]) in old(ids);
        && accepted == (if seen then None else Parse(m))
        && code == (if seen || Parse(m).Some? then 0 else -1)
        && View() == (if accepted.Some? then Dedup.Record(old(View()), accepted.value.id) else old(View()))
    {
      if |m| < HEADER { return -1, None; }
      var id := DecodeBe(m[1..9]);
      if id in ids { return 0, None; } // seen within the window

      accepted := Parse(m);
      if accepted == None { return -1, None; }
      Record(id);
      code := 0;
    }

    /** One call of the cut-through parser of connection `conn`: the result code, and the calls made on the
        connection of every target. */
    method OnParserCall(conn: nat, stream: nat, e: Event, peers: seq<Peer>)
      returns (code: int, calls: seq<Event>, targets: seq<nat>)
      requires Valid() && (e.Start? || (conn, stream) in through)
      modifies this`through, this`events, this`ids
      ensures Valid()
      ensures var t := if (conn, stream) in old(through) then old(through)[(conn, stream)] else Waiting(0);
        var s := OnEvent(t, old(ids), key, peers, e);
        && through == old(through)[(conn, stream) := s.t] && ids == s.seen
        && code == s.code && calls == s.calls && targets == s.t.targets
    {
      match e
      case Start(length) =>
        CutThroughRecvStart(conn, stream, length);
        return 0, [], [];
      case Chunk(bytes) =>
        code, calls, targets := CutThroughRecvBytes(conn, stream, bytes, peers);
      case End =>
        calls, targets := CutThroughRecvEnd(conn, stream);
        assert through == through[(conn, stream) := through[(conn, stream)]];
        code := 0;
    }

    method CutThroughRecvStart(conn: nat, stream: nat, length: nat)
      modifies this`through
      ensures through == old(through)[(conn, stream) := Waiting(length)]
    {
      through := through[(conn, stream) := Waiting(length)];
    }

    /** Passes a chunk on: the result code, and the calls made on the connection of every target. */
    method CutThroughRecvBytes(conn: nat, stream: nat, bytes: seq<byte>, peers: seq<Peer>)
      returns (code: int, calls: seq<Event>, targets: seq<nat>)
      requires Valid() && (conn, stream) in through
      modifies this`through, this`events, this`ids
      ensures Valid()
      ensures var s := OnBytes(old(through)[(conn, stream)], old(ids), key, peers, bytes);
        && through == old(through)[(conn, stream) := s.t] && ids == s.seen
        && code == s.code && calls == s.calls && targets == s.t.targets
      ensures ids != old(ids) ==> |bytes| >= HEADER && View() == Dedup.Record(old(View()), DecodeBe(bytes[1..9]))
      ensures ids == old(ids) ==> View() == old(View())
    {
      var t := through[(conn, stream)];
      calls, targets := [], t.targets;
      if !t.headerReceived {
        // A first chunk that cannot hold the fixed part of the header is refused.
        if |bytes| < HEADER { through := through[(conn, stream) := t]; return -1, [], targets; }
        var id := DecodeBe(bytes[1..9]);
        t := Through(true, t.length, []);
        targets := [];
        through := through[(conn, stream) := t];

        if id in ids { return 0, [], targets; }
        Record(id);

        var header := ParseHeader(bytes, HEADER);
        match header
        case None => return -1, [], targets;
        case Some(h) =>
          ParseHeaderFits(bytes, HEADER);
          targets := FindTargets(peers, h.trail[2..]);
          through := through[(conn, stream) := Through(true, t.length, targets)];
          return 0, [Start(t.length), Chunk(Rewitness(key, bytes, h))], targets;
      } else {
        through := through[(conn, stream) := t];
        return 0, [Chunk(bytes)], targets;
      }
    }

    method CutThroughRecvEnd(conn: nat, stream: nat) returns (calls: seq<Event>, targets: seq<nat>)
      requires (conn, stream) in through
      ensures calls == [End] && targets == through[(conn, stream)].targets
    {
      return [End], through[(conn, stream)].targets;
    }

    /** The peers to pass a message on to: not its sender, not in its filter, and with a free stream. */
    method FindTargets(peers: seq<Peer>, bloom: seq<byte>) returns (targets: seq<nat>)
      requires IsBloom(bloom)
      ensures targets == Targets(peers, bloom)
    {
      targets := [];
      var w := new BloomWitnesser(key);
      for i := 0 to |peers|
        invariant targets == TargetsUpTo(peers, bloom, i)
      {
        var found := w.Contains(bloom, peers[i].key);
        if !peers[i].isSender && !found && peers[i].hasStream {
          targets := targets + [i];
        }
      }
    }
  }
}
