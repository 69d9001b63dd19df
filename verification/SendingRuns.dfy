/** The whole handlers of the sender keep the partition, and what they transmit is what was queued. */
module SendingRuns {
  import opened Bytes
  import opened Sending
  import opened Tiling
  import opened TilingSteps
  import opened AckSteps

  // ---- Datagrams on the wire ----------------------------------------------------------------------------

  function Cut(m: DataMsg): Fragment { Fragment(m.stream, m.offset, |m.payload|) }

  /** The fragment each packet number carried, when `wire` is every DATA datagram sent so far. */
  function Cuts(wire: seq<DataMsg>): (tx: seq<Fragment>)
    ensures |tx| == |wire| && forall i :: 0 <= i < |wire| ==> tx[i] == Cut(wire[i])
  {
    seq(|wire|, i requires 0 <= i < |wire| => Cut(wire[i]))
  }

  /** Datagram number `n` carries bytes of what was queued on its stream. */
  ghost predicate Carries(m: DataMsg, n: nat, h: History) {
    && m.number == n && m.stream in h
    && m.offset + |m.payload| <= |h[m.stream]|
    && m.payload == h[m.stream][m.offset..m.offset + |m.payload|]
  }

  ghost predicate WireOk(wire: seq<DataMsg>, h: History) {
    forall i :: 0 <= i < |wire| ==> Carries(wire[i], i, h)
  }

  lemma CutsAppend(wire: seq<DataMsg>, m: DataMsg)
    ensures Cuts(wire + [m]) == Cuts(wire) + [Cut(m)]
  {
  }

  lemma WireAppend(wire: seq<DataMsg>, m: DataMsg, h: History)
    requires WireOk(wire, h) && Carries(m, |wire|, h)
    ensures WireOk(wire + [m], h)
  {
  }

  lemma SliceOfItem(item: DataItem, h: seq<byte>, offset: nat, length: nat)
    requires ItemOk(item, h) && offset + length <= |item.data|
    ensures var start := item.streamOffset + offset;
      start + length <= |h| && Slice(item.data, offset, length) == h[start..start + length]
  {
    var end := item.streamOffset + |item.data|;
    var start := item.streamOffset + offset;
    assert item.data == h[item.streamOffset..end];
    var part, taken := h[start..start + length], Slice(item.data, offset, length);
    forall k | 0 <= k < length ensures part[k] == taken[k] {
      assert item.data[offset + k] == h[item.streamOffset + (offset + k)];
    }
    assert part == taken;
  }

  lemma ItemAt(st: SendStream, h: seq<byte>, n: nat)
    requires StreamOk(st, h) && st.popped <= n < st.End()
    ensures ItemOk(st.Item(n), h)
  {
    assert st.Item(n) == st.items[n - st.popped];
  }

  lemma RecordBytes(s: Sender, h: History, p: SentPacket)
    requires StreamsOk(s.streams, h) && p.stream in s.streams
    requires s.streams[p.stream].popped <= p.item < s.streams[p.stream].End()
    requires p.offset + p.length <= |s.streams[p.stream].Item(p.item).data|
    ensures var m := Datagram(s, p);
      m.offset == s.streams[p.stream].Item(p.item).streamOffset + p.offset && |m.payload| == p.length && Carries(m, s.nextPacket, h)
  {
    var st := s.streams[p.stream];
    assert StreamOk(st, h[p.stream]);
    hide StreamOk, ItemOk;
    ItemAt(st, h[p.stream], p.item);
    SliceOfItem(st.Item(p.item), h[p.stream], p.offset, p.length);
  }

  lemma SentInItem(st: SendStream, h: seq<byte>, n: nat)
    requires StreamOk(st, h) && st.popped <= n < st.End()
    ensures st.Item(n).sentOffset <= |st.Item(n).data|
  {
    hide QueueOk, AckedOk;
    assert st.Item(n) == st.items[n - st.popped];
  }

  lemma RecordPlace(streams: map<StreamId, SendStream>, p: SentPacket, f: Fragment)
    requires RecordOk(streams, p, f)
    ensures p.stream == f.stream && p.stream in streams && p.length == f.length
    ensures var st := streams[p.stream];
      && st.popped <= p.item < st.End() && st.Item(p.item).streamOffset + p.offset == f.start
      && p.offset + p.length <= st.Item(p.item).sentOffset
  {
    var st := streams[p.stream];
    assert st.Item(p.item) == st.items[p.item - st.popped];
  }

  lemma RetransmittedBytes(s: Sender, h: History, tx: seq<Fragment>, pn: nat)
    requires StreamsOk(s.streams, h) && RecordsOk(s.streams, s.lost, tx) && pn in s.lost
    ensures pn < |tx| && var m := Datagram(s, s.lost[pn]); Cut(m) == tx[pn] && Carries(m, s.nextPacket, h)
  {
    var p := s.lost[pn];
    assert RecordOk(s.streams, p, tx[pn]);
    RecordPlace(s.streams, p, tx[pn]);
    assert StreamOk(s.streams[p.stream], h[p.stream]);
    hide StreamOk, Carries, RecordOk, RecordsOk, StreamsOk;
    SentInItem(s.streams[p.stream], h[p.stream], p.item);
    RecordBytes(s, h, p);
  }

  lemma FragmentBytes(s: Sender, h: History, id: StreamId, now: nat)
    requires StreamsOk(s.streams, h) && id in s.streams && s.streams[id].next < s.streams[id].End()
    ensures var m := Datagram(s, NextFragment(s, id, now)); Cut(m) == NextCut(s, id) && Carries(m, s.nextPacket, h)
  {
    assert StreamOk(s.streams[id], h[id]);
    hide Carries;
    NextStart(s.streams[id], h[id]);
    RecordBytes(s, h, NextFragment(s, id, now));
  }

  lemma NextStart(st: SendStream, h: seq<byte>)
    requires StreamOk(st, h) && st.next < st.End()
    ensures var item := st.Item(st.next);
      st.popped <= st.next && item.sentOffset < |item.data| && st.sentOffset == item.streamOffset + item.sentOffset
  {
    assert st.Item(st.next) == st.items[st.next - st.popped];
  }

  // ---- What transmission and loss leave alone -----------------------------------------------------------

  /** The acknowledged part of every stream is the same. */
  ghost predicate SameAcks(streams: map<StreamId, SendStream>, streams': map<StreamId, SendStream>) {
    && streams'.Keys == streams.Keys
    && forall id :: id in streams ==>
         && streams'[id].ackedOffset == streams[id].ackedOffset
         && streams'[id].outstanding == streams[id].outstanding
         && streams'[id].Reported() == streams[id].Reported()
  }

  lemma RetransmitAcks(s: Sender, pn: nat, now: nat)
    requires pn in s.lost && s.lost[pn].stream in s.streams
    ensures SameAcks(s.streams, Retransmit(s, pn, now).streams)
  {
  }

  lemma FragmentAcks(s: Sender, id: StreamId, now: nat)
    requires id in s.streams && s.streams[id].popped <= s.streams[id].next < s.streams[id].End()
    ensures SameAcks(s.streams, SendFragment(s, id, now).streams)
  {
  }

  lemma MarkLostAcks(s: Sender, pn: nat)
    requires pn in s.sent && s.sent[pn].stream in s.streams
    ensures SameAcks(s.streams, MarkLost(s, pn).streams)
  {
  }

  // ---- Transmission -------------------------------------------------------------------------------------

  /** The outcome of a transmission pass: the partition, extended by exactly the datagrams it sent. */
  ghost predicate Passed(s: Sender, r: Pass, h: History, wire: seq<DataMsg>) {
    && Inv(r.s, h, Cuts(wire + r.out))
    && WireOk(wire + r.out, h)
    && SameAcks(s.streams, r.s.streams)
  }

  lemma NothingSent(s: Sender, s': Sender, code: int, h: History, wire: seq<DataMsg>)
    requires Inv(s, h, Cuts(wire)) && WireOk(wire, h)
    requires s'.streams == s.streams && s'.sent == s.sent && s'.lost == s.lost && s'.nextPacket == s.nextPacket
    ensures Passed(s, Pass(s', code, []), h, wire)
  {
    hide Inv, WireOk;
    SameCore(s, s', h, Cuts(wire));
    assert wire + [] == wire;
  }

  lemma PassedMore(s: Sender, s1: Sender, m: DataMsg, r: Pass, h: History, wire: seq<DataMsg>)
    requires SameAcks(s.streams, s1.streams) && Passed(s1, r, h, wire + [m])
    ensures Passed(s, Pass(r.s, r.code, [m] + r.out), h, wire)
  {
    hide Inv, WireOk;
    assert wire + [m] + r.out == wire + ([m] + r.out);
  }

  lemma LostStep(s: Sender, pn: nat, now: nat, h: History, wire: seq<DataMsg>)
    requires Inv(s, h, Cuts(wire)) && WireOk(wire, h) && pn in s.lost
    ensures var m := Datagram(s, s.lost[pn]); var s1 := Retransmit(s, pn, now);
      && Inv(s1, h, Cuts(wire + [m])) && WireOk(wire + [m], h) && SameAcks(s.streams, s1.streams)
  {
    hide StreamOk, RecordOk, FixedCuts, LiveDistinct, HoldersOk, HistoryOk, RecordsOk, StreamsOk, WireOk, Carries, Retransmit, Datagram,
         SameAcks;
    var m := Datagram(s, s.lost[pn]);
    RecordAt(s.streams, s.lost, Cuts(wire), pn);
    RetransmittedBytes(s, h, Cuts(wire), pn);
    RetransmitKeeps(s, h, Cuts(wire), pn, now);
    CutsAppend(wire, m);
    WireAppend(wire, m, h);
    RetransmitAcks(s, pn, now);
  }

  lemma {:induction false} SendLostKeeps(s: Sender, pn: nat, end: nat, initial: int, now: nat, h: History, wire: seq<DataMsg>)
    requires Inv(s, h, Cuts(wire)) && WireOk(wire, h)
    ensures Passed(s, SendLost(s, pn, end, initial, now), h, wire)
    decreases end - pn
  {
    hide Inv, WireOk, Passed, Retransmit, Datagram, SameAcks;
    if pn >= end {
      NothingSent(s, s, 0, h, wire);
    } else if pn !in s.lost {
      SendLostKeeps(s, pn + 1, end, initial, now, h, wire);
    } else if s.bytesInFlight - initial >= PACING_LIMIT {
      NothingSent(s, s.(pacingArmed := true), -1, h, wire);
    } else if s.bytesInFlight > s.cc.window - s.lost[pn].length {
      NothingSent(s, s, -2, h, wire);
    } else {
      LostStep(s, pn, now, h, wire);
      var m, s1 := Datagram(s, s.lost[pn]), Retransmit(s, pn, now);
      SendLostKeeps(s1, pn + 1, end, initial, now, h, wire + [m]);
      PassedMore(s, s1, m, SendLost(s1, pn + 1, end, initial, now), h, wire);
    }
  }

  lemma NewStep(s: Sender, id: StreamId, now: nat, h: History, wire: seq<DataMsg>)
    requires Inv(s, h, Cuts(wire)) && WireOk(wire, h) && id in s.streams && s.streams[id].next < s.streams[id].End()
    ensures s.streams[id].popped <= s.streams[id].next
    ensures var m := Datagram(s, NextFragment(s, id, now)); var s1 := SendFragment(s, id, now);
      && Inv(s1, h, Cuts(wire + [m])) && WireOk(wire + [m], h) && SameAcks(s.streams, s1.streams)
      && id in s1.streams
  {
    hide StreamOk, RecordOk, FixedCuts, LiveDistinct, HoldersOk, HistoryOk, RecordsOk, StreamsOk, WireOk, Carries, SendFragment, Datagram,
         NextFragment;
    var m := Datagram(s, NextFragment(s, id, now));
    FragmentBytes(s, h, id, now);
    FragmentKeeps(s, h, Cuts(wire), id, now);
    CutsAppend(wire, m);
    WireAppend(wire, m, h);
    FragmentAcks(s, id, now);
  }

  /** The iterator never rests on an exhausted item. */
  lemma NextUnsent(s: Sender, h: History, tx: seq<Fragment>, id: StreamId)
    requires Inv(s, h, tx) && id in s.streams && s.streams[id].next < s.streams[id].End()
    ensures var st := s.streams[id]; st.popped <= st.next && st.Item(st.next).sentOffset < |st.Item(st.next).data|
  {
    assert StreamOk(s.streams[id], h[id]);
  }

  lemma {:induction false} SendNewKeeps(s: Sender, id: StreamId, initial: int, now: nat, h: History, wire: seq<DataMsg>)
    requires Inv(s, h, Cuts(wire)) && WireOk(wire, h) && id in s.streams
    ensures Passed(s, SendNew(s, id, initial, now), h, wire)
    decreases s.Stream(id).End() - s.Stream(id).next,
              |s.Stream(id).Item(s.Stream(id).next).data| - s.Stream(id).Item(s.Stream(id).next).sentOffset
  {
    hide Inv, WireOk, Passed, Datagram, SameAcks;
    var st := s.Stream(id);
    if st.next >= st.End() {
      NothingSent(s, s, 0, h, wire);
    } else {
      NextUnsent(s, h, Cuts(wire), id);
      var p := NextFragment(s, id, now);
      if s.bytesInFlight > s.cc.window - p.length {
        NothingSent(s, s, -2, h, wire);
      } else if s.bytesInFlight - initial > PACING_LIMIT {
        NothingSent(s, s, -1, h, wire);
      } else {
        NewStep(s, id, now, h, wire);
        var m, s1 := Datagram(s, p), SendFragment(s, id, now);
        SendNewKeeps(s1, id, initial, now, h, wire + [m]);
        PassedMore(s, s1, m, SendNew(s1, id, initial, now), h, wire);
      }
    }
  }

  /** Every queued stream exists. */
  ghost predicate QueueKnown(s: Sender) {
    forall i :: 0 <= i < |s.queue| ==> s.queue[i] in s.streams
  }

  lemma PassedThen(s: Sender, r: Pass, s1: Sender, q: Pass, h: History, wire: seq<DataMsg>)
    requires Passed(s, r, h, wire) && s1.streams == r.s.streams && Passed(s1, q, h, wire + r.out)
    ensures Passed(s, Pass(q.s, q.code, r.out + q.out), h, wire)
  {
    hide Inv, WireOk;
    assert wire + r.out + q.out == wire + (r.out + q.out);
  }

  lemma PassedSame(s: Sender, r: Pass, s1: Sender, code: int, h: History, wire: seq<DataMsg>)
    requires Passed(s, r, h, wire)
    requires s1.streams == r.s.streams && s1.sent == r.s.sent && s1.lost == r.s.lost && s1.nextPacket == r.s.nextPacket
    ensures Passed(s, Pass(s1, code, r.out), h, wire) && Inv(s1, h, Cuts(wire + r.out)) && WireOk(wire + r.out, h)
  {
    hide Inv, WireOk;
    SameCore(r.s, s1, h, Cuts(wire + r.out));
  }

  lemma {:induction false} SendQueuedKeeps(s: Sender, initial: int, now: nat, h: History, wire: seq<DataMsg>)
    requires Inv(s, h, Cuts(wire)) && WireOk(wire, h) && QueueKnown(s)
    ensures Passed(s, SendQueued(s, initial, now), h, wire)
    decreases |s.queue|
  {
    if s.queue == [] {
      NothingSent(s, s, 0, h, wire);
    } else {
      var id := s.queue[0];
      var r := SendNew(s, id, initial, now);
      assert id in s.streams && (forall i :: 0 <= i < |s.queue[1..]| ==> s.queue[1..][i] in s.streams);
      hide Inv, WireOk;
      SendNewKeeps(s, id, initial, now, h, wire);
      assert r.s.streams.Keys == s.streams.Keys;
      hide Passed;
      if r.code == 0 {
        var s1 := r.s.(queue := s.queue[1..], queueIds := s.queueIds - {id});
        PassedSame(s, r, s1, 0, h, wire);
        SendQueuedKeeps(s1, initial, now, h, wire + r.out);
        PassedThen(s, r, s1, SendQueued(s1, initial, now), h, wire);
      } else if r.code == -1 {
        PassedSame(s, r, r.s.(pacingArmed := true), -1, h, wire);
      }
    }
  }

  /** A pacing tick keeps the partition, and every datagram it sends carries queued bytes under a new number. */
  lemma PacingKeeps(s: Sender, now: nat, h: History, wire: seq<DataMsg>)
    requires Inv(s, h, Cuts(wire)) && WireOk(wire, h) && QueueKnown(s)
    ensures Passed(s, PacingTick(s, now), h, wire)
  {
    var s0 := s.(pacingArmed := false);
    var r := SendLost(s0, 0, s0.nextPacket, s0.bytesInFlight, now);
    hide Inv, WireOk;
    SameCore(s, s0, h, Cuts(wire));
    SendLostKeeps(s0, 0, s0.nextPacket, s0.bytesInFlight, now, h, wire);
    assert QueueKnown(r.s);
    if r.code >= 0 {
      SendQueuedKeeps(r.s, s0.bytesInFlight, now, h, wire + r.out);
      PassedThen(s0, r, r.s, SendQueued(r.s, s0.bytesInFlight, now), h, wire);
    }
  }

  // ---- Loss ---------------------------------------------------------------------------------------------

  lemma LoseStep(s: Sender, h: History, tx: seq<Fragment>, pn: nat)
    requires Inv(s, h, tx) && pn in s.sent
    ensures Inv(MarkLost(s, pn), h, tx) && SameAcks(s.streams, MarkLost(s, pn).streams)
  {
    hide StreamOk, RecordOk, FixedCuts, LiveDistinct, HoldersOk, HistoryOk, RecordsOk, StreamsOk, MarkLost, SameAcks;
    MarkLostKeeps(s, h, tx, pn);
    RecordAt(s.streams, s.sent, tx, pn);
    MarkLostAcks(s, pn);
  }

  lemma {:induction false} LoseFromKeeps(s: Sender, pn: nat, end: nat, everything: bool, h: History, tx: seq<Fragment>)
    requires Inv(s, h, tx)
    ensures Inv(LoseFrom(s, pn, end, everything).0, h, tx)
    ensures SameAcks(s.streams, LoseFrom(s, pn, end, everything).0.streams)
    decreases end - pn
  {
    hide Inv, MarkLost;
    if pn < end {
      if pn !in s.sent {
        LoseFromKeeps(s, pn + 1, end, everything, h, tx);
      } else if everything || s.largestSentTime > s.sent[pn].sentTime + 50 {
        LoseStep(s, h, tx, pn);
        LoseFromKeeps(MarkLost(s, pn), pn + 1, end, everything, h, tx);
      }
    }
  }

  lemma LoseAndBackOffKeeps(s: Sender, everything: bool, now: nat, h: History, tx: seq<Fragment>)
    requires Inv(s, h, tx)
    ensures Inv(LoseAndBackOff(s, everything, now), h, tx)
    ensures SameAcks(s.streams, LoseAndBackOff(s, everything, now).streams)
  {
    hide Inv, SameAcks;
    LoseFromKeeps(s, 0, s.nextPacket, everything, h, tx);
    SameCore(LoseFrom(s, 0, s.nextPacket, everything).0, LoseAndBackOff(s, everything, now), h, tx);
  }

  /** A tail-loss probe keeps the partition, unless it gives the connection up. */
  lemma TlpKeeps(s: Sender, now: nat, h: History, tx: seq<Fragment>)
    requires Inv(s, h, tx) && s.established
    ensures var s' := TlpTick(s, now);
      (s'.established ==> Inv(s', h, tx) && SameAcks(s.streams, s'.streams)) && (!s'.established ==> s' == FreshSender(false))
  {
    hide Inv, LoseFrom;
    LoseAndBackOffKeeps(s, true, now, h, tx);
    SameCore(s, s.(tlpArmed := false, tlpInterval := TLP_INTERVAL), h, tx);
    var s1 := LoseAndBackOff(s, true, now);
    SameCore(s1, s1.(pacingArmed := true, tlpArmed := true, tlpInterval := s.tlpInterval * 2), h, tx);
  }
}
