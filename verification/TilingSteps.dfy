/** Every elementary step of the sender keeps the partition of unacked data. */
module TilingSteps {
  import opened Bytes
  import opened Sending
  import opened Tiling

  // ---- Queueing -------------------------------------------------------------------------------------

  function Appended(h: History, id: StreamId, data: seq<byte>): History {
    h[id := (if id in h then h[id] else []) + data]
  }

  lemma ItemExtends(item: DataItem, h: seq<byte>, data: seq<byte>)
    requires ItemOk(item, h)
    ensures ItemOk(item, h + data)
  {
    assert (h + data)[..|h|] == h;
    assert (h + data)[item.streamOffset..item.streamOffset + |item.data|]
        == h[item.streamOffset..item.streamOffset + |item.data|];
  }

  function Enqueue(st: SendStream, data: seq<byte>): SendStream {
    st.(items := st.items + [DataItem(data, 0, st.queueOffset)], queueOffset := st.queueOffset + |data|)
  }

  lemma EnqueueQueue(st: SendStream, h: seq<byte>, data: seq<byte>)
    requires QueueOk(st, h) && 0 < |data|
    ensures QueueOk(Enqueue(st, data), h + data)
  {
    var st' := Enqueue(st, data);
    forall k | 0 <= k < |st'.items| ensures ItemOk(st'.items[k], h + data) {
      if k < |st.items| {
        ItemExtends(st.items[k], h, data);
      } else {
        assert (h + data)[|h|..|h| + |data|] == data;
      }
    }
  }

  lemma EnqueueCursor(st: SendStream, h: seq<byte>, data: seq<byte>)
    requires StreamOk(st, h) && 0 < |data|
    ensures CursorOk(Enqueue(st, data)) && AckedOk(Enqueue(st, data))
  {
  }

  /** The history after `send` has accepted `data` (code 0) or turned it away. */
  function SentHistory(s: Sender, h: History, id: StreamId, data: seq<byte>): History {
    if Send(s, id, data).1 == 0 then Appended(h, id, data) else h
  }

  /** Replacing a stream by one with the same acked, sent and outstanding parts keeps what depends on those. */
  lemma SameTiling(s: Sender, s': Sender, tx: seq<Fragment>)
    requires HoldersOk(s.streams, LiveOf(s), tx)
    requires s'.sent == s.sent && s'.lost == s.lost
    requires forall id :: id in s'.streams ==>
      && s'.streams[id].ackedOffset == s.Stream(id).ackedOffset
      && s'.streams[id].sentOffset == s.Stream(id).sentOffset
      && s'.streams[id].outstanding == s.Stream(id).outstanding
    ensures HoldersOk(s'.streams, LiveOf(s'), tx)
  {
    forall id | id in s'.streams
      ensures OutstandingOk(id, s'.streams[id], LiveOf(s'), tx) && Covered(id, s'.streams[id], LiveOf(s'), tx)
    {
      if id in s.streams {
        assert OutstandingOk(id, s.streams[id], LiveOf(s), tx) && Covered(id, s.streams[id], LiveOf(s), tx);
        forall b | s'.streams[id].ackedOffset <= b < s'.streams[id].sentOffset
          ensures Held(id, s'.streams[id], LiveOf(s'), tx, b)
        {
          assert Held(id, s.streams[id], LiveOf(s), tx, b);
        }
      }
    }
  }

  lemma RecordsEnqueue(streams: map<StreamId, SendStream>, id: StreamId, data: seq<byte>,
                       m: map<nat, SentPacket>, tx: seq<Fragment>)
    requires RecordsOk(streams, m, tx)
    ensures RecordsOk(streams[id := Enqueue(if id in streams then streams[id] else FreshStream, data)], m, tx)
  {
  }

  lemma ReplaceStream(s: Sender, s': Sender, id: StreamId, h: History, hi: seq<byte>, tx: seq<Fragment>)
    requires Inv(s, h, tx)
    requires id in s'.streams && s'.streams == s.streams[id := s'.streams[id]]
    requires s'.sent == s.sent && s'.lost == s.lost && s'.nextPacket == s.nextPacket
    requires StreamOk(s'.streams[id], hi)
    requires s'.streams[id].ackedOffset == s.Stream(id).ackedOffset
    requires s'.streams[id].sentOffset == s.Stream(id).sentOffset
    requires s'.streams[id].outstanding == s.Stream(id).outstanding
    requires RecordsOk(s'.streams, s.sent, tx) && RecordsOk(s'.streams, s.lost, tx)
    ensures Inv(s', h[id := hi], tx)
  {
    hide RecordOk, FixedCuts, LiveDistinct, HoldersOk, RecordsOk, StreamOk;
    assert FixedCuts(tx) && LiveDistinct(LiveOf(s'), tx);
    SameTiling(s, s', tx);
  }

  lemma SendEffect(s: Sender, id: StreamId, data: seq<byte>)
    requires s.established
    ensures var (s', code) := Send(s, id, data);
      && s'.sent == s.sent && s'.lost == s.lost && s'.nextPacket == s.nextPacket
      && s'.streams == if code == 0 then s.streams[id := Enqueue(s.Stream(id), data)] else s.streams
  {
  }

  lemma AcceptedKeeps(s: Sender, s': Sender, h: History, tx: seq<Fragment>, id: StreamId, data: seq<byte>)
    requires Inv(s, h, tx) && 0 < |data|
    requires s'.sent == s.sent && s'.lost == s.lost && s'.nextPacket == s.nextPacket
    requires s'.streams == s.streams[id := Enqueue(s.Stream(id), data)]
    ensures Inv(s', Appended(h, id, data), tx)
  {
    var st := s.Stream(id);
    var hi := if id in h then h[id] else [];
    assert StreamOk(st, hi);
    EnqueueQueue(st, hi, data);
    EnqueueCursor(st, hi, data);
    RecordsEnqueue(s.streams, id, data, s.sent, tx);
    RecordsEnqueue(s.streams, id, data, s.lost, tx);
    ReplaceStream(s, s', id, h, hi + data, tx);
  }

  /** The partition does not depend on windows, timers or the send queue. */
  lemma SameCore(s: Sender, s': Sender, h: History, tx: seq<Fragment>)
    requires Inv(s, h, tx)
    requires s'.streams == s.streams && s'.sent == s.sent && s'.lost == s.lost && s'.nextPacket == s.nextPacket
    ensures Inv(s', h, tx)
  {
    assert LiveOf(s') == LiveOf(s);
  }

  /** `send` keeps the partition, for every non-empty buffer. */
  lemma SendKeeps(s: Sender, h: History, tx: seq<Fragment>, id: StreamId, data: seq<byte>)
    requires Inv(s, h, tx) && 0 < |data|
    ensures Inv(Send(s, id, data).0, SentHistory(s, h, id, data), tx)
  {
    if s.established {
      SendEffect(s, id, data);
      if Send(s, id, data).1 == 0 {
        AcceptedKeeps(s, Send(s, id, data).0, h, tx, id, data);
      } else {
        assert Inv(Send(s, id, data).0, h, tx) by { SameCore(s, Send(s, id, data).0, h, tx); }
      }
    }
  }

  // ---- New data ---------------------------------------------------------------------------------------

  lemma AdvanceQueue(st: SendStream, h: seq<byte>, length: nat)
    requires QueueOk(st, h) && st.popped <= st.next < st.End()
    ensures QueueOk(Advance(st, length), h)
  {
    var st' := Advance(st, length);
    forall k | 0 <= k < |st'.items|
      ensures ItemOk(st'.items[k], h) && st'.items[k].data == st.items[k].data
        && st'.items[k].streamOffset == st.items[k].streamOffset
    {
      assert ItemOk(st.items[k], h);
    }
  }

  lemma {:induction false} ItemBounds(st: SendStream, h: seq<byte>, k: nat)
    requires QueueOk(st, h) && k < |st.items|
    ensures st.items[k].streamOffset + |st.items[k].data| <= st.queueOffset
    ensures st.items[k].streamOffset + |st.items[k].data| ==
      if k + 1 == |st.items| then st.queueOffset else st.items[k + 1].streamOffset
    ensures st.items[0].streamOffset <= st.items[k].streamOffset
  {
    assert ItemOk(st.items[k], h);
    if k > 0 { ItemBounds(st, h, k - 1); }
  }

  lemma AdvanceCursor(st: SendStream, h: seq<byte>, length: nat)
    requires StreamOk(st, h) && st.next < st.End()
    requires 0 < length <= |st.Item(st.next).data| - st.Item(st.next).sentOffset
    ensures CursorOk(Advance(st, length)) && AckedOk(Advance(st, length))
  {
    ItemBounds(st, h, st.next - st.popped);
  }

  lemma RecordsAdvance(streams: map<StreamId, SendStream>, id: StreamId, length: nat,
                       m: map<nat, SentPacket>, tx: seq<Fragment>, f: Fragment)
    requires RecordsOk(streams, m, tx)
    requires id in streams && streams[id].popped <= streams[id].next < streams[id].End()
    ensures RecordsOk(streams[id := Advance(streams[id], length)], m, tx + [f])
  {
  }

  /** The fragment that SendFragment transmits. */
  function NextCut(s: Sender, id: StreamId): Fragment {
    Fragment(id, s.Stream(id).sentOffset, NextFragment(s, id, 0).length)
  }

  lemma NextRecord(s: Sender, h: seq<byte>, id: StreamId, now: nat)
    requires id in s.streams && StreamOk(s.streams[id], h) && s.streams[id].next < s.streams[id].End()
    ensures var f := NextCut(s, id); var s' := SendFragment(s, id, now);
      && 0 < f.length <= FRAGMENT_SIZE
      && s'.streams == s.streams[id := Advance(s.streams[id], f.length)]
      && s'.sent == s.sent[s.nextPacket := NextFragment(s, id, now)]
      && StreamOk(s'.streams[id], h)
      && f.End() == s'.streams[id].sentOffset
      && RecordOk(s'.streams, NextFragment(s, id, now), f)
  {
    var st := s.streams[id];
    assert ItemOk(st.items[st.next - st.popped], h);
    var p := NextFragment(s, id, now);
    AdvanceQueue(st, h, p.length);
    AdvanceCursor(st, h, p.length);
    hide QueueOk, ItemOk;
  }

  lemma CutsExtend(streams: map<StreamId, SendStream>, streams': map<StreamId, SendStream>, tx: seq<Fragment>, f: Fragment)
    requires HistoryOk(streams, tx) && FixedCuts(tx)
    requires f.stream in streams && f.start == streams[f.stream].sentOffset && 0 < f.length <= FRAGMENT_SIZE
    requires streams'.Keys == streams.Keys
    requires forall id :: id in streams ==>
      streams'[id].sentOffset == if id == f.stream then f.End() else streams[id].sentOffset
    ensures HistoryOk(streams', tx + [f]) && FixedCuts(tx + [f])
    ensures forall i :: 0 <= i < |tx| ==> tx[i] != f && Apart(tx[i], f)
  {
  }

  lemma OutstandingExtend(id: StreamId, st: SendStream, st': SendStream, live: set<nat>, tx: seq<Fragment>, f: Fragment)
    requires OutstandingOk(id, st, live, tx)
    requires st'.ackedOffset == st.ackedOffset && st'.outstanding == st.outstanding
    requires forall i :: 0 <= i < |tx| ==> tx[i] != f
    ensures OutstandingOk(id, st', live + {|tx|}, tx + [f])
  {
    forall k | k in st'.outstanding
      ensures Fragment(id, k, st'.outstanding[k]) in tx + [f]
    {
      assert Fragment(id, k, st.outstanding[k]) in tx;
    }
  }

  lemma CoveredExtend(id: StreamId, st: SendStream, st': SendStream, live: set<nat>, tx: seq<Fragment>, f: Fragment)
    requires Covered(id, st, live, tx)
    requires st'.ackedOffset == st.ackedOffset && st'.outstanding == st.outstanding
    requires st'.sentOffset == if f.stream == id then f.End() else st.sentOffset
    requires f.stream == id ==> f.start == st.sentOffset
    ensures Covered(id, st', live + {|tx|}, tx + [f])
  {
    forall b | st'.ackedOffset <= b < st'.sentOffset
      ensures Held(id, st', live + {|tx|}, tx + [f], b)
    {
      if b < st.sentOffset {
        assert Held(id, st, live, tx, b);
        if i :| i in live && i < |tx| && tx[i].Has(id, b) {
          assert (tx + [f])[i].Has(id, b);
        }
      } else {
        assert (tx + [f])[|tx|].Has(id, b);
      }
    }
  }

  /** Sending a fragment of new data keeps the partition. */
  lemma FragmentKeeps(s: Sender, h: History, tx: seq<Fragment>, id: StreamId, now: nat)
    requires Inv(s, h, tx) && id in s.streams && s.streams[id].next < s.streams[id].End()
    ensures s.streams[id].popped <= s.streams[id].next
    ensures Inv(SendFragment(s, id, now), h, tx + [NextCut(s, id)])
  {
    assert StreamOk(s.streams[id], h[id]);
    NextRecord(s, h[id], id, now);
    FragmentAssemble(s, SendFragment(s, id, now), h, tx, NextCut(s, id), NextFragment(s, id, now));
  }

  lemma HoldersExtend(streams: map<StreamId, SendStream>, streams': map<StreamId, SendStream>,
                      live: set<nat>, tx: seq<Fragment>, f: Fragment)
    requires HoldersOk(streams, live, tx) && streams'.Keys == streams.Keys
    requires f.stream in streams && f.start == streams[f.stream].sentOffset
    requires forall i :: 0 <= i < |tx| ==> tx[i] != f
    requires forall id :: id in streams ==>
      && streams'[id].ackedOffset == streams[id].ackedOffset
      && streams'[id].outstanding == streams[id].outstanding
      && streams'[id].sentOffset == if id == f.stream then f.End() else streams[id].sentOffset
    ensures HoldersOk(streams', live + {|tx|}, tx + [f])
  {
    forall id | id in streams'
      ensures OutstandingOk(id, streams'[id], live + {|tx|}, tx + [f]) && Covered(id, streams'[id], live + {|tx|}, tx + [f])
    {
      OutstandingExtend(id, streams[id], streams'[id], live, tx, f);
      CoveredExtend(id, streams[id], streams'[id], live, tx, f);
    }
  }

  lemma FragmentAssemble(s: Sender, s': Sender, h: History, tx: seq<Fragment>, f: Fragment, p: SentPacket)
    requires Inv(s, h, tx)
    requires f.stream in s.streams && f.start == s.streams[f.stream].sentOffset && 0 < f.length <= FRAGMENT_SIZE
    requires s.streams[f.stream].popped <= s.streams[f.stream].next < s.streams[f.stream].End()
    requires s'.streams == s.streams[f.stream := Advance(s.streams[f.stream], f.length)]
    requires s'.sent == s.sent[s.nextPacket := p] && s'.lost == s.lost && s'.nextPacket == s.nextPacket + 1
    requires StreamOk(s'.streams[f.stream], h[f.stream]) && RecordOk(s'.streams, p, f)
    ensures Inv(s', h, tx + [f])
  {
    hide StreamOk, RecordOk, HistoryOk, FixedCuts, LiveDistinct, HoldersOk, RecordsOk;
    CutsExtend(s.streams, s'.streams, tx, f);
    RecordsAdvance(s.streams, f.stream, f.length, s.sent, tx, f);
    RecordsAdvance(s.streams, f.stream, f.length, s.lost, tx, f);
    RecordsAdd(s'.streams, s.sent, tx, f, p);
    assert LiveOf(s') == LiveOf(s) + {|tx|};
    LiveBounded(s.streams, s.sent, s.lost, tx);
    LiveExtend(LiveOf(s), tx, f);
    HoldersExtend(s.streams, s'.streams, LiveOf(s), tx, f);
  }

  lemma RecordsAdd(streams: map<StreamId, SendStream>, m: map<nat, SentPacket>, tx: seq<Fragment>, f: Fragment, p: SentPacket)
    requires RecordsOk(streams, m, tx + [f]) && RecordOk(streams, p, f)
    ensures RecordsOk(streams, m[|tx| := p], tx + [f])
  {
  }

  lemma LiveBounded(streams: map<StreamId, SendStream>, m: map<nat, SentPacket>, m': map<nat, SentPacket>, tx: seq<Fragment>)
    requires RecordsOk(streams, m, tx) && RecordsOk(streams, m', tx)
    ensures forall i :: i in m.Keys + m'.Keys ==> i < |tx|
  {
  }

  lemma LiveExtend(live: set<nat>, tx: seq<Fragment>, f: Fragment)
    requires LiveDistinct(live, tx)
    requires forall i :: i in live && i < |tx| ==> tx[i] != f
    requires forall i :: i in live ==> i < |tx|
    ensures LiveDistinct(live + {|tx|}, tx + [f])
  {
  }

  // ---- Retransmission and loss ------------------------------------------------------------------------

  /** `streams'` differs from `streams` at most in the flight counters. */
  ghost predicate SameButFlight(streams: map<StreamId, SendStream>, streams': map<StreamId, SendStream>) {
    && streams'.Keys == streams.Keys
    && forall id :: id in streams ==> streams'[id] == streams[id].(bytesInFlight := streams'[id].bytesInFlight)
  }

  lemma StreamsFlight(streams: map<StreamId, SendStream>, streams': map<StreamId, SendStream>, h: History, tx: seq<Fragment>)
    requires SameButFlight(streams, streams') && StreamsOk(streams, h) && HistoryOk(streams, tx)
    ensures StreamsOk(streams', h) && HistoryOk(streams', tx)
  {
    forall id | id in streams' ensures StreamOk(streams'[id], h[id]) {
      StreamFlight(streams[id], streams'[id].bytesInFlight, h[id]);
    }
  }

  lemma StreamFlight(st: SendStream, n: int, h: seq<byte>)
    requires StreamOk(st, h)
    ensures StreamOk(st.(bytesInFlight := n), h)
  {
  }

  lemma RecordsFlight(streams: map<StreamId, SendStream>, streams': map<StreamId, SendStream>,
                      m: map<nat, SentPacket>, tx: seq<Fragment>)
    requires SameButFlight(streams, streams') && RecordsOk(streams, m, tx)
    ensures RecordsOk(streams', m, tx)
  {
    forall pn | pn in m ensures pn < |tx| && RecordOk(streams', m[pn], tx[pn]) {
      assert RecordOk(streams, m[pn], tx[pn]);
    }
  }

  lemma RecordTime(streams: map<StreamId, SendStream>, p: SentPacket, f: Fragment, now: nat)
    requires RecordOk(streams, p, f)
    ensures RecordOk(streams, p.(sentTime := now), f)
  {
  }

  lemma RecordsTail(streams: map<StreamId, SendStream>, m: map<nat, SentPacket>, tx: seq<Fragment>, f: Fragment)
    requires RecordsOk(streams, m, tx)
    ensures RecordsOk(streams, m, tx + [f])
  {
  }

  lemma RecordsDrop(streams: map<StreamId, SendStream>, m: map<nat, SentPacket>, pn: nat, tx: seq<Fragment>)
    requires RecordsOk(streams, m, tx)
    ensures RecordsOk(streams, m - {pn}, tx)
  {
  }

  lemma RecordsPut(streams: map<StreamId, SendStream>, m: map<nat, SentPacket>, pn: nat, p: SentPacket, tx: seq<Fragment>)
    requires RecordsOk(streams, m, tx) && pn < |tx| && RecordOk(streams, p, tx[pn])
    ensures RecordsOk(streams, m[pn := p], tx)
  {
  }

  lemma CutsRepeat(streams: map<StreamId, SendStream>, tx: seq<Fragment>, pn: nat)
    requires HistoryOk(streams, tx) && FixedCuts(tx) && pn < |tx|
    ensures HistoryOk(streams, tx + [tx[pn]]) && FixedCuts(tx + [tx[pn]])
  {
  }

  lemma LiveSwap(live: set<nat>, tx: seq<Fragment>, pn: nat)
    requires LiveDistinct(live, tx) && pn in live
    requires forall i :: i in live ==> i < |tx|
    ensures LiveDistinct(live - {pn} + {|tx|}, tx + [tx[pn]])
  {
  }

  lemma HoldersSwap(streams: map<StreamId, SendStream>, live: set<nat>, tx: seq<Fragment>, pn: nat)
    requires HoldersOk(streams, live, tx) && pn in live
    requires forall i :: i in live ==> i < |tx|
    ensures HoldersOk(streams, live - {pn} + {|tx|}, tx + [tx[pn]])
  {
    var live' := live - {pn} + {|tx|};
    var tx' := tx + [tx[pn]];
    forall id | id in streams
      ensures OutstandingOk(id, streams[id], live', tx') && Covered(id, streams[id], live', tx')
    {
      OutstandingSwap(id, streams[id], live, tx, pn);
      CoveredSwap(id, streams[id], live, tx, pn);
    }
  }

  lemma OutstandingSwap(id: StreamId, st: SendStream, live: set<nat>, tx: seq<Fragment>, pn: nat)
    requires OutstandingOk(id, st, live, tx) && pn in live && pn < |tx|
    ensures OutstandingOk(id, st, live - {pn} + {|tx|}, tx + [tx[pn]])
  {
    forall k | k in st.outstanding
      ensures Fragment(id, k, st.outstanding[k]) in tx + [tx[pn]]
    {
      assert Fragment(id, k, st.outstanding[k]) in tx;
    }
  }

  lemma CoveredSwap(id: StreamId, st: SendStream, live: set<nat>, tx: seq<Fragment>, pn: nat)
    requires Covered(id, st, live, tx) && pn in live && pn < |tx|
    ensures Covered(id, st, live - {pn} + {|tx|}, tx + [tx[pn]])
  {
    var live' := live - {pn} + {|tx|};
    var tx' := tx + [tx[pn]];
    forall b | st.ackedOffset <= b < st.sentOffset ensures Held(id, st, live', tx', b) {
      assert Held(id, st, live, tx, b);
      if i :| i in live && i < |tx| && tx[i].Has(id, b) {
        if i == pn { assert tx'[|tx|].Has(id, b); } else { assert tx'[i].Has(id, b); }
      }
    }
  }

  lemma HoldersFlight(streams: map<StreamId, SendStream>, streams': map<StreamId, SendStream>, live: set<nat>, tx: seq<Fragment>)
    requires SameButFlight(streams, streams') && HoldersOk(streams, live, tx)
    ensures HoldersOk(streams', live, tx)
  {
    forall id | id in streams'
      ensures OutstandingOk(id, streams'[id], live, tx) && Covered(id, streams'[id], live, tx)
    {
      assert OutstandingOk(id, streams[id], live, tx) && Covered(id, streams[id], live, tx);
      forall b | streams'[id].ackedOffset <= b < streams'[id].sentOffset ensures Held(id, streams'[id], live, tx, b) {
        assert Held(id, streams[id], live, tx, b);
      }
    }
  }

  /** Sending a lost packet again keeps the partition: the new number takes over the old one's stretch. */
  lemma RetransmitKeeps(s: Sender, h: History, tx: seq<Fragment>, pn: nat, now: nat)
    requires Inv(s, h, tx) && pn in s.lost
    ensures pn < |tx|
    ensures Inv(Retransmit(s, pn, now), h, tx + [tx[pn]])
  {
    hide StreamOk, HistoryOk, FixedCuts, LiveDistinct, HoldersOk, StreamsOk, RecordsOk, RecordOk, SameButFlight, Retransmit;
    RecordAt(s.streams, s.lost, tx, pn);
    RetransmitEffect(s, pn, now);
    RetransmitAssemble(s, Retransmit(s, pn, now), h, tx, pn, s.lost[pn], now);
  }

  lemma RecordAt(streams: map<StreamId, SendStream>, m: map<nat, SentPacket>, tx: seq<Fragment>, pn: nat)
    requires RecordsOk(streams, m, tx) && pn in m
    ensures pn < |tx| && RecordOk(streams, m[pn], tx[pn]) && m[pn].stream in streams
  {
  }

  lemma RetransmitEffect(s: Sender, pn: nat, now: nat)
    requires pn in s.lost && s.lost[pn].stream in s.streams
    ensures var s' := Retransmit(s, pn, now);
      && SameButFlight(s.streams, s'.streams)
      && s'.sent == s.sent[s.nextPacket := s.lost[pn].(sentTime := now)] && s'.lost == s.lost - {pn}
      && s'.nextPacket == s.nextPacket + 1
  {
  }

  lemma RetransmitAssemble(s: Sender, s': Sender, h: History, tx: seq<Fragment>, pn: nat, p: SentPacket, now: nat)
    requires Inv(s, h, tx) && pn in s.lost && p == s.lost[pn] && pn < |tx| && RecordOk(s.streams, p, tx[pn])
    requires SameButFlight(s.streams, s'.streams)
    requires s'.sent == s.sent[|tx| := p.(sentTime := now)] && s'.lost == s.lost - {pn}
    requires s'.nextPacket == s.nextPacket + 1
    ensures Inv(s', h, tx + [tx[pn]])
  {
    hide StreamOk, RecordOk, HistoryOk, FixedCuts, LiveDistinct, HoldersOk, RecordsOk, SameButFlight, StreamsOk;
    LiveBounded(s.streams, s.sent, s.lost, tx);
    assert |tx| !in LiveOf(s);
    assert LiveOf(s') == LiveOf(s) - {pn} + {|tx|};
    LiveSwap(LiveOf(s), tx, pn);
    StreamsFlight(s.streams, s'.streams, h, tx);
    CutsRepeat(s'.streams, tx, pn);
    RecordsFlight(s.streams, s'.streams, s.sent, tx);
    RecordsFlight(s.streams, s'.streams, s.lost, tx);
    RecordsDrop(s'.streams, s.lost, pn, tx);
    RecordsTail(s'.streams, s'.lost, tx, tx[pn]);
    RecordsTail(s'.streams, s.sent, tx, tx[pn]);
    assert RecordOk(s'.streams, p.(sentTime := now), tx[pn]) by {
      RecordTime(s.streams, p, tx[pn], now);
      RecordFlight(s.streams, s'.streams, p.(sentTime := now), tx[pn]);
    }
    RecordsAdd(s'.streams, s.sent, tx, tx[pn], p.(sentTime := now));
    HoldersSwap(s.streams, LiveOf(s), tx, pn);
    HoldersFlight(s.streams, s'.streams, LiveOf(s'), tx + [tx[pn]]);
  }

  lemma RecordFlight(streams: map<StreamId, SendStream>, streams': map<StreamId, SendStream>, p: SentPacket, f: Fragment)
    requires SameButFlight(streams, streams') && RecordOk(streams, p, f)
    ensures RecordOk(streams', p, f)
  {
  }

  /** Moving a packet from flight to lost keeps the partition. */
  lemma MarkLostKeeps(s: Sender, h: History, tx: seq<Fragment>, pn: nat)
    requires Inv(s, h, tx) && pn in s.sent
    ensures Inv(MarkLost(s, pn), h, tx)
  {
    hide StreamOk, HistoryOk, FixedCuts, LiveDistinct, HoldersOk, StreamsOk, RecordsOk, RecordOk, SameButFlight, MarkLost;
    RecordAt(s.streams, s.sent, tx, pn);
    MarkLostEffect(s, pn);
    MarkLostAssemble(s, MarkLost(s, pn), h, tx, pn, s.sent[pn]);
  }

  lemma MarkLostEffect(s: Sender, pn: nat)
    requires pn in s.sent && s.sent[pn].stream in s.streams
    ensures var s' := MarkLost(s, pn);
      && SameButFlight(s.streams, s'.streams)
      && s'.sent == s.sent - {pn} && s'.lost == s.lost[pn := s.sent[pn]] && s'.nextPacket == s.nextPacket
  {
  }

  lemma MarkLostAssemble(s: Sender, s': Sender, h: History, tx: seq<Fragment>, pn: nat, p: SentPacket)
    requires Inv(s, h, tx) && pn in s.sent && p == s.sent[pn] && pn < |tx| && RecordOk(s.streams, p, tx[pn])
    requires SameButFlight(s.streams, s'.streams)
    requires s'.sent == s.sent - {pn} && s'.lost == s.lost[pn := p] && s'.nextPacket == s.nextPacket
    ensures Inv(s', h, tx)
  {
    hide StreamOk, RecordOk, HistoryOk, FixedCuts, LiveDistinct, HoldersOk, RecordsOk, SameButFlight, StreamsOk;
    assert LiveOf(s') == LiveOf(s);
    StreamsFlight(s.streams, s'.streams, h, tx);
    RecordsFlight(s.streams, s'.streams, s.sent, tx);
    RecordsFlight(s.streams, s'.streams, s.lost, tx);
    RecordsDrop(s'.streams, s.sent, pn, tx);
    RecordFlight(s.streams, s'.streams, p, tx[pn]);
    RecordsPut(s'.streams, s.lost, pn, p, tx);
    HoldersFlight(s.streams, s'.streams, LiveOf(s), tx);
  }
}
