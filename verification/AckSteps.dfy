/** Acknowledging a packet in flight keeps the partition of unacked data and never strands a queued item. */
module AckSteps {
  import opened Bytes
  import opened Sending
  import opened Tiling
  import opened TilingSteps

  // ---- Folding out-of-order acks ----------------------------------------------------------------------

  /** Early acks are disjoint non-empty stretches at or above `acked`. */
  ghost predicate EarlyOk(acked: nat, m: map<nat, nat>) {
    && (forall k :: k in m ==> acked <= k && 0 < m[k])
    && (forall k, k' :: k in m && k' in m && k < k' ==> k + m[k] <= k')
  }

  ghost predicate InMerged(m: map<nat, nat>, m': map<nat, nat>, b: nat) {
    exists k :: k in m && k !in m' && k <= b < k + m[k]
  }

  lemma MergeUnfold(acked: nat, m: map<nat, nat>, k: nat)
    requires EarlyOk(acked, m) && m != map[] && k == Least(m.Keys) && k <= acked
    ensures |m - {k}| < |m| && k == acked
    ensures EarlyOk(k + m[k], m - {k})
    ensures MergeAcks(acked, m) == MergeAcks(k + m[k], m - {k})
  {
    assert (m - {k}).Keys == m.Keys - {k};
    assert forall j :: j in m - {k} ==> k < j && k + m[k] <= j;
  }

  /** Folding consumes exactly the entries that continue `acked` without a hole. */
  lemma {:induction false} MergeBounds(acked: nat, m: map<nat, nat>)
    requires EarlyOk(acked, m)
    ensures acked <= MergeAcks(acked, m).0
    ensures forall k :: k in MergeAcks(acked, m).1 ==>
      k in m && MergeAcks(acked, m).1[k] == m[k] && MergeAcks(acked, m).0 < k
    ensures forall k :: k in m && k !in MergeAcks(acked, m).1 ==> k + m[k] <= MergeAcks(acked, m).0
    decreases |m|
  {
    if m != map[] && Least(m.Keys) <= acked {
      var k: nat := Least(m.Keys);
      MergeUnfold(acked, m, k);
      MergeBounds(k + m[k], m - {k});
      var r := MergeAcks(k + m[k], m - {k});
      hide MergeAcks;
      assert forall j :: j in m && j !in r.1 ==> j == k || (j in m - {k} && (m - {k})[j] == m[j]);
    }
  }

  lemma {:induction false} MergeCover(acked: nat, m: map<nat, nat>, b: nat)
    requires EarlyOk(acked, m)
    requires acked <= b < MergeAcks(acked, m).0
    ensures InMerged(m, MergeAcks(acked, m).1, b)
    decreases |m|
  {
    if m != map[] && Least(m.Keys) <= acked {
      var k: nat := Least(m.Keys);
      MergeUnfold(acked, m, k);
      MergeBounds(k + m[k], m - {k});
      if k + m[k] <= b {
        MergeCover(k + m[k], m - {k}, b);
      }
    }
  }

  // ---- Handing back acked buffers ---------------------------------------------------------------------

  /** StreamOk, except that fully acked items may still stand at the front of the queue. */
  ghost predicate Unpopped(st: SendStream, h: seq<byte>) {
    && QueueOk(st, h) && CursorOk(st)
    && st.ackedOffset <= st.sentOffset <= st.queueOffset
    && (if st.items == [] then st.ackedOffset == st.queueOffset else st.items[0].streamOffset <= st.ackedOffset)
  }

  function PopOne(st: SendStream): SendStream
    requires st.items != []
  {
    st.(popped := st.popped + 1, items := st.items[1..])
  }

  lemma PopOneQueue(st: SendStream, h: seq<byte>)
    requires Unpopped(st, h) && st.items != []
    ensures QueueOk(PopOne(st), h)
  {
    forall k | 0 <= k < |PopOne(st).items| ensures ItemOk(PopOne(st).items[k], h) {
      assert ItemOk(st.items[k + 1], h);
    }
  }

  lemma PopOneKeeps(st: SendStream, h: seq<byte>)
    requires Unpopped(st, h) && st.items != []
    requires st.items[0].streamOffset + |st.items[0].data| <= st.ackedOffset
    ensures Unpopped(PopOne(st), h)
    ensures PopOne(st).Reported() == st.items[0].streamOffset + |st.items[0].data|
  {
    PopOneQueue(st, h);
    ItemBounds(st, h, 0);
  }

  /** Item `n` has unacked bytes in `st`, and is still there in `st'`. */
  ghost predicate Survives(st: SendStream, st': SendStream, n: nat) {
    st.popped <= n < st.End() && st.ackedOffset < st.Item(n).streamOffset + |st.Item(n).data| ==>
      st'.popped <= n < st'.End() && st'.Item(n) == st.Item(n)
  }

  ghost predicate PopOk(st: SendStream, st': SendStream, buffers: seq<seq<byte>>, h: seq<byte>) {
    && st' == st.(popped := st'.popped, items := st'.items, next := st'.next)
    && st'.End() == st.End() && st.popped <= st'.popped
    && (forall n: nat :: Survives(st, st', n))
    && st.Reported() <= st'.Reported() <= st.ackedOffset
    && st.ackedOffset <= |h|
    && Concat(buffers) == h[st.Reported()..st'.Reported()]
  }

  lemma PopOkNow(st: SendStream, h: seq<byte>)
    requires Unpopped(st, h)
    ensures PopOk(st, st, [], h)
  {
  }

  lemma PopOkMore(st: SendStream, st': SendStream, rest: seq<seq<byte>>, h: seq<byte>)
    requires Unpopped(st, h) && st.items != []
    requires st.items[0].streamOffset + |st.items[0].data| <= st.ackedOffset
    requires Unpopped(PopOne(st), h) && PopOk(PopOne(st), st', rest, h)
    requires PopOne(st).Reported() == st.items[0].streamOffset + |st.items[0].data|
    ensures PopOk(st, st', [st.items[0].data] + rest, h)
  {
    var one := PopOne(st);
    assert ItemOk(st.items[0], h);
    assert Concat([st.items[0].data] + rest) == st.items[0].data + Concat(rest);
    assert h[st.Reported()..st'.Reported()] == h[st.Reported()..one.Reported()] + h[one.Reported()..st'.Reported()];
    forall n: nat ensures Survives(st, st', n) {
      if st.popped < n < st.End() {
        assert one.Item(n) == st.Item(n);
        assert Survives(one, st', n);
      }
    }
  }

  /** Popping stops at the first item with unacked bytes, hands back exactly the bytes in front of it,
      and keeps every item that an unacked record can point at. */
  lemma {:induction false} PopFacts(st: SendStream, h: seq<byte>)
    requires Unpopped(st, h)
    ensures StreamOk(PopAcked(st).0, h)
    ensures PopOk(st, PopAcked(st).0, PopAcked(st).1, h)
    decreases |st.items|
  {
    if st.items == [] {
      assert st.(next := st.End()) == st;
      PopOkNow(st, h);
    } else if st.ackedOffset < st.items[0].streamOffset + |st.items[0].data| {
      PopOkNow(st, h);
    } else {
      PopOneKeeps(st, h);
      PopFacts(PopOne(st), h);
      PopOkMore(st, PopAcked(PopOne(st)).0, PopAcked(PopOne(st)).1, h);
    }
  }

  // ---- One acknowledged stretch -----------------------------------------------------------------------

  /** What the rest of the sender guarantees about stream `id` when live packet `pn` of it is acked. */
  ghost predicate Ackable(st: SendStream, id: StreamId, live: set<nat>, tx: seq<Fragment>, pn: nat) {
    && pn in live && pn < |tx| && tx[pn].stream == id
    && (forall i :: 0 <= i < |tx| && tx[i].stream == id ==> 0 < tx[i].length && tx[i].End() <= st.sentOffset)
    && (forall i :: i in live && i < |tx| && tx[i].stream == id ==> st.ackedOffset <= tx[i].start)
    && FixedCuts(tx) && LiveDistinct(live, tx)
    && OutstandingOk(id, st, live, tx) && Covered(id, st, live, tx)
  }

  /** The same guarantees once `pn` is gone. */
  ghost predicate Acked(st: SendStream, id: StreamId, live: set<nat>, tx: seq<Fragment>) {
    && (forall i :: i in live && i < |tx| && tx[i].stream == id ==> st.ackedOffset <= tx[i].start)
    && OutstandingOk(id, st, live, tx) && Covered(id, st, live, tx)
  }

  function Early(st: SendStream, f: Fragment): SendStream {
    st.(outstanding := st.outstanding[f.start := f.length])
  }

  lemma EarlyOutstanding(st: SendStream, id: StreamId, live: set<nat>, tx: seq<Fragment>, pn: nat)
    requires Ackable(st, id, live, tx, pn) && st.ackedOffset < tx[pn].start
    ensures OutstandingOk(id, Early(st, tx[pn]), live - {pn}, tx)
  {
    var st' := Early(st, tx[pn]);
    forall k | k in st'.outstanding
      ensures Fragment(id, k, st'.outstanding[k]) in tx
      ensures forall i :: i in live - {pn} && i < |tx| ==> tx[i] != Fragment(id, k, st'.outstanding[k])
    {
      if k == tx[pn].start {
        assert tx[pn] == Fragment(id, k, st'.outstanding[k]);
      }
    }
  }

  lemma EarlyCovered(st: SendStream, id: StreamId, live: set<nat>, tx: seq<Fragment>, pn: nat)
    requires Ackable(st, id, live, tx, pn) && st.ackedOffset < tx[pn].start
    ensures Covered(id, Early(st, tx[pn]), live - {pn}, tx)
  {
    var st' := Early(st, tx[pn]);
    NotOutstanding(st, id, live, tx, pn);
    forall b | st'.ackedOffset <= b < st'.sentOffset ensures Held(id, st', live - {pn}, tx, b) {
      assert Held(id, st, live, tx, b);
      if i :| i in live && i < |tx| && tx[i].Has(id, b) {
        if i == pn {
          assert Fragment(id, tx[pn].start, st'.outstanding[tx[pn].start]).Has(id, b);
        }
      } else {
        var k :| k in st.outstanding && Fragment(id, k, st.outstanding[k]).Has(id, b);
        assert k in st'.outstanding && st'.outstanding[k] == st.outstanding[k];
      }
    }
  }

  lemma NotOutstanding(st: SendStream, id: StreamId, live: set<nat>, tx: seq<Fragment>, pn: nat)
    requires Ackable(st, id, live, tx, pn)
    ensures tx[pn].start !in st.outstanding
  {
  }

  lemma OutstandingIsEarly(st: SendStream, id: StreamId, live: set<nat>, tx: seq<Fragment>, pn: nat)
    requires Ackable(st, id, live, tx, pn) && tx[pn].start == st.ackedOffset
    ensures EarlyOk(tx[pn].End(), st.outstanding)
  {
    NotOutstanding(st, id, live, tx, pn);
    forall k | k in st.outstanding ensures tx[pn].End() <= k && 0 < st.outstanding[k] {
      var j :| 0 <= j < |tx| && tx[j] == Fragment(id, k, st.outstanding[k]);
      assert tx[pn] == tx[j] || Apart(tx[pn], tx[j]);
    }
    forall k, k' | k in st.outstanding && k' in st.outstanding && k < k' ensures k + st.outstanding[k] <= k' {
      var j :| 0 <= j < |tx| && tx[j] == Fragment(id, k, st.outstanding[k]);
      var j' :| 0 <= j' < |tx| && tx[j'] == Fragment(id, k', st.outstanding[k']);
      assert tx[j] == tx[j'] || Apart(tx[j], tx[j']);
    }
  }

  function InOrder(st: SendStream, f: Fragment): SendStream {
    var (acked, outstanding) := MergeAcks(f.End(), st.outstanding);
    st.(ackedOffset := acked, outstanding := outstanding)
  }

  /** The new acked offset stays inside what was sent. */
  lemma InOrderBound(st: SendStream, id: StreamId, live: set<nat>, tx: seq<Fragment>, pn: nat)
    requires Ackable(st, id, live, tx, pn) && tx[pn].start == st.ackedOffset
    ensures st.ackedOffset < tx[pn].End() <= InOrder(st, tx[pn]).ackedOffset <= st.sentOffset
  {
    OutstandingIsEarly(st, id, live, tx, pn);
    MergeBounds(tx[pn].End(), st.outstanding);
    var a := InOrder(st, tx[pn]).ackedOffset;
    if tx[pn].End() < a {
      MergeCover(tx[pn].End(), st.outstanding, a - 1);
      var k :| k in st.outstanding && k !in InOrder(st, tx[pn]).outstanding && k <= a - 1 < k + st.outstanding[k];
      var j :| 0 <= j < |tx| && tx[j] == Fragment(id, k, st.outstanding[k]);
    }
  }

  /** No live packet other than `pn` starts below the new acked offset. */
  lemma InOrderStarts(st: SendStream, id: StreamId, live: set<nat>, tx: seq<Fragment>, pn: nat, i: nat)
    requires Ackable(st, id, live, tx, pn) && tx[pn].start == st.ackedOffset
    requires i in live - {pn} && i < |tx| && tx[i].stream == id
    ensures InOrder(st, tx[pn]).ackedOffset <= tx[i].start
  {
    OutstandingIsEarly(st, id, live, tx, pn);
    assert tx[i] != tx[pn];
    assert Apart(tx[i], tx[pn]);
    var b := tx[i].start;
    if b < InOrder(st, tx[pn]).ackedOffset {
      MergeCover(tx[pn].End(), st.outstanding, b);
    }
  }

  lemma InOrderOutstanding(st: SendStream, id: StreamId, live: set<nat>, tx: seq<Fragment>, pn: nat)
    requires Ackable(st, id, live, tx, pn) && tx[pn].start == st.ackedOffset
    ensures OutstandingOk(id, InOrder(st, tx[pn]), live - {pn}, tx)
  {
    OutstandingIsEarly(st, id, live, tx, pn);
    MergeBounds(tx[pn].End(), st.outstanding);
  }

  lemma InOrderCovered(st: SendStream, id: StreamId, live: set<nat>, tx: seq<Fragment>, pn: nat)
    requires Ackable(st, id, live, tx, pn) && tx[pn].start == st.ackedOffset
    ensures Covered(id, InOrder(st, tx[pn]), live - {pn}, tx)
  {
    var st' := InOrder(st, tx[pn]);
    OutstandingIsEarly(st, id, live, tx, pn);
    MergeBounds(tx[pn].End(), st.outstanding);
    forall b | st'.ackedOffset <= b < st'.sentOffset ensures Held(id, st', live - {pn}, tx, b) {
      assert Held(id, st, live, tx, b);
      if i :| i in live && i < |tx| && tx[i].Has(id, b) {
        assert i != pn;
      } else {
        var k :| k in st.outstanding && Fragment(id, k, st.outstanding[k]).Has(id, b);
        assert k in st'.outstanding;
      }
    }
  }

  lemma InOrderQueue(st: SendStream, h: seq<byte>, f: Fragment)
    requires StreamOk(st, h) && st.ackedOffset < InOrder(st, f).ackedOffset <= st.sentOffset
    ensures Unpopped(InOrder(st, f), h)
  {
    if st.items != [] { ItemBounds(st, h, 0); }
    assert QueueOk(InOrder(st, f), h);
  }

  /** Acking a live packet's stretch: none of it was acked before, the stream stays sound, and everything still live
      stays above its acked offset. */
  lemma RegionFacts(st: SendStream, h: seq<byte>, id: StreamId, live: set<nat>, tx: seq<Fragment>, pn: nat)
    requires StreamOk(st, h) && Ackable(st, id, live, tx, pn)
    ensures st.ackedOffset <= tx[pn].start < tx[pn].End()
    ensures var (st', buffers) := AckRegion(st, tx[pn].start, tx[pn].length);
      && StreamOk(st', h) && Acked(st', id, live - {pn}, tx)
      && st'.sentOffset == st.sentOffset && st.ackedOffset <= st'.ackedOffset
      && st'.End() == st.End() && st.popped <= st'.popped
      && (forall n: nat :: Kept(st, st', n))
      && st.Reported() <= st'.Reported() <= |h|
      && Concat(buffers) == h[st.Reported()..st'.Reported()]
  {
    hide StreamOk, Acked, FixedCuts, LiveDistinct, OutstandingOk, Covered, PopAcked, MergeAcks;
    var f := tx[pn];
    if st.ackedOffset < f.start {
      RegionEarly(st, h, id, live, tx, pn);
    } else {
      InOrderBound(st, id, live, tx, pn);
      var mid := InOrder(st, f);
      InOrderQueue(st, h, f);
      PopFacts(mid, h);
      RegionInOrder(st, id, live, tx, pn, PopAcked(mid).0);
      RegionKept(st, mid, PopAcked(mid).0, PopAcked(mid).1, h);
      assert AckRegion(st, f.start, f.length) == PopAcked(mid);
    }
  }

  /** Item `n` is still there unless all its bytes are acked. */
  ghost predicate Kept(st: SendStream, st': SendStream, n: nat) {
    st.popped <= n < st.End() && st'.ackedOffset < st.Item(n).streamOffset + |st.Item(n).data| ==>
      st'.popped <= n < st'.End() && st'.Item(n) == st.Item(n)
  }

  lemma RegionEarly(st: SendStream, h: seq<byte>, id: StreamId, live: set<nat>, tx: seq<Fragment>, pn: nat)
    requires StreamOk(st, h) && Ackable(st, id, live, tx, pn) && st.ackedOffset < tx[pn].start
    ensures var st' := Early(st, tx[pn]);
      && StreamOk(st', h) && Acked(st', id, live - {pn}, tx)
      && (forall n: nat :: Kept(st, st', n))
      && st.Reported() == st'.Reported() <= |h|
  {
    EarlyOutstanding(st, id, live, tx, pn);
    EarlyCovered(st, id, live, tx, pn);
    EarlyStream(st, h, tx[pn]);
  }

  lemma EarlyStream(st: SendStream, h: seq<byte>, f: Fragment)
    requires StreamOk(st, h)
    ensures StreamOk(Early(st, f), h)
    ensures st.Reported() <= |h|
  {
    if st.items != [] { ItemBounds(st, h, 0); }
  }

  lemma RegionInOrder(st: SendStream, id: StreamId, live: set<nat>, tx: seq<Fragment>, pn: nat, st': SendStream)
    requires Ackable(st, id, live, tx, pn) && tx[pn].start == st.ackedOffset
    requires var mid := InOrder(st, tx[pn]);
      st'.ackedOffset == mid.ackedOffset && st'.outstanding == mid.outstanding && st'.sentOffset == mid.sentOffset
    ensures Acked(st', id, live - {pn}, tx)
  {
    var mid := InOrder(st, tx[pn]);
    InOrderOutstanding(st, id, live, tx, pn);
    InOrderCovered(st, id, live, tx, pn);
    forall i | i in live - {pn} && i < |tx| && tx[i].stream == id ensures st'.ackedOffset <= tx[i].start {
      InOrderStarts(st, id, live, tx, pn, i);
    }
    forall b | st'.ackedOffset <= b < st'.sentOffset ensures Held(id, st', live - {pn}, tx, b) {
      assert Held(id, mid, live - {pn}, tx, b);
    }
  }

  lemma RegionKept(st: SendStream, mid: SendStream, st': SendStream, buffers: seq<seq<byte>>, h: seq<byte>)
    requires mid == st.(ackedOffset := mid.ackedOffset, outstanding := mid.outstanding)
    requires st.ackedOffset <= mid.ackedOffset && PopOk(mid, st', buffers, h)
    ensures st'.sentOffset == st.sentOffset && st.ackedOffset <= st'.ackedOffset && st'.End() == st.End()
    ensures st.popped <= st'.popped
    ensures forall n: nat :: Kept(st, st', n)
    ensures st.Reported() <= st'.Reported() <= |h| && Concat(buffers) == h[st.Reported()..st'.Reported()]
  {
    forall n: nat ensures Kept(st, st', n) {
      assert Survives(mid, st', n);
      assert mid.Item(n) == st.Item(n);
    }
  }

  // ---- The whole sender -------------------------------------------------------------------------------

  lemma RecordsAcked(streams: map<StreamId, SendStream>, id: StreamId, st': SendStream,
                     m: map<nat, SentPacket>, tx: seq<Fragment>)
    requires id in streams && RecordsOk(streams, m, tx)
    requires forall n: nat :: Kept(streams[id], st', n)
    requires forall pn :: pn in m && pn < |tx| && tx[pn].stream == id ==>
      st'.ackedOffset <= tx[pn].start && 0 < tx[pn].length
    requires forall pn :: pn in m && pn < |tx| && tx[pn].stream == id ==> ItemFits(streams[id], m[pn])
    ensures RecordsOk(streams[id := st'], m, tx)
  {
    forall pn | pn in m ensures pn < |tx| && RecordOk(streams[id := st'], m[pn], tx[pn]) {
      assert RecordOk(streams, m[pn], tx[pn]);
      if m[pn].stream == id {
        assert Kept(streams[id], st', m[pn].item);
      }
    }
  }

  /** Sent bytes of an item lie inside its buffer. */
  ghost predicate ItemFits(st: SendStream, p: SentPacket) {
    st.popped <= p.item < st.End() ==> st.Item(p.item).sentOffset <= |st.Item(p.item).data|
  }

  lemma ItemsFit(st: SendStream, p: SentPacket)
    requires CursorOk(st)
    ensures ItemFits(st, p)
  {
  }

  lemma HoldersAcked(streams: map<StreamId, SendStream>, id: StreamId, st': SendStream,
                     live: set<nat>, tx: seq<Fragment>, pn: nat)
    requires HoldersOk(streams, live, tx) && pn < |tx| && tx[pn].stream == id
    requires OutstandingOk(id, st', live - {pn}, tx) && Covered(id, st', live - {pn}, tx)
    ensures HoldersOk(streams[id := st'], live - {pn}, tx)
  {
    var streams' := streams[id := st'];
    forall j | j in streams'
      ensures OutstandingOk(j, streams'[j], live - {pn}, tx) && Covered(j, streams'[j], live - {pn}, tx)
    {
      if j != id {
        assert OutstandingOk(j, streams[j], live, tx) && Covered(j, streams[j], live, tx);
        forall b | streams[j].ackedOffset <= b < streams[j].sentOffset ensures Held(j, streams[j], live - {pn}, tx, b) {
          assert Held(j, streams[j], live, tx, b);
        }
      }
    }
  }

  lemma AckableNow(s: Sender, h: History, tx: seq<Fragment>, pn: nat)
    requires Inv(s, h, tx) && pn in s.sent
    ensures pn < |tx| && tx[pn].stream == s.sent[pn].stream && tx[pn].stream in s.streams
    ensures StreamOk(s.streams[tx[pn].stream], h[tx[pn].stream])
    ensures Ackable(s.streams[tx[pn].stream], tx[pn].stream, LiveOf(s), tx, pn)
    ensures var p := s.sent[pn];
      s.streams[p.stream].Item(p.item).streamOffset + p.offset == tx[pn].start && p.length == tx[pn].length
  {
    hide StreamOk, FixedCuts, LiveDistinct, OutstandingOk, Covered;
    assert RecordOk(s.streams, s.sent[pn], tx[pn]);
    var id := tx[pn].stream;
    forall i | i in LiveOf(s) && i < |tx| && tx[i].stream == id
      ensures s.streams[id].ackedOffset <= tx[i].start
    {
      if i in s.sent {
        assert RecordOk(s.streams, s.sent[i], tx[i]);
      } else {
        assert RecordOk(s.streams, s.lost[i], tx[i]);
      }
    }
  }

  lemma AckEffect(s: Sender, pn: nat, limited: bool, st': SendStream)
    requires pn in s.sent
    requires var p := s.sent[pn]; var st := s.Stream(p.stream);
      st' == AckRegion(st, st.Item(p.item).streamOffset + p.offset, p.length).0
    ensures var s' := AckPacket(s, pn, limited).0; var id := s.sent[pn].stream;
      && s'.streams == s.streams[id := st'.(bytesInFlight := st'.bytesInFlight - s.sent[pn].length)]
      && s'.sent == s.sent - {pn} && s'.lost == s.lost && s'.nextPacket == s.nextPacket
  {
  }

  lemma LiveDrop(live: set<nat>, tx: seq<Fragment>, pn: nat)
    requires LiveDistinct(live, tx)
    ensures LiveDistinct(live - {pn}, tx)
  {
  }

  lemma StreamsAcked(streams: map<StreamId, SendStream>, h: History, tx: seq<Fragment>, id: StreamId, st': SendStream)
    requires StreamsOk(streams, h) && HistoryOk(streams, tx) && id in streams
    requires StreamOk(st', h[id]) && st'.sentOffset == streams[id].sentOffset
    ensures StreamsOk(streams[id := st'], h) && HistoryOk(streams[id := st'], tx)
  {
    hide StreamOk;
  }

  lemma LiveAbove(s: Sender, tx: seq<Fragment>, id: StreamId, st': SendStream, pn: nat, m: map<nat, SentPacket>)
    requires Acked(st', id, LiveOf(s) - {pn}, tx) && m.Keys <= LiveOf(s) - {pn}
    requires id in s.streams && CursorOk(s.streams[id]) && HistoryOk(s.streams, tx)
    ensures forall i :: i in m && i < |tx| && tx[i].stream == id ==> st'.ackedOffset <= tx[i].start && 0 < tx[i].length
    ensures forall i :: i in m && i < |tx| && tx[i].stream == id ==> ItemFits(s.streams[id], m[i])
  {
    forall i | i in m && i < |tx| && tx[i].stream == id ensures ItemFits(s.streams[id], m[i]) {
      ItemsFit(s.streams[id], m[i]);
    }
  }

  lemma AckAssemble(s: Sender, s': Sender, h: History, tx: seq<Fragment>, pn: nat, id: StreamId, st': SendStream)
    requires Inv(s, h, tx) && pn in s.sent && pn < |tx| && tx[pn].stream == id && id in s.streams
    requires s'.streams == s.streams[id := st'] && s'.sent == s.sent - {pn} && s'.lost == s.lost
    requires s'.nextPacket == s.nextPacket
    requires StreamOk(st', h[id]) && Acked(st', id, LiveOf(s) - {pn}, tx) && st'.sentOffset == s.streams[id].sentOffset
    requires forall n: nat :: Kept(s.streams[id], st', n)
    requires CursorOk(s.streams[id])
    ensures Inv(s', h, tx)
  {
    hide StreamOk, RecordOk, HistoryOk, FixedCuts, LiveDistinct, HoldersOk, RecordsOk, StreamsOk, CursorOk, Kept, ItemFits,
         OutstandingOk, Covered;
    assert LiveOf(s') == LiveOf(s) - {pn};
    StreamsAcked(s.streams, h, tx, id, st');
    LiveDrop(LiveOf(s), tx, pn);
    RecordsDrop(s.streams, s.sent, pn, tx);
    LiveAbove(s, tx, id, st', pn, s'.sent);
    LiveAbove(s, tx, id, st', pn, s.lost);
    RecordsAcked(s.streams, id, st', s'.sent, tx);
    RecordsAcked(s.streams, id, st', s.lost, tx);
    HoldersAcked(s.streams, id, st', LiveOf(s), tx, pn);
  }

  lemma StreamHas(streams: map<StreamId, SendStream>, h: History, id: StreamId)
    requires StreamsOk(streams, h) && id in streams
    ensures id in h && StreamOk(streams[id], h[id]) && CursorOk(streams[id])
  {
  }

  lemma FlightIrrelevant(st: SendStream, st': SendStream, n: int, h: seq<byte>, id: StreamId, live: set<nat>, tx: seq<Fragment>)
    requires StreamOk(st', h) && Acked(st', id, live, tx) && forall k: nat :: Kept(st, st', k)
    ensures var st1 := st'.(bytesInFlight := n);
      StreamOk(st1, h) && Acked(st1, id, live, tx) && forall k: nat :: Kept(st, st1, k)
  {
    var st1 := st'.(bytesInFlight := n);
    StreamFlight(st', n, h);
    forall b | st1.ackedOffset <= b < st1.sentOffset ensures Held(id, st1, live, tx, b) {
      assert Held(id, st', live, tx, b);
    }
    forall k: nat ensures Kept(st, st1, k) {
      assert Kept(st, st', k);
    }
  }

  /** The effect of AckPacket on the stream it concerns. */
  function AckedStream(s: Sender, pn: nat): SendStream
    requires pn in s.sent
  {
    var p := s.sent[pn];
    var st := s.Stream(p.stream);
    AckRegion(st, st.Item(p.item).streamOffset + p.offset, p.length).0
  }

  /** Acking one packet in flight keeps the partition. */
  lemma AckPacketKeeps(s: Sender, h: History, tx: seq<Fragment>, pn: nat, limited: bool)
    requires Inv(s, h, tx) && pn in s.sent
    ensures Inv(AckPacket(s, pn, limited).0, h, tx)
  {
    hide StreamOk, RecordOk, HistoryOk, FixedCuts, LiveDistinct, HoldersOk, RecordsOk, StreamsOk, CursorOk, Kept, ItemFits,
         OutstandingOk, Covered, Acked, Ackable, AckRegion, AckPacket;
    AckableNow(s, h, tx, pn);
    var id := tx[pn].stream;
    var st := s.streams[id];
    var st' := AckedStream(s, pn);
    StreamHas(s.streams, h, id);
    RegionFacts(st, h[id], id, LiveOf(s), tx, pn);
    AckEffect(s, pn, limited, st');
    FlightIrrelevant(st, st', st'.bytesInFlight - s.sent[pn].length, h[id], id, LiveOf(s) - {pn}, tx);
    AckAssemble(s, AckPacket(s, pn, limited).0, h, tx, pn, id, st'.(bytesInFlight := st'.bytesInFlight - s.sent[pn].length));
  }
}
