/**
 The partition of unacked data: on every stream, the bytes between `ackedOffset` and `sentOffset` are held
 exactly once, by a packet in flight, a lost packet, or an out-of-order ack.
 */
module Tiling {
  import opened Bytes
  import opened Sending

  /** A transmitted stretch of a stream. Entry `pn` of a history is what packet number `pn` carried. */
  datatype Fragment = Fragment(stream: StreamId, start: nat, length: nat) {
    function End(): nat { start + length }
    predicate Has(id: StreamId, b: nat) { stream == id && start <= b < End() }
  }

  /** Everything ever handed to `send`, per stream. */
  type History = map<StreamId, seq<byte>>

  predicate Apart(a: Fragment, b: Fragment) {
    a.stream != b.stream || a.End() <= b.start || b.End() <= a.start
  }

  // ---- The queue of one stream ------------------------------------------------------------------------

  ghost predicate QueueOk(st: SendStream, h: seq<byte>) {
    && |h| == st.queueOffset
    && (forall k :: 0 <= k < |st.items| ==> ItemOk(st.items[k], h))
    && (forall k :: 0 <= k < |st.items| - 1 ==>
          st.items[k].streamOffset + |st.items[k].data| == st.items[k + 1].streamOffset)
    && (st.items != [] ==>
          var last := st.items[|st.items| - 1]; last.streamOffset + |last.data| == st.queueOffset)
  }

  ghost predicate ItemOk(item: DataItem, h: seq<byte>) {
    && 0 < |item.data|
    && item.streamOffset + |item.data| <= |h|
    && item.data == h[item.streamOffset..item.streamOffset + |item.data|]
  }

  /** The iterator points at the first item with unsent bytes, and `sentOffset` says where those begin. */
  ghost predicate CursorOk(st: SendStream) {
    && st.popped <= st.next <= st.End()
    && (forall k :: 0 <= k < st.next - st.popped ==> st.items[k].sentOffset == |st.items[k].data|)
    && (forall k :: st.next - st.popped < k < |st.items| ==> st.items[k].sentOffset == 0)
    && (if st.next == st.End() then st.sentOffset == st.queueOffset
        else
          var item := st.items[st.next - st.popped];
          item.sentOffset < |item.data| && st.sentOffset == item.streamOffset + item.sentOffset)
  }

  /** `acked` lies in the first item, or at the end of an empty queue. */
  ghost predicate AckedOk(st: SendStream) {
    && st.ackedOffset <= st.sentOffset <= st.queueOffset
    && (if st.items == [] then st.ackedOffset == st.queueOffset
        else st.items[0].streamOffset <= st.ackedOffset < st.items[0].streamOffset + |st.items[0].data|)
  }

  ghost predicate StreamOk(st: SendStream, h: seq<byte>) {
    QueueOk(st, h) && CursorOk(st) && AckedOk(st)
  }

  // ---- Records and history ----------------------------------------------------------------------------

  /** A record in flight or lost: its item is still queued, and it describes the unacked fragment `f`. */
  ghost predicate RecordOk(streams: map<StreamId, SendStream>, p: SentPacket, f: Fragment) {
    && p.stream == f.stream && p.stream in streams
    && var st := streams[p.stream];
    && st.popped <= p.item < st.End()
    && var item := st.items[p.item - st.popped];
    && item.streamOffset + p.offset == f.start
    && p.length == f.length
    && p.offset + p.length <= item.sentOffset
    && st.ackedOffset <= f.start
  }

  ghost predicate RecordsOk(streams: map<StreamId, SendStream>, m: map<nat, SentPacket>, tx: seq<Fragment>) {
    forall pn :: pn in m ==> pn < |tx| && RecordOk(streams, m[pn], tx[pn])
  }

  ghost predicate HistoryOk(streams: map<StreamId, SendStream>, tx: seq<Fragment>) {
    forall i :: 0 <= i < |tx| ==>
      && 0 < tx[i].length <= FRAGMENT_SIZE
      && tx[i].stream in streams && tx[i].End() <= streams[tx[i].stream].sentOffset
  }

  /** Fragmentation is fixed: two transmissions carry the same stretch or disjoint ones. */
  ghost predicate FixedCuts(tx: seq<Fragment>) {
    forall i, j :: 0 <= i < |tx| && 0 <= j < |tx| ==> tx[i] == tx[j] || Apart(tx[i], tx[j])
  }

  /** No stretch is carried by two live records. */
  ghost predicate LiveDistinct(live: set<nat>, tx: seq<Fragment>) {
    forall i, j :: i in live && j in live && i < |tx| && j < |tx| && tx[i] == tx[j] ==> i == j
  }

  /** Entry `k` of the out-of-order acks stands for a transmitted, unacked stretch no live record carries. */
  ghost predicate OutstandingOk(id: StreamId, st: SendStream, live: set<nat>, tx: seq<Fragment>) {
    forall k :: k in st.outstanding ==>
      && st.ackedOffset < k
      && Fragment(id, k, st.outstanding[k]) in tx
      && (forall i :: i in live && i < |tx| ==> tx[i] != Fragment(id, k, st.outstanding[k]))
  }

  ghost predicate Held(id: StreamId, st: SendStream, live: set<nat>, tx: seq<Fragment>, b: nat) {
    || (exists i :: i in live && i < |tx| && tx[i].Has(id, b))
    || (exists k :: k in st.outstanding && Fragment(id, k, st.outstanding[k]).Has(id, b))
  }

  ghost predicate Covered(id: StreamId, st: SendStream, live: set<nat>, tx: seq<Fragment>) {
    forall b :: st.ackedOffset <= b < st.sentOffset ==> Held(id, st, live, tx, b)
  }

  function LiveOf(s: Sender): set<nat> { s.sent.Keys + s.lost.Keys }

  ghost predicate StreamsOk(streams: map<StreamId, SendStream>, h: History) {
    && streams.Keys == h.Keys
    && (forall id :: id in streams ==> StreamOk(streams[id], h[id]))
  }

  ghost predicate HoldersOk(streams: map<StreamId, SendStream>, live: set<nat>, tx: seq<Fragment>) {
    forall id :: id in streams ==>
      OutstandingOk(id, streams[id], live, tx) && Covered(id, streams[id], live, tx)
  }

  ghost predicate Inv(s: Sender, h: History, tx: seq<Fragment>) {
    && |tx| == s.nextPacket
    && StreamsOk(s.streams, h)
    && RecordsOk(s.streams, s.sent, tx) && RecordsOk(s.streams, s.lost, tx)
    && s.sent.Keys !! s.lost.Keys
    && HistoryOk(s.streams, tx) && FixedCuts(tx) && LiveDistinct(LiveOf(s), tx)
    && HoldersOk(s.streams, LiveOf(s), tx)
  }

  // ---- The partition, read off the invariant ------------------------------------------------------------

  datatype Holder = InFlight(pn: nat) | Lost(pn: nat) | AckedEarly(start: nat)

  ghost predicate Holds(s: Sender, tx: seq<Fragment>, o: Holder, id: StreamId, b: nat) {
    match o
    case InFlight(pn) => pn in s.sent && pn < |tx| && tx[pn].Has(id, b)
    case Lost(pn) => pn in s.lost && pn < |tx| && tx[pn].Has(id, b)
    case AckedEarly(k) => id in s.streams && k in s.streams[id].outstanding
                          && Fragment(id, k, s.streams[id].outstanding[k]).Has(id, b)
  }

  lemma HolderExists(s: Sender, tx: seq<Fragment>, id: StreamId, b: nat) returns (o: Holder)
    requires id in s.streams && Covered(id, s.streams[id], LiveOf(s), tx)
    requires s.streams[id].ackedOffset <= b < s.streams[id].sentOffset
    ensures Holds(s, tx, o, id, b)
  {
    assert Held(id, s.streams[id], LiveOf(s), tx, b);
    if i :| i in LiveOf(s) && i < |tx| && tx[i].Has(id, b) {
      o := if i in s.sent then InFlight(i) else Lost(i);
    } else {
      var k :| k in s.streams[id].outstanding && Fragment(id, k, s.streams[id].outstanding[k]).Has(id, b);
      o := AckedEarly(k);
    }
  }

  lemma HolderFragment(s: Sender, tx: seq<Fragment>, o: Holder, id: StreamId, b: nat) returns (i: nat)
    requires id in s.streams && OutstandingOk(id, s.streams[id], LiveOf(s), tx) && Holds(s, tx, o, id, b)
    ensures i < |tx| && tx[i].Has(id, b)
    ensures !o.AckedEarly? ==> i == o.pn
    ensures o.AckedEarly? ==> tx[i] == Fragment(id, o.start, s.streams[id].outstanding[o.start])
  {
    if o.AckedEarly? {
      var f := Fragment(id, o.start, s.streams[id].outstanding[o.start]);
      assert OutstandingOk(id, s.streams[id], LiveOf(s), tx);
      i :| 0 <= i < |tx| && tx[i] == f;
    } else {
      i := o.pn;
    }
  }

  /** Unacked sent bytes have exactly one holder; all other bytes of the stream have none. */
  lemma TiledExactlyOnce(s: Sender, h: History, tx: seq<Fragment>, id: StreamId, b: nat)
    requires Inv(s, h, tx) && id in s.streams
    ensures s.streams[id].ackedOffset <= b < s.streams[id].sentOffset <==> exists o :: Holds(s, tx, o, id, b)
    ensures forall o, o' :: Holds(s, tx, o, id, b) && Holds(s, tx, o', id, b) ==> o == o'
  {
    hide StreamOk, RecordOk, FixedCuts, LiveDistinct, OutstandingOk, Covered, HistoryOk, RecordsOk;
    if s.streams[id].ackedOffset <= b < s.streams[id].sentOffset {
      var o := HolderExists(s, tx, id, b);
    }
    forall o | Holds(s, tx, o, id, b)
      ensures s.streams[id].ackedOffset <= b < s.streams[id].sentOffset
    {
      HolderInside(s, h, tx, o, id, b);
    }
    forall o, o' | Holds(s, tx, o, id, b) && Holds(s, tx, o', id, b)
      ensures o == o'
    {
      HolderUnique(s, tx, o, o', id, b);
    }
  }

  lemma HolderInside(s: Sender, h: History, tx: seq<Fragment>, o: Holder, id: StreamId, b: nat)
    requires Inv(s, h, tx) && id in s.streams && Holds(s, tx, o, id, b)
    ensures s.streams[id].ackedOffset <= b < s.streams[id].sentOffset
  {
    var i := HolderFragment(s, tx, o, id, b);
  }

  lemma HolderUnique(s: Sender, tx: seq<Fragment>, o: Holder, o': Holder, id: StreamId, b: nat)
    requires s.sent.Keys !! s.lost.Keys && FixedCuts(tx) && LiveDistinct(LiveOf(s), tx)
    requires id in s.streams && OutstandingOk(id, s.streams[id], LiveOf(s), tx)
    requires Holds(s, tx, o, id, b) && Holds(s, tx, o', id, b)
    ensures o == o'
  {
    var i := HolderFragment(s, tx, o, id, b);
    var j := HolderFragment(s, tx, o', id, b);
    assert !Apart(tx[i], tx[j]);
    assert tx[i] == tx[j];
    if !o.AckedEarly? && !o'.AckedEarly? {
      assert i in LiveOf(s) && j in LiveOf(s);
    }
  }
}
