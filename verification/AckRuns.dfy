/** A whole ACK: it removes from flight exactly the packets it names, and acknowledges only what was received. */
module AckRuns {
  import opened Bytes
  import opened Sending
  import opened Tiling
  import opened TilingSteps
  import opened AckSteps
  import opened SendingRuns
  import opened Receiving
  import Ranges = AckRanges

  // ---- Which packets an ACK removes -----------------------------------------------------------------------

  lemma {:induction false} RangeRemoves(s: Sender, pn: nat, high: int, limited: bool, n: nat)
    ensures var sent := AckRange(s, pn, high, limited).0.sent;
      && (n in sent <==> n in s.sent && !(pn <= n <= high))
      && (n in sent ==> sent[n] == s.sent[n])
    decreases high - pn
  {
    if pn <= high {
      RangeRemoves(if pn in s.sent then AckPacket(s, pn, limited).0 else s, pn + 1, high, limited, n);
    }
  }

  /** An ACK takes out of flight exactly the packets whose numbers lie in its seen runs. */
  lemma {:induction false} AckRemovesExactly(s: Sender, high: int, ranges: seq<nat>, gap: bool, limited: bool, n: nat)
    ensures var sent := Sending.AckRuns(s, high, ranges, gap, limited).0.sent;
      && (n in sent <==> n in s.sent && !Ranges.InRuns(high, ranges, gap, n))
      && (n in sent ==> sent[n] == s.sent[n])
    decreases |ranges|
  {
    if ranges != [] {
      var low := high - ranges[0];
      if gap {
        AckRemovesExactly(s, low, ranges[1..], false, limited, n);
        if Ranges.InRuns(low, ranges[1..], false, n) { Ranges.SeenInside(low, ranges[1..], false, n); }
      } else {
        var from: nat := if low + 1 < 0 then 0 else low + 1;
        RangeRemoves(s, from, high, limited, n);
        AckRemovesExactly(AckRange(s, from, high, limited).0, low, ranges[1..], true, limited, n);
        if Ranges.InRuns(low, ranges[1..], true, n) { Ranges.SeenInside(low, ranges[1..], true, n); }
      }
    }
  }

  // ---- Acked means received -------------------------------------------------------------------------------

  predicate HasFragment(receivers: Receivers, f: Fragment) {
    Have(RecvOf(receivers, f.stream), f.start, f.length)
  }

  /** Everything acked on a stream has been read by the peer; everything acked early is at least held there. */
  ghost predicate LinkOk(st: SendStream, r: RecvState) {
    && st.ackedOffset <= r.readOffset
    && forall k :: k in st.outstanding ==> Have(r, k, st.outstanding[k])
  }

  ghost predicate Linked(streams: map<StreamId, SendStream>, receivers: Receivers) {
    forall id :: id in streams ==> LinkOk(streams[id], RecvOf(receivers, id))
  }

  /** Buffered slices start above the read offset. */
  ghost predicate AboveRead(receivers: Receivers) {
    forall id :: id in receivers ==> forall k :: k in receivers[id].packets ==> receivers[id].readOffset < k
  }

  lemma {:induction false} MergeRead(acked: nat, m: map<nat, nat>, r: RecvState)
    requires acked <= r.readOffset
    requires forall k :: k in m ==> Have(r, k, m[k])
    requires forall k :: k in r.packets ==> r.readOffset < k
    ensures MergeAcks(acked, m).0 <= r.readOffset
    ensures forall k :: k in MergeAcks(acked, m).1 ==> k in m && MergeAcks(acked, m).1[k] == m[k]
    decreases |m|
  {
    if m != map[] && Least(m.Keys) <= acked {
      var k: nat := Least(m.Keys);
      assert |m - {k}| < |m| by { assert (m - {k}).Keys == m.Keys - {k}; }
      var reached := k + m[k];
      assert Have(r, k, m[k]);
      MergeRead(if acked < reached then reached else acked, m - {k}, r);
    }
  }

  lemma {:induction false} PopAcks(st: SendStream)
    ensures PopAcked(st).0.ackedOffset == st.ackedOffset && PopAcked(st).0.outstanding == st.outstanding
    decreases |st.items|
  {
    if st.items != [] && st.items[0].streamOffset + |st.items[0].data| <= st.ackedOffset {
      PopAcks(PopOne(st));
    }
  }

  /** An ack for bytes the receiver holds never moves the acked offset past what it has read. */
  lemma RegionLinked(st: SendStream, r: RecvState, start: nat, length: nat)
    requires LinkOk(st, r) && Have(r, start, length)
    requires forall k :: k in r.packets ==> r.readOffset < k
    ensures LinkOk(AckRegion(st, start, length).0, r)
  {
    if st.ackedOffset >= start && st.ackedOffset < start + length {
      MergeRead(start + length, st.outstanding, r);
      var (acked, outstanding) := MergeAcks(start + length, st.outstanding);
      PopAcks(st.(ackedOffset := acked, outstanding := outstanding));
    }
  }

  // ---- Buffers handed back ----------------------------------------------------------------------------------

  /** The bytes handed back on one stream, in order. */
  function Handed(notes: seq<Note>, id: StreamId): seq<byte> {
    if notes == [] then []
    else (if notes[0].stream == id then notes[0].data else []) + Handed(notes[1..], id)
  }

  lemma {:induction false} HandedSplit(a: seq<Note>, b: seq<Note>, id: StreamId)
    ensures Handed(a + b, id) == Handed(a, id) + Handed(b, id)
  {
    if a == [] {
      assert a + b == b;
    } else {
      assert (a + b)[1..] == a[1..] + b;
      HandedSplit(a[1..], b, id);
    }
  }

  function NotesOf(stream: StreamId, buffers: seq<seq<byte>>): seq<Note> {
    seq(|buffers|, i requires 0 <= i < |buffers| => Note(stream, buffers[i]))
  }

  lemma {:induction false} HandedOf(stream: StreamId, buffers: seq<seq<byte>>, id: StreamId)
    ensures Handed(NotesOf(stream, buffers), id) == if id == stream then Concat(buffers) else []
    decreases |buffers|
  {
    if buffers != [] {
      assert NotesOf(stream, buffers)[1..] == NotesOf(stream, buffers[1..]);
      HandedOf(stream, buffers[1..], id);
    }
  }

  /** What has been handed back on each stream is its history up to the first unfinished buffer. */
  ghost predicate NotesOk(streams: map<StreamId, SendStream>, notes: seq<Note>, h: History) {
    && streams.Keys == h.Keys
    && (forall id :: id in streams ==> streams[id].Reported() <= |h[id]|)
    && (forall id: StreamId :: Handed(notes, id) == if id in streams then h[id][..streams[id].Reported()] else [])
  }

  // ---- One packet -----------------------------------------------------------------------------------------

  /** All that acknowledging keeps. */
  ghost predicate Sound(s: Sender, h: History, tx: seq<Fragment>, receivers: Receivers, notes: seq<Note>) {
    Inv(s, h, tx) && Linked(s.streams, receivers) && NotesOk(s.streams, notes, h)
  }

  lemma AckPacketEffect(s: Sender, pn: nat, limited: bool, h: History, tx: seq<Fragment>)
    requires Inv(s, h, tx) && pn in s.sent
    ensures pn < |tx| && tx[pn].stream in s.streams && tx[pn].stream in h
    ensures var id := tx[pn].stream;
      var (st', buffers) := AckRegion(s.streams[id], tx[pn].start, tx[pn].length);
      var (s', more) := AckPacket(s, pn, limited);
      && s'.streams == s.streams[id := st'.(bytesInFlight := st'.bytesInFlight - tx[pn].length)]
      && more == NotesOf(id, buffers)
      && s.streams[id].Reported() <= st'.Reported() <= |h[id]|
      && Concat(buffers) == h[id][s.streams[id].Reported()..st'.Reported()]
  {
    hide StreamOk, RecordOk, HistoryOk, FixedCuts, LiveDistinct, HoldersOk, RecordsOk, Ackable, Acked, AckRegion, Kept;
    AckableNow(s, h, tx, pn);
    var id := tx[pn].stream;
    RegionFacts(s.streams[id], h[id], id, LiveOf(s), tx, pn);
  }

  lemma LinkedUpdate(streams: map<StreamId, SendStream>, id: StreamId, st': SendStream, receivers: Receivers)
    requires Linked(streams, receivers) && LinkOk(st', RecvOf(receivers, id))
    ensures Linked(streams[id := st'], receivers)
  {
  }

  lemma NotesUpdate(streams: map<StreamId, SendStream>, id: StreamId, st': SendStream, notes: seq<Note>,
                    buffers: seq<seq<byte>>, h: History)
    requires NotesOk(streams, notes, h) && id in streams
    requires streams[id].Reported() <= st'.Reported() <= |h[id]|
    requires Concat(buffers) == h[id][streams[id].Reported()..st'.Reported()]
    ensures NotesOk(streams[id := st'], notes + NotesOf(id, buffers), h)
  {
    var streams' := streams[id := st'];
    var more := NotesOf(id, buffers);
    hide Concat, NotesOf, Handed;
    forall j: StreamId
      ensures Handed(notes + more, j) == if j in streams' then h[j][..streams'[j].Reported()] else []
    {
      HandedSplit(notes, more, j);
      HandedOf(id, buffers, j);
      assert Handed(notes, j) == if j in streams then h[j][..streams[j].Reported()] else [];
      if j == id {
        assert h[id][..st'.Reported()] == h[id][..streams[id].Reported()] + h[id][streams[id].Reported()..st'.Reported()];
      }
    }
  }

  lemma AckPacketSound(s: Sender, pn: nat, limited: bool, h: History, tx: seq<Fragment>, receivers: Receivers, notes: seq<Note>)
    requires Sound(s, h, tx, receivers, notes) && AboveRead(receivers)
    requires pn in s.sent && pn < |tx| && HasFragment(receivers, tx[pn])
    ensures var (s', more) := AckPacket(s, pn, limited); Sound(s', h, tx, receivers, notes + more)
  {
    hide Inv, NotesOk, AckRegion, AckPacket, LinkOk;
    AckPacketKeeps(s, h, tx, pn, limited);
    AckPacketEffect(s, pn, limited, h, tx);
    var id := tx[pn].stream;
    var (st', buffers) := AckRegion(s.streams[id], tx[pn].start, tx[pn].length);
    var r := RecvOf(receivers, id);
    assert LinkOk(s.streams[id], r);
    assert forall k :: k in r.packets ==> r.readOffset < k;
    RegionLinked(s.streams[id], r, tx[pn].start, tx[pn].length);
    var st1 := st'.(bytesInFlight := st'.bytesInFlight - tx[pn].length);
    LinkFlight(st', st1, r);
    LinkedUpdate(s.streams, id, st1, receivers);
    NotesUpdate(s.streams, id, st1, notes, buffers, h);
  }

  lemma LinkFlight(st: SendStream, st1: SendStream, r: RecvState)
    requires LinkOk(st, r) && st1.ackedOffset == st.ackedOffset && st1.outstanding == st.outstanding
    ensures LinkOk(st1, r)
  {
  }

  // ---- The whole ACK ----------------------------------------------------------------------------------------

  /** Every fragment in `seen` is held by its receiver. */
  ghost predicate AllHave(tx: seq<Fragment>, receivers: Receivers, seen: set<nat>) {
    forall n :: n in seen ==> n < |tx| && HasFragment(receivers, tx[n])
  }

  lemma {:induction false} RangeSound(s: Sender, pn: nat, high: int, limited: bool, h: History, tx: seq<Fragment>,
                                      receivers: Receivers, notes: seq<Note>, seen: set<nat>)
    requires Sound(s, h, tx, receivers, notes) && AboveRead(receivers) && AllHave(tx, receivers, seen)
    requires forall n :: n in s.sent && pn <= n <= high ==> n in seen
    ensures var (s', more) := AckRange(s, pn, high, limited); Sound(s', h, tx, receivers, notes + more)
    decreases high - pn
  {
    hide Sound, AboveRead, HasFragment;
    if pn > high {
      assert notes + [] == notes;
    } else if pn !in s.sent {
      RangeSound(s, pn + 1, high, limited, h, tx, receivers, notes, seen);
    } else {
      AckPacketSound(s, pn, limited, h, tx, receivers, notes);
      var (s1, first) := AckPacket(s, pn, limited);
      RangeSound(s1, pn + 1, high, limited, h, tx, receivers, notes + first, seen);
      var (s2, more) := AckRange(s1, pn + 1, high, limited);
      assert notes + first + more == notes + (first + more);
    }
  }

  lemma {:induction false} RunsSound(s: Sender, high: int, ranges: seq<nat>, gap: bool, limited: bool, h: History, tx: seq<Fragment>,
                                     receivers: Receivers, notes: seq<Note>, seen: set<nat>)
    requires Sound(s, h, tx, receivers, notes) && AboveRead(receivers) && AllHave(tx, receivers, seen)
    requires forall n: nat :: n in s.sent && Ranges.InRuns(high, ranges, gap, n) ==> n in seen
    ensures var (s', more) := Sending.AckRuns(s, high, ranges, gap, limited); Sound(s', h, tx, receivers, notes + more)
    decreases |ranges|
  {
    hide Sound, AboveRead, AllHave;
    if ranges == [] {
      assert notes + [] == notes;
    } else {
      var low := high - ranges[0];
      forall n: nat | n in s.sent && Ranges.InRuns(low, ranges[1..], !gap, n) ensures n in seen {
        Ranges.SeenInside(low, ranges[1..], !gap, n);
        assert Ranges.InRuns(high, ranges, gap, n);
      }
      if gap {
        RunsSound(s, low, ranges[1..], false, limited, h, tx, receivers, notes, seen);
      } else {
        var from: nat := if low + 1 < 0 then 0 else low + 1;
        forall n | n in s.sent && from <= n <= high ensures n in seen {
          assert Ranges.InRuns(high, ranges, gap, n);
        }
        RangeSound(s, from, high, limited, h, tx, receivers, notes, seen);
        var (s1, first) := AckRange(s, from, high, limited);
        forall n: nat | n in s1.sent ensures n in s.sent { RangeRemoves(s, from, high, limited, n); }
        RunsSound(s1, low, ranges[1..], true, limited, h, tx, receivers, notes + first, seen);
        var (s2, more) := Sending.AckRuns(s1, low, ranges[1..], true, limited);
        assert notes + first + more == notes + (first + more);
      }
    }
  }
}
