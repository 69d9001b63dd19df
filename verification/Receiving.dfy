/** Reassembly of one stream: out-of-order slices are buffered until the bytes before them have been read. */
module Receiving {
  import opened Bytes

  datatype Phase = Recv | SizeKnown | AllRecv | Read

  /** A receive stream; `packets` maps the offset of each buffered slice to its bytes. */
  datatype RecvState = RecvState(
    phase: Phase, waitFlush: bool, size: nat, readOffset: nat, packets: map<nat, seq<byte>>)

  const FreshRecv := RecvState(Recv, false, 0, 0, map[])

  /** Reads the buffered slices that start at or below the read offset. */
  function Drain(read: nat, packets: map<nat, seq<byte>>): (nat, map<nat, seq<byte>>, seq<seq<byte>>)
    decreases |packets|
  {
    if packets == map[] then (read, packets, [])
    else
      var k: nat := Least(packets.Keys);
      if k > read then (read, packets, [])
      else
        assert |packets - {k}| < |packets| by { assert (packets - {k}).Keys == packets.Keys - {k}; }
        var p := packets[k];
        if k + |p| > read then
          var (read', packets', chunks) := Drain(k + |p|, packets - {k});
          (read', packets', [p[read - k..]] + chunks)
        else Drain(read, packets - {k})
  }

  /** Where the buffered slices reach when read from `offset` without a hole; -1 at the first hole. */
  function Reach(offset: nat, packets: map<nat, seq<byte>>): int
    decreases |packets|
  {
    if packets == map[] then offset
    else
      var k: nat := Least(packets.Keys);
      if offset < k then -1
      else
        assert |packets - {k}| < |packets| by { assert (packets - {k}).Keys == packets.Keys - {k}; }
        Reach(if offset < k + |packets[k]| then k + |packets[k]| else offset, packets - {k})
  }

  predicate CheckFinish(r: RecvState) {
    match r.phase
    case Recv => false
    case SizeKnown => Reach(r.readOffset, r.packets) == r.size
    case _ => true
  }

  predicate CheckRead(r: RecvState) {
    r.phase != Recv && r.readOffset == r.size
  }

  /** The new stream, whether the packet is acknowledged, and the chunks handed to the application. */
  datatype Received = Received(r: RecvState, acked: bool, chunks: seq<seq<byte>>)

  function Arrive(r: RecvState, offset: nat, length: nat, payload: seq<byte>, fin: bool): Received {
    if r.phase == AllRecv || r.phase == Read || r.waitFlush then Received(r, false, [])
    else
      var r1 := if fin && r.phase == Recv then r.(size := offset + length, phase := SizeKnown) else r;
      if |payload| != length then Received(r1, false, [])
      else if offset + length <= r1.readOffset then Received(r1, true, [])
      else if offset <= r1.readOffset then
        var (read, packets, chunks) := Drain(offset + length, r1.packets);
        var r2 := r1.(readOffset := read, packets := packets);
        Received(if CheckRead(r2) then r2.(phase := Read) else r2, true, [payload[r1.readOffset - offset..]] + chunks)
      else
        var r2 := if offset in r1.packets then r1 else r1.(packets := r1.packets[offset := payload]);
        Received(if CheckFinish(r2) then r2.(phase := AllRecv) else r2, true, [])
  }

  type Receivers = map<StreamId, RecvState>

  /** `get_or_create_recv_stream`. */
  function RecvOf(receivers: Receivers, id: StreamId): RecvState {
    if id in receivers then receivers[id] else FreshRecv
  }

  /** This arrival makes the stream's read offset reach its size. */
  predicate Completes(r: RecvState, o: Received) { r.phase != Read && o.r.phase == Read }

  /** The effect of a DATA packet on all streams: one that has been read to its end is erased. */
  function Dispatch(receivers: Receivers, id: StreamId, offset: nat, length: nat, payload: seq<byte>, fin: bool): Receivers {
    var r := RecvOf(receivers, id);
    var o := Arrive(r, offset, length, payload, fin);
    if Completes(r, o) then receivers - {id} else receivers[id := o.r]
  }

  // ---- Reassembly of arbitrary slices -----------------------------------------------------------------

  predicate IsSlice(d: seq<byte>, offset: nat, payload: seq<byte>) {
    offset + |payload| <= |d| && payload == d[offset..offset + |payload|]
  }

  /** The stream has read a prefix of `d` and buffers slices of `d` that start strictly above it. */
  ghost predicate Reassembles(r: RecvState, d: seq<byte>) {
    && r.readOffset <= |d|
    && r.phase != AllRecv
    && forall k :: k in r.packets ==> r.readOffset < k && IsSlice(d, k, r.packets[k])
  }

  lemma SliceTail(d: seq<byte>, offset: nat, payload: seq<byte>, from: nat)
    requires IsSlice(d, offset, payload) && offset <= from <= offset + |payload|
    ensures payload[from - offset..] == d[from..offset + |payload|]
  {
  }

  lemma ConcatFront(chunk: seq<byte>, chunks: seq<seq<byte>>, d: seq<byte>, from: nat, mid: nat, end: nat)
    requires from <= mid <= end <= |d| && chunk == d[from..mid] && Concat(chunks) == d[mid..end]
    ensures Concat([chunk] + chunks) == d[from..end]
  {
    assert ([chunk] + chunks)[1..] == chunks;
    assert d[from..end] == d[from..mid] + d[mid..end];
  }

  lemma {:induction false} DrainReads(read: nat, packets: map<nat, seq<byte>>, d: seq<byte>)
    requires read <= |d|
    requires forall k :: k in packets ==> IsSlice(d, k, packets[k])
    ensures read <= Drain(read, packets).0 <= |d|
    ensures Concat(Drain(read, packets).2) == d[read..Drain(read, packets).0]
    decreases |packets|
  {
    if packets != map[] && Least(packets.Keys) <= read {
      var k: nat := Least(packets.Keys);
      assert |packets - {k}| < |packets| by { assert (packets - {k}).Keys == packets.Keys - {k}; }
      var p := packets[k];
      assert IsSlice(d, k, p) && k + |p| <= |d|;
      hide IsSlice;
      if k + |p| > read {
        SliceTail(d, k, p, read);
        DrainReads(k + |p|, packets - {k}, d);
        var (read', packets', chunks) := Drain(k + |p|, packets - {k});
        ConcatFront(p[read - k..], chunks, d, read, k + |p|, read');
      } else {
        DrainReads(read, packets - {k}, d);
      }
    }
  }

  /** What stays buffered is untouched and lies above the read offset; what goes was read in full. */
  lemma {:induction false} DrainKeeps(read: nat, packets: map<nat, seq<byte>>)
    ensures forall k :: k in Drain(read, packets).1 ==>
      k in packets && Drain(read, packets).1[k] == packets[k] && Drain(read, packets).0 < k
    ensures forall k :: k in packets && k !in Drain(read, packets).1 ==> k + |packets[k]| <= Drain(read, packets).0
    ensures read <= Drain(read, packets).0
    decreases |packets|
  {
    if packets != map[] && Least(packets.Keys) <= read {
      var k: nat := Least(packets.Keys);
      assert |packets - {k}| < |packets| by { assert (packets - {k}).Keys == packets.Keys - {k}; }
      DrainKeeps(if k + |packets[k]| > read then k + |packets[k]| else read, packets - {k});
    }
  }

  lemma ReadNow(r: RecvState, d: seq<byte>, offset: nat, payload: seq<byte>)
    requires Reassembles(r, d) && IsSlice(d, offset, payload)
    requires offset <= r.readOffset < offset + |payload|
    ensures var (read, packets, chunks) := Drain(offset + |payload|, r.packets);
      && Reassembles(r.(readOffset := read, packets := packets), d)
      && r.readOffset <= read
      && Concat([payload[r.readOffset - offset..]] + chunks) == d[r.readOffset..read]
  {
    var end := offset + |payload|;
    SliceTail(d, offset, payload, r.readOffset);
    DrainReads(end, r.packets, d);
    DrainKeeps(end, r.packets);
    var (read, packets, chunks) := Drain(end, r.packets);
    var tail := payload[r.readOffset - offset..];
    assert Concat([tail] + chunks) == tail + Concat(chunks);
    assert d[r.readOffset..read] == d[r.readOffset..end] + d[end..read];
  }

  /** With a slice buffered above the read offset there is a hole, so the stream cannot look finished. */
  lemma NeverFinished(r: RecvState, d: seq<byte>, offset: nat)
    requires Reassembles(r, d) && r.phase != Read && offset in r.packets
    ensures !CheckFinish(r)
  {
  }

  lemma Buffered(r: RecvState, d: seq<byte>, offset: nat, payload: seq<byte>)
    requires Reassembles(r, d) && IsSlice(d, offset, payload) && r.readOffset < offset
    ensures Reassembles(r.(packets := r.packets[offset := payload]), d)
  {
  }

  /** One arrival of a slice of `d`: the chunks are exactly the bytes the read offset moves over. */
  lemma ArriveReassembles(r: RecvState, d: seq<byte>, offset: nat, length: nat, payload: seq<byte>, fin: bool)
    requires Reassembles(r, d) && (|payload| == length ==> IsSlice(d, offset, payload))
    ensures var o := Arrive(r, offset, length, payload, fin);
      && Reassembles(o.r, d)
      && r.readOffset <= o.r.readOffset
      && Concat(o.chunks) == d[r.readOffset..o.r.readOffset]
  {
    if r.phase != Read && !r.waitFlush && |payload| == length && r.readOffset < offset + length {
      var r1 := if fin && r.phase == Recv then r.(size := offset + length, phase := SizeKnown) else r;
      assert Reassembles(r1, d);
      hide Reassembles, IsSlice, Drain, Reach;
      if offset <= r.readOffset {
        ReadNow(r1, d, offset, payload);
        var (read, packets, chunks) := Drain(offset + length, r1.packets);
        assert Reassembles(r1.(readOffset := read, packets := packets, phase := Read), d) by {
          PhaseRead(r1.(readOffset := read, packets := packets), d);
        }
      } else {
        if offset !in r1.packets { Buffered(r1, d, offset, payload); }
        NeverFinished(if offset in r1.packets then r1 else r1.(packets := r1.packets[offset := payload]), d, offset);
      }
    }
  }

  lemma PhaseRead(r: RecvState, d: seq<byte>)
    requires Reassembles(r, d)
    ensures Reassembles(r.(phase := Read), d)
  {
  }

  // ---- Whole runs -----------------------------------------------------------------------------------------

  datatype Slice = Slice(id: StreamId, offset: nat, payload: seq<byte>, length: nat, fin: bool)

  /** The streams, what the application has received on each, and the sizes at which each was completed so far. */
  datatype Tally = Tally(receivers: Receivers, out: map<StreamId, seq<byte>>, sizes: map<StreamId, seq<nat>>)

  const NoStreams := Tally(map[], map[], map[])

  function Out(t: Tally, id: StreamId): seq<byte> { if id in t.out then t.out[id] else [] }

  function Sizes(t: Tally, id: StreamId): seq<nat> { if id in t.sizes then t.sizes[id] else [] }

  function Step(t: Tally, a: Slice): Tally {
    var r := RecvOf(t.receivers, a.id);
    var o := Arrive(r, a.offset, a.length, a.payload, a.fin);
    Tally(Dispatch(t.receivers, a.id, a.offset, a.length, a.payload, a.fin),
          t.out[a.id := Out(t, a.id) + Concat(o.chunks)],
          if Completes(r, o) then t.sizes[a.id := Sizes(t, a.id) + [o.r.readOffset]] else t.sizes)
  }

  function Run(t: Tally, arrivals: seq<Slice>): Tally
    decreases |arrivals|
  {
    if arrivals == [] then t else Run(Step(t, arrivals[0]), arrivals[1..])
  }

  /** For each of `sizes` in turn, that many bytes from the start of `d`. */
  function Rounds(d: seq<byte>, sizes: seq<nat>): seq<byte> {
    if sizes == [] then []
    else Rounds(d, sizes[..|sizes| - 1]) + FirstBytes(d, sizes[|sizes| - 1])
  }

  function FirstBytes(d: seq<byte>, n: nat): seq<byte> { if n <= |d| then d[..n] else d }

  /** A packet with a malformed length is dropped; any other on stream `id` carries a slice of `d`. */
  predicate SliceOf(a: Slice, id: StreamId, d: seq<byte>) {
    a.id == id && |a.payload| == a.length ==> IsSlice(d, a.offset, a.payload)
  }

  /** What the application has received on `id`: one beginning of `d` for each time the stream was completed, and
      then the bytes below the read offset. */
  ghost predicate TallyOk(t: Tally, id: StreamId, d: seq<byte>) {
    var r := RecvOf(t.receivers, id);
    && Reassembles(r, d) && r.phase != Read && !r.waitFlush
    && (forall i :: 0 <= i < |Sizes(t, id)| ==> 0 < Sizes(t, id)[i] <= |d|)
    && Out(t, id) == Rounds(d, Sizes(t, id)) + d[..r.readOffset]
  }

  lemma RoundsMore(d: seq<byte>, sizes: seq<nat>, n: nat)
    requires n <= |d|
    ensures Rounds(d, sizes + [n]) == Rounds(d, sizes) + d[..n]
  {
    assert (sizes + [n])[..|sizes|] == sizes;
  }

  lemma CompletesPast(r: RecvState, a: Slice)
    requires r.phase != Read && Completes(r, Arrive(r, a.offset, a.length, a.payload, a.fin))
    ensures 0 < Arrive(r, a.offset, a.length, a.payload, a.fin).r.readOffset
  {
    DrainKeeps(a.offset + a.length, r.packets);
  }

  lemma ReadInside(r: RecvState, d: seq<byte>)
    requires Reassembles(r, d)
    ensures r.readOffset <= |d|
  {
  }

  lemma StepEffect(t: Tally, a: Slice, id: StreamId)
    ensures var t' := Step(t, a); var r := RecvOf(t.receivers, a.id);
      var o := Arrive(r, a.offset, a.length, a.payload, a.fin);
      if id != a.id then
        RecvOf(t'.receivers, id) == RecvOf(t.receivers, id) && Out(t', id) == Out(t, id) && Sizes(t', id) == Sizes(t, id)
      else
        && RecvOf(t'.receivers, id) == (if Completes(r, o) then FreshRecv else o.r)
        && Out(t', id) == Out(t, id) + Concat(o.chunks)
        && Sizes(t', id) == (if Completes(r, o) then Sizes(t, id) + [o.r.readOffset] else Sizes(t, id))
  {
    hide Arrive, Concat;
  }

  lemma StepKeeps(t: Tally, id: StreamId, d: seq<byte>, a: Slice)
    requires TallyOk(t, id, d) && SliceOf(a, id, d)
    ensures TallyOk(Step(t, a), id, d)
    ensures Out(t, id) <= Out(Step(t, a), id)
  {
    StepEffect(t, a, id);
    hide Arrive, Reassembles, IsSlice, Rounds, Concat, Step, Out, Sizes, RecvOf;
    if a.id == id { StepOn(t, d, a); }
  }

  lemma StepOn(t: Tally, d: seq<byte>, a: Slice)
    requires TallyOk(t, a.id, d) && SliceOf(a, a.id, d)
    ensures TallyOk(Step(t, a), a.id, d)
    ensures Out(t, a.id) <= Out(Step(t, a), a.id)
  {
    hide Arrive, Reassembles, IsSlice, Rounds, Concat, Step, Out, Sizes, RecvOf;
    var id := a.id;
    StepEffect(t, a, id);
    var r := RecvOf(t.receivers, id);
    var o := Arrive(r, a.offset, a.length, a.payload, a.fin);
    ArriveReassembles(r, d, a.offset, a.length, a.payload, a.fin);
    ArriveFlush(r, a);
    ReadInside(r, d);
    ReadInside(o.r, d);
    assert d[..o.r.readOffset] == d[..r.readOffset] + d[r.readOffset..o.r.readOffset];
    if Completes(r, o) {
      CompletesPast(r, a);
      RoundsMore(d, Sizes(t, id), o.r.readOffset);
      FreshReassembles(d);
    }
  }

  lemma ArriveFlush(r: RecvState, a: Slice)
    ensures Arrive(r, a.offset, a.length, a.payload, a.fin).r.waitFlush == r.waitFlush
  {
  }

  lemma FreshReassembles(d: seq<byte>)
    ensures Reassembles(FreshRecv, d)
  {
  }

  /** Any arrivals, in any order, overlapping or repeated, of slices of `d` on stream `id`, with ends marked anywhere,
      among any arrivals on other streams: the application has received, for each time the stream was completed and
      erased, the bytes below its size, and since then exactly the bytes below the read offset. Every buffered packet
      starts strictly above that offset, and the stream never claims to hold all data unread. */
  lemma {:induction false} RunReassembles(t: Tally, id: StreamId, d: seq<byte>, arrivals: seq<Slice>)
    requires TallyOk(t, id, d) && forall i :: 0 <= i < |arrivals| ==> SliceOf(arrivals[i], id, d)
    ensures TallyOk(Run(t, arrivals), id, d)
    ensures Out(t, id) <= Out(Run(t, arrivals), id)
    decreases |arrivals|
  {
    hide TallyOk, SliceOf, Step;
    if arrivals != [] {
      StepKeeps(t, id, d, arrivals[0]);
      RunReassembles(Step(t, arrivals[0]), id, d, arrivals[1..]);
    }
  }

  lemma FreshTally(id: StreamId, d: seq<byte>)
    ensures TallyOk(NoStreams, id, d)
  {
  }

  /** A packet that a stream with nothing read hands on at once. */
  predicate Restarts(a: Slice, id: StreamId) {
    a.id == id && a.offset == 0 && 0 < |a.payload| == a.length
  }

  lemma RestartStep(t: Tally, id: StreamId, d: seq<byte>, a: Slice)
    requires TallyOk(t, id, d) && SliceOf(a, id, d) && RecvOf(t.receivers, id).readOffset == 0
    ensures if Restarts(a, id) then Out(t, id) < Out(Step(t, a), id)
      else Out(Step(t, a), id) == Out(t, id) && RecvOf(Step(t, a).receivers, id).readOffset == 0
  {
    StepKeeps(t, id, d, a);
    if a.id == id {
      var r := RecvOf(t.receivers, id);
      ArriveReassembles(r, d, a.offset, a.length, a.payload, a.fin);
      if Restarts(a, id) { DrainKeeps(a.length, r.packets); }
    }
  }

  /** From a stream with nothing read, the application receives something exactly when a non-empty packet comes for
      the beginning of the stream. */
  lemma {:induction false} RestartIff(t: Tally, id: StreamId, d: seq<byte>, arrivals: seq<Slice>)
    requires TallyOk(t, id, d) && RecvOf(t.receivers, id).readOffset == 0
    requires forall i :: 0 <= i < |arrivals| ==> SliceOf(arrivals[i], id, d)
    ensures Out(Run(t, arrivals), id) == Out(t, id) <==> forall i :: 0 <= i < |arrivals| ==> !Restarts(arrivals[i], id)
    decreases |arrivals|
  {
    hide TallyOk, SliceOf, Step, Restarts;
    if arrivals != [] {
      var t' := Step(t, arrivals[0]);
      StepKeeps(t, id, d, arrivals[0]);
      RestartStep(t, id, d, arrivals[0]);
      if Restarts(arrivals[0], id) {
        RunReassembles(t', id, d, arrivals[1..]);
      } else {
        RestartIff(t', id, d, arrivals[1..]);
        assert forall i :: 1 <= i < |arrivals| ==> arrivals[i] == arrivals[1..][i - 1];
      }
    }
  }

  lemma {:induction false} RunSplit(t: Tally, a: seq<Slice>, b: seq<Slice>)
    ensures Run(t, a + b) == Run(Run(t, a), b)
    decreases |a|
  {
    hide Step;
    if a == [] {
      assert a + b == b;
    } else {
      assert (a + b)[1..] == a[1..] + b;
      RunSplit(Step(t, a[0]), a[1..], b);
    }
  }

  lemma BeforeEnd(t: Tally, id: StreamId, d: seq<byte>)
    requires TallyOk(t, id, d) && Sizes(t, id) == []
    ensures var n := RecvOf(t.receivers, id).readOffset; n <= |d| && Out(t, id) == d[..n]
  {
    hide Reassembles;
    ReadInside(RecvOf(t.receivers, id), d);
    assert [] + d[..RecvOf(t.receivers, id).readOffset] == d[..RecvOf(t.receivers, id).readOffset];
  }

  lemma AtEnd(t: Tally, id: StreamId, d: seq<byte>, last: Slice)
    requires TallyOk(t, id, d) && SliceOf(last, id, d) && Sizes(t, id) == [] && Sizes(Step(t, last), id) != []
    ensures var t' := Step(t, last); var n := Sizes(t', id)[0];
      n <= |d| && Out(t', id) == d[..n] && RecvOf(t'.receivers, id).readOffset == 0
  {
    StepKeeps(t, id, d, last);
    StepEffect(t, last, id);
    hide Arrive, Reassembles, Concat, IsSlice, Step, Out, Sizes, RecvOf, Rounds;
    var n := Sizes(Step(t, last), id)[0];
    RoundOne(d, n);
    assert d[..n] + d[..0] == d[..n];
  }

  lemma RoundOne(d: seq<byte>, n: nat)
    requires n <= |d|
    ensures Rounds(d, [n]) == d[..n]
  {
    assert [n][..0] == [] && Rounds(d, []) == [];
    assert [] + d[..n] == d[..n];
  }

  /** When delivery is exact. Until the stream is completed, the application has received the bytes below the read
      offset. After the arrival `last` that completes it, it has received the bytes below its size, and that stays so
      if and only if no packet for the beginning of the stream arrives later: such a packet finds the stream erased
      and is delivered again. */
  lemma DeliveredOnceIff(before: seq<Slice>, last: Slice, after: seq<Slice>, id: StreamId, d: seq<byte>)
    requires forall i :: 0 <= i < |before| ==> SliceOf(before[i], id, d)
    requires SliceOf(last, id, d) && forall i :: 0 <= i < |after| ==> SliceOf(after[i], id, d)
    requires Sizes(Run(NoStreams, before), id) == []
    ensures var t := Run(NoStreams, before); var n := RecvOf(t.receivers, id).readOffset; n <= |d| && Out(t, id) == d[..n]
    ensures var t := Run(NoStreams, before + [last]);
      Sizes(t, id) != [] ==>
        && Sizes(t, id)[0] <= |d| && Out(t, id) == d[..Sizes(t, id)[0]]
        && (Out(Run(NoStreams, before + [last] + after), id) == d[..Sizes(t, id)[0]]
            <==> forall i :: 0 <= i < |after| ==> !Restarts(after[i], id))
  {
    hide SliceOf, Restarts, TallyOk, Step, Run, Out, Sizes, RecvOf;
    FreshTally(id, d);
    RunReassembles(NoStreams, id, d, before);
    var t0 := Run(NoStreams, before);
    BeforeEnd(t0, id, d);
    RunSplit(NoStreams, before, [last]);
    RunOne(t0, last);
    StepKeeps(t0, id, d, last);
    RunSplit(NoStreams, before + [last], after);
    if Sizes(Step(t0, last), id) != [] {
      AtEnd(t0, id, d, last);
      RestartIff(Step(t0, last), id, d, after);
    }
  }

  lemma RunOne(t: Tally, a: Slice)
    ensures Run(t, [a]) == Step(t, a)
  {
    assert [a][1..] == [];
  }

  lemma RunTwo(t: Tally, a: Slice, b: Slice)
    ensures Run(t, [a, b]) == Step(Step(t, a), b)
  {
    assert [a, b] == [a] + [b];
    RunSplit(t, [a], [b]);
    RunOne(t, a);
    RunOne(Step(t, a), b);
  }

  /** A stream of one byte whose only packet, marked as the end, is duplicated by the network: delivered twice. */
  lemma DuplicateAfterEnd(id: StreamId)
    ensures var s := Slice(id, 0, [1], 1, true); Out(Run(NoStreams, [s, s]), id) == [1, 1]
  {
    var s := Slice(id, 0, [1], 1, true);
    RunTwo(NoStreams, s, s);
    var one: seq<byte> := [1];
    assert Drain(1, map[]) == (1, map[], []);
    assert one[0..] == one && Concat([one] + []) == one + Concat([]);
    var t := Step(NoStreams, s);
    assert t.receivers == map[] && Out(t, id) == [1];
    assert Out(Step(t, s), id) == [1] + [1];
  }

  // ---- Ends -----------------------------------------------------------------------------------------------

  /** A packet is acknowledged exactly if the stream is open, is not waiting for a flush, and the length is right. */
  lemma AcknowledgedIff(r: RecvState, a: Slice)
    ensures Arrive(r, a.offset, a.length, a.payload, a.fin).acked
      <==> (r.phase == Recv || r.phase == SizeKnown) && !r.waitFlush && |a.payload| == a.length
  {
  }

  /** The end of a stream is fixed by the first packet marked as the end, even one whose length is wrong. */
  lemma FirstEndCounts(r: RecvState, a: Slice)
    requires !r.waitFlush && (r.phase == Recv || r.phase == SizeKnown)
    ensures var r' := Arrive(r, a.offset, a.length, a.payload, a.fin).r;
      && r'.size == (if r.phase == Recv && a.fin then a.offset + a.length else r.size)
      && (r'.phase == Recv <==> r.phase == Recv && !a.fin)
  {
  }

  /** A packet completes its stream exactly if it lets the application read on, up to the known end. */
  lemma CompletesIff(r: RecvState, a: Slice)
    requires !r.waitFlush && (r.phase == Recv || r.phase == SizeKnown)
    ensures var o := Arrive(r, a.offset, a.length, a.payload, a.fin);
      Completes(r, o) <==>
        && |a.payload| == a.length && a.offset <= r.readOffset < a.offset + a.length
        && (r.phase == SizeKnown || a.fin)
        && o.r.readOffset == if r.phase == SizeKnown then r.size else a.offset + a.length
  {
  }

  /** Some buffered slice holds byte `b` of the stream. */
  ghost predicate Buffers(packets: map<nat, seq<byte>>, b: nat) {
    exists k :: k in packets && k <= b < k + |packets[k]|
  }

  lemma BuffersFirst(packets: map<nat, seq<byte>>, k: nat, b: nat)
    requires k in packets
    ensures Buffers(packets, b) <==> k <= b < k + |packets[k]| || Buffers(packets - {k}, b)
  {
    if j :| j in packets - {k} && j <= b < j + |(packets - {k})[j]| { assert j in packets; }
    if Buffers(packets, b) {
      var j :| j in packets && j <= b < j + |packets[j]|;
      if j != k { assert j in packets - {k} && (packets - {k})[j] == packets[j]; }
    }
  }

  /** The walk over the buffered slices ends where they reach without a hole, or at a hole in front of one of them. */
  ghost predicate Reaches(offset: nat, packets: map<nat, seq<byte>>, end: int) {
    if end < 0 then exists k, b: nat :: k in packets && offset <= b < k && !Buffers(packets, b)
    else
      && offset <= end
      && (forall b :: offset <= b < end ==> Buffers(packets, b))
      && (forall k :: k in packets ==> k <= end && k + |packets[k]| <= end)
  }

  lemma {:induction false} ReachCovers(offset: nat, packets: map<nat, seq<byte>>)
    ensures Reaches(offset, packets, Reach(offset, packets))
    decreases |packets|
  {
    if packets != map[] {
      var k: nat := Least(packets.Keys);
      if offset < k {
        assert !Buffers(packets, offset);
      } else {
        assert |packets - {k}| < |packets| by { assert (packets - {k}).Keys == packets.Keys - {k}; }
        var next := if offset < k + |packets[k]| then k + |packets[k]| else offset;
        ReachCovers(next, packets - {k});
        ReachMore(offset, packets, k, next, Reach(next, packets - {k}));
      }
    }
  }

  lemma ReachMore(offset: nat, packets: map<nat, seq<byte>>, k: nat, next: nat, end: int)
    requires k in packets && k <= offset && next == (if offset < k + |packets[k]| then k + |packets[k]| else offset)
    requires Reaches(next, packets - {k}, end)
    ensures Reaches(offset, packets, end)
  {
    var rest := packets - {k};
    if end < 0 {
      var j, b: nat :| j in rest && next <= b < j && !Buffers(rest, b);
      BuffersFirst(packets, k, b);
      assert j in packets;
    } else {
      forall b | offset <= b < end ensures Buffers(packets, b) { BuffersFirst(packets, k, b); }
      forall j | j in packets ensures j <= end && j + |packets[j]| <= end {
        if j != k { assert j in rest && rest[j] == packets[j]; }
      }
    }
  }

  /** All data has arrived exactly if every byte from the read offset to the known end is buffered, and no more. */
  lemma FinishedIff(r: RecvState)
    requires r.phase == SizeKnown
    ensures CheckFinish(r) <==>
      && r.readOffset <= r.size
      && (forall b :: r.readOffset <= b < r.size ==> Buffers(r.packets, b))
      && (forall k :: k in r.packets ==> k <= r.size && k + |r.packets[k]| <= r.size)
  {
    ReachCovers(r.readOffset, r.packets);
    var end := Reach(r.readOffset, r.packets);
    if end >= 0 { PastAll(r.packets, end); }
    if forall k :: k in r.packets ==> k + |r.packets[k]| <= r.size { PastAll(r.packets, r.size); }
  }

  lemma PastAll(packets: map<nat, seq<byte>>, b: nat)
    requires forall k :: k in packets ==> k + |packets[k]| <= b
    ensures !Buffers(packets, b)
  {
  }

  /** Some packet of the stream was marked as the end at `n`. */
  ghost predicate EndMarked(arrivals: seq<Slice>, id: StreamId, n: nat) {
    exists i :: 0 <= i < |arrivals| && arrivals[i].id == id && arrivals[i].fin && arrivals[i].offset + arrivals[i].length == n
  }

  ghost predicate EndsMarked(t: Tally, id: StreamId, arrivals: seq<Slice>) {
    var r := RecvOf(t.receivers, id);
    && r.phase != Read && (r.phase != Recv ==> EndMarked(arrivals, id, r.size))
    && forall k :: 0 <= k < |Sizes(t, id)| ==> EndMarked(arrivals, id, Sizes(t, id)[k])
  }

  lemma EndMarkedMore(arrivals: seq<Slice>, a: Slice, id: StreamId, n: nat)
    ensures EndMarked(arrivals + [a], id, n) <==> EndMarked(arrivals, id, n) || (a.id == id && a.fin && a.offset + a.length == n)
  {
    var all := arrivals + [a];
    if EndMarked(arrivals, id, n) {
      var i :| 0 <= i < |arrivals| && arrivals[i].id == id && arrivals[i].fin && arrivals[i].offset + arrivals[i].length == n;
      assert all[i] == arrivals[i];
    }
    if a.id == id && a.fin && a.offset + a.length == n { assert all[|arrivals|] == a; }
  }

  lemma EndsStep(t: Tally, id: StreamId, arrivals: seq<Slice>, a: Slice)
    requires EndsMarked(t, id, arrivals)
    ensures EndsMarked(Step(t, a), id, arrivals + [a])
  {
    StepEffect(t, a, id);
    forall n: nat | EndMarked(arrivals, id, n) ensures EndMarked(arrivals + [a], id, n) { EndMarkedMore(arrivals, a, id, n); }
    hide Step, Concat;
    if a.id == id {
      var r := RecvOf(t.receivers, id);
      if a.fin { EndMarkedMore(arrivals, a, id, a.offset + a.length); }
      EndsOf(r, a);
      hide Arrive, EndMarked;
    }
  }

  lemma EndsOf(r: RecvState, a: Slice)
    requires r.phase != Read
    ensures var o := Arrive(r, a.offset, a.length, a.payload, a.fin);
      && (o.r.phase != Recv ==> if r.phase == Recv then a.fin && o.r.size == a.offset + a.length else o.r.size == r.size)
      && (o.r.phase == Read ==> o.r.readOffset == o.r.size)
      && (o.r.phase == Read ==> Completes(r, o))
  {
  }

  /** Over any run, a stream is only ever completed at an offset at which one of its packets was marked as the end. */
  lemma {:induction false} CompletedAtEnds(arrivals: seq<Slice>, id: StreamId)
    ensures EndsMarked(Run(NoStreams, arrivals), id, arrivals)
    decreases |arrivals|
  {
    if arrivals != [] {
      var n := |arrivals| - 1;
      CompletedAtEnds(arrivals[..n], id);
      EndsStep(Run(NoStreams, arrivals[..n]), id, arrivals[..n], arrivals[n]);
      assert arrivals == arrivals[..n] + [arrivals[n]];
      RunSplit(NoStreams, arrivals[..n], [arrivals[n]]);
      RunOne(Run(NoStreams, arrivals[..n]), arrivals[n]);
    }
  }

  // ---- Progress ---------------------------------------------------------------------------------------

  /** The slice has been read, or is buffered in full. */
  predicate Have(r: RecvState, offset: nat, length: nat) {
    offset + length <= r.readOffset || (offset in r.packets && length <= |r.packets[offset]|)
  }

  /** The buffer already holds a shorter slice at this offset: `try_emplace` keeps that one. */
  predicate Shadowed(r: RecvState, offset: nat, length: nat) {
    r.readOffset < offset && offset in r.packets && |r.packets[offset]| < length
  }

  /** An acknowledged slice is kept if and only if no shorter one was buffered at the same offset. */
  lemma KeptIff(r: RecvState, offset: nat, length: nat, payload: seq<byte>, fin: bool)
    requires forall k :: k in r.packets ==> r.readOffset < k
    requires Arrive(r, offset, length, payload, fin).acked
    ensures Have(Arrive(r, offset, length, payload, fin).r, offset, length) <==> !Shadowed(r, offset, length)
  {
    if r.readOffset < offset + length && offset <= r.readOffset {
      DrainKeeps(offset + length, r.packets);
    }
  }

  /** What the stream has, it keeps having. */
  lemma HaveStays(r: RecvState, offset: nat, length: nat, payload: seq<byte>, fin: bool, o: nat, n: nat)
    requires Have(r, o, n)
    ensures Have(Arrive(r, offset, length, payload, fin).r, o, n)
  {
    DrainKeeps(offset + length, r.packets);
  }

  /** A shadowed slice is acknowledged but lost: its tail is still missing after the hole before it is filled. */
  lemma ShadowedTailIsLost(id: StreamId)
    ensures var d: seq<byte> := [1, 2, 3];
      var a, b, c := Slice(id, 1, [2], 1, false), Slice(id, 1, [2, 3], 2, false), Slice(id, 0, [1], 1, false);
      && SliceOf(a, id, d) && SliceOf(b, id, d) && SliceOf(c, id, d)
      && RecvOf(Run(NoStreams, [a, b, c]).receivers, id).readOffset == 2
  {
    var a, b, c := Slice(id, 1, [2], 1, false), Slice(id, 1, [2, 3], 2, false), Slice(id, 0, [1], 1, false);
    var two: seq<byte> := [2];
    var packets: map<nat, seq<byte>> := map[1 := two];
    var r1 := FreshRecv.(packets := packets);
    assert Arrive(FreshRecv, 1, 1, [2], false).r == r1;
    assert Arrive(r1, 1, 2, [2, 3], false).r == r1;
    assert Drain(2, map[]) == (2, map[], []);
    assert packets - {1} == map[];
    assert Least(packets.Keys) == 1;
    assert Drain(1, packets) == (2, map[], [two[0..]] + []);
    assert Arrive(r1, 0, 1, [1], false).r.readOffset == 2;
    var t := Step(Step(NoStreams, a), b);
    assert RecvOf(t.receivers, id) == r1;
    assert [a, b, c] == [a, b] + [c];
    RunSplit(NoStreams, [a, b], [c]);
    RunTwo(NoStreams, a, b);
    RunOne(t, c);
  }

  // ---- The program ------------------------------------------------------------------------------------

  class RecvStream {
    var phase: Phase
    var waitFlush: bool
    var size: nat
    var readOffset: nat
    var packets: map<nat, seq<byte>>

    function Value(): RecvState
      reads this
    {
      RecvState(phase, waitFlush, size, readOffset, packets)
    }

    constructor ()
      ensures Value() == FreshRecv
    {
      phase, waitFlush, size, readOffset, packets := Recv, false, 0, 0, map[];
    }

    /** Whether the stream size is known and everything up to it has arrived. */
    method CheckFinished() returns (finished: bool)
      ensures finished == CheckFinish(Value())
    {
      if phase == Recv { return false; }
      if phase == AllRecv || phase == Read { return true; }

      var offset: nat := readOffset;
      var rest := packets;
      while rest != map[]
        invariant Reach(readOffset, packets) == Reach(offset, rest)
        decreases |rest|
      {
        var k: nat := Least(rest.Keys);
        // A slice above `offset` leaves a hole.
        if offset < k { return false; }

        if offset < k + |rest[k]| { offset := k + |rest[k]|; }
        assert |rest - {k}| < |rest| by { assert (rest - {k}).Keys == rest.Keys - {k}; }
        rest := rest - {k};
      }
      return offset == size;
    }

    /** Reads the out of order data that the read offset has reached. */
    method ReadBuffered() returns (chunks: seq<seq<byte>>)
      modifies this
      ensures var (read, rest, expected) := Drain(old(readOffset), old(packets));
        Value() == old(Value()).(readOffset := read, packets := rest) && chunks == expected
    {
      ghost var r1 := Value();
      ghost var all := Drain(readOffset, packets);
      chunks := [];
      while packets != map[]
        invariant Value() == r1.(readOffset := readOffset, packets := packets)
        invariant var rest := Drain(readOffset, packets);
          rest.0 == all.0 && rest.1 == all.1 && chunks + rest.2 == all.2
        decreases |packets|
      {
        var k: nat := Least(packets.Keys);
        // The slices are visited in order: all others start higher.
        if k > readOffset { break; }

        assert |packets - {k}| < |packets| by { assert (packets - {k}).Keys == packets.Keys - {k}; }
        if k + |packets[k]| > readOffset {
          // Only the bytes above the read offset are new.
          var chunk := packets[k][readOffset - k..];
          ghost var rest := Drain(k + |packets[k]|, packets - {k});
          assert Drain(readOffset, packets) == (rest.0, rest.1, [chunk] + rest.2);
          assert chunks + ([chunk] + rest.2) == (chunks + [chunk]) + rest.2;
          readOffset := k + |packets[k]|;
          packets := packets - {k};
          chunks := chunks + [chunk];
        } else {
          packets := packets - {k};
        }
      }
      assert chunks + [] == chunks;
    }

    /** Handles a DATA packet of this stream: the chunks it makes readable, and whether it is acknowledged. */
    method DidRecvData(offset: nat, length: nat, payload: seq<byte>, fin: bool)
      returns (acked: bool, chunks: seq<seq<byte>>)
      modifies this
      ensures Received(Value(), acked, chunks) == Arrive(old(Value()), offset, length, payload, fin)
    {
      chunks := [];
      if phase == AllRecv || phase == Read || waitFlush { return false, []; }

      if fin && phase == Recv {
        size := offset + length;
        phase := SizeKnown;
      }

      if |payload| != length { return false, []; }
      acked := true;

      // All of it has been read.
      if offset + length <= readOffset { return; }

      if offset <= readOffset {
        // Only the bytes above the read offset are new.
        chunks := [payload[readOffset - offset..]];
        readOffset := offset + length;

        var more := ReadBuffered();
        chunks := chunks + more;

        if phase != Recv && readOffset == size { phase := Read; }
      } else {
        // The first slice at an offset is the one that is kept.
        if offset !in packets { packets := packets[offset := payload]; }

        var finished := CheckFinished();
        if finished { phase := AllRecv; }
      }
    }
  }

  /** The receiving half of a transport: its streams by id, created on first use and erased once read to the end. */
  class Receiver {
    var streams: map<StreamId, RecvStream>

    ghost predicate Valid()
      reads this
    {
      forall i, j :: i in streams && j in streams && i != j ==> streams[i] != streams[j]
    }

    ghost function View(): Receivers
      reads this, streams.Values
    {
      map id | id in streams :: streams[id].Value()
    }

    constructor ()
      ensures Valid() && View() == map[]
    {
      streams := map[];
    }

    method GetOrCreate(id: StreamId) returns (stream: RecvStream)
      requires Valid()
      modifies this
      ensures Valid() && streams.Keys == old(streams.Keys) + {id} && streams[id] == stream
      ensures stream in old(streams.Values) || fresh(stream)
      ensures forall j :: j in streams && j != id ==> streams[j] == old(streams[j])
      ensures View() == old(View())[id := RecvOf(old(View()), id)] && stream.Value() == RecvOf(old(View()), id)
    {
      if id in streams {
        assert View() == View()[id := RecvOf(View(), id)];
        return streams[id];
      }
      stream := new RecvStream();
      streams := streams[id := stream];
    }

    method Pass(id: StreamId, stream: RecvStream, offset: nat, length: nat, payload: seq<byte>, fin: bool)
      returns (acked: bool, chunks: seq<seq<byte>>)
      requires Valid() && id in streams && streams[id] == stream
      modifies stream
      ensures streams == old(streams)
      ensures View() == old(View())[id := stream.Value()]
      ensures Received(stream.Value(), acked, chunks) == Arrive(old(stream.Value()), offset, length, payload, fin)
    {
      hide Arrive;
      acked, chunks := stream.DidRecvData(offset, length, payload, fin);
      assert forall j :: j in streams && j != id ==> streams[j] != stream;
    }

    method Erase(id: StreamId, ghost before: Receivers, ghost r: RecvState)
      requires Valid() && View() == before[id := r]
      modifies this
      ensures Valid() && streams == old(streams) - {id} && View() == before - {id}
    {
      assert before[id := r] - {id} == before - {id};
      ghost var all := View();
      streams := streams - {id};
      assert View() == all - {id};
    }

    method DidRecvData(id: StreamId, offset: nat, length: nat, payload: seq<byte>, fin: bool)
      returns (acked: bool, chunks: seq<seq<byte>>)
      requires Valid()
      modifies this, streams.Values
      ensures Valid() && forall j :: j in streams ==> streams[j] in old(streams.Values) || fresh(streams[j])
      ensures View() == Dispatch(old(View()), id, offset, length, payload, fin)
      ensures var o := Arrive(RecvOf(old(View()), id), offset, length, payload, fin); acked == o.acked && chunks == o.chunks
    {
      hide Arrive, RecvOf, Dispatch, Valid, View;
      ghost var before := View();
      var stream := GetOrCreate(id);
      var done := stream.phase == Read;
      acked, chunks := Pass(id, stream, offset, length, payload, fin);
      DispatchIs(before, id, offset, length, payload, fin, stream.Value());
      ghost var mid: Receivers := before[id := RecvOf(before, id)];
      assert mid[id := stream.Value()] == before[id := stream.Value()];
      if stream.phase == Read && !done { Erase(id, before, stream.Value()); }
    }
  }

  lemma DispatchIs(receivers: Receivers, id: StreamId, offset: nat, length: nat, payload: seq<byte>, fin: bool, r: RecvState)
    requires r == Arrive(RecvOf(receivers, id), offset, length, payload, fin).r
    ensures Dispatch(receivers, id, offset, length, payload, fin) ==
      if r.phase == Read && RecvOf(receivers, id).phase != Read then receivers - {id} else receivers[id := r]
  {
  }
}
