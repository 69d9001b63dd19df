/** Flight conservation, the congestion window's floor, and what one pacing tick may add. */
module Flight {
  import opened Bytes
  import opened Sending

  // ---- Sums over the packets in flight --------------------------------------------------------------------

  /** Total length of the records among the packet numbers below `end`. */
  function Total(m: map<nat, SentPacket>, end: nat): nat {
    if end == 0 then 0 else Total(m, end - 1) + (if end - 1 in m then m[end - 1].length else 0)
  }

  lemma {:induction false} SumAdd(m: map<nat, SentPacket>, pn: nat, p: SentPacket, end: nat, id: StreamId)
    requires pn !in m
    ensures Total(m[pn := p], end) == Total(m, end) + (if pn < end then p.length else 0)
    ensures BytesOf(m[pn := p], id, end) == BytesOf(m, id, end) + (if pn < end && p.stream == id then p.length else 0)
  {
    if end > 0 { SumAdd(m, pn, p, end - 1, id); }
  }

  lemma SumRemove(m: map<nat, SentPacket>, pn: nat, end: nat, id: StreamId)
    requires pn in m && pn < end
    ensures Total(m - {pn}, end) == Total(m, end) - m[pn].length
    ensures BytesOf(m - {pn}, id, end) == BytesOf(m, id, end) - (if m[pn].stream == id then m[pn].length else 0)
  {
    SumAdd(m - {pn}, pn, m[pn], end, id);
    assert (m - {pn})[pn := m[pn]] == m;
  }

  lemma {:induction false} SumBeyond(m: map<nat, SentPacket>, end: nat, end': nat, id: StreamId)
    requires end <= end' && forall pn :: pn in m ==> pn < end
    ensures Total(m, end') == Total(m, end) && BytesOf(m, id, end') == BytesOf(m, id, end)
  {
    if end < end' { SumBeyond(m, end, end' - 1, id); }
  }

  // ---- Conservation ---------------------------------------------------------------------------------------

  ghost predicate Numbered(s: Sender) {
    && (forall pn :: pn in s.sent ==> pn < s.nextPacket && s.sent[pn].stream in s.streams)
    && (forall pn :: pn in s.lost ==> pn < s.nextPacket && s.lost[pn].stream in s.streams)
  }

  /** The counters equal the packets in flight, overall and per stream. */
  ghost predicate Conserved(s: Sender) {
    && Numbered(s)
    && s.bytesInFlight == Total(s.sent, s.nextPacket)
    && forall id :: id in s.streams ==> s.streams[id].bytesInFlight == BytesOf(s.sent, id, s.nextPacket)
  }

  lemma ConservedCore(s: Sender, s': Sender)
    requires Conserved(s) && s'.sent == s.sent && s'.lost == s.lost && s'.nextPacket == s.nextPacket
    requires s'.bytesInFlight == s.bytesInFlight && s'.streams == s.streams
    ensures Conserved(s')
  {
  }

  lemma {:induction false} NoBytes(m: map<nat, SentPacket>, id: StreamId, end: nat)
    requires forall pn :: pn in m ==> m[pn].stream != id
    ensures BytesOf(m, id, end) == 0
  {
    if end > 0 { NoBytes(m, id, end - 1); }
  }

  lemma SendFrame(s: Sender, id: StreamId, data: seq<byte>)
    ensures var s' := Send(s, id, data).0;
      && s'.sent == s.sent && s'.lost == s.lost && s'.nextPacket == s.nextPacket && s'.bytesInFlight == s.bytesInFlight
      && s.streams.Keys <= s'.streams.Keys <= s.streams.Keys + {id}
      && forall j :: j in s'.streams ==> s'.streams[j].bytesInFlight == s.Stream(j).bytesInFlight
  {
  }

  lemma SendConserves(s: Sender, id: StreamId, data: seq<byte>)
    requires Conserved(s)
    ensures Conserved(Send(s, id, data).0)
  {
    hide Send;
    SendFrame(s, id, data);
    if id !in s.streams { NoBytes(s.sent, id, s.nextPacket); }
  }

  /** A packet joins the flight under the next number. */
  lemma Joins(s: Sender, s': Sender, p: SentPacket)
    requires Conserved(s) && p.stream in s.streams
    requires s'.sent == s.sent[s.nextPacket := p] && s'.nextPacket == s.nextPacket + 1 && s'.lost.Keys <= s.lost.Keys
    requires forall pn :: pn in s'.lost ==> s'.lost[pn] == s.lost[pn]
    requires s'.bytesInFlight == s.bytesInFlight + p.length
    requires s'.streams.Keys == s.streams.Keys
    requires forall id :: id in s.streams ==>
      s'.streams[id].bytesInFlight == s.streams[id].bytesInFlight + if id == p.stream then p.length else 0
    ensures Conserved(s')
  {
    SumBeyond(s.sent, s.nextPacket, s'.nextPacket, p.stream);
    SumAdd(s.sent, s.nextPacket, p, s'.nextPacket, p.stream);
    forall id | id in s'.streams ensures s'.streams[id].bytesInFlight == BytesOf(s'.sent, id, s'.nextPacket) {
      SumBeyond(s.sent, s.nextPacket, s'.nextPacket, id);
      SumAdd(s.sent, s.nextPacket, p, s'.nextPacket, id);
    }
  }

  /** A packet leaves the flight, acked or lost. */
  lemma Leaves(s: Sender, s': Sender, pn: nat)
    requires Conserved(s) && pn in s.sent
    requires s'.sent == s.sent - {pn} && s'.nextPacket == s.nextPacket && s'.streams.Keys == s.streams.Keys
    requires s'.lost == s.lost || s'.lost == s.lost[pn := s.sent[pn]]
    requires s'.bytesInFlight == s.bytesInFlight - s.sent[pn].length
    requires forall id :: id in s.streams ==>
      s'.streams[id].bytesInFlight == s.streams[id].bytesInFlight - if id == s.sent[pn].stream then s.sent[pn].length else 0
    ensures Conserved(s')
  {
    SumRemove(s.sent, pn, s.nextPacket, s.sent[pn].stream);
    forall id | id in s'.streams ensures s'.streams[id].bytesInFlight == BytesOf(s'.sent, id, s'.nextPacket) {
      SumRemove(s.sent, pn, s.nextPacket, id);
    }
  }

  lemma RetransmitConserves(s: Sender, pn: nat, now: nat)
    requires Conserved(s) && pn in s.lost
    ensures Conserved(Retransmit(s, pn, now))
  {
    Joins(s, Retransmit(s, pn, now), s.lost[pn].(sentTime := now));
  }

  lemma FragmentConserves(s: Sender, id: StreamId, now: nat)
    requires Conserved(s) && id in s.streams && s.streams[id].popped <= s.streams[id].next < s.streams[id].End()
    ensures Conserved(SendFragment(s, id, now))
  {
    Joins(s, SendFragment(s, id, now), NextFragment(s, id, now));
  }

  lemma MarkLostConserves(s: Sender, pn: nat)
    requires Conserved(s) && pn in s.sent
    ensures Conserved(MarkLost(s, pn))
  {
    Leaves(s, MarkLost(s, pn), pn);
  }

  lemma {:induction false} PopFlight(st: SendStream)
    ensures PopAcked(st).0.bytesInFlight == st.bytesInFlight
    decreases |st.items|
  {
    if st.items != [] && st.items[0].streamOffset + |st.items[0].data| <= st.ackedOffset {
      PopFlight(st.(popped := st.popped + 1, items := st.items[1..]));
    }
  }

  lemma AckPacketConserves(s: Sender, pn: nat, limited: bool)
    requires Conserved(s) && pn in s.sent
    ensures Conserved(AckPacket(s, pn, limited).0)
  {
    var p := s.sent[pn];
    var st := s.Stream(p.stream);
    var start := st.Item(p.item).streamOffset + p.offset;
    var (acked, outstanding) := MergeAcks(start + p.length, st.outstanding);
    PopFlight(st.(ackedOffset := acked, outstanding := outstanding));
    assert AckRegion(st, start, p.length).0.bytesInFlight == st.bytesInFlight;
    hide AckRegion;
    Leaves(s, AckPacket(s, pn, limited).0, pn);
  }

  // ---- Whole handlers -------------------------------------------------------------------------------------

  lemma {:induction false} SendLostConserves(s: Sender, pn: nat, end: nat, initial: int, now: nat)
    requires Conserved(s)
    ensures Conserved(SendLost(s, pn, end, initial, now).s)
    decreases end - pn
  {
    hide Conserved, Retransmit;
    if pn < end {
      if pn !in s.lost {
        SendLostConserves(s, pn + 1, end, initial, now);
      } else if s.bytesInFlight - initial >= PACING_LIMIT {
        ConservedCore(s, s.(pacingArmed := true));
      } else if s.bytesInFlight <= s.cc.window - s.lost[pn].length {
        RetransmitConserves(s, pn, now);
        SendLostConserves(Retransmit(s, pn, now), pn + 1, end, initial, now);
      }
    }
  }

  /** The iterators of all streams are sound, as the partition guarantees. */
  ghost predicate Iterable(s: Sender) {
    forall id :: id in s.streams ==> s.streams[id].popped <= s.streams[id].next
  }

  lemma {:induction false} SendNewConserves(s: Sender, id: StreamId, initial: int, now: nat)
    requires Conserved(s) && id in s.streams && Iterable(s)
    ensures Conserved(SendNew(s, id, initial, now).s) && Iterable(SendNew(s, id, initial, now).s)
    ensures SendNew(s, id, initial, now).s.streams.Keys == s.streams.Keys
    decreases s.Stream(id).End() - s.Stream(id).next,
              |s.Stream(id).Item(s.Stream(id).next).data| - s.Stream(id).Item(s.Stream(id).next).sentOffset
  {
    hide Conserved;
    var st := s.Stream(id);
    var item := st.Item(st.next);
    if st.next < st.End() {
      if item.sentOffset >= |item.data| {
        var s1 := s.(streams := s.streams[id := st.(next := st.next + 1)]);
        NextConserves(s, id);
        SendNewConserves(s1, id, initial, now);
      } else if s.bytesInFlight <= s.cc.window - NextFragment(s, id, now).length && s.bytesInFlight - initial <= PACING_LIMIT {
        FragmentConserves(s, id, now);
        SendNewConserves(SendFragment(s, id, now), id, initial, now);
      }
    }
  }

  lemma NextConserves(s: Sender, id: StreamId)
    requires Conserved(s) && id in s.streams
    ensures Conserved(s.(streams := s.streams[id := s.streams[id].(next := s.streams[id].next + 1)]))
  {
  }

  lemma {:induction false} SendQueuedConserves(s: Sender, initial: int, now: nat)
    requires Conserved(s) && Iterable(s) && forall i :: 0 <= i < |s.queue| ==> s.queue[i] in s.streams
    ensures Conserved(SendQueued(s, initial, now).s)
    decreases |s.queue|
  {
    hide Conserved;
    if s.queue != [] {
      var id := s.queue[0];
      var r := SendNew(s, id, initial, now);
      SendNewConserves(s, id, initial, now);
      if r.code == 0 {
        var s1 := r.s.(queue := s.queue[1..], queueIds := s.queueIds - {id});
        ConservedCore(r.s, s1);
        SendQueuedConserves(s1, initial, now);
      } else if r.code == -1 {
        ConservedCore(r.s, r.s.(pacingArmed := true));
      }
    }
  }

  lemma {:induction false} SendLostIterable(s: Sender, pn: nat, end: nat, initial: int, now: nat)
    requires Conserved(s) && Iterable(s)
    ensures Iterable(SendLost(s, pn, end, initial, now).s)
    ensures SendLost(s, pn, end, initial, now).s.streams.Keys == s.streams.Keys
    decreases end - pn
  {
    if pn < end {
      if pn !in s.lost {
        SendLostIterable(s, pn + 1, end, initial, now);
      } else if s.bytesInFlight - initial < PACING_LIMIT && s.bytesInFlight <= s.cc.window - s.lost[pn].length {
        RetransmitConserves(s, pn, now);
        hide Conserved;
        SendLostIterable(Retransmit(s, pn, now), pn + 1, end, initial, now);
      }
    }
  }

  /** A pacing tick conserves the flight. */
  lemma PacingConserves(s: Sender, now: nat)
    requires Conserved(s) && Iterable(s) && forall i :: 0 <= i < |s.queue| ==> s.queue[i] in s.streams
    ensures Conserved(PacingTick(s, now).s)
  {
    var s0 := s.(pacingArmed := false);
    ConservedCore(s, s0);
    hide Conserved;
    var r := SendLost(s0, 0, s0.nextPacket, s0.bytesInFlight, now);
    SendLostConserves(s0, 0, s0.nextPacket, s0.bytesInFlight, now);
    SendLostIterable(s0, 0, s0.nextPacket, s0.bytesInFlight, now);
    SendQueuedConserves(r.s, s0.bytesInFlight, now);
  }

  lemma {:induction false} LoseFromConserves(s: Sender, pn: nat, end: nat, everything: bool)
    requires Conserved(s)
    ensures Conserved(LoseFrom(s, pn, end, everything).0)
    decreases end - pn
  {
    hide Conserved, MarkLost;
    if pn < end {
      if pn !in s.sent {
        LoseFromConserves(s, pn + 1, end, everything);
      } else if everything || s.largestSentTime > s.sent[pn].sentTime + 50 {
        MarkLostConserves(s, pn);
        LoseFromConserves(MarkLost(s, pn), pn + 1, end, everything);
      }
    }
  }

  lemma LoseAndBackOffConserves(s: Sender, everything: bool, now: nat)
    requires Conserved(s)
    ensures Conserved(LoseAndBackOff(s, everything, now))
  {
    hide Conserved;
    LoseFromConserves(s, 0, s.nextPacket, everything);
    ConservedCore(LoseFrom(s, 0, s.nextPacket, everything).0, LoseAndBackOff(s, everything, now));
  }

  /** A tail-loss probe, or the reset it ends in, conserves the flight. */
  lemma TlpConserves(s: Sender, now: nat)
    requires Conserved(s)
    ensures Conserved(TlpTick(s, now))
  {
    assert Conserved(FreshSender(false));
    hide Conserved, LoseAndBackOff;
    LoseAndBackOffConserves(s, true, now);
    ConservedCore(s, s.(tlpArmed := false, tlpInterval := TLP_INTERVAL));
    var s1 := LoseAndBackOff(s, true, now);
    ConservedCore(s1, s1.(pacingArmed := true, tlpArmed := true, tlpInterval := s.tlpInterval * 2));
  }

  lemma {:induction false} AckRangeConserves(s: Sender, pn: nat, high: int, limited: bool)
    requires Conserved(s)
    ensures Conserved(AckRange(s, pn, high, limited).0)
    decreases high - pn
  {
    hide Conserved, AckPacket;
    if pn <= high {
      if pn in s.sent { AckPacketConserves(s, pn, limited); }
      AckRangeConserves(if pn in s.sent then AckPacket(s, pn, limited).0 else s, pn + 1, high, limited);
    }
  }

  lemma {:induction false} AckRunsConserves(s: Sender, high: int, ranges: seq<nat>, gap: bool, limited: bool)
    requires Conserved(s)
    ensures Conserved(AckRuns(s, high, ranges, gap, limited).0)
    decreases |ranges|
  {
    hide Conserved;
    if ranges != [] {
      var low := high - ranges[0];
      if gap {
        AckRunsConserves(s, low, ranges[1..], false, limited);
      } else {
        var from: nat := if low + 1 < 0 then 0 else low + 1;
        AckRangeConserves(s, from, high, limited);
        AckRunsConserves(AckRange(s, from, high, limited).0, low, ranges[1..], true, limited);
      }
    }
  }

  /** An ACK, whatever it claims, conserves the flight. */
  lemma RecvAckConserves(s: Sender, largest: nat, ranges: seq<nat>, now: nat)
    requires Conserved(s)
    ensures Conserved(RecvAck(s, largest, ranges, now).0)
  {
    hide Conserved, AckRuns, LoseAndBackOff;
    var s1 := NoteLargest(s, largest);
    ConservedCore(s, s1);
    AckRunsConserves(s1, largest, ranges, false, IsLimited(s1));
    var s2 := AckRuns(s1, largest, ranges, false, IsLimited(s1)).0;
    LoseAndBackOffConserves(s2, false, now);
    var s3 := LoseAndBackOff(s2, false, now);
    ConservedCore(s3, s3.(pacingArmed := true, tlpArmed := true, tlpInterval := TLP_INTERVAL));
  }

  // ---- Flush ------------------------------------------------------------------------------------------------

  lemma {:induction false} DropSums(m: map<nat, SentPacket>, id: StreamId, end: nat, j: StreamId)
    ensures Total(DropStream(m, id), end) == Total(m, end) - BytesOf(m, id, end)
    ensures BytesOf(DropStream(m, id), j, end) == if j == id then 0 else BytesOf(m, j, end)
  {
    if end > 0 { DropSums(m, id, end - 1, j); }
  }

  lemma {:induction false} BytesPositive(m: map<nat, SentPacket>, id: StreamId, end: nat, pn: nat)
    requires pn in m && pn < end && m[pn].stream == id
    ensures BytesOf(m, id, end) >= m[pn].length
  {
    if pn < end - 1 { BytesPositive(m, id, end - 1, pn); }
  }

  /** Flushing a stream conserves the flight if and only if none of the stream's packets is marked lost:
      otherwise the bytes of its lost packets, which left the flight when they were marked, are subtracted again. */
  lemma FlushConservesIff(s: Sender, id: StreamId)
    requires Conserved(s)
    requires forall pn :: pn in s.lost ==> 0 < s.lost[pn].length
    ensures Conserved(Flush(s, id)) <==> forall pn :: pn in s.lost ==> s.lost[pn].stream != id
    ensures Flush(s, id).bytesInFlight == Total(Flush(s, id).sent, s.nextPacket) - BytesOf(s.lost, id, s.nextPacket)
  {
    var s' := Flush(s, id);
    DropSums(s.sent, id, s.nextPacket, id);
    if forall pn :: pn in s.lost ==> s.lost[pn].stream != id {
      NoBytes(s.lost, id, s.nextPacket);
      forall j | j in s'.streams ensures s'.streams[j].bytesInFlight == BytesOf(s'.sent, j, s'.nextPacket) {
        DropSums(s.sent, id, s.nextPacket, j);
      }
    } else {
      var pn :| pn in s.lost && s.lost[pn].stream == id;
      BytesPositive(s.lost, id, s.nextPacket, pn);
    }
  }

  // ---- Window and pacing ------------------------------------------------------------------------------------

  ghost predicate WindowOk(s: Sender) { s.cc.window >= MIN_WINDOW }

  lemma {:induction false} AckRangeWindow(s: Sender, pn: nat, high: int, limited: bool)
    requires WindowOk(s)
    ensures WindowOk(AckRange(s, pn, high, limited).0)
    decreases high - pn
  {
    if pn <= high {
      if pn in s.sent {
        assert 1500 * s.sent[pn].length / s.cc.window >= 0;
      }
      AckRangeWindow(if pn in s.sent then AckPacket(s, pn, limited).0 else s, pn + 1, high, limited);
    }
  }

  lemma {:induction false} AckRunsWindow(s: Sender, high: int, ranges: seq<nat>, gap: bool, limited: bool)
    requires WindowOk(s)
    ensures WindowOk(AckRuns(s, high, ranges, gap, limited).0)
    decreases |ranges|
  {
    if ranges != [] {
      var low := high - ranges[0];
      if gap {
        AckRunsWindow(s, low, ranges[1..], false, limited);
      } else {
        var from: nat := if low + 1 < 0 then 0 else low + 1;
        AckRangeWindow(s, from, high, limited);
        AckRunsWindow(AckRange(s, from, high, limited).0, low, ranges[1..], true, limited);
      }
    }
  }

  /** No ACK takes the congestion window below its floor. */
  lemma AckWindow(s: Sender, largest: nat, ranges: seq<nat>, now: nat)
    requires WindowOk(s)
    ensures WindowOk(RecvAck(s, largest, ranges, now).0)
  {
    AckRunsWindow(NoteLargest(s, largest), largest, ranges, false, IsLimited(NoteLargest(s, largest)));
    hide AckRuns, LoseFrom;
  }

  lemma TlpWindow(s: Sender, now: nat)
    requires WindowOk(s)
    ensures WindowOk(TlpTick(s, now))
  {
    hide LoseFrom;
  }

  /** One congestion event backs off once: losing more packets that were sent before it changes nothing. The window
      keeps at least three fifths, and otherwise never grows past its floor. */
  lemma BackOffOnce(cc: Congestion, lostTime: nat, now: nat, lostTime': nat, now': nat)
    requires lostTime > cc.start && lostTime' <= now
    ensures var cc' := OnLoss(cc, lostTime, now);
      && OnLoss(cc', lostTime', now') == cc'
      && (cc'.window == MIN_WINDOW || cc'.window <= cc.window) && 5 * cc'.window + 4 >= 3 * cc.window
  {
  }

  /** A transmission pass only adds to the flight, never past the window, and by a bounded amount. */
  ghost predicate Bounded(s: Sender, r: Pass, initial: int, most: int) {
    && r.s.cc == s.cc
    && s.bytesInFlight <= r.s.bytesInFlight
    && (r.out == [] ==> r.s.bytesInFlight == s.bytesInFlight)
    && (r.out != [] ==> r.s.bytesInFlight <= s.cc.window)
    && (s.bytesInFlight - initial <= most ==> r.s.bytesInFlight - initial <= most)
  }

  ghost predicate LostShort(s: Sender) {
    forall pn :: pn in s.lost ==> s.lost[pn].length <= FRAGMENT_SIZE
  }

  lemma {:induction false} LostBounded(s: Sender, pn: nat, end: nat, initial: int, now: nat)
    requires LostShort(s)
    ensures Bounded(s, SendLost(s, pn, end, initial, now), initial, PACING_LIMIT - 1 + FRAGMENT_SIZE)
    decreases end - pn
  {
    if pn < end {
      if pn !in s.lost {
        LostBounded(s, pn + 1, end, initial, now);
      } else if s.bytesInFlight - initial < PACING_LIMIT && s.bytesInFlight <= s.cc.window - s.lost[pn].length {
        LostBounded(Retransmit(s, pn, now), pn + 1, end, initial, now);
      }
    }
  }

  lemma {:induction false} NewBounded(s: Sender, id: StreamId, initial: int, now: nat)
    requires s.Stream(id).popped <= s.Stream(id).next
    ensures Bounded(s, SendNew(s, id, initial, now), initial, PACING_LIMIT + FRAGMENT_SIZE)
    decreases s.Stream(id).End() - s.Stream(id).next,
              |s.Stream(id).Item(s.Stream(id).next).data| - s.Stream(id).Item(s.Stream(id).next).sentOffset
  {
    var st := s.Stream(id);
    var item := st.Item(st.next);
    if st.next < st.End() {
      if item.sentOffset >= |item.data| {
        NewBounded(s.(streams := s.streams[id := st.(next := st.next + 1)]), id, initial, now);
      } else if s.bytesInFlight <= s.cc.window - NextFragment(s, id, now).length && s.bytesInFlight - initial <= PACING_LIMIT {
        NewBounded(SendFragment(s, id, now), id, initial, now);
      }
    }
  }

  lemma BoundedThen(s: Sender, r: Pass, s1: Sender, q: Pass, code: int, initial: int, most: int)
    requires Bounded(s, r, initial, most) && Bounded(s1, q, initial, most)
    requires s1.cc == r.s.cc && s1.bytesInFlight == r.s.bytesInFlight
    ensures Bounded(s, Pass(q.s, code, r.out + q.out), initial, most)
  {
  }

  lemma {:induction false} QueuedBounded(s: Sender, initial: int, now: nat)
    requires Conserved(s) && Iterable(s) && forall i :: 0 <= i < |s.queue| ==> s.queue[i] in s.streams
    ensures Bounded(s, SendQueued(s, initial, now), initial, PACING_LIMIT + FRAGMENT_SIZE)
    decreases |s.queue|
  {
    hide Conserved;
    if s.queue != [] {
      var id := s.queue[0];
      var r := SendNew(s, id, initial, now);
      NewBounded(s, id, initial, now);
      SendNewConserves(s, id, initial, now);
      if r.code == 0 {
        var s1 := r.s.(queue := s.queue[1..], queueIds := s.queueIds - {id});
        ConservedCore(r.s, s1);
        QueuedBounded(s1, initial, now);
        BoundedThen(s, r, s1, SendQueued(s1, initial, now), SendQueued(s1, initial, now).code, initial, PACING_LIMIT + FRAGMENT_SIZE);
      }
    }
  }

  /** One pacing tick adds at most 401350 bytes to the flight, and every datagram it sends leaves the flight
      within the congestion window (the flight only grows during the tick). */
  lemma TickBounded(s: Sender, now: nat)
    requires Conserved(s) && Iterable(s) && LostShort(s)
    requires forall i :: 0 <= i < |s.queue| ==> s.queue[i] in s.streams
    ensures var r := PacingTick(s, now);
      && 0 <= r.s.bytesInFlight - s.bytesInFlight <= 401350
      && (r.out != [] ==> r.s.bytesInFlight <= s.cc.window)
      && r.s.cc == s.cc
  {
    var s0 := s.(pacingArmed := false);
    var initial := s.bytesInFlight;
    ConservedCore(s, s0);
    hide Conserved;
    var r := SendLost(s0, 0, s0.nextPacket, initial, now);
    LostBounded(s0, 0, s0.nextPacket, initial, now);
    SendLostConserves(s0, 0, s0.nextPacket, initial, now);
    SendLostIterable(s0, 0, s0.nextPacket, initial, now);
    if r.code >= 0 {
      QueuedBounded(r.s, initial, now);
      BoundedThen(s0, r, r.s, SendQueued(r.s, initial, now), SendQueued(r.s, initial, now).code, initial, PACING_LIMIT + FRAGMENT_SIZE);
    }
  }
}
