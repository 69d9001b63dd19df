/** No stall: unsent data is always queued, and outstanding work always has the tail-loss timer armed. */
module Scheduling {
  import opened Bytes
  import opened Sending

  ghost predicate QueueOnce(s: Sender) {
    && (forall i, j :: 0 <= i < j < |s.queue| ==> s.queue[i] != s.queue[j])
    && (forall id :: id in s.queueIds <==> id in s.queue)
  }

  /** Every stream whose iterator has not reached the end of its items is queued. */
  ghost predicate UnsentQueued(s: Sender) {
    forall id :: id in s.streams && s.streams[id].next < s.streams[id].End() ==> id in s.queueIds
  }

  ghost predicate TimerOk(s: Sender) {
    !IsIdle(s) ==> s.tlpArmed
  }

  ghost predicate Scheduled(s: Sender) {
    QueueOnce(s) && UnsentQueued(s) && TimerOk(s)
  }

  lemma FreshScheduled(established: bool)
    ensures Scheduled(FreshSender(established))
  {
  }

  lemma RegisterOnce(s: Sender, id: StreamId)
    requires QueueOnce(s)
    ensures QueueOnce(RegisterIntent(s, id)) && id in RegisterIntent(s, id).queueIds
    ensures s.queueIds <= RegisterIntent(s, id).queueIds && |RegisterIntent(s, id).queue| > 0
  {
  }

  lemma SendSchedules(s: Sender, id: StreamId, data: seq<byte>)
    requires Scheduled(s)
    ensures Scheduled(Send(s, id, data).0)
    ensures Send(s, id, data).1 == 0 ==> Send(s, id, data).0.tlpArmed && Send(s, id, data).0.pacingArmed
  {
    if Send(s, id, data).1 == 0 {
      var st := s.Stream(id);
      var st' := st.(items := st.items + [DataItem(data, 0, st.queueOffset)], queueOffset := st.queueOffset + |data|);
      var s1 := s.(streams := s.streams[id := st'], tlpArmed := s.tlpArmed || IsIdle(s));
      assert QueueOnce(s1);
      RegisterOnce(s1, id);
    }
  }

  // ---- Pacing -----------------------------------------------------------------------------------------------

  /** Two senders whose streams differ at most in stream `id`. */
  ghost predicate OnlyStream(s: Sender, s': Sender, id: StreamId) {
    s'.streams.Keys == s.streams.Keys && forall j :: j in s.streams && j != id ==> s'.streams[j] == s.streams[j]
  }

  lemma FragmentOne(s: Sender, id: StreamId, now: nat)
    requires id in s.streams && s.streams[id].popped <= s.streams[id].next < s.streams[id].End()
    ensures var s' := SendFragment(s, id, now);
      && OnlyStream(s, s', id) && s'.streams[id].popped <= s'.streams[id].next
      && s'.streams[id].End() == s.streams[id].End() && s.streams[id].next <= s'.streams[id].next
      && (s'.streams[id].next == s.streams[id].next ==> Left(s', id) < Left(s, id))
  {
  }

  /** What is left of the item at a stream's iterator. */
  function Left(s: Sender, id: StreamId): int {
    |s.Stream(id).Item(s.Stream(id).next).data| - s.Stream(id).Item(s.Stream(id).next).sentOffset
  }

  /** Sending new data touches one stream, and code 0 means that stream's iterator reached the end. */
  lemma {:induction false} SendNewOne(s: Sender, id: StreamId, initial: int, now: nat)
    requires id in s.streams && s.streams[id].popped <= s.streams[id].next
    ensures var r := SendNew(s, id, initial, now);
      OnlyStream(s, r.s, id) && (r.code == 0 ==> r.s.streams[id].next >= r.s.streams[id].End())
    decreases s.Stream(id).End() - s.Stream(id).next,
              |s.Stream(id).Item(s.Stream(id).next).data| - s.Stream(id).Item(s.Stream(id).next).sentOffset
  {
    hide Datagram, SendFragment, NextFragment;
    var st := s.Stream(id);
    var item := st.Item(st.next);
    if st.next < st.End() {
      if item.sentOffset >= |item.data| {
        SendNewOne(s.(streams := s.streams[id := st.(next := st.next + 1)]), id, initial, now);
      } else if s.bytesInFlight <= s.cc.window - NextFragment(s, id, now).length && s.bytesInFlight - initial <= PACING_LIMIT {
        FragmentOne(s, id, now);
        SendNewOne(SendFragment(s, id, now), id, initial, now);
      }
    }
  }

  /** Iterators stand at or after the front of their lists, and queued streams exist. */
  ghost predicate Sane(s: Sender) {
    && (forall id :: id in s.streams ==> s.streams[id].popped <= s.streams[id].next)
    && (forall id :: id in s.queue ==> id in s.streams)
  }

  lemma {:induction false} SendNewSane(s: Sender, id: StreamId, initial: int, now: nat)
    requires id in s.streams && s.streams[id].popped <= s.streams[id].next
    ensures id in SendNew(s, id, initial, now).s.streams
    ensures var st := SendNew(s, id, initial, now).s.streams[id]; st.popped <= st.next
    decreases s.Stream(id).End() - s.Stream(id).next,
              |s.Stream(id).Item(s.Stream(id).next).data| - s.Stream(id).Item(s.Stream(id).next).sentOffset
  {
    hide Datagram, SendFragment, NextFragment;
    var st := s.Stream(id);
    var item := st.Item(st.next);
    if st.next < st.End() {
      if item.sentOffset >= |item.data| {
        SendNewSane(s.(streams := s.streams[id := st.(next := st.next + 1)]), id, initial, now);
      } else if s.bytesInFlight <= s.cc.window - NextFragment(s, id, now).length && s.bytesInFlight - initial <= PACING_LIMIT {
        FragmentOne(s, id, now);
        SendNewSane(SendFragment(s, id, now), id, initial, now);
      }
    }
  }

  lemma DequeueOnce(s: Sender, s1: Sender)
    requires QueueOnce(s) && s.queue != []
    requires s1.queue == s.queue[1..] && s1.queueIds == s.queueIds - {s.queue[0]}
    ensures QueueOnce(s1) && forall id :: id in s1.queue ==> id in s.queue
  {
    forall id ensures id in s1.queueIds <==> id in s1.queue {
      if id in s.queue && id != s.queue[0] {
        var i :| 0 <= i < |s.queue| && s.queue[i] == id;
        assert s1.queue[i - 1] == id;
      }
    }
  }

  lemma Dequeue(s: Sender, r: Pass)
    requires QueueOnce(s) && UnsentQueued(s) && Sane(s) && s.queue != []
    requires r.s.queue == s.queue && r.s.queueIds == s.queueIds && r.s.streams.Keys == s.streams.Keys
    requires forall j :: j in s.streams && j != s.queue[0] ==> r.s.streams[j] == s.streams[j]
    requires s.queue[0] in s.streams && r.s.streams[s.queue[0]].next >= r.s.streams[s.queue[0]].End()
    requires r.s.streams[s.queue[0]].popped <= r.s.streams[s.queue[0]].next
    ensures var s1 := r.s.(queue := s.queue[1..], queueIds := s.queueIds - {s.queue[0]});
      QueueOnce(s1) && UnsentQueued(s1) && Sane(s1)
  {
    var s1 := r.s.(queue := s.queue[1..], queueIds := s.queueIds - {s.queue[0]});
    DequeueOnce(s, s1);
  }

  lemma {:induction false} SendQueuedSchedules(s: Sender, initial: int, now: nat)
    requires QueueOnce(s) && UnsentQueued(s) && Sane(s)
    ensures QueueOnce(SendQueued(s, initial, now).s) && UnsentQueued(SendQueued(s, initial, now).s)
    ensures SendQueued(s, initial, now).s.tlpArmed == s.tlpArmed
    decreases |s.queue|
  {
    if s.queue != [] {
      var id := s.queue[0];
      var r := SendNew(s, id, initial, now);
      assert id in s.queue;
      SendNewOne(s, id, initial, now);
      SendNewSane(s, id, initial, now);
      if r.code == 0 {
        Dequeue(s, r);
        SendQueuedSchedules(r.s.(queue := s.queue[1..], queueIds := s.queueIds - {id}), initial, now);
      }
    }
  }

  lemma {:induction false} SendLostSchedules(s: Sender, pn: nat, end: nat, initial: int, now: nat)
    requires UnsentQueued(s) && Sane(s) && forall n :: n in s.lost ==> s.lost[n].stream in s.streams
    ensures UnsentQueued(SendLost(s, pn, end, initial, now).s)
    decreases end - pn
  {
    hide Datagram;
    if pn < end {
      if pn !in s.lost {
        SendLostSchedules(s, pn + 1, end, initial, now);
      } else if s.bytesInFlight - initial < PACING_LIMIT && s.bytesInFlight <= s.cc.window - s.lost[pn].length {
        SendLostSchedules(Retransmit(s, pn, now), pn + 1, end, initial, now);
      }
    }
  }

  lemma {:induction false} SendLostSane(s: Sender, pn: nat, end: nat, initial: int, now: nat)
    requires Sane(s) && forall n :: n in s.lost ==> s.lost[n].stream in s.streams
    ensures Sane(SendLost(s, pn, end, initial, now).s)
    decreases end - pn
  {
    hide Datagram;
    if pn < end {
      if pn !in s.lost {
        SendLostSane(s, pn + 1, end, initial, now);
      } else if s.bytesInFlight - initial < PACING_LIMIT && s.bytesInFlight <= s.cc.window - s.lost[pn].length {
        SendLostSane(Retransmit(s, pn, now), pn + 1, end, initial, now);
      }
    }
  }

  /** With nothing lost there is nothing to retransmit. */
  lemma {:induction false} SendLostNothing(s: Sender, pn: nat, end: nat, initial: int, now: nat)
    requires |s.lost| == 0
    ensures SendLost(s, pn, end, initial, now) == Pass(s, 0, [])
    decreases end - pn
  {
    if pn < end { SendLostNothing(s, pn + 1, end, initial, now); }
  }

  lemma PacingSchedules(s: Sender, now: nat)
    requires Scheduled(s) && Sane(s) && forall n :: n in s.lost ==> s.lost[n].stream in s.streams
    ensures Scheduled(PacingTick(s, now).s)
  {
    var s0 := s.(pacingArmed := false);
    var r := SendLost(s0, 0, s0.nextPacket, s0.bytesInFlight, now);
    SendLostSchedules(s0, 0, s0.nextPacket, s0.bytesInFlight, now);
    SendLostSane(s0, 0, s0.nextPacket, s0.bytesInFlight, now);
    SendQueuedSchedules(r.s, s0.bytesInFlight, now);
    if IsIdle(s) {
      SendLostNothing(s0, 0, s0.nextPacket, s0.bytesInFlight, now);
    }
  }

  // ---- Loss and acks --------------------------------------------------------------------------------------

  lemma {:induction false} LoseFromStreams(s: Sender, pn: nat, end: nat, everything: bool)
    requires UnsentQueued(s) && forall n :: n in s.sent ==> s.sent[n].stream in s.streams
    ensures UnsentQueued(LoseFrom(s, pn, end, everything).0)
    decreases end - pn
  {
    if pn < end {
      if pn !in s.sent {
        LoseFromStreams(s, pn + 1, end, everything);
      } else if everything || s.largestSentTime > s.sent[pn].sentTime + 50 {
        LoseFromStreams(MarkLost(s, pn), pn + 1, end, everything);
      }
    }
  }

  lemma TlpSchedules(s: Sender, now: nat)
    requires Scheduled(s) && forall n :: n in s.sent ==> s.sent[n].stream in s.streams
    ensures Scheduled(TlpTick(s, now))
  {
    LoseFromStreams(s, 0, s.nextPacket, true);
    FreshScheduled(false);
    hide LoseFrom;
  }

  lemma {:induction false} PopUnsent(st: SendStream)
    ensures PopAcked(st).0.next < PopAcked(st).0.End() ==> st.next < st.End()
    ensures PopAcked(st).0.End() == st.End()
    decreases |st.items|
  {
    if st.items != [] && st.items[0].streamOffset + |st.items[0].data| <= st.ackedOffset {
      PopUnsent(st.(popped := st.popped + 1, items := st.items[1..]));
    }
  }

  lemma AckPacketSchedules(s: Sender, pn: nat, limited: bool)
    requires UnsentQueued(s) && pn in s.sent && forall n :: n in s.sent ==> s.sent[n].stream in s.streams
    ensures var s' := AckPacket(s, pn, limited).0; UnsentQueued(s') && s'.streams.Keys == s.streams.Keys && s'.sent == s.sent - {pn}
  {
    var p := s.sent[pn];
    var st := s.Stream(p.stream);
    var start := st.Item(p.item).streamOffset + p.offset;
    var (acked, outstanding) := MergeAcks(start + p.length, st.outstanding);
    PopUnsent(st.(ackedOffset := acked, outstanding := outstanding));
  }

  lemma {:induction false} AckRangeSchedules(s: Sender, pn: nat, high: int, limited: bool)
    requires UnsentQueued(s) && forall n :: n in s.sent ==> s.sent[n].stream in s.streams
    ensures var s' := AckRange(s, pn, high, limited).0; UnsentQueued(s') && forall n :: n in s'.sent ==> s'.sent[n].stream in s'.streams
    decreases high - pn
  {
    if pn <= high {
      if pn in s.sent { AckPacketSchedules(s, pn, limited); }
      AckRangeSchedules(if pn in s.sent then AckPacket(s, pn, limited).0 else s, pn + 1, high, limited);
    }
  }

  lemma {:induction false} AckRunsSchedules(s: Sender, high: int, ranges: seq<nat>, gap: bool, limited: bool)
    requires UnsentQueued(s) && forall n :: n in s.sent ==> s.sent[n].stream in s.streams
    ensures var s' := AckRuns(s, high, ranges, gap, limited).0; UnsentQueued(s') && forall n :: n in s'.sent ==> s'.sent[n].stream in s'.streams
    decreases |ranges|
  {
    if ranges != [] {
      var low := high - ranges[0];
      if gap {
        AckRunsSchedules(s, low, ranges[1..], false, limited);
      } else {
        var from: nat := if low + 1 < 0 then 0 else low + 1;
        AckRangeSchedules(s, from, high, limited);
        AckRunsSchedules(AckRange(s, from, high, limited).0, low, ranges[1..], true, limited);
      }
    }
  }

  lemma RecvAckSchedules(s: Sender, largest: nat, ranges: seq<nat>, now: nat)
    requires Scheduled(s) && forall n :: n in s.sent ==> s.sent[n].stream in s.streams
    ensures Scheduled(RecvAck(s, largest, ranges, now).0)
  {
    if s.established {
      var s1 := NoteLargest(s, largest);
      AckRunsSchedules(s1, largest, ranges, false, IsLimited(s1));
      var s2 := AckRuns(s1, largest, ranges, false, IsLimited(s1)).0;
      LoseFromStreams(s2, 0, s2.nextPacket, false);
      AfterAck(s, s2, RecvAck(s, largest, ranges, now).0, now);
    }
  }

  lemma AfterAck(s: Sender, s2: Sender, s': Sender, now: nat)
    requires QueueOnce(s) && s2.queue == s.queue && s2.queueIds == s.queueIds
    requires UnsentQueued(LoseFrom(s2, 0, s2.nextPacket, false).0)
    requires s' == LoseAndBackOff(s2, false, now).(pacingArmed := true, tlpArmed := true, tlpInterval := TLP_INTERVAL)
    ensures Scheduled(s')
  {
    hide LoseFrom;
  }
}
