/**
 The sending half of the StreamTransport object: its fields, and the loops of its handlers, each proved to do
 what the corresponding function of `Sending` says.
 */
module Transport {
  import opened Bytes
  import opened Sending
  import Scheduling

  class StreamTransport {
    var established: bool
    var streams: map<StreamId, SendStream>
    var sent: map<nat, SentPacket>
    var lost: map<nat, SentPacket>
    /** One more than `last_sent_packet`. */
    var nextPacket: nat
    var queue: seq<StreamId>
    var queueIds: set<StreamId>
    var bytesInFlight: int
    var cc: Congestion
    var largestAcked: nat
    var largestSentTime: nat
    var pacingArmed: bool
    var tlpArmed: bool
    var tlpInterval: nat

    function View(): Sender
      reads this
    {
      Sender(established, streams, sent, lost, nextPacket, queue, queueIds, bytesInFlight,
             cc, largestAcked, largestSentTime, pacingArmed, tlpArmed, tlpInterval)
    }

    constructor ()
      ensures View() == FreshSender(false)
    {
      established, streams, sent, lost, nextPacket := false, map[], map[], map[], 0;
      queue, queueIds, bytesInFlight := [], {}, 0;
      cc := Congestion(INITIAL_WINDOW, NO_THRESHOLD, 0, 0);
      largestAcked, largestSentTime, pacingArmed, tlpArmed, tlpInterval := 0, 0, false, false, TLP_INTERVAL;
    }

    /** Reset the transport's sending state. */
    method Reset()
      modifies this
      ensures View() == FreshSender(false)
    {
      established := false;
      ResetPackets();
      ResetTimers();
    }

    method ResetPackets()
      modifies this`streams, this`sent, this`lost, this`nextPacket, this`queue, this`queueIds, this`bytesInFlight
      ensures streams == map[] && sent == map[] && lost == map[] && nextPacket == 0 && queue == [] && queueIds == {} && bytesInFlight == 0
    {
      streams := map[];
      nextPacket := 0;
      sent, lost := map[], map[];
      bytesInFlight := 0;
      queueIds, queue := {}, [];
    }

    method ResetTimers()
      modifies this`cc, this`largestAcked, this`largestSentTime, this`pacingArmed, this`tlpArmed, this`tlpInterval
      ensures cc == Congestion(INITIAL_WINDOW, NO_THRESHOLD, 0, 0) && largestAcked == 0 && largestSentTime == 0
      ensures !pacingArmed && !tlpArmed && tlpInterval == TLP_INTERVAL
    {
      cc := Congestion(INITIAL_WINDOW, NO_THRESHOLD, 0, 0);
      largestAcked, largestSentTime := 0, 0;
      pacingArmed := false;
      tlpArmed, tlpInterval := false, TLP_INTERVAL;
    }

    // ---- Queueing -------------------------------------------------------------------------------------------

    method RegisterSendIntent(id: StreamId) returns (registered: bool)
      modifies this
      ensures View() == RegisterIntent(old(View()), id)
      ensures registered == (id !in old(queueIds))
    {
      if id in queueIds { return false; }
      queue := queue + [id];
      queueIds := queueIds + {id};
      return true;
    }

    method Send(data: seq<byte>, id: StreamId) returns (code: int)
      modifies this
      ensures (View(), code) == Sending.Send(old(View()), id, data)
    {
      if !established { return -2; }
      var st := View().Stream(id);

      if st.queueOffset - st.ackedOffset > QUEUE_LIMIT {
        streams := streams[id := st];
        return -1;
      }

      var idle := st.next == st.End();

      var items := st.items + [DataItem(data, 0, st.queueOffset)];

      var next := if idle then st.popped + |items| - 1 else st.next;
      streams := streams[id := st.(items := items, queueOffset := st.queueOffset + |data|, next := next)];

      if |sent| == 0 && |lost| == 0 && |queue| == 0 { tlpArmed := true; }

      var _ := RegisterSendIntent(id);
      pacingArmed := true;
      return 0;
    }

    // ---- Transmission ---------------------------------------------------------------------------------------

    /** Transmits the bytes of a record under a fresh packet number, and counts them in. */
    method SendData(p: SentPacket) returns (m: DataMsg)
      modifies this
      ensures m == Datagram(old(View()), p)
      ensures var s := old(View()); var st := s.Stream(p.stream);
        View() == s.(streams := s.streams[p.stream := st.(bytesInFlight := st.bytesInFlight + p.length)],
                     sent := s.sent[s.nextPacket := p], nextPacket := s.nextPacket + 1,
                     bytesInFlight := s.bytesInFlight + p.length)
    {
      m := Datagram(View(), p);
      var st := View().Stream(p.stream);
      sent := sent[nextPacket := p];
      nextPacket := nextPacket + 1;
      streams := streams[p.stream := st.(bytesInFlight := st.bytesInFlight + p.length)];
      bytesInFlight := bytesInFlight + p.length;
    }

    method SendLostData(initial: int, now: nat) returns (code: int, out: seq<DataMsg>)
      modifies this
      ensures Pass(View(), code, out) == SendLost(old(View()), 0, old(nextPacket), initial, now)
    {
      out := [];
      var end, pn := nextPacket, 0;
      ghost var all := SendLost(View(), 0, end, initial, now);
      while pn < end
        invariant 0 <= pn <= end
        invariant var rest := SendLost(View(), pn, end, initial, now);
          all.s == rest.s && all.code == rest.code && all.out == out + rest.out
      {
        if pn in lost {
          assert out + [] == out;
          if bytesInFlight - initial >= PACING_LIMIT {
            // The tick has sent its share; another follows at once.
            pacingArmed := true;
            return -1, out;
          }

          var p := lost[pn];
          if bytesInFlight > cc.window - p.length { return -2, out; }

          var m := Resend(pn, now);
          ghost var rest := SendLost(View(), pn + 1, end, initial, now);
          assert out + ([m] + rest.out) == (out + [m]) + rest.out;
          out := out + [m];
        }
        pn := pn + 1;
      }
      assert out + [] == out;
      return 0, out;
    }

    method Resend(pn: nat, now: nat) returns (m: DataMsg)
      requires pn in lost
      modifies this
      ensures View() == Retransmit(old(View()), pn, now) && m == Datagram(old(View()), old(lost)[pn])
    {
      m := SendData(lost[pn].(sentTime := now));
      lost := lost - {pn};
    }

    /** Sends one fragment of the item the iterator of `id` stands at, from offset `i` of it. */
    method SendOne(id: StreamId, i: nat, now: nat) returns (m: DataMsg)
      requires var st := View().Stream(id); st.popped <= st.next < st.End() && i == st.Item(st.next).sentOffset
      modifies this
      ensures m == Datagram(old(View()), NextFragment(old(View()), id, now))
      ensures var s := old(View()); var s' := SendFragment(s, id, now); var st := s.Stream(id);
        id in s'.streams && View() == s'.(streams := s'.streams[id := s'.streams[id].(next := st.next)])
    {
      var p := NextFragment(View(), id, now);
      var next := View().Stream(id).next;
      m := SendData(p.(offset := i));
      var st := streams[id];
      var item := st.Item(next);
      streams := streams[id := st.(items := st.items[next - st.popped := item.(sentOffset := item.sentOffset + p.length)],
                                   sentOffset := st.sentOffset + p.length)];
    }

    /** Moves the iterator of a stream to its next item. */
    method StepIterator(id: StreamId)
      requires id in streams
      modifies this
      ensures var s := old(View()); var st := s.streams[id];
        View() == s.(streams := s.streams[id := st.(next := st.next + 1)])
    {
      var st := streams[id];
      streams := streams[id := st.(next := st.next + 1)];
    }
  
    /** Sends the fragments of the item the iterator of a stream stands at; 0 once the item is exhausted. */
    method SendItem(id: StreamId, initial: int, now: nat) returns (code: int, out: seq<DataMsg>)
      requires id in streams && streams[id].popped <= streams[id].next < streams[id].End()
      modifies this
      ensures code == 0 ==> Continues(SendNew(old(View()), id, initial, now), out, SendNew(View(), id, initial, now))
      ensures code == 0 ==> id in streams && var st := streams[id];
        && st.popped <= st.next < st.End() && st.End() - st.next == old(streams[id].End() - streams[id].next)
        && st.Item(st.next).sentOffset >= |st.Item(st.next).data|
      ensures code != 0 ==> Pass(View(), code, out) == SendNew(old(View()), id, initial, now)
    {
      out := [];
      ghost var all := SendNew(View(), id, initial, now);
      var here := streams[id].next;
      var item := streams[id].Item(here);
      var i := item.sentOffset;
      while i < |item.data|
        invariant id in streams && streams[id].popped <= streams[id].next == here < streams[id].End()
        invariant streams[id].End() == old(streams[id].End())
        invariant streams[id].Item(here).data == item.data && streams[id].Item(here).sentOffset == i
        invariant Continues(all, out, SendNew(View(), id, initial, now))
        decreases |item.data| - i
      {
        var dsize := NextFragment(View(), id, now).length;
        assert out + [] == out;
        if bytesInFlight > cc.window - dsize { return -2, out; }
        if bytesInFlight - initial > PACING_LIMIT { return -1, out; }

        ghost var before := View();
        var m := SendOne(id, i, now);
        Fragmented(before, View(), id, initial, now);
        ContinuesMore(all, out, m, SendNew(View(), id, initial, now));
        out := out + [m];
        i := i + dsize;
      }
      return 0, out;
    }

    /** Sends the new data of a stream, item by item. */
    method SendNewData(id: StreamId, initial: int, now: nat) returns (code: int, out: seq<DataMsg>)
      requires id in streams && streams[id].popped <= streams[id].next
      modifies this
      ensures Pass(View(), code, out) == SendNew(old(View()), id, initial, now)
    {
      hide SendNew, Continues;
      out := [];
      ghost var all := SendNew(View(), id, initial, now);
      ContinuesStart(all);
      while streams[id].next < streams[id].End()
        invariant id in streams && streams[id].popped <= streams[id].next
        invariant Continues(all, out, SendNew(View(), id, initial, now))
        decreases streams[id].End() - streams[id].next
      {
        ghost var here := SendNew(View(), id, initial, now);
        var more;
        code, more := SendItem(id, initial, now);
        if code != 0 {
          ContinuesStop(all, out, here);
          return code, out + more;
        }
        ContinuesThen(all, out, here, more, SendNew(View(), id, initial, now));
        out := out + more;
        SteppedOver(View(), id, initial, now);
        StepIterator(id);
      }
      AllSent(View(), id, initial, now);
      ContinuesStop(all, out, Pass(View(), 0, []));
      assert out + [] == out;
      return 0, out;
    }

    /** The pacing timer fires: lost data first, then the queued streams in turn. */
    method PacingTimerCb(now: nat) returns (ghost code: int, out: seq<DataMsg>)
      requires Scheduling.Sane(View())
      requires forall pn :: pn in lost ==> lost[pn].stream in streams
      modifies this
      ensures Pass(View(), code, out) == PacingTick(old(View()), now)
    {
      pacingArmed := false;
      var initial := bytesInFlight;
      ghost var s0 := View();
      Scheduling.SendLostSane(s0, 0, nextPacket, initial, now);

      var res;
      res, out := SendLostData(initial, now);
      code := res;
      if res < 0 { return; }

      ghost var first := out;
      ghost var all := SendQueued(View(), initial, now);
      assert out == first + [];
      var sentNew := [];
      while queue != []
        invariant Scheduling.Sane(View())
        invariant Continues(all, sentNew, SendQueued(View(), initial, now))
        decreases |queue|
      {
        var id := queue[0];
        assert id in queue;
        ghost var before := View();
        Scheduling.SendNewOne(before, id, initial, now);
        Scheduling.SendNewSane(before, id, initial, now);
        var more;
        res, more := SendNewData(id, initial, now);
        code := res;
        if res == 0 {
          Dequeue(id);
          ContinuesThen(all, sentNew, SendQueued(before, initial, now), more, SendQueued(View(), initial, now));
          sentNew := sentNew + more;
        } else {
          // -1: the share of this tick is used up; -2: the window is full.
          if res == -1 { pacingArmed := true; }
          return code, out + (sentNew + more);
        }
      }
      assert sentNew + [] == sentNew;
      code := 0;
      return code, out + sentNew;
    }

    method Dequeue(id: StreamId)
      requires queue != []
      modifies this
      ensures View() == old(View()).(queue := old(queue)[1..], queueIds := old(queueIds) - {id})
    {
      queueIds := queueIds - {id};
      queue := queue[1..];
    }

    // ---- Loss -----------------------------------------------------------------------------------------------

    /** Takes a packet out of the flight counters and files it as lost; it leaves `sent` only afterwards. */
    method FileAsLost(pn: nat)
      requires pn in sent
      modifies this
      ensures var s := old(View()); View() == MarkLost(s, pn).(sent := s.sent)
      ensures sent == old(sent) && cc == old(cc) && nextPacket == old(nextPacket) && largestSentTime == old(largestSentTime)
    {
      var p := sent[pn];
      var st := View().Stream(p.stream);
      bytesInFlight := bytesInFlight - p.length;
      streams := streams[p.stream := st.(bytesInFlight := st.bytesInFlight - p.length)];
      lost := lost[pn := p];
    }

    method FileNext(pn: nat, everything: bool, ghost all: (Sender, seq<nat>), ghost times: seq<nat>)
      requires pn in sent && pn < nextPacket && (everything || largestSentTime > sent[pn].sentTime + 50)
      requires LosesOn(all, times, View().(sent := Above(sent, pn)), pn, nextPacket, everything)
      modifies this
      ensures sent == old(sent) && cc == old(cc) && nextPacket == old(nextPacket) && largestSentTime == old(largestSentTime)
      ensures LosesOn(all, times + [sent[pn].sentTime], View().(sent := Above(sent, pn + 1)), pn + 1, nextPacket, everything)
    {
      hide LosesOn, Above;
      ghost var before := View();
      FileAsLost(pn);
      AboveStep(before, View(), pn, nextPacket, everything, all, times);
    }

    /** Files the lost packets, in ascending order, and returns where it stopped and when the last of them was sent. */
    method FileLost(everything: bool) returns (pn: nat, any: bool, lastTime: nat)
      modifies this
      ensures sent == old(sent) && cc == old(cc)
      ensures View().(sent := Above(sent, pn)) == LoseFrom(old(View()), 0, old(nextPacket), everything).0
      ensures LastOf(LoseFrom(old(View()), 0, old(nextPacket), everything).1, any, lastTime)
    {
      ghost var s0 := View();
      ghost var all := LoseFrom(s0, 0, nextPacket, everything);
      ghost var times: seq<nat> := [];
      pn, any, lastTime := 0, false, 0;
      LosesStart(s0, nextPacket, everything);
      hide LosesOn, LoseFrom, Above;
      while pn < nextPacket && (pn !in sent || everything || largestSentTime > sent[pn].sentTime + 50)
        invariant 0 <= pn <= nextPacket && nextPacket == s0.nextPacket && sent == s0.sent && cc == s0.cc
        invariant LastOf(times, any, lastTime)
        invariant LosesOn(all, times, View().(sent := Above(sent, pn)), pn, nextPacket, everything)
      {
        if pn in sent {
          FileNext(pn, everything, all, times);
          lastTime := sent[pn].sentTime;
          any := true;
          times := times + [lastTime];
        } else {
          AboveSkip(View(), pn, nextPacket, everything, all, times);
        }
        pn := pn + 1;
      }
      LosesStop(View(), pn, nextPacket, everything, all, times);
    }

    /** Determines the lost packets, and the congestion event they may cause. */
    method LosePackets(everything: bool, now: nat)
      modifies this
      ensures View() == LoseAndBackOff(old(View()), everything, now)
    {
      hide LoseFrom, Above, OnLoss;
      var pn, any, lastTime := FileLost(everything);
      // The prefix that was filed leaves the flight; the latest of it decides on a back-off.
      PopLost(pn);
      if any { cc := OnLoss(cc, lastTime, now); }
    }

    method PopLost(pn: nat)
      modifies this
      ensures View() == old(View()).(sent := Above(old(sent), pn))
    {
      sent := map n | n in sent && pn <= n :: sent[n];
    }

    method TlpTimerCb(now: nat)
      modifies this
      ensures View() == TlpTick(old(View()), now)
    {
      if |sent| == 0 && |lost| == 0 && |queue| == 0 {
        tlpArmed := false;
        tlpInterval := TLP_INTERVAL;
        return;
      }

      // No answer to the last probe: everything in flight counts as lost.
      var interval := tlpInterval;
      LosePackets(true, now);

      if interval < TLP_ABORT {
        SetTimers(interval * 2);
      } else {
        Reset();
      }
    }

    /** Schedules a pacing tick at once and the tail-loss probe after `interval`. */
    method SetTimers(interval: nat)
      modifies this
      ensures View() == old(View()).(pacingArmed := true, tlpArmed := true, tlpInterval := interval)
    {
      pacingArmed := true;
      tlpInterval := interval;
      tlpArmed := true;
    }

    // ---- Acknowledgement ------------------------------------------------------------------------------------

    /** Acks one packet in flight, returning the buffers this completes. */
    method AckOne(pn: nat, limited: bool) returns (notes: seq<Note>)
      requires pn in sent
      modifies this
      ensures (View(), notes) == AckPacket(old(View()), pn, limited)
    {
      var p := sent[pn];
      var st := View().Stream(p.stream);
      var start := st.Item(p.item).streamOffset + p.offset;
      var buffers := [];

      if st.ackedOffset < start {
        // The bytes before it are not acked yet.
        st := st.(outstanding := st.outstanding[start := p.length]);
      } else if st.ackedOffset < start + p.length {
        // It continues the acked prefix, perhaps up to acks that came early.
        var acked, outstanding := FoldOutstanding(start + p.length, st.outstanding);
        st, buffers := EraseAcked(st.(ackedOffset := acked, outstanding := outstanding));
      }

      streams := streams[p.stream := st.(bytesInFlight := st.bytesInFlight - p.length)];
      bytesInFlight := bytesInFlight - p.length;
      sent := sent - {pn};

      cc := OnAck(cc, p, limited);
      notes := seq(|buffers|, i requires 0 <= i < |buffers| => Note(p.stream, buffers[i]));
    }

    method DidRecvAck(largest: nat, ranges: seq<nat>, now: nat) returns (notes: seq<Note>)
      modifies this
      ensures (View(), notes) == RecvAck(old(View()), largest, ranges, now)
    {
      notes := [];
      if !established { return; }

      if largest > largestAcked && largest in sent {
        largestAcked := largest;
        largestSentTime := sent[largest].sentTime;
      }

      notes := AckAll(largest, ranges);
      LosePackets(false, now);
      SetTimers(TLP_INTERVAL);
    }

    /** Acks the packets in the seen ranges of an ACK, in order. */
    method AckAll(largest: nat, ranges: seq<nat>) returns (notes: seq<Note>)
      modifies this
      ensures (View(), notes) == AckRuns(old(View()), largest, ranges, false, IsLimited(old(View())))
    {
      notes := [];
      var high: int := largest;
      var gap := false;
      var limited := IsLimited(View());
      ghost var all := AckRuns(View(), largest, ranges, false, limited);
      var i := 0;
      assert ranges[0..] == ranges;
      while i < |ranges|
        invariant 0 <= i <= |ranges|
        invariant AcksOn(all, notes, AckRuns(View(), high, ranges[i..], gap, limited))
      {
        var low := high - ranges[i];
        assert ranges[i..][1..] == ranges[i + 1..];
        if !gap {
          ghost var here := AckRuns(View(), high, ranges[i..], gap, limited);
          var more := AckBetween(if low + 1 < 0 then 0 else low + 1, high, limited);
          AcksThen(all, notes, here, more, AckRuns(View(), low, ranges[i + 1..], true, limited));
          notes := notes + more;
        }
        high := low;
        gap := !gap;
        i := i + 1;
      }
      assert notes + [] == notes;
    }

    /** Acks the packets in flight numbered `from` to `high`, in order. */
    method AckBetween(from: nat, high: int, limited: bool) returns (notes: seq<Note>)
      modifies this
      ensures (View(), notes) == AckRange(old(View()), from, high, limited)
    {
      notes := [];
      var pn := from;
      ghost var all := AckRange(View(), from, high, limited);
      while pn <= high
        invariant AcksOn(all, notes, AckRange(View(), pn, high, limited))
        decreases high - pn
      {
        if pn in sent {
          ghost var here := AckRange(View(), pn, high, limited);
          var more := AckOne(pn, limited);
          AcksThen(all, notes, here, more, AckRange(View(), pn + 1, high, limited));
          notes := notes + more;
        }
        pn := pn + 1;
      }
      assert notes + [] == notes;
    }

    // ---- Flush ----------------------------------------------------------------------------------------------

    method FlushStream(id: StreamId)
      modifies this
      ensures View() == Flush(old(View()), id)
    {
      RemovePackets(id);
      ClearStream(id);
    }

    /** Remove the sent packets of a stream, then its lost packets. */
    method RemovePackets(id: StreamId)
      modifies this
      ensures var s := old(View());
        View() == s.(sent := DropStream(s.sent, id), lost := DropStream(s.lost, id),
          bytesInFlight := s.bytesInFlight - BytesOf(s.sent, id, s.nextPacket) - BytesOf(s.lost, id, s.nextPacket))
    {
      hide BytesOf;
      var gone := SumOf(sent, id, nextPacket);
      bytesInFlight := bytesInFlight - gone;
      sent := map pn | pn in sent && sent[pn].stream != id :: sent[pn];
      gone := SumOf(lost, id, nextPacket);
      bytesInFlight := bytesInFlight - gone;
      lost := map pn | pn in lost && lost[pn].stream != id :: lost[pn];
    }

    method ClearStream(id: StreamId)
      modifies this
      ensures var s := old(View()); var st := s.Stream(id);
        View() == s.(streams := s.streams[id := st.(
          popped := st.End(), items := [], next := st.End(), queueOffset := st.sentOffset,
          ackedOffset := st.sentOffset, outstanding := map[], bytesInFlight := 0)])
    {
      var st := View().Stream(id);
      streams := streams[id := st.(
        popped := st.End(), items := [], next := st.End(), queueOffset := st.sentOffset,
        ackedOffset := st.sentOffset, outstanding := map[], bytesInFlight := 0)];
    }
  }

  /** `all` is what has been sent so far followed by `rest`. */
  ghost predicate Continues(all: Pass, out: seq<DataMsg>, rest: Pass) {
    all.s == rest.s && all.code == rest.code && all.out == out + rest.out
  }

  lemma ContinuesMore(all: Pass, out: seq<DataMsg>, m: DataMsg, rest: Pass)
    requires Continues(all, out, Pass(rest.s, rest.code, [m] + rest.out))
    ensures Continues(all, out + [m], rest)
  {
    assert out + ([m] + rest.out) == (out + [m]) + rest.out;
  }

  lemma ContinuesStart(all: Pass)
    ensures Continues(all, [], all)
  {
    assert [] + all.out == all.out;
  }

  lemma ContinuesStop(all: Pass, out: seq<DataMsg>, rest: Pass)
    requires Continues(all, out, rest)
    ensures all == Pass(rest.s, rest.code, out + rest.out)
  {
  }

  lemma SteppedOver(s: Sender, id: StreamId, initial: int, now: nat)
    requires id in s.streams && s.streams[id].next < s.streams[id].End()
    requires s.streams[id].Item(s.streams[id].next).sentOffset >= |s.streams[id].Item(s.streams[id].next).data|
    ensures SendNew(s.(streams := s.streams[id := s.streams[id].(next := s.streams[id].next + 1)]), id, initial, now)
         == SendNew(s, id, initial, now)
  {
  }

  lemma AllSent(s: Sender, id: StreamId, initial: int, now: nat)
    requires id in s.streams && s.streams[id].next >= s.streams[id].End()
    ensures SendNew(s, id, initial, now) == Pass(s, 0, [])
  {
  }

  lemma ContinuesThen(all: Pass, out: seq<DataMsg>, here: Pass, more: seq<DataMsg>, rest: Pass)
    requires Continues(all, out, here) && Continues(here, more, rest)
    ensures Continues(all, out + more, rest)
  {
    assert out + (more + rest.out) == (out + more) + rest.out;
  }

  /** Whether the iterator leaves an exhausted item at once or at the next turn of the loop makes no difference. */
  lemma Fragmented(s: Sender, s1: Sender, id: StreamId, initial: int, now: nat)
    requires s.Stream(id).popped <= s.Stream(id).next < s.Stream(id).End()
    requires s.Stream(id).Item(s.Stream(id).next).sentOffset < |s.Stream(id).Item(s.Stream(id).next).data|
    requires id in SendFragment(s, id, now).streams
    requires var s' := SendFragment(s, id, now);
      s1 == s'.(streams := s'.streams[id := s'.streams[id].(next := s.Stream(id).next)])
    ensures SendNew(s1, id, initial, now) == SendNew(SendFragment(s, id, now), id, initial, now)
  {
    hide Datagram;
    var st, s' := s.Stream(id), SendFragment(s, id, now);
    var st' := s'.streams[id];
    if st'.next == st.next {
      assert s1.streams == s'.streams;
      assert s1 == s';
    } else {
      var stepped := s1.(streams := s1.streams[id := s1.Stream(id).(next := s1.Stream(id).next + 1)]);
      assert stepped.streams == s'.streams;
      assert stepped == s';
    }
  }

  // ---- Ordered iteration over the packets in flight -----------------------------------------------------

  function Above(m: map<nat, SentPacket>, pn: nat): map<nat, SentPacket> {
    map n | n in m && pn <= n :: m[n]
  }

  lemma AllAbove(m: map<nat, SentPacket>)
    ensures Above(m, 0) == m
  {
  }

  predicate LastOf(times: seq<nat>, any: bool, last: nat) {
    any == (times != []) && (any ==> last == times[|times| - 1])
  }

  /** `all` is what has been lost so far followed by what LoseFrom still finds. */
  ghost predicate LosesOn(all: (Sender, seq<nat>), times: seq<nat>, s: Sender, pn: nat, end: nat, everything: bool) {
    all.0 == LoseFrom(s, pn, end, everything).0 && all.1 == times + LoseFrom(s, pn, end, everything).1
  }

  lemma AboveStep(s: Sender, s1: Sender, pn: nat, end: nat, everything: bool, all: (Sender, seq<nat>), times: seq<nat>)
    requires pn in s.sent && pn < end && (everything || s.largestSentTime > s.sent[pn].sentTime + 50)
    requires s1 == MarkLost(s, pn).(sent := s.sent)
    requires LosesOn(all, times, s.(sent := Above(s.sent, pn)), pn, end, everything)
    ensures LosesOn(all, times + [s.sent[pn].sentTime], s1.(sent := Above(s.sent, pn + 1)), pn + 1, end, everything)
  {
    var a := s.(sent := Above(s.sent, pn));
    assert Above(s.sent, pn) - {pn} == Above(s.sent, pn + 1);
    assert MarkLost(a, pn) == s1.(sent := Above(s.sent, pn + 1));
    var rest := LoseFrom(MarkLost(a, pn), pn + 1, end, everything);
    assert LoseFrom(a, pn, end, everything) == (rest.0, [s.sent[pn].sentTime] + rest.1);
    assert times + ([s.sent[pn].sentTime] + rest.1) == (times + [s.sent[pn].sentTime]) + rest.1;
  }

  lemma AboveSkip(s: Sender, pn: nat, end: nat, everything: bool, all: (Sender, seq<nat>), times: seq<nat>)
    requires pn !in s.sent && pn < end && LosesOn(all, times, s.(sent := Above(s.sent, pn)), pn, end, everything)
    ensures LosesOn(all, times, s.(sent := Above(s.sent, pn + 1)), pn + 1, end, everything)
  {
    assert Above(s.sent, pn + 1) == Above(s.sent, pn);
  }

  lemma StopsAt(m: map<nat, SentPacket>, pn: nat)
    ensures pn in m ==> pn in Above(m, pn) && Above(m, pn)[pn] == m[pn]
  {
  }

  lemma LosesStart(s: Sender, end: nat, everything: bool)
    ensures LosesOn(LoseFrom(s, 0, end, everything), [], s.(sent := Above(s.sent, 0)), 0, end, everything)
  {
    AllAbove(s.sent);
  }

  lemma LosesStop(s: Sender, pn: nat, end: nat, everything: bool, all: (Sender, seq<nat>), times: seq<nat>)
    requires LosesOn(all, times, s.(sent := Above(s.sent, pn)), pn, end, everything)
    requires pn >= end || (pn in s.sent && !everything && s.largestSentTime <= s.sent[pn].sentTime + 50)
    ensures all.0 == s.(sent := Above(s.sent, pn)) && all.1 == times
  {
    StopsAt(s.sent, pn);
    assert times + [] == times;
  }

  // ---- Loops over one stream ------------------------------------------------------------------------------

  /** Total length of the records of a stream. */
  method SumOf(m: map<nat, SentPacket>, id: StreamId, end: nat) returns (total: nat)
    ensures total == BytesOf(m, id, end)
  {
    total := 0;
    for pn := 0 to end
      invariant total == BytesOf(m, id, pn)
    {
      if pn in m && m[pn].stream == id { total := total + m[pn].length; }
    }
  }

  lemma MergeStep(acked: nat, m: map<nat, nat>, k: nat)
    requires m != map[] && k == Least(m.Keys) && k <= acked
    ensures |m - {k}| < |m|
    ensures MergeAcks(acked, m) == MergeAcks(if acked < k + m[k] then k + m[k] else acked, m - {k})
  {
    assert (m - {k}).Keys == m.Keys - {k};
  }

  /** Processes outstanding acks in order until the first out-of-order one. */
  method FoldOutstanding(start: nat, all: map<nat, nat>) returns (acked: nat, outstanding: map<nat, nat>)
    ensures (acked, outstanding) == MergeAcks(start, all)
  {
    acked, outstanding := start, all;
    while outstanding != map[]
      invariant MergeAcks(acked, outstanding) == MergeAcks(start, all)
      decreases |outstanding|
    {
      var k: nat := Least(outstanding.Keys);
      if k > acked { return; }

      MergeStep(acked, outstanding, k);
      var reached := k + outstanding[k];
      outstanding := outstanding - {k};
      if acked < reached { acked := reached; }
    }
  }

  /** Erases fully acked items from the front of the queue. */
  method EraseAcked(stream: SendStream) returns (st: SendStream, buffers: seq<seq<byte>>)
    ensures (st, buffers) == PopAcked(stream)
  {
    st, buffers := stream, [];
    assert [] + PopAcked(st).1 == PopAcked(st).1;
    while st.items != []
      invariant PopAcked(stream).0 == PopAcked(st).0 && PopAcked(stream).1 == buffers + PopAcked(st).1
      decreases |st.items|
    {
      if st.ackedOffset < st.items[0].streamOffset + |st.items[0].data| {
        assert buffers + [] == buffers;
        return;
      }

      ghost var rest := PopAcked(st.(popped := st.popped + 1, items := st.items[1..])).1;
      assert buffers + ([st.items[0].data] + rest) == (buffers + [st.items[0].data]) + rest;
      buffers := buffers + [st.items[0].data];
      st := st.(popped := st.popped + 1, items := st.items[1..]);
    }
    assert buffers + [] == buffers;
    st := st.(next := st.End());
  }

  /** `all` is what has been acked so far followed by `rest`. */
  ghost predicate AcksOn(all: (Sender, seq<Note>), notes: seq<Note>, rest: (Sender, seq<Note>)) {
    all.0 == rest.0 && all.1 == notes + rest.1
  }

  lemma AcksThen(all: (Sender, seq<Note>), notes: seq<Note>, here: (Sender, seq<Note>), more: seq<Note>, rest: (Sender, seq<Note>))
    requires AcksOn(all, notes, here) && here == (rest.0, more + rest.1)
    ensures AcksOn(all, notes + more, rest)
  {
    assert notes + (more + rest.1) == (notes + more) + rest.1;
  }
}
