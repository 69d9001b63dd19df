/** A tail-loss probe never leaves the sender waiting: it frees the window, and the pacing tick it arms transmits. */
module Progress {
  import opened Bytes
  import opened Sending
  import opened Flight
  import opened Scheduling

  // ---- The probe empties the flight -------------------------------------------------------------------------

  lemma {:induction false} LoseAll(s: Sender, pn: nat, end: nat)
    requires forall n :: n in s.sent ==> pn <= n < end
    ensures var s' := LoseFrom(s, pn, end, true).0;
      && s'.sent == map[]
      && s'.lost.Keys == s.lost.Keys + s.sent.Keys
    decreases end - pn
  {
    if pn < end {
      if pn in s.sent {
        LoseAll(MarkLost(s, pn), pn + 1, end);
      } else {
        LoseAll(s, pn + 1, end);
      }
    } else {
      assert s.sent == map[];
    }
  }

  /** What is in flight is filed as lost, so the whole window is free. */
  lemma ProbeFreesWindow(s: Sender, now: nat)
    requires Conserved(s) && WindowOk(s) && !IsIdle(s) && s.tlpInterval < TLP_ABORT
    ensures var s' := TlpTick(s, now);
      && s'.sent == map[] && s'.bytesInFlight == 0 && s'.cc.window >= MIN_WINDOW
      && s'.pacingArmed && s'.tlpArmed && s'.queue == s.queue
      && s'.lost.Keys == s.lost.Keys + s.sent.Keys
  {
    TlpConserves(s, now);
    TlpWindow(s, now);
    LoseAll(s, 0, s.nextPacket);
    hide LoseFrom, Conserved;
    NothingTotal(TlpTick(s, now));
  }

  lemma NothingTotal(s: Sender)
    requires Conserved(s) && s.sent == map[]
    ensures s.bytesInFlight == 0
  {
    NoBytesAt(s.nextPacket);
  }

  lemma {:induction false} NoBytesAt(end: nat)
    ensures Total(map[], end) == 0
  {
    if end > 0 { NoBytesAt(end - 1); }
  }

  // ---- With a free window, the tick transmits ---------------------------------------------------------------

  /** Room for any fragment, and nothing transmitted yet during this tick. */
  predicate Free(s: Sender, initial: int) {
    s.bytesInFlight == initial && s.bytesInFlight <= s.cc.window - FRAGMENT_SIZE
  }

  /** The first lost packet is sent again. */
  lemma {:induction false} LostIsSent(s: Sender, pn: nat, end: nat, initial: int, now: nat)
    requires Free(s, initial) && LostShort(s)
    requires forall n :: n in s.lost ==> pn <= n < end
    requires |s.lost| > 0
    ensures SendLost(s, pn, end, initial, now).out != []
    decreases end - pn
  {
    assert s.lost != map[];
    assert exists n :: n in s.lost;
    if pn !in s.lost { LostIsSent(s, pn + 1, end, initial, now); }
  }

  /** A stream sends something, or has nothing unsent. */
  lemma {:induction false} NewIsSent(s: Sender, id: StreamId, initial: int, now: nat)
    requires Free(s, initial)
    ensures var r := SendNew(s, id, initial, now);
      r.out == [] ==> r.code == 0 && r.s.sent == s.sent && r.s.bytesInFlight == s.bytesInFlight
    decreases s.Stream(id).End() - s.Stream(id).next
  {
    hide Datagram, SendFragment;
    var st := s.Stream(id);
    if st.next < st.End() && st.Item(st.next).sentOffset >= |st.Item(st.next).data| {
      NewIsSent(s.(streams := s.streams[id := st.(next := st.next + 1)]), id, initial, now);
    }
  }

  /** The queue sends something, or drains. */
  lemma {:induction false} QueueIsSent(s: Sender, initial: int, now: nat)
    requires Free(s, initial)
    ensures var r := SendQueued(s, initial, now); r.out == [] ==> r.s.queue == [] && r.s.sent == s.sent
    decreases |s.queue|
  {
    if s.queue != [] {
      var id := s.queue[0];
      var r := SendNew(s, id, initial, now);
      NewIsSent(s, id, initial, now);
      if r.out == [] {
        QueueIsSent(r.s.(queue := s.queue[1..], queueIds := s.queueIds - {id}), initial, now);
      }
    }
  }

  /** A pacing tick with a free window transmits, or finds nothing left to send. */
  lemma TickTransmits(s: Sender, now: nat)
    requires Conserved(s) && LostShort(s) && s.cc.window >= MIN_WINDOW && s.sent == map[]
    ensures var r := PacingTick(s, now); r.out != [] || IsIdle(r.s)
    ensures |s.lost| > 0 ==> PacingTick(s, now).out != []
  {
    NothingTotal(s);
    var s0 := s.(pacingArmed := false);
    assert forall n :: n in s.lost ==> n < s.nextPacket;
    hide Conserved, SendLost, SendQueued;
    if |s.lost| > 0 {
      LostIsSent(s0, 0, s0.nextPacket, 0, now);
    } else {
      SendLostNothing(s0, 0, s0.nextPacket, 0, now);
      QueueIsSent(s0, 0, now);
    }
  }
}
