/**
 What a pacing tick must achieve: it goes on until nothing is left to send, its share is used up and another tick is
 due, or the next packet does not fit the window; lost packets go first, and queued streams in turn.
 */
module Pacing {
  import opened Bytes
  import opened Sending
  import opened Tiling
  import opened SendingRuns
  import opened Flight
  import opened Scheduling
  import opened Receiving
  import opened AckRuns
  import opened Delivery
  import opened EndToEnd
  import opened Loss

  // ---- When a tick may stop ---------------------------------------------------------------------------------

  /** The lowest lost packet does not fit the window. */
  ghost predicate LostBlocked(s: Sender) {
    exists pn :: pn in s.lost && (forall k :: k in s.lost ==> pn <= k) && s.bytesInFlight + s.lost[pn].length > s.cc.window
  }

  /** The next fragment of the stream does not fit the window. */
  predicate NewBlocked(s: Sender, id: StreamId) {
    var st := s.Stream(id);
    && st.next < st.End()
    && var item := st.Item(st.next);
    && item.sentOffset < |item.data|
    && s.bytesInFlight + (if |item.data| - item.sentOffset > 1350 then 1350 else |item.data| - item.sentOffset) > s.cc.window
  }

  /** Nothing is lost or queued, or a tick is due, or what comes next does not fit the window. */
  ghost predicate Attended(s: Sender) {
    || (|s.lost| == 0 && s.queue == [])
    || s.pacingArmed
    || LostBlocked(s)
    || (|s.lost| == 0 && s.queue != [] && NewBlocked(s, s.queue[0]))
  }

  lemma {:induction false} LostStops(s: Sender, pn: nat, end: nat, initial: int, now: nat)
    requires forall n :: n in s.lost ==> pn <= n < end
    ensures var r := SendLost(s, pn, end, initial, now);
      && (r.code == 0 ==> |r.s.lost| == 0) && (r.code == -1 ==> r.s.pacingArmed) && (r.code == -2 ==> LostBlocked(r.s))
      && (r.s.pacingArmed ==> s.pacingArmed || (r.code == -1 && r.s.bytesInFlight - initial >= 400000))
      && -2 <= r.code <= 0
    decreases end - pn
  {
    hide LostBlocked, Datagram, Retransmit;
    if pn >= end {
      assert s.lost == map[];
    } else if pn !in s.lost {
      LostStops(s, pn + 1, end, initial, now);
    } else if s.bytesInFlight - initial < PACING_LIMIT && s.bytesInFlight <= s.cc.window - s.lost[pn].length {
      SentAgain(s, pn, now);
      LostStops(Retransmit(s, pn, now), pn + 1, end, initial, now);
    } else {
      LowestBlocked(s, pn);
    }
  }

  lemma LowestBlocked(s: Sender, pn: nat)
    requires pn in s.lost && forall k :: k in s.lost ==> pn <= k
    ensures s.bytesInFlight + s.lost[pn].length > s.cc.window ==> LostBlocked(s)
  {
  }

  lemma SentAgain(s: Sender, pn: nat, now: nat)
    requires pn in s.lost
    ensures var s1 := Retransmit(s, pn, now);
      && s1.lost == s.lost - {pn} && s1.queue == s.queue && s1.pacingArmed == s.pacingArmed
      && (s.lost[pn].stream in s.streams ==> SameProgress(s, s1))
  {
  }

  lemma {:induction false} NewStops(s: Sender, id: StreamId, initial: int, now: nat)
    requires s.Stream(id).popped <= s.Stream(id).next
    ensures var r := SendNew(s, id, initial, now);
      && (r.code == -2 ==> NewBlocked(r.s, id)) && (r.code == -1 ==> r.s.bytesInFlight - initial > 400000) && -2 <= r.code <= 0
    decreases s.Stream(id).End() - s.Stream(id).next,
              |s.Stream(id).Item(s.Stream(id).next).data| - s.Stream(id).Item(s.Stream(id).next).sentOffset
  {
    hide Datagram;
    var st := s.Stream(id);
    var item := st.Item(st.next);
    if st.next < st.End() {
      if item.sentOffset >= |item.data| {
        NewStops(s.(streams := s.streams[id := st.(next := st.next + 1)]), id, initial, now);
      } else if s.bytesInFlight <= s.cc.window - NextFragment(s, id, now).length && s.bytesInFlight - initial <= PACING_LIMIT {
        NewStops(SendFragment(s, id, now), id, initial, now);
      }
    }
  }

  lemma {:induction false} QueueStops(s: Sender, initial: int, now: nat)
    requires Sane(s)
    ensures var r := SendQueued(s, initial, now);
      && (r.code == 0 ==> r.s.queue == []) && (r.code == -1 ==> r.s.pacingArmed)
      && (r.code == -2 ==> r.s.queue != [] && NewBlocked(r.s, r.s.queue[0])) && -2 <= r.code <= 0
      && (r.s.pacingArmed ==> s.pacingArmed || (r.code == -1 && r.s.bytesInFlight - initial > 400000))
    decreases |s.queue|
  {
    if s.queue != [] {
      var id := s.queue[0];
      NewStops(s, id, initial, now);
      SendNewOne(s, id, initial, now);
      SendNewSane(s, id, initial, now);
      hide SendNew, NewBlocked;
      var r := SendNew(s, id, initial, now);
      if r.code == 0 { QueueStops(r.s.(queue := s.queue[1..], queueIds := s.queueIds - {id}), initial, now); }
    }
  }

  /** A pacing tick stops only with nothing left to send, with another tick due, or at the window; and another tick is
      due only if this one has sent at least 400000 bytes. */
  lemma TickAttends(s: Sender, now: nat)
    requires Sane(s) && forall pn :: pn in s.lost ==> pn < s.nextPacket && s.lost[pn].stream in s.streams
    ensures var s' := PacingTick(s, now).s; Attended(s') && (s'.pacingArmed ==> s'.bytesInFlight - s.bytesInFlight >= 400000)
  {
    var s0 := s.(pacingArmed := false);
    LostStops(s0, 0, s0.nextPacket, s0.bytesInFlight, now);
    SendLostSane(s0, 0, s0.nextPacket, s0.bytesInFlight, now);
    hide SendLost, SendQueued, LostBlocked, NewBlocked, Sane;
    var r := SendLost(s0, 0, s0.nextPacket, s0.bytesInFlight, now);
    if r.code == 0 { QueueStops(r.s, s0.bytesInFlight, now); }
  }

  // ---- What comes first -------------------------------------------------------------------------------------

  /** Two senders whose streams differ in nothing but their flight. */
  ghost predicate SameProgress(s: Sender, s': Sender) {
    && s'.streams.Keys == s.streams.Keys
    && forall id :: id in s.streams ==> s'.streams[id] == s.streams[id].(bytesInFlight := s'.streams[id].bytesInFlight)
  }

  lemma {:induction false} LostAlone(s: Sender, pn: nat, end: nat, initial: int, now: nat)
    requires forall n :: n in s.lost ==> s.lost[n].stream in s.streams
    ensures var r := SendLost(s, pn, end, initial, now); SameProgress(s, r.s) && r.s.queue == s.queue
    decreases end - pn
  {
    hide Datagram, Retransmit;
    if pn < end {
      if pn !in s.lost {
        LostAlone(s, pn + 1, end, initial, now);
      } else if s.bytesInFlight - initial < PACING_LIMIT && s.bytesInFlight <= s.cc.window - s.lost[pn].length {
        SentAgain(s, pn, now);
        LostAlone(Retransmit(s, pn, now), pn + 1, end, initial, now);
      }
    }
  }

  /** Streams leave the queue from the front, and no stream behind the first one left has been touched. */
  ghost predicate Served(s: Sender, s': Sender, k: nat) {
    && k <= |s.queue| && s'.queue == s.queue[k..] && s'.streams.Keys == s.streams.Keys
    && forall id :: id in s.streams && id !in s.queue[..if k < |s.queue| then k + 1 else k] ==> s'.streams[id] == s.streams[id]
  }

  lemma {:induction false} QueueServed(s: Sender, initial: int, now: nat) returns (k: nat)
    requires Sane(s)
    ensures Served(s, SendQueued(s, initial, now).s, k)
    decreases |s.queue|
  {
    k := 0;
    if s.queue != [] {
      var id := s.queue[0];
      SendNewOne(s, id, initial, now);
      SendNewSane(s, id, initial, now);
      hide SendNew;
      var r := SendNew(s, id, initial, now);
      if r.code == 0 {
        var s1 := r.s.(queue := s.queue[1..], queueIds := s.queueIds - {id});
        var k1 := QueueServed(s1, initial, now);
        k := k1 + 1;
        ServedMore(s, s1, SendQueued(s1, initial, now).s, k1);
      }
    }
  }

  lemma ServedMore(s: Sender, s1: Sender, s': Sender, k: nat)
    requires s.queue != [] && s1.queue == s.queue[1..] && OnlyStream(s, s1, s.queue[0]) && Served(s1, s', k)
    ensures Served(s, s', k + 1)
  {
    var front := s.queue[..if k + 1 < |s.queue| then k + 2 else k + 1];
    var rest := s1.queue[..if k < |s1.queue| then k + 1 else k];
    assert front == [s.queue[0]] + rest;
  }

  /** Lost packets go first: while some remain, no new data is sent and the queue stands still. Otherwise the queued
      streams are served in turn. */
  lemma LostGoFirst(s: Sender, now: nat) returns (k: nat)
    requires Sane(s) && forall pn :: pn in s.lost ==> pn < s.nextPacket && s.lost[pn].stream in s.streams
    ensures var s' := PacingTick(s, now).s;
      && k <= |s.queue| && s'.queue == s.queue[k..]
      && (|s'.lost| > 0 ==> k == 0 && SameProgress(s, s'))
      && (forall id :: id in s.streams && id !in s.queue[..if k < |s.queue| then k + 1 else k] ==>
            id in s'.streams && s'.streams[id] == s.streams[id].(bytesInFlight := s'.streams[id].bytesInFlight))
  {
    var s0 := s.(pacingArmed := false);
    LostStops(s0, 0, s0.nextPacket, s0.bytesInFlight, now);
    LostAlone(s0, 0, s0.nextPacket, s0.bytesInFlight, now);
    SendLostSane(s0, 0, s0.nextPacket, s0.bytesInFlight, now);
    hide SendLost, SendQueued, LostBlocked, Sane;
    var r := SendLost(s0, 0, s0.nextPacket, s0.bytesInFlight, now);
    k := 0;
    if r.code == 0 { k := QueueServed(r.s, s0.bytesInFlight, now); }
  }

  // ---- What enters the flight -------------------------------------------------------------------------------

  /** The records in flight stay, and those that join are numbered anew and bear the present time. */
  ghost predicate Stamped(s: Sender, s': Sender, now: nat) {
    && s.nextPacket <= s'.nextPacket
    && (forall n :: n in s.sent ==> n in s'.sent && s'.sent[n] == s.sent[n])
    && (forall n :: n in s'.sent && n !in s.sent ==> s.nextPacket <= n < s'.nextPacket && s'.sent[n].sentTime == now)
    && (forall n :: n in s'.lost ==> n in s.lost && s'.lost[n] == s.lost[n])
  }

  ghost predicate Below(s: Sender) { forall n :: n in s.sent ==> n < s.nextPacket }

  lemma StampedThen(a: Sender, b: Sender, c: Sender, now: nat)
    requires Stamped(a, b, now) && Stamped(b, c, now)
    ensures Stamped(a, c, now)
  {
  }

  lemma Joined(s: Sender, s': Sender, p: SentPacket, now: nat)
    requires Below(s) && s'.sent == s.sent[s.nextPacket := p] && s'.nextPacket == s.nextPacket + 1 && p.sentTime == now
    requires forall n :: n in s'.lost ==> n in s.lost && s'.lost[n] == s.lost[n]
    ensures Stamped(s, s', now) && Below(s')
  {
  }

  lemma {:induction false} LostStamped(s: Sender, pn: nat, end: nat, initial: int, now: nat)
    requires Below(s)
    ensures var s' := SendLost(s, pn, end, initial, now).s; Stamped(s, s', now) && Below(s')
    decreases end - pn
  {
    hide Datagram;
    if pn < end {
      if pn !in s.lost {
        LostStamped(s, pn + 1, end, initial, now);
      } else if s.bytesInFlight - initial < PACING_LIMIT && s.bytesInFlight <= s.cc.window - s.lost[pn].length {
        var s1 := Retransmit(s, pn, now);
        Joined(s, s1, s.lost[pn].(sentTime := now), now);
        hide Stamped, Below, Retransmit;
        LostStamped(s1, pn + 1, end, initial, now);
        StampedThen(s, s1, SendLost(s1, pn + 1, end, initial, now).s, now);
      }
    }
  }

  lemma FragmentJoins(s: Sender, id: StreamId, now: nat)
    requires Below(s) && s.Stream(id).popped <= s.Stream(id).next < s.Stream(id).End()
    requires s.Stream(id).Item(s.Stream(id).next).sentOffset < |s.Stream(id).Item(s.Stream(id).next).data|
    ensures var s1 := SendFragment(s, id, now); var st, st' := s.Stream(id), s1.Stream(id);
      && Stamped(s, s1, now) && Below(s1)
      && st'.popped == st.popped && st'.End() == st.End() && st.next <= st'.next
      && (st'.next == st.next ==> Left(s1, id) < Left(s, id))
  {
    Joined(s, SendFragment(s, id, now), NextFragment(s, id, now), now);
    hide Stamped, Below;
  }

  lemma {:induction false} NewStamped(s: Sender, id: StreamId, initial: int, now: nat)
    requires Below(s) && s.Stream(id).popped <= s.Stream(id).next
    ensures var s' := SendNew(s, id, initial, now).s; Stamped(s, s', now) && Below(s')
    decreases s.Stream(id).End() - s.Stream(id).next,
              |s.Stream(id).Item(s.Stream(id).next).data| - s.Stream(id).Item(s.Stream(id).next).sentOffset
  {
    hide Datagram, SendFragment, NextFragment, Stamped, Below;
    var st := s.Stream(id);
    var item := st.Item(st.next);
    SameSent(s, s, now);
    if st.next < st.End() {
      if item.sentOffset >= |item.data| {
        var s1 := s.(streams := s.streams[id := st.(next := st.next + 1)]);
        SameSent(s, s1, now);
        NewStamped(s1, id, initial, now);
        StampedThen(s, s1, SendNew(s1, id, initial, now).s, now);
      } else if s.bytesInFlight <= s.cc.window - NextFragment(s, id, now).length && s.bytesInFlight - initial <= PACING_LIMIT {
        var s1 := SendFragment(s, id, now);
        FragmentJoins(s, id, now);
        NewStamped(s1, id, initial, now);
        StampedThen(s, s1, SendNew(s1, id, initial, now).s, now);
      }
    }
  }

  lemma SameSent(s: Sender, s': Sender, now: nat)
    requires Below(s) && s'.sent == s.sent && s'.lost == s.lost && s'.nextPacket == s.nextPacket
    ensures Stamped(s, s', now) && Below(s')
  {
  }

  lemma {:induction false} QueueStamped(s: Sender, initial: int, now: nat)
    requires Below(s) && Sane(s)
    ensures var s' := SendQueued(s, initial, now).s; Stamped(s, s', now) && Below(s')
    decreases |s.queue|
  {
    if s.queue != [] {
      var id := s.queue[0];
      SendNewOne(s, id, initial, now);
      SendNewSane(s, id, initial, now);
      NewStamped(s, id, initial, now);
      hide SendNew;
      var r := SendNew(s, id, initial, now);
      if r.code == 0 {
        var s1 := r.s.(queue := s.queue[1..], queueIds := s.queueIds - {id});
        SameStamps(s, r.s, s1, now);
        hide Stamped, Below, Sane, OnlyStream;
        DequeuedSane(s, r.s, s1);
        QueueStamped(s1, initial, now);
        StampedThen(s, s1, SendQueued(s1, initial, now).s, now);
      } else {
        SameStamps(s, r.s, r.s.(pacingArmed := true), now);
      }
    }
  }

  lemma SameStamps(s: Sender, s1: Sender, s2: Sender, now: nat)
    requires Stamped(s, s1, now) && Below(s1) && s2.sent == s1.sent && s2.lost == s1.lost && s2.nextPacket == s1.nextPacket
    ensures Stamped(s, s2, now) && Below(s2)
  {
  }

  lemma DequeuedSane(s: Sender, s1: Sender, s2: Sender)
    requires Sane(s) && s.queue != [] && OnlyStream(s, s1, s.queue[0])
    requires s.queue[0] in s1.streams && s1.streams[s.queue[0]].popped <= s1.streams[s.queue[0]].next
    requires s2.streams == s1.streams && s2.queue == s.queue[1..]
    ensures Sane(s2)
  {
    assert forall id :: id in s2.queue ==> id in s.queue;
  }

  /** A tick leaves what is in flight alone; every packet it sends, for the first time or again, bears a new number and
      the time of the tick. */
  lemma TickStamps(s: Sender, now: nat)
    requires Below(s) && Sane(s) && forall pn :: pn in s.lost ==> s.lost[pn].stream in s.streams
    ensures Stamped(s, PacingTick(s, now).s, now)
  {
    var s0 := s.(pacingArmed := false);
    LostStamped(s0, 0, s0.nextPacket, s0.bytesInFlight, now);
    SendLostSane(s0, 0, s0.nextPacket, s0.bytesInFlight, now);
    hide SendLost, SendQueued, Sane;
    var r := SendLost(s0, 0, s0.nextPacket, s0.bytesInFlight, now);
    if r.code >= 0 {
      QueueStamped(r.s, s0.bytesInFlight, now);
      StampedThen(s0, r.s, SendQueued(r.s, s0.bytesInFlight, now).s, now);
    }
  }

  // ---- Fragments --------------------------------------------------------------------------------------------

  /** The payload is a full fragment of 1350 bytes, or a shorter one that ends a buffer. */
  ghost predicate FullOrLast(st: SendStream, m: DataMsg) {
    && 0 < |m.payload| <= 1350
    && (|m.payload| < 1350 ==> exists n :: st.popped <= n < st.End() && m.offset + |m.payload| == EndAt(st, n))
  }

  function EndAt(st: SendStream, n: nat): nat { st.Item(n).streamOffset + |st.Item(n).data| }

  lemma FragmentFull(s: Sender, id: StreamId, now: nat)
    requires s.Stream(id).popped <= s.Stream(id).next < s.Stream(id).End()
    requires s.Stream(id).Item(s.Stream(id).next).sentOffset < |s.Stream(id).Item(s.Stream(id).next).data|
    ensures FullOrLast(s.Stream(id), Datagram(s, NextFragment(s, id, now)))
    ensures var st, st' := s.Stream(id), SendFragment(s, id, now).Stream(id);
      && st'.popped == st.popped && st'.End() == st.End() && st.next <= st'.next
      && (st'.next == st.next ==> st'.Item(st.next).sentOffset > st.Item(st.next).sentOffset)
      && (st'.next == st.next ==> |st'.Item(st.next).data| == |st.Item(st.next).data|)
      && forall n :: st.popped <= n < st.End() ==> EndAt(st', n) == EndAt(st, n)
  {
    var st := s.Stream(id);
    var m := Datagram(s, NextFragment(s, id, now));
    if |m.payload| < 1350 { assert m.offset + |m.payload| == EndAt(st, st.next); }
  }

  lemma {:induction false} FragmentsFull(s: Sender, id: StreamId, initial: int, now: nat)
    requires s.Stream(id).popped <= s.Stream(id).next
    ensures forall i :: 0 <= i < |SendNew(s, id, initial, now).out| ==> FullOrLast(s.Stream(id), SendNew(s, id, initial, now).out[i])
    decreases s.Stream(id).End() - s.Stream(id).next,
              |s.Stream(id).Item(s.Stream(id).next).data| - s.Stream(id).Item(s.Stream(id).next).sentOffset
  {
    var st := s.Stream(id);
    var item := st.Item(st.next);
    if st.next < st.End() {
      if item.sentOffset >= |item.data| {
        var s1 := s.(streams := s.streams[id := st.(next := st.next + 1)]);
        FragmentsFull(s1, id, initial, now);
        SameEnds(st, s1.Stream(id), SendNew(s1, id, initial, now).out);
      } else if s.bytesInFlight <= s.cc.window - NextFragment(s, id, now).length && s.bytesInFlight - initial <= PACING_LIMIT {
        FragmentFull(s, id, now);
        hide SendFragment, Datagram, FullOrLast, EndAt;
        var s1 := SendFragment(s, id, now);
        FragmentsFull(s1, id, initial, now);
        SameEnds(st, s1.Stream(id), SendNew(s1, id, initial, now).out);
      }
    }
  }

  lemma SameEnds(st: SendStream, st': SendStream, out: seq<DataMsg>)
    requires st'.popped == st.popped && st'.End() == st.End() && forall n :: st.popped <= n < st.End() ==> EndAt(st', n) == EndAt(st, n)
    requires forall i :: 0 <= i < |out| ==> FullOrLast(st', out[i])
    ensures forall i :: 0 <= i < |out| ==> FullOrLast(st, out[i])
  {
    hide EndAt;
    forall i | 0 <= i < |out| ensures FullOrLast(st, out[i]) {
      if |out[i].payload| < 1350 {
        var n :| st'.popped <= n < st'.End() && out[i].offset + |out[i].payload| == EndAt(st', n);
        assert EndAt(st, n) == EndAt(st', n);
      }
    }
  }

  // ---- Over runs --------------------------------------------------------------------------------------------

  /** What the handlers rely on holds in every state. */
  lemma Relied(states: seq<System>, events: seq<Event>, k: nat)
    requires IsRun(states, events) && k < |states|
    ensures var s := states[k].sender;
      && Filed(s) && Below(s) && s.cc.window >= 10000
      && (s.established ==> Sane(s) && forall pn :: pn in s.lost ==> pn < s.nextPacket && s.lost[pn].stream in s.streams)
  {
    hide Next, NetworkOk, NotesRead, AcksOk, ReceiversOk, Linked, NotesOk, StreamsOk, RecordsOk, HistoryOk, FixedCuts, LiveDistinct,
         HoldersOk;
    RunAccounted(states, events, k);
    if states[k].sender.established { InvGivesSane(states[k].sender, states[k].history, Cuts(states[k].wire)); }
  }

  lemma NextAttended(s: System, e: Event, s': System)
    requires Next(s, e, s') && Attended(s.sender)
    requires var t := s.sender; t.established ==> Sane(t) && forall pn :: pn in t.lost ==> pn < t.nextPacket && t.lost[pn].stream in t.streams
    requires s.sender.established || s.sender == FreshSender(false)
    ensures Attended(s'.sender)
  {
    var t := s.sender;
    match e
    case AppSends(id, data) => SendAttends(t, id, data);
    case PacingFires(now) =>
      hide PacingTick, Attended;
      if t.established { TickAttends(t, now); }
    case TlpFires(now) => ProbeAttends(t, now);
    case AckArrives(i, now) => hide Sending.AckRuns, LoseAndBackOff;
    case _ =>
  }

  lemma SendAttends(s: Sender, id: StreamId, data: seq<byte>)
    requires Attended(s)
    ensures Attended(Send(s, id, data).0)
  {
    var s' := Send(s, id, data).0;
    assert !s'.pacingArmed ==> forall j :: s'.Stream(j) == s.Stream(j);
    assert s.queue != [] && NewBlocked(s, s.queue[0]) && !s'.pacingArmed ==> NewBlocked(s', s.queue[0]);
  }

  lemma ProbeAttends(s: Sender, now: nat)
    requires Attended(s)
    ensures Attended(TlpTick(s, now))
  {
    hide LoseAndBackOff;
  }

  /** In every state of every run: nothing is lost or queued, or a pacing tick is due, or what comes next does not fit
      the window. */
  lemma {:induction false} AlwaysAttended(states: seq<System>, events: seq<Event>, k: nat)
    requires IsRun(states, events) && k < |states|
    ensures Attended(states[k].sender)
  {
    hide Next, Attended, SysInv, Sane, Filed, Below;
    if k == 0 {
      assert Attended(Initial.sender) by { FreshAttended(); }
    } else {
      AlwaysAttended(states, events, k - 1);
      Relied(states, events, k - 1);
      RunOk(states, events, k - 1);
      OpenOrReset(states[k - 1]);
      assert Next(states[k - 1], events[k - 1], states[k]);
      NextAttended(states[k - 1], events[k - 1], states[k]);
    }
  }

  lemma FreshAttended()
    ensures Attended(FreshSender(true))
  {
  }

  /** What `send` answers in any state: -2 without a connection, -1 with more than 20000000 bytes queued and unacked,
      and 0 otherwise; only then is the buffer queued. */
  lemma SendAnswers(states: seq<System>, events: seq<Event>, k: nat, id: StreamId, data: seq<byte>)
    requires IsRun(states, events) && k < |states|
    ensures var s := states[k].sender; var (s', code) := Send(s, id, data);
      var queued := if id in states[k].history then |states[k].history[id]| else 0;
      && code == (if !s.established then -2 else if queued - s.Stream(id).ackedOffset > 20000000 then -1 else 0)
      && s'.Stream(id).items == s.Stream(id).items + (if code == 0 then [DataItem(data, 0, queued)] else [])
      && s'.Stream(id).queueOffset == s.Stream(id).queueOffset + (if code == 0 then |data| else 0)
      && s'.queue == (if code == 0 && id !in s.queueIds then s.queue + [id] else s.queue)
      && (forall j: StreamId :: j != id ==> s'.Stream(j) == s.Stream(j))
  {
    hide Next, NetworkOk, NotesRead, AcksOk, ReceiversOk, Inv, Linked, NotesOk;
    RunOk(states, events, k);
    if states[k].sender.established { QueueLength(states[k].sender, states[k].history, Cuts(states[k].wire), id); }
  }
}
