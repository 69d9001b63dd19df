/** The main results about one connection epoch: statements about every state of every run. */
module EndToEnd {
  import opened Bytes
  import opened Sending
  import opened Tiling
  import opened SendingRuns
  import opened Receiving
  import opened AckRuns
  import opened Delivery
  import opened Flight
  import opened Scheduling
  import opened Progress
  import Ranges = AckRanges

  // ---- Counters, windows and timers over runs -------------------------------------------------------------

  ghost predicate Accounted(s: Sender) {
    Conserved(s) && Scheduled(s) && WindowOk(s)
  }

  lemma InvGivesSane(s: Sender, h: History, tx: seq<Fragment>)
    requires Inv(s, h, tx) && QueueKnown(s)
    ensures Sane(s) && Iterable(s) && LostShort(s)
  {
    forall id | id in s.streams ensures s.streams[id].popped <= s.streams[id].next {
      assert StreamOk(s.streams[id], h[id]);
    }
    forall pn | pn in s.lost ensures s.lost[pn].length <= FRAGMENT_SIZE {
      assert RecordOk(s.streams, s.lost[pn], tx[pn]);
    }
  }

  lemma ClosedAccounted(s: Sender)
    requires s == FreshSender(false) || s == FreshSender(true)
    ensures Accounted(s)
  {
  }

  lemma NextAccounted(s: System, e: Event, s': System)
    requires SysInv(s) && Accounted(s.sender) && Next(s, e, s')
    ensures Accounted(s'.sender)
  {
    var t := s.sender;
    if t.established {
      InvGivesSane(t, s.history, Cuts(s.wire));
    }
    hide Inv, Linked, NotesOk, ReceiversOk, NetworkOk, AcksOk, NotesRead, Scheduled, Send, PacingTick, TlpTick, RecvAck, QueueKnown;
    match e
    case AppSends(id, data) =>
      SendConserves(t, id, data);
      SendSchedules(t, id, data);
      SendWindow(t, id, data);
    case PacingFires(now) =>
      PacingConserves(t, now);
      PacingSchedules(t, now);
      PacingWindow(t, now);
    case TlpFires(now) =>
      TlpConserves(t, now);
      TlpSchedules(t, now);
      TlpWindow(t, now);
    case AckArrives(i, now) =>
      RecvAckConserves(t, s.acks[i].largest, s.acks[i].ranges, now);
      RecvAckSchedules(t, s.acks[i].largest, s.acks[i].ranges, now);
      AckWindow(t, s.acks[i].largest, s.acks[i].ranges, now);
    case _ =>
  }

  lemma SendWindow(s: Sender, id: StreamId, data: seq<byte>)
    requires WindowOk(s)
    ensures WindowOk(Send(s, id, data).0)
  {
  }

  lemma PacingWindow(s: Sender, now: nat)
    requires WindowOk(s)
    ensures WindowOk(PacingTick(s, now).s)
  {
  }

  lemma {:induction false} RunAccounted(states: seq<System>, events: seq<Event>, k: nat)
    requires IsRun(states, events) && k < |states|
    ensures SysInv(states[k]) && Accounted(states[k].sender)
  {
    hide SysInv, Next, Accounted;
    RunOk(states, events, k);
    if k == 0 {
      ClosedAccounted(Initial.sender);
    } else {
      RunAccounted(states, events, k - 1);
      NextAccounted(states[k - 1], events[k - 1], states[k]);
    }
  }

  // ---- Safety ---------------------------------------------------------------------------------------------

  lemma ReceivedOf(s: System, id: StreamId)
    requires ReceiversOk(s)
    ensures id in s.history ==> RecvOf(s.receivers, id).readOffset <= |s.history[id]|
    ensures id in s.history ==> Got(s.delivered, id) == s.history[id][..RecvOf(s.receivers, id).readOffset]
    ensures id !in s.history ==> Got(s.delivered, id) == []
  {
    if id in s.receivers {
      assert ReceiverOk(s.receivers[id], id, s.history[id], s.delivered[id], Cuts(s.wire));
    }
  }

  /** Whatever the network does, the peer's application has received, on every stream, a prefix of the bytes
      given to `send` on that stream: those below the receiver's read offset. */
  lemma DeliveredIsPrefix(states: seq<System>, events: seq<Event>, k: nat, id: StreamId)
    requires IsRun(states, events) && k < |states|
    ensures var s := states[k];
      Got(s.delivered, id) <= (if id in s.history then s.history[id] else [])
      && |Got(s.delivered, id)| == RecvOf(s.receivers, id).readOffset
  {
    hide Next, SenderOk, NetworkOk, AcksOk, NotesRead, ReceiverOk;
    RunOk(states, events, k);
    ReceivedOf(states[k], id);
    if id !in states[k].history { ReadNothing(states[k], id); }
  }

  lemma ReadNothing(s: System, id: StreamId)
    requires ReceiversOk(s) && id !in s.history
    ensures RecvOf(s.receivers, id).readOffset == 0
  {
  }

  lemma LinkNow(s: System, id: StreamId)
    requires SenderOk(s) && s.sender.established && id in s.sender.streams
    ensures s.sender.streams[id].ackedOffset <= RecvOf(s.receivers, id).readOffset
    ensures id in s.history && StreamOk(s.sender.streams[id], s.history[id])
  {
    assert LinkOk(s.sender.streams[id], RecvOf(s.receivers, id));
  }

  /** What the sender counts as acked, the peer's application has received. */
  lemma AckedIsDelivered(states: seq<System>, events: seq<Event>, k: nat, id: StreamId)
    requires IsRun(states, events) && k < |states|
    requires states[k].sender.established && id in states[k].sender.streams
    ensures states[k].sender.streams[id].ackedOffset <= |Got(states[k].delivered, id)|
  {
    hide Next, NetworkOk, AcksOk, NotesRead, ReceiverOk, Sound, StreamOk;
    RunOk(states, events, k);
    LinkNow(states[k], id);
    ReceivedOf(states[k], id);
  }

  /** `did_send` hands buffers back in order, and only once the peer's application has received all their bytes. */
  lemma HandedBackIsDelivered(states: seq<System>, events: seq<Event>, k: nat, id: StreamId)
    requires IsRun(states, events) && k < |states|
    ensures Handed(states[k].notes, id) <= Got(states[k].delivered, id)
  {
    hide Next, SenderOk, NetworkOk, AcksOk, ReceiversOk;
    RunOk(states, events, k);
  }

  /** In every state each unacked sent byte has exactly one holder, and every record in flight or lost
      designates an item that is still queued. */
  lemma PartitionHolds(states: seq<System>, events: seq<Event>, k: nat, id: StreamId, b: nat)
    requires IsRun(states, events) && k < |states|
    requires states[k].sender.established && id in states[k].sender.streams
    ensures var s := states[k].sender; var tx := Cuts(states[k].wire); var st := s.streams[id];
      && (st.ackedOffset <= b < st.sentOffset <==> exists o :: Holds(s, tx, o, id, b))
      && (forall o, o' :: Holds(s, tx, o, id, b) && Holds(s, tx, o', id, b) ==> o == o')
      && RecordsOk(s.streams, s.sent, tx) && RecordsOk(s.streams, s.lost, tx)
  {
    RunOk(states, events, k);
    hide Next, NetworkOk, AcksOk, NotesRead, ReceiversOk, StreamsOk, RecordsOk, HistoryOk, FixedCuts, LiveDistinct, HoldersOk, Holds,
         Linked, NotesOk;
    TiledExactlyOnce(states[k].sender, states[k].history, Cuts(states[k].wire), id, b);
  }

  // ---- Completeness ---------------------------------------------------------------------------------------

  lemma AllAcked(s: Sender, tx: seq<Fragment>, id: StreamId)
    requires id in s.streams && |s.sent| == 0 && |s.lost| == 0
    requires OutstandingOk(id, s.streams[id], LiveOf(s), tx) && Covered(id, s.streams[id], LiveOf(s), tx)
    requires s.streams[id].ackedOffset <= s.streams[id].sentOffset
    ensures s.streams[id].ackedOffset == s.streams[id].sentOffset
  {
    var st := s.streams[id];
    assert st.ackedOffset < st.sentOffset ==> Held(id, st, LiveOf(s), tx, st.ackedOffset);
  }

  lemma AllSent(s: Sender, id: StreamId, h: seq<byte>)
    requires Scheduled(s) && id in s.streams && |s.queue| == 0 && StreamOk(s.streams[id], h)
    ensures s.streams[id].sentOffset == |h|
  {
    assert s.queueIds == {};
  }

  lemma HoldersOf(s: Sender, h: History, tx: seq<Fragment>, id: StreamId)
    requires Inv(s, h, tx) && id in s.streams
    ensures OutstandingOk(id, s.streams[id], LiveOf(s), tx) && Covered(id, s.streams[id], LiveOf(s), tx)
  {
  }

  lemma StreamsAre(s: Sender, h: History, tx: seq<Fragment>)
    requires Inv(s, h, tx)
    ensures s.streams.Keys == h.Keys
  {
  }

  /** Once the sender is idle (nothing in flight, lost or queued) everything given to `send` has been delivered. */
  lemma IdleMeansDelivered(states: seq<System>, events: seq<Event>, k: nat, id: StreamId)
    requires IsRun(states, events) && k < |states|
    requires states[k].sender.established && IsIdle(states[k].sender) && id in states[k].history
    ensures Got(states[k].delivered, id) == states[k].history[id]
  {
    hide Next, NetworkOk, AcksOk, NotesRead, ReceiverOk, Inv, Linked, NotesOk, StreamOk, Conserved, Scheduled;
    var s := states[k];
    RunAccounted(states, events, k);
    StreamsAre(s.sender, s.history, Cuts(s.wire));
    HoldersOf(s.sender, s.history, Cuts(s.wire), id);
    LinkNow(s, id);
    AllSent(s.sender, id, s.history[id]);
    AckedInside(s.sender.streams[id], s.history[id]);
    AllAcked(s.sender, Cuts(s.wire), id);
    ReceivedOf(s, id);
  }

  lemma AckedInside(st: SendStream, h: seq<byte>)
    requires StreamOk(st, h)
    ensures st.ackedOffset <= st.sentOffset <= |h|
  {
  }

  /** The first byte the receiver misses is in no datagram it ever accepted. */
  lemma FirstMissing(r: RecvState, f: Fragment)
    requires Have(r, f.start, f.length) && forall k :: k in r.packets ==> r.readOffset < k
    ensures !f.Has(f.stream, r.readOffset)
  {
  }

  lemma SeenFragment(s: System, n: nat)
    requires AcksOk(s) && n in s.seen
    ensures n < |s.wire| && HasFragment(s.receivers, Cuts(s.wire)[n])
  {
  }

  /** Maximal progress: if at least one transmission of every sent byte has been accepted, in whatever order,
      the peer's application has received everything sent. */
  lemma AllAcceptedMeansRead(states: seq<System>, events: seq<Event>, k: nat, id: StreamId)
    requires IsRun(states, events) && k < |states|
    requires states[k].sender.established && id in states[k].sender.streams
    requires forall b: nat :: b < states[k].sender.streams[id].sentOffset ==> Accepted(states[k], id, b)
    ensures |Got(states[k].delivered, id)| >= states[k].sender.streams[id].sentOffset
  {
    hide Next, NetworkOk, NotesRead, Sound, AllHave, Have, StreamOk;
    var s := states[k];
    RunOk(states, events, k);
    LinkNow(s, id);
    ReceivedOf(s, id);
    AboveReadNow(s);
    var r := RecvOf(s.receivers, id);
    if r.readOffset < s.sender.streams[id].sentOffset {
      assert Accepted(s, id, r.readOffset);
      var n :| n in s.seen && n < |s.wire| && Cuts(s.wire)[n].Has(id, r.readOffset);
      SeenFragment(s, n);
      FirstMissing(r, Cuts(s.wire)[n]);
      assert false;
    }
  }

  /** Some accepted datagram carried byte `b` of the stream. */
  ghost predicate Accepted(s: System, id: StreamId, b: nat) {
    exists n :: n in s.seen && n < |s.wire| && Cuts(s.wire)[n].Has(id, b)
  }

  // ---- Counters, window, timers ---------------------------------------------------------------------------

  /** In every state the flight counters equal the packets in flight, overall and per stream, so none is negative;
      the window is at least its floor; a queued stream appears once; every stream with unsent data is queued;
      and the tail-loss timer is armed unless the sender is idle. */
  lemma AccountsHold(states: seq<System>, events: seq<Event>, k: nat)
    requires IsRun(states, events) && k < |states|
    ensures var s := states[k].sender;
      && 0 <= s.bytesInFlight == Total(s.sent, s.nextPacket)
      && (forall id :: id in s.streams ==> 0 <= s.streams[id].bytesInFlight == BytesOf(s.sent, id, s.nextPacket))
      && s.cc.window >= MIN_WINDOW
      && QueueOnce(s) && UnsentQueued(s)
      && (|s.sent| + |s.lost| + |s.queue| > 0 ==> s.tlpArmed)
  {
    RunAccounted(states, events, k);
  }

  /** Every pacing tick of every run adds at most 401350 bytes to the flight and stays within the window. */
  lemma PacingHolds(states: seq<System>, events: seq<Event>, k: nat, now: nat)
    requires IsRun(states, events) && k < |states| && states[k].sender.established
    ensures var s := states[k].sender; var r := PacingTick(s, now);
      && 0 <= r.s.bytesInFlight - s.bytesInFlight <= 401350
      && (r.out != [] ==> r.s.bytesInFlight <= s.cc.window)
  {
    hide Next, NetworkOk, NotesRead, AcksOk, ReceiversOk, Inv, Linked, NotesOk, Conserved, Scheduled, PacingTick;
    RunAccounted(states, events, k);
    InvGivesSane(states[k].sender, states[k].history, Cuts(states[k].wire));
    TickBounded(states[k].sender, now);
  }

  /** How many tail-loss probes have fired since the last ACK, or since the sender was last idle at one. */
  function Streak(states: seq<System>, events: seq<Event>, k: nat): nat
    requires k <= |events| && |states| == |events| + 1
  {
    if k == 0 then 0 else StreakAfter(states[k - 1].sender, events[k - 1], Streak(states, events, k - 1))
  }

  function StreakAfter(s: Sender, e: Event, n: nat): nat {
    match e
    case TlpFires(_) => if IsIdle(s) then 0 else n + 1
    case AckArrives(_, _) => if s.established then 0 else n
    case _ => n
  }

  function Backoff(n: nat): nat {
    if n == 0 then TLP_INTERVAL else 2 * Backoff(n - 1)
  }

  lemma BackoffLimit(n: nat)
    requires Backoff(n) < TLP_ABORT
    ensures n <= 4
  {
    if n >= 5 { BackoffGrows(5, n); }
    assert Backoff(5) == 2 * (2 * (2 * (2 * (2 * TLP_INTERVAL)))) by {
      assert Backoff(4) == 2 * (2 * (2 * (2 * TLP_INTERVAL))) by { assert Backoff(2) == 2 * (2 * TLP_INTERVAL); }
    }
  }

  lemma {:induction false} BackoffGrows(m: nat, n: nat)
    requires m <= n
    ensures Backoff(m) <= Backoff(n)
  {
    if m < n { BackoffGrows(m, n - 1); }
  }

  ghost predicate BackedOff(s: Sender, streak: nat) {
    s.established ==> streak <= 5 && s.tlpInterval == Backoff(streak)
  }

  lemma TlpBacksOff(s: Sender, now: nat, streak: nat)
    requires BackedOff(s, streak) && s.established
    ensures BackedOff(TlpTick(s, now), if IsIdle(s) then 0 else streak + 1)
  {
    hide LoseFrom;
    if s.tlpInterval < TLP_ABORT { BackoffLimit(streak); }
  }

  lemma OthersKeepInterval(s: Sender, id: StreamId, data: seq<byte>, now: nat)
    ensures var s' := Send(s, id, data).0; s'.tlpInterval == s.tlpInterval && s'.established == s.established
    ensures var s' := PacingTick(s, now).s; s'.tlpInterval == s.tlpInterval && s'.established == s.established
  {
  }

  lemma AckResets(s: Sender, largest: nat, ranges: seq<nat>, now: nat, streak: nat)
    requires BackedOff(s, streak)
    ensures BackedOff(RecvAck(s, largest, ranges, now).0, if s.established then 0 else streak)
  {
  }

  lemma OpenOrReset(s: System)
    requires SysInv(s)
    ensures s.sender.established || s.sender == FreshSender(false)
  {
  }

  lemma NextBacksOff(s: System, e: Event, s': System, n: nat)
    requires Next(s, e, s') && SysInv(s) && BackedOff(s.sender, n)
    ensures BackedOff(s'.sender, StreakAfter(s.sender, e, n))
  {
    OpenOrReset(s);
    hide SysInv, Send, PacingTick, TlpTick, RecvAck, Arrive, Dispatch, Backoff, Ranges.Recorded;
    match e
    case AppSends(id, data) => OthersKeepInterval(s.sender, id, data, 0);
    case PacingFires(now) => OthersKeepInterval(s.sender, 0, [], now);
    case TlpFires(now) =>
      ClosedStays(now);
      if s.sender.established { TlpBacksOff(s.sender, now, n); }
    case AckArrives(i, now) => AckResets(s.sender, s.acks[i].largest, s.acks[i].ranges, now, n);
    case _ =>
  }

  lemma ClosedStays(now: nat)
    ensures !TlpTick(FreshSender(false), now).established
  {
  }

  /** The probe interval doubles with every probe that no ACK follows, and at most six probes fire in a row:
      the sixth resets the connection. */
  lemma {:induction false} AtMostSixProbes(states: seq<System>, events: seq<Event>, k: nat)
    requires IsRun(states, events) && k < |states|
    ensures states[k].sender.established ==>
      Streak(states, events, k) <= 5 && states[k].sender.tlpInterval == Backoff(Streak(states, events, k))
  {
    hide Next, SysInv, StreakAfter;
    if k > 0 {
      AtMostSixProbes(states, events, k - 1);
      RunOk(states, events, k - 1);
      assert Next(states[k - 1], events[k - 1], states[k]);
      NextBacksOff(states[k - 1], events[k - 1], states[k], Streak(states, events, k - 1));
    }
  }

  // ---- No stall -------------------------------------------------------------------------------------------

  lemma Extended(states: seq<System>, events: seq<Event>, k: nat, e: Event, s': System)
    requires IsRun(states, events) && k < |states| && Next(states[k], e, s')
    ensures IsRun(states[..k + 1] + [s'], events[..k] + [e])
  {
    hide Next;
    var states', events' := states[..k + 1] + [s'], events[..k] + [e];
    forall i | 0 <= i < |events'| ensures Next(states'[i], events'[i], states'[i + 1]) {
      if i < k { assert Next(states[i], events[i], states[i + 1]); }
    }
  }

  /** Whenever the sender is not idle its probe timer is armed, and unless the firing gives the connection up, the
      pacing tick it arms transmits: packets that were in flight or lost go out again. If that tick finds nothing
      to send, everything given to `send` had already been delivered. */
  lemma ProbeMakesProgress(states: seq<System>, events: seq<Event>, k: nat, now: nat, later: nat)
    requires IsRun(states, events) && k < |states|
    requires var s := states[k].sender; s.established && !IsIdle(s) && s.tlpInterval < TLP_ABORT
    ensures var s := states[k].sender; var probed := TlpTick(s, now); var r := PacingTick(probed, later);
      && s.tlpArmed && probed.established && probed.pacingArmed
      && (|s.sent| + |s.lost| > 0 ==> r.out != [])
      && (r.out == [] ==> forall id :: id in states[k].history ==> Got(states[k].delivered, id) == states[k].history[id])
  {
    hide Next, NetworkOk, NotesRead, AcksOk, ReceiversOk, Inv, Linked, NotesOk, Conserved, TlpTick, PacingTick;
    var s := states[k];
    RunAccounted(states, events, k);
    ProbeFreesWindow(s.sender, now);
    TlpStays(s.sender, now);
    var s1 := s.(sender := TlpTick(s.sender, now));
    assert Next(s, TlpFires(now), s1) by { TlpStep(s, now); }
    Extended(states, events, k, TlpFires(now), s1);
    var states1, events1 := states[..k + 1] + [s1], events[..k] + [TlpFires(now)];
    RunAccounted(states1, events1, k + 1);
    InvGivesSane(s1.sender, s1.history, Cuts(s1.wire));
    TickTransmits(s1.sender, later);
    var r := PacingTick(s1.sender, later);
    if |s.sender.sent| + |s.sender.lost| > 0 { SomeLost(s.sender, s1.sender); }
    if r.out == [] {
      var s2 := s1.(sender := r.s, wire := s1.wire + r.out);
      assert Next(s1, PacingFires(later), s2) by { PacingStep(s1, later); }
      Extended(states1, events1, k + 1, PacingFires(later), s2);
      TickStays(s1.sender, later);
      forall id | id in s.history ensures Got(s.delivered, id) == s.history[id] {
        IdleMeansDelivered(states1[..k + 2] + [s2], events1[..k + 1] + [PacingFires(later)], k + 2, id);
      }
    }
  }

  lemma TlpStep(s: System, now: nat)
    requires s.sender.tlpArmed
    ensures Next(s, TlpFires(now), s.(sender := TlpTick(s.sender, now)))
  {
  }

  lemma PacingStep(s: System, now: nat)
    requires s.sender.pacingArmed
    ensures var r := PacingTick(s.sender, now); Next(s, PacingFires(now), s.(sender := r.s, wire := s.wire + r.out))
  {
  }

  lemma TlpStays(s: Sender, now: nat)
    requires s.established && s.tlpInterval < TLP_ABORT
    ensures TlpTick(s, now).established
  {
  }

  lemma TickStays(s: Sender, now: nat)
    requires s.established
    ensures PacingTick(s, now).s.established
  {
  }

  lemma SomeLost(s: Sender, s1: Sender)
    requires s1.lost.Keys == s.lost.Keys + s.sent.Keys && |s.sent| + |s.lost| > 0
    ensures |s1.lost| > 0
  {
    var n :| n in s.lost.Keys + s.sent.Keys;
    assert n in s1.lost;
  }

  // ---- Acknowledgement agreement --------------------------------------------------------------------------

  /** An ACK names exactly the receiver's remembered numbers when they fit, and otherwise the highest of them. */
  lemma AckNames(list: Ranges.AckList, n: nat)
    ensures var m := MakeAck(list);
      Ranges.InRuns(m.largest, m.ranges, false, n) <==>
        Ranges.Seen(list, n) && (|list.ranges| > Ranges.ACK_RUNS ==> n > Ranges.Bottom(Ranges.AckList(m.ranges, m.largest)))
  {
    if |list.ranges| > Ranges.ACK_RUNS {
      Ranges.Prefix(list, Ranges.ACK_RUNS, n);
    }
  }

  /** Every ACK that arrives, however late, takes out of flight only packets that the receiver accepted. */
  lemma AckedWereAccepted(states: seq<System>, events: seq<Event>, k: nat, i: nat, limited: bool, n: nat)
    requires IsRun(states, events) && k < |states| && i < |states[k].acks|
    requires n in states[k].sender.sent
    requires var s := states[k];
      n !in Sending.AckRuns(s.sender, s.acks[i].largest, s.acks[i].ranges, false, limited).0.sent
    ensures n in states[k].seen
  {
    hide Next, NetworkOk, NotesRead, ReceiversOk, SenderOk;
    RunOk(states, events, k);
    var s := states[k];
    AckRemovesExactly(s.sender, s.acks[i].largest, s.acks[i].ranges, false, limited, n);
  }

  lemma {:induction false} LosingMoves(s: Sender, pn: nat, end: nat, everything: bool)
    ensures var s' := LoseFrom(s, pn, end, everything).0; s'.sent.Keys + s'.lost.Keys == s.sent.Keys + s.lost.Keys
    decreases end - pn
  {
    if pn < end {
      if pn !in s.sent {
        LosingMoves(s, pn + 1, end, everything);
      } else if everything || s.largestSentTime > s.sent[pn].sentTime + 50 {
        LosingMoves(MarkLost(s, pn), pn + 1, end, everything);
      }
    }
  }

  /** The packet leaves the sender's books: it is no longer in flight, and not filed as lost. */
  predicate TakenOut(s: Sender, m: AckMsg, now: nat, n: nat) {
    var s' := RecvAck(s, m.largest, m.ranges, now).0;
    n in s.sent && n !in s'.sent && n !in s'.lost
  }

  lemma TakesOutNamed(s: Sender, m: AckMsg, now: nat, n: nat)
    requires s.established && n in s.sent && n !in s.lost
    ensures TakenOut(s, m, now, n) <==> Ranges.InRuns(m.largest, m.ranges, false, n)
  {
    hide Sending.AckRuns, LoseFrom, OnLoss, Ranges.InRuns;
    var s1 := NoteLargest(s, m.largest);
    var s2 := Sending.AckRuns(s1, m.largest, m.ranges, false, IsLimited(s1)).0;
    AckRemovesExactly(s1, m.largest, m.ranges, false, IsLimited(s1), n);
    LosingMoves(s2, 0, s2.nextPacket, false);
    assert n in s2.sent.Keys + s2.lost.Keys <==> n in s2.sent;
  }

  /** The ACK made at step `made` is the next one on the network, and stays there. */
  lemma {:induction false} AckStays(states: seq<System>, events: seq<Event>, made: nat, k: nat)
    requires IsRun(states, events) && made < |events| && events[made] == AckFires && made < k < |states|
    ensures |states[made].acks| < |states[k].acks| && states[k].acks[|states[made].acks|] == MakeAck(states[made].list)
  {
    hide PacingTick, TlpTick, RecvAck, Send, Arrive;
    assert Next(states[k - 1], events[k - 1], states[k]);
    if made + 1 < k { AckStays(states, events, made, k - 1); }
  }

  lemma NotBoth(s: System, n: nat)
    requires SenderOk(s) && s.sender.established && n in s.sender.sent
    ensures n !in s.sender.lost
  {
  }

  /** ACK agreement. Whenever an ACK arrives, however late or often, each packet it takes out of flight is one the
      receiver had accepted when it made the ACK; and if at most 171 runs were remembered then, it takes out
      exactly those packets in flight that were remembered. */
  lemma AckAgreement(states: seq<System>, events: seq<Event>, made: nat, k: nat, now: nat, n: nat)
    requires IsRun(states, events) && made < |events| && events[made] == AckFires && made < k < |states|
    requires states[k].sender.established && n in states[k].sender.sent
    ensures |states[made].acks| < |states[k].acks|
    ensures var m := states[k].acks[|states[made].acks|]; var w := states[made];
      && (TakenOut(states[k].sender, m, now, n) ==> n in w.seen && Ranges.Seen(w.list, n))
      && (|w.list.ranges| <= Ranges.ACK_RUNS ==> (TakenOut(states[k].sender, m, now, n) <==> Ranges.Seen(w.list, n)))
  {
    hide Next, NetworkOk, NotesRead, ReceiversOk, SenderOk, TakenOut, Ranges.InRuns;
    AckStays(states, events, made, k);
    RunOk(states, events, k);
    RunOk(states, events, made);
    NotBoth(states[k], n);
    TakesOutNamed(states[k].sender, MakeAck(states[made].list), now, n);
    AckNames(states[made].list, n);
  }

  /** As long as the list has stayed short of its limit, the receiver remembers exactly what it accepted. */
  lemma {:induction false} RememberedIsAccepted(states: seq<System>, events: seq<Event>, k: nat, n: nat)
    requires IsRun(states, events) && k < |states|
    requires forall j :: 0 <= j < k ==> |states[j].list.ranges| < 1000
    ensures Ranges.Seen(states[k].list, n) <==> n in states[k].seen
  {
    hide PacingTick, TlpTick, RecvAck, Send, Arrive, SysInv;
    if k > 0 {
      RememberedIsAccepted(states, events, k - 1, n);
      assert Next(states[k - 1], events[k - 1], states[k]);
    }
  }
}
