/**
 One connection epoch, end to end: a sender, a receiver, and a network that may lose, delay, reorder and
 duplicate datagrams. Every DATA datagram ever sent stays in `wire`, every ACK in `acks`, and an arrival event
 may pick any of them any number of times.
 */
module Delivery {
  import opened Bytes
  import opened Sending
  import opened Tiling
  import opened TilingSteps
  import opened SendingRuns
  import opened Receiving
  import opened AckRuns
  import Ranges = AckRanges

  datatype AckMsg = AckMsg(largest: nat, ranges: seq<nat>)

  datatype System = System(
    sender: Sender,
    history: History,            // what the application gave to `send`, per stream
    wire: seq<DataMsg>,          // DATA datagrams sent, by packet number
    receivers: Receivers,
    delivered: History,          // what the peer's application received, per stream
    list: Ranges.AckList,        // packet numbers the receiver remembers
    seen: set<nat>,              // packet numbers it ever accepted
    acks: seq<AckMsg>,           // ACK datagrams sent
    notes: seq<Note>)            // `did_send` callbacks made

  datatype Event =
    | AppSends(id: StreamId, data: seq<byte>)
    | PacingFires(now: nat)
    | TlpFires(now: nat)
    | DataArrives(i: nat)
    | AckFires
    | AckArrives(i: nat, now: nat)

  const Initial := System(FreshSender(true), map[], [], map[], map[], Ranges.Empty, {}, [], [])

  function Got(delivered: History, id: StreamId): seq<byte> {
    if id in delivered then delivered[id] else []
  }

  /** `send_ACK` transmits a bounded prefix of the runs. */
  function MakeAck(list: Ranges.AckList): AckMsg {
    AckMsg(list.largest, if |list.ranges| > Ranges.ACK_RUNS then list.ranges[..Ranges.ACK_RUNS] else list.ranges)
  }

  ghost predicate Next(s: System, e: Event, s': System) {
    match e
    case AppSends(id, data) =>
      && 0 < |data|
      && s' == s.(sender := Send(s.sender, id, data).0, history := SentHistory(s.sender, s.history, id, data))
    case PacingFires(now) =>
      && s.sender.pacingArmed
      && var r := PacingTick(s.sender, now); s' == s.(sender := r.s, wire := s.wire + r.out)
    case TlpFires(now) =>
      s.sender.tlpArmed && s' == s.(sender := TlpTick(s.sender, now))
    case DataArrives(i) =>
      && i < |s.wire|
      && var m := s.wire[i];
      && var o := Arrive(RecvOf(s.receivers, m.stream), m.offset, |m.payload|, m.payload, false);
      && s' == s.(receivers := Dispatch(s.receivers, m.stream, m.offset, |m.payload|, m.payload, false),
                  delivered := s.delivered[m.stream := Got(s.delivered, m.stream) + Concat(o.chunks)],
                  list := s'.list,
                  seen := if o.acked then s.seen + {m.number} else s.seen)
      && (if o.acked then Ranges.Recorded(s.list, m.number, s'.list) else s'.list == s.list)
    case AckFires =>
      s' == s.(acks := s.acks + [MakeAck(s.list)])
    case AckArrives(i, now) =>
      && i < |s.acks|
      && var (sender, more) := RecvAck(s.sender, s.acks[i].largest, s.acks[i].ranges, now);
         s' == s.(sender := sender, notes := s.notes + more)
  }

  // ---- The invariant --------------------------------------------------------------------------------------

  /** The sender's side, as long as it has not given the connection up. */
  ghost predicate SenderOk(s: System) {
    if s.sender.established then
      Sound(s.sender, s.history, Cuts(s.wire), s.receivers, s.notes) && QueueKnown(s.sender)
    else s.sender == FreshSender(false)
  }

  ghost predicate NetworkOk(s: System) {
    && WireOk(s.wire, s.history) && FixedCuts(Cuts(s.wire))
    && forall i :: 0 <= i < |s.wire| ==> 0 < |s.wire[i].payload|
  }

  /** A receive stream holds and has delivered exactly slices of what was queued, cut as they were sent. */
  ghost predicate ReceiverOk(r: RecvState, id: StreamId, h: seq<byte>, out: seq<byte>, tx: seq<Fragment>) {
    && Reassembles(r, h) && out == h[..r.readOffset]
    && r.phase == Recv && !r.waitFlush
    && forall k :: k in r.packets ==> Fragment(id, k, |r.packets[k]|) in tx
  }

  ghost predicate ReceiversOk(s: System) {
    && s.receivers.Keys == s.delivered.Keys && s.receivers.Keys <= s.history.Keys
    && forall id :: id in s.receivers ==>
         ReceiverOk(s.receivers[id], id, s.history[id], s.delivered[id], Cuts(s.wire))
  }

  ghost predicate AcksOk(s: System) {
    && AllHave(Cuts(s.wire), s.receivers, s.seen)
    && Ranges.WellFormed(s.list)
    && (forall n: nat :: Ranges.Seen(s.list, n) ==> n in s.seen)
    && (forall i, n: nat :: 0 <= i < |s.acks| && Ranges.InRuns(s.acks[i].largest, s.acks[i].ranges, false, n) ==> n in s.seen)
  }

  /** Buffers are handed back only after the peer has read them. */
  ghost predicate NotesRead(s: System) {
    forall id :: Handed(s.notes, id) <= Got(s.delivered, id)
  }

  ghost predicate SysInv(s: System) {
    SenderOk(s) && NetworkOk(s) && ReceiversOk(s) && AcksOk(s) && NotesRead(s)
  }

  lemma InitialOk()
    ensures SysInv(Initial)
  {
    assert Cuts([]) == [];
  }

  // ---- The application sends ------------------------------------------------------------------------------

  /** `h'` extends the history of some streams. */
  ghost predicate Grows(h: History, h': History) {
    h.Keys <= h'.Keys && forall id :: id in h ==> h[id] <= h'[id]
  }

  lemma SliceGrows(h: seq<byte>, h': seq<byte>, from: nat, to: nat)
    requires h <= h' && from <= to <= |h|
    ensures h'[from..to] == h[from..to]
  {
  }

  lemma WireGrows(wire: seq<DataMsg>, h: History, h': History)
    requires WireOk(wire, h) && Grows(h, h')
    ensures WireOk(wire, h')
  {
    forall i | 0 <= i < |wire| ensures Carries(wire[i], i, h') {
      assert Carries(wire[i], i, h);
      SliceGrows(h[wire[i].stream], h'[wire[i].stream], wire[i].offset, wire[i].offset + |wire[i].payload|);
    }
  }

  lemma ReceiverGrows(r: RecvState, id: StreamId, h: seq<byte>, h': seq<byte>, out: seq<byte>, tx: seq<Fragment>)
    requires ReceiverOk(r, id, h, out, tx) && h <= h'
    ensures ReceiverOk(r, id, h', out, tx)
  {
    forall k | k in r.packets ensures IsSlice(h', k, r.packets[k]) {
      SliceGrows(h, h', k, k + |r.packets[k]|);
    }
    SliceGrows(h, h', 0, r.readOffset);
  }

  lemma SentGrows(s: Sender, h: History, id: StreamId, data: seq<byte>)
    ensures Grows(h, SentHistory(s, h, id, data))
  {
  }

  lemma SendSound(s: Sender, h: History, tx: seq<Fragment>, receivers: Receivers, notes: seq<Note>, id: StreamId, data: seq<byte>)
    requires Sound(s, h, tx, receivers, notes) && QueueKnown(s) && s.established && 0 < |data|
    ensures var s' := Send(s, id, data).0;
      Sound(s', SentHistory(s, h, id, data), tx, receivers, notes) && QueueKnown(s') && s'.established
  {
    hide Inv, Linked, NotesOk, QueueKnown, Send;
    SendKeeps(s, h, tx, id, data);
    SendEffect(s, id, data);
    SendQueueKnown(s, id, data);
    if Send(s, id, data).1 == 0 {
      QueueLength(s, h, tx, id);
      EnqueueLinked(s, h, receivers, notes, id, data);
      SoundStreams(s.streams[id := Enqueue(s.Stream(id), data)], Send(s, id, data).0, receivers, notes, Appended(h, id, data));
    }
  }

  lemma SoundStreams(streams: map<StreamId, SendStream>, s: Sender, receivers: Receivers, notes: seq<Note>, h: History)
    requires streams == s.streams && Linked(streams, receivers) && NotesOk(streams, notes, h)
    ensures Linked(s.streams, receivers) && NotesOk(s.streams, notes, h)
  {
  }

  lemma SendQueueKnown(s: Sender, id: StreamId, data: seq<byte>)
    requires QueueKnown(s) && s.established
    ensures QueueKnown(Send(s, id, data).0) && Send(s, id, data).0.established
  {
  }

  lemma QueueLength(s: Sender, h: History, tx: seq<Fragment>, id: StreamId)
    requires Inv(s, h, tx)
    ensures id in s.streams <==> id in h
    ensures id in h ==> s.streams[id].queueOffset == |h[id]|
  {
    if id in h { assert StreamOk(s.streams[id], h[id]); }
  }

  lemma EnqueueLinked(s: Sender, h: History, receivers: Receivers, notes: seq<Note>, id: StreamId, data: seq<byte>)
    requires Linked(s.streams, receivers) && NotesOk(s.streams, notes, h)
    requires id in s.streams ==> s.streams[id].queueOffset == |h[id]|
    ensures var streams := s.streams[id := Enqueue(s.Stream(id), data)];
      Linked(streams, receivers) && NotesOk(streams, notes, Appended(h, id, data))
  {
    EnqueueNotes(s, h, notes, id, data);
    hide NotesOk;
  }

  lemma EnqueueNotes(s: Sender, h: History, notes: seq<Note>, id: StreamId, data: seq<byte>)
    requires NotesOk(s.streams, notes, h)
    requires id in s.streams ==> s.streams[id].queueOffset == |h[id]|
    ensures NotesOk(s.streams[id := Enqueue(s.Stream(id), data)], notes, Appended(h, id, data))
  {
    hide Handed;
  }

  lemma ReceiversGrow(s: System, s': System)
    requires ReceiversOk(s) && Grows(s.history, s'.history)
    requires s'.receivers == s.receivers && s'.delivered == s.delivered && s'.wire == s.wire
    ensures ReceiversOk(s')
  {
    forall id | id in s'.receivers
      ensures ReceiverOk(s'.receivers[id], id, s'.history[id], s'.delivered[id], Cuts(s'.wire))
    {
      ReceiverGrows(s.receivers[id], id, s.history[id], s'.history[id], s.delivered[id], Cuts(s.wire));
    }
  }

  lemma AppSendsOk(s: System, id: StreamId, data: seq<byte>, s': System)
    requires SysInv(s) && Next(s, AppSends(id, data), s')
    ensures SysInv(s')
  {
    hide Sound, ReceiversOk, NotesRead, WireOk, FixedCuts, QueueKnown, Send, Handed;
    SentGrows(s.sender, s.history, id, data);
    if s.sender.established {
      SendSound(s.sender, s.history, Cuts(s.wire), s.receivers, s.notes, id, data);
    } else {
      ClosedSend(s.sender, id, data);
    }
    WireGrows(s.wire, s.history, s'.history);
    ReceiversGrow(s, s');
    NotesSame(s, s');
  }

  lemma ClosedSend(s: Sender, id: StreamId, data: seq<byte>)
    requires !s.established
    ensures Send(s, id, data) == (s, -2)
  {
  }

  lemma NotesSame(s: System, s': System)
    requires NotesRead(s) && s'.notes == s.notes && s'.delivered == s.delivered
    ensures NotesRead(s')
  {
    forall id ensures Handed(s'.notes, id) <= Got(s'.delivered, id) {
      assert Handed(s.notes, id) <= Got(s.delivered, id);
    }
  }

  // ---- Timers ---------------------------------------------------------------------------------------------

  lemma {:induction false} SendQueuedKnown(s: Sender, initial: int, now: nat)
    ensures forall id :: id in SendQueued(s, initial, now).s.queue ==> id in s.queue
    ensures SendQueued(s, initial, now).s.established == s.established
    decreases |s.queue|
  {
    if s.queue != [] {
      var id := s.queue[0];
      var r := SendNew(s, id, initial, now);
      if r.code == 0 {
        SendQueuedKnown(r.s.(queue := s.queue[1..], queueIds := s.queueIds - {id}), initial, now);
      }
    }
  }

  lemma PacingQueue(s: Sender, now: nat)
    ensures forall id :: id in PacingTick(s, now).s.queue ==> id in s.queue
    ensures PacingTick(s, now).s.established == s.established
  {
    var s0 := s.(pacingArmed := false);
    var r := SendLost(s0, 0, s0.nextPacket, s0.bytesInFlight, now);
    SendQueuedKnown(r.s, s0.bytesInFlight, now);
  }

  lemma SameAcksSound(streams: map<StreamId, SendStream>, streams': map<StreamId, SendStream>,
                      receivers: Receivers, notes: seq<Note>, h: History)
    requires SameAcks(streams, streams') && Linked(streams, receivers) && NotesOk(streams, notes, h)
    ensures Linked(streams', receivers) && NotesOk(streams', notes, h)
  {
    forall id | id in streams' ensures LinkOk(streams'[id], RecvOf(receivers, id)) {
      assert LinkOk(streams[id], RecvOf(receivers, id));
    }
  }

  lemma CutsExtended(wire: seq<DataMsg>, out: seq<DataMsg>)
    ensures Cuts(wire) <= Cuts(wire + out)
  {
  }

  lemma AllHaveExtends(tx: seq<Fragment>, tx': seq<Fragment>, receivers: Receivers, seen: set<nat>)
    requires AllHave(tx, receivers, seen) && tx <= tx'
    ensures AllHave(tx', receivers, seen)
  {
  }

  lemma ReceiverExtends(r: RecvState, id: StreamId, h: seq<byte>, out: seq<byte>, tx: seq<Fragment>, tx': seq<Fragment>)
    requires ReceiverOk(r, id, h, out, tx) && tx <= tx'
    ensures ReceiverOk(r, id, h, out, tx')
  {
    forall k | k in r.packets ensures Fragment(id, k, |r.packets[k]|) in tx' {
      var i :| 0 <= i < |tx| && tx[i] == Fragment(id, k, |r.packets[k]|);
      assert tx'[i] == tx[i];
    }
  }

  lemma ReceiversExtend(s: System, s': System)
    requires ReceiversOk(s) && s'.receivers == s.receivers && s'.delivered == s.delivered && s'.history == s.history
    requires s.wire <= s'.wire
    ensures ReceiversOk(s')
  {
    assert s'.wire == s.wire + s'.wire[|s.wire|..];
    CutsExtended(s.wire, s'.wire[|s.wire|..]);
    forall id | id in s'.receivers
      ensures ReceiverOk(s'.receivers[id], id, s'.history[id], s'.delivered[id], Cuts(s'.wire))
    {
      ReceiverExtends(s.receivers[id], id, s.history[id], s.delivered[id], Cuts(s.wire), Cuts(s'.wire));
    }
  }

  lemma PositiveCuts(streams: map<StreamId, SendStream>, wire: seq<DataMsg>)
    requires HistoryOk(streams, Cuts(wire))
    ensures forall i :: 0 <= i < |wire| ==> 0 < |wire[i].payload|
  {
    forall i | 0 <= i < |wire| ensures 0 < |wire[i].payload| {
      assert 0 < Cuts(wire)[i].length;
    }
  }

  lemma PacingSound(s: Sender, now: nat, h: History, wire: seq<DataMsg>, receivers: Receivers, notes: seq<Note>)
    requires Sound(s, h, Cuts(wire), receivers, notes) && QueueKnown(s) && WireOk(wire, h)
    ensures var r := PacingTick(s, now); var wire' := wire + r.out;
      && Sound(r.s, h, Cuts(wire'), receivers, notes) && QueueKnown(r.s) && WireOk(wire', h)
      && FixedCuts(Cuts(wire')) && (forall i :: 0 <= i < |wire'| ==> 0 < |wire'[i].payload|)
  {
    hide StreamOk, RecordOk, FixedCuts, LiveDistinct, HoldersOk, HistoryOk, RecordsOk, StreamsOk, WireOk, Linked, NotesOk, PacingTick,
         SameAcks;
    var r := PacingTick(s, now);
    PacingKeeps(s, now, h, wire);
    SameAcksSound(s.streams, r.s.streams, receivers, notes, h);
    PositiveCuts(r.s.streams, wire + r.out);
    PacingQueue(s, now);
    SameKeys(s.streams, r.s.streams);
    forall i | 0 <= i < |r.s.queue| ensures r.s.queue[i] in r.s.streams {
      assert r.s.queue[i] in s.queue;
    }
  }

  lemma SameKeys(streams: map<StreamId, SendStream>, streams': map<StreamId, SendStream>)
    requires SameAcks(streams, streams')
    ensures streams'.Keys == streams.Keys
  {
  }

  lemma PacingFiresOk(s: System, now: nat, s': System)
    requires SysInv(s) && Next(s, PacingFires(now), s')
    ensures SysInv(s')
  {
    hide Sound, ReceiversOk, NotesRead, WireOk, FixedCuts, QueueKnown, PacingTick, AllHave;
    PacingSound(s.sender, now, s.history, s.wire, s.receivers, s.notes);
    PacingQueue(s.sender, now);
    CutsExtended(s.wire, PacingTick(s.sender, now).out);
    AllHaveExtends(Cuts(s.wire), Cuts(s'.wire), s.receivers, s.seen);
    ReceiversExtend(s, s');
    NotesSame(s, s');
  }

  lemma TlpSound(s: Sender, now: nat, h: History, tx: seq<Fragment>, receivers: Receivers, notes: seq<Note>)
    requires Sound(s, h, tx, receivers, notes) && QueueKnown(s) && s.established
    ensures var s' := TlpTick(s, now);
      if s'.established then Sound(s', h, tx, receivers, notes) && QueueKnown(s') else s' == FreshSender(false)
  {
    hide Inv, Linked, NotesOk, LoseFrom, SameAcks;
    TlpKeeps(s, now, h, tx);
    var s' := TlpTick(s, now);
    if s'.established {
      SameAcksSound(s.streams, s'.streams, receivers, notes, h);
      SameKeys(s.streams, s'.streams);
      assert s'.queue == s.queue;
    }
  }

  lemma TlpFiresOk(s: System, now: nat, s': System)
    requires SysInv(s) && Next(s, TlpFires(now), s')
    ensures SysInv(s')
  {
    hide Sound, ReceiversOk, NotesRead, WireOk, FixedCuts, QueueKnown, TlpTick, AllHave;
    assert s.sender.established;
    TlpSound(s.sender, now, s.history, Cuts(s.wire), s.receivers, s.notes);
    ReceiversGrow(s, s');
    NotesSame(s, s');
  }

  // ---- Acknowledgements -----------------------------------------------------------------------------------

  lemma AckFiresOk(s: System, s': System)
    requires SysInv(s) && Next(s, AckFires, s')
    ensures SysInv(s')
  {
    hide Sound, ReceiversOk, NotesRead, WireOk, FixedCuts, QueueKnown, AllHave;
    forall i, n: nat | 0 <= i < |s'.acks| && Ranges.InRuns(s'.acks[i].largest, s'.acks[i].ranges, false, n)
      ensures n in s'.seen
    {
      if i == |s.acks| && |s.list.ranges| > Ranges.ACK_RUNS {
        Ranges.Prefix(s.list, Ranges.ACK_RUNS, n);
      }
    }
    ReceiversGrow(s, s');
    NotesSame(s, s');
  }

  lemma AboveReadNow(s: System)
    requires ReceiversOk(s)
    ensures AboveRead(s.receivers)
  {
    forall id | id in s.receivers ensures forall k :: k in s.receivers[id].packets ==> s.receivers[id].readOffset < k {
      assert ReceiverOk(s.receivers[id], id, s.history[id], s.delivered[id], Cuts(s.wire));
    }
  }

  lemma RecvAckSound(s: Sender, largest: nat, ranges: seq<nat>, now: nat, h: History, tx: seq<Fragment>,
                     receivers: Receivers, notes: seq<Note>, seen: set<nat>)
    requires Sound(s, h, tx, receivers, notes) && QueueKnown(s) && s.established
    requires AboveRead(receivers) && AllHave(tx, receivers, seen)
    requires forall n: nat :: Ranges.InRuns(largest, ranges, false, n) ==> n in seen
    ensures var (s', more) := RecvAck(s, largest, ranges, now);
      Sound(s', h, tx, receivers, notes + more) && QueueKnown(s') && s'.established
  {
    hide Inv, Linked, NotesOk, AboveRead, AllHave, LoseAndBackOff, SameAcks, Sending.AckRuns, IsLimited, Ranges.InRuns;
    var s1 := NoteLargest(s, largest);
    SameCore(s, s1, h, tx);
    SameStreams(s.streams, s1.streams, receivers, notes, h);
    RunsSound(s1, largest, ranges, false, IsLimited(s1), h, tx, receivers, notes, seen);
    var (s2, more) := Sending.AckRuns(s1, largest, ranges, false, IsLimited(s1));
    LosingSound(s2, now, h, tx, receivers, notes + more);
    AckKeys(s, s2, h, tx);
  }

  /** What follows the ranges of an ACK: packets are declared lost, and the timers start again. */
  lemma LosingSound(s2: Sender, now: nat, h: History, tx: seq<Fragment>, receivers: Receivers, notes: seq<Note>)
    requires Sound(s2, h, tx, receivers, notes)
    ensures var s4 := LoseAndBackOff(s2, false, now).(pacingArmed := true, tlpArmed := true, tlpInterval := TLP_INTERVAL);
      && Sound(s4, h, tx, receivers, notes)
      && s4.queue == s2.queue && s4.established == s2.established && s4.streams.Keys == s2.streams.Keys
  {
    hide Inv, Linked, NotesOk, LoseAndBackOff, SameAcks;
    LoseAndBackOffKeeps(s2, false, now, h, tx);
    var s3 := LoseAndBackOff(s2, false, now);
    SameAcksSound(s2.streams, s3.streams, receivers, notes, h);
    var s4 := s3.(pacingArmed := true, tlpArmed := true, tlpInterval := TLP_INTERVAL);
    SameCore(s3, s4, h, tx);
    SameStreams(s3.streams, s4.streams, receivers, notes, h);
    AckKeys(s2, s3, h, tx);
    LoseFrame(s2, now);
  }

  lemma SameStreams(streams: map<StreamId, SendStream>, streams': map<StreamId, SendStream>, receivers: Receivers, notes: seq<Note>, h: History)
    requires streams' == streams && Linked(streams, receivers) && NotesOk(streams, notes, h)
    ensures Linked(streams', receivers) && NotesOk(streams', notes, h)
  {
  }

  lemma AckKeys(s: Sender, s': Sender, h: History, tx: seq<Fragment>)
    requires Inv(s, h, tx) && Inv(s', h, tx)
    ensures s'.streams.Keys == s.streams.Keys
  {
  }

  lemma LoseFrame(s: Sender, now: nat)
    ensures LoseAndBackOff(s, false, now).queue == s.queue && LoseAndBackOff(s, false, now).established == s.established
  {
  }

  lemma ReadPrefix(s: System, id: StreamId, n: nat)
    requires ReceiversOk(s) && id in s.history && n <= RecvOf(s.receivers, id).readOffset && n <= |s.history[id]|
    ensures s.history[id][..n] <= Got(s.delivered, id)
  {
    if id in s.receivers {
      assert ReceiverOk(s.receivers[id], id, s.history[id], s.delivered[id], Cuts(s.wire));
    }
  }

  lemma NotesNowRead(s: System, notes: seq<Note>, sender: Sender)
    requires Linked(sender.streams, s.receivers) && NotesOk(sender.streams, notes, s.history)
    requires Inv(sender, s.history, Cuts(s.wire)) && ReceiversOk(s)
    ensures forall id :: Handed(notes, id) <= Got(s.delivered, id)
  {
    hide Inv, ReceiversOk, Handed;
    forall id ensures Handed(notes, id) <= Got(s.delivered, id) {
      if id in sender.streams {
        var st := sender.streams[id];
        assert LinkOk(st, RecvOf(s.receivers, id));
        ReportedBelowAcked(sender, s.history, Cuts(s.wire), id);
        ReadPrefix(s, id, st.Reported());
      }
    }
  }

  lemma ReportedBelowAcked(s: Sender, h: History, tx: seq<Fragment>, id: StreamId)
    requires Inv(s, h, tx) && id in s.streams
    ensures s.streams[id].Reported() <= s.streams[id].ackedOffset <= |h[id]|
  {
    assert StreamOk(s.streams[id], h[id]);
  }

  lemma AckArrivesOk(s: System, i: nat, now: nat, s': System)
    requires SysInv(s) && Next(s, AckArrives(i, now), s')
    ensures SysInv(s')
  {
    hide Sound, ReceiversOk, WireOk, FixedCuts, QueueKnown, AllHave, RecvAck;
    if s.sender.established {
      AboveReadNow(s);
      RecvAckSound(s.sender, s.acks[i].largest, s.acks[i].ranges, now, s.history, Cuts(s.wire), s.receivers, s.notes, s.seen);
      SoundNotesRead(s, s'.notes, s'.sender);
      assert NotesRead(s');
    } else {
      ClosedAck(s.sender, s.acks[i].largest, s.acks[i].ranges, now);
      assert s.notes + [] == s.notes;
      NotesSame(s, s');
    }
    ReceiversGrow(s, s');
  }

  lemma ClosedAck(s: Sender, largest: nat, ranges: seq<nat>, now: nat)
    requires !s.established
    ensures RecvAck(s, largest, ranges, now) == (s, [])
  {
  }

  lemma SoundNotesRead(s: System, notes: seq<Note>, sender: Sender)
    requires Sound(sender, s.history, Cuts(s.wire), s.receivers, notes) && ReceiversOk(s)
    ensures forall id :: Handed(notes, id) <= Got(s.delivered, id)
  {
    hide Inv, Linked, NotesOk, ReceiversOk;
    NotesNowRead(s, notes, sender);
  }

  // ---- Data arrives -----------------------------------------------------------------------------------------

  lemma ArrivalStream(r: RecvState, id: StreamId, h: seq<byte>, out: seq<byte>, tx: seq<Fragment>, offset: nat, payload: seq<byte>)
    requires ReceiverOk(r, id, h, out, tx) && FixedCuts(tx) && forall i :: 0 <= i < |tx| ==> 0 < tx[i].length
    requires IsSlice(h, offset, payload) && Fragment(id, offset, |payload|) in tx
    ensures var o := Arrive(r, offset, |payload|, payload, false);
      && o.acked && r.readOffset <= o.r.readOffset
      && ReceiverOk(o.r, id, h, out + Concat(o.chunks), tx)
      && Have(o.r, offset, |payload|)
  {
    var o := Arrive(r, offset, |payload|, payload, false);
    ArriveReassembles(r, h, offset, |payload|, payload, false);
    assert h[..o.r.readOffset] == h[..r.readOffset] + h[r.readOffset..o.r.readOffset];
    KeptIff(r, offset, |payload|, payload, false);
    NotShadowed(r, id, h, out, tx, offset, |payload|);
    ArrivalPackets(r, id, h, tx, offset, payload);
  }

  /** Fixed fragmentation rules out the case in which an acknowledged slice is dropped. */
  lemma NotShadowed(r: RecvState, id: StreamId, h: seq<byte>, out: seq<byte>, tx: seq<Fragment>, offset: nat, length: nat)
    requires ReceiverOk(r, id, h, out, tx) && FixedCuts(tx) && Fragment(id, offset, length) in tx
    requires forall i :: 0 <= i < |tx| ==> 0 < tx[i].length
    ensures !Shadowed(r, offset, length)
  {
    var i :| 0 <= i < |tx| && tx[i] == Fragment(id, offset, length);
    if offset in r.packets {
      var j :| 0 <= j < |tx| && tx[j] == Fragment(id, offset, |r.packets[offset]|);
      assert tx[i].length == tx[j].length;
    }
  }

  lemma ArrivalPackets(r: RecvState, id: StreamId, h: seq<byte>, tx: seq<Fragment>, offset: nat, payload: seq<byte>)
    requires Reassembles(r, h) && r.phase == Recv && !r.waitFlush
    requires forall k :: k in r.packets ==> Fragment(id, k, |r.packets[k]|) in tx
    requires Fragment(id, offset, |payload|) in tx
    ensures var r' := Arrive(r, offset, |payload|, payload, false).r;
      && r'.phase == Recv && !r'.waitFlush
      && forall k :: k in r'.packets ==> Fragment(id, k, |r'.packets[k]|) in tx
  {
    DrainKeeps(offset + |payload|, r.packets);
  }

  lemma AllHaveArrives(tx: seq<Fragment>, receivers: Receivers, seen: set<nat>, i: nat, o: Received, offset: nat, payload: seq<byte>)
    requires AllHave(tx, receivers, seen) && i < |tx|
    requires tx[i].start == offset && tx[i].length == |payload|
    requires o == Arrive(RecvOf(receivers, tx[i].stream), offset, |payload|, payload, false)
    requires Have(o.r, offset, |payload|)
    ensures AllHave(tx, receivers[tx[i].stream := o.r], seen + {i})
  {
    var receivers' := receivers[tx[i].stream := o.r];
    forall n | n in seen + {i} ensures n < |tx| && HasFragment(receivers', tx[n]) {
      if n in seen {
        assert HasFragment(receivers, tx[n]);
        if tx[n].stream == tx[i].stream {
          HaveStays(RecvOf(receivers, tx[i].stream), offset, |payload|, payload, false, tx[n].start, tx[n].length);
        }
      }
    }
  }

  lemma FreshReceiverOk(id: StreamId, h: seq<byte>, tx: seq<Fragment>)
    ensures ReceiverOk(FreshRecv, id, h, [], tx)
  {
  }

  /** The stream a datagram belongs to, as its receiver sees it before and after the arrival. */
  lemma ArrivalFacts(s: System, i: nat)
    requires NetworkOk(s) && ReceiversOk(s) && i < |s.wire|
    ensures var m := s.wire[i]; var r := RecvOf(s.receivers, m.stream);
      var o := Arrive(r, m.offset, |m.payload|, m.payload, false);
      && m.stream in s.history && m.number == i && o.acked && r.readOffset <= o.r.readOffset
      && Have(o.r, m.offset, |m.payload|)
      && ReceiverOk(o.r, m.stream, s.history[m.stream], Got(s.delivered, m.stream) + Concat(o.chunks), Cuts(s.wire))
      && o.r.phase == Recv
  {
    var m := s.wire[i];
    var tx := Cuts(s.wire);
    assert Carries(m, i, s.history);
    assert tx[i] == Fragment(m.stream, m.offset, |m.payload|);
    var r := RecvOf(s.receivers, m.stream);
    FreshReceiverOk(m.stream, s.history[m.stream], tx);
    assert ReceiverOk(r, m.stream, s.history[m.stream], Got(s.delivered, m.stream), tx);
    hide ReceiverOk, FixedCuts, WireOk;
    ArrivalStream(r, m.stream, s.history[m.stream], Got(s.delivered, m.stream), tx, m.offset, m.payload);
  }

  lemma LinkArrives(st: SendStream, r: RecvState, offset: nat, payload: seq<byte>)
    requires LinkOk(st, r) && r.readOffset <= Arrive(r, offset, |payload|, payload, false).r.readOffset
    ensures LinkOk(st, Arrive(r, offset, |payload|, payload, false).r)
  {
    forall k | k in st.outstanding ensures Have(Arrive(r, offset, |payload|, payload, false).r, k, st.outstanding[k]) {
      HaveStays(r, offset, |payload|, payload, false, k, st.outstanding[k]);
    }
  }

  lemma LinkedArrives(streams: map<StreamId, SendStream>, receivers: Receivers, id: StreamId, offset: nat, payload: seq<byte>)
    requires Linked(streams, receivers)
    requires RecvOf(receivers, id).readOffset <= Arrive(RecvOf(receivers, id), offset, |payload|, payload, false).r.readOffset
    ensures Linked(streams, receivers[id := Arrive(RecvOf(receivers, id), offset, |payload|, payload, false).r])
  {
    var o := Arrive(RecvOf(receivers, id), offset, |payload|, payload, false);
    forall j | j in streams ensures LinkOk(streams[j], RecvOf(receivers[id := o.r], j)) {
      assert LinkOk(streams[j], RecvOf(receivers, j));
      if j == id { LinkArrives(streams[j], RecvOf(receivers, id), offset, payload); }
    }
  }

  lemma ReceiversArrive(s: System, s': System, id: StreamId, r: RecvState, out: seq<byte>)
    requires ReceiversOk(s) && id in s.history
    requires s'.receivers == s.receivers[id := r] && s'.delivered == s.delivered[id := out]
    requires s'.wire == s.wire && s'.history == s.history
    requires ReceiverOk(r, id, s.history[id], out, Cuts(s.wire))
    ensures ReceiversOk(s')
  {
  }

  lemma NotesArrive(s: System, s': System, id: StreamId, more: seq<byte>)
    requires NotesRead(s) && s'.notes == s.notes && s'.delivered == s.delivered[id := Got(s.delivered, id) + more]
    ensures NotesRead(s')
  {
    forall j ensures Handed(s'.notes, j) <= Got(s'.delivered, j) {
      assert Handed(s.notes, j) <= Got(s.delivered, j);
    }
  }

  lemma RecordedSeen(l: Ranges.AckList, num: nat, l': Ranges.AckList, seen: set<nat>)
    requires Ranges.Recorded(l, num, l') && forall n: nat :: Ranges.Seen(l, n) ==> n in seen
    ensures forall n: nat :: Ranges.Seen(l', n) ==> n in seen + {num}
  {
    forall n: nat | Ranges.Seen(l', n) ensures n in seen + {num} {
      assert Ranges.Seen(l, n) || n == num;
    }
  }

  lemma DataArrivesOk(s: System, i: nat, s': System)
    requires SysInv(s) && Next(s, DataArrives(i), s')
    ensures SysInv(s')
  {
    hide Inv, Linked, NotesOk, ReceiversOk, NotesRead, WireOk, FixedCuts, QueueKnown, AllHave, Have, Arrive, ReceiverOk, Ranges.Recorded,
         Ranges.WellFormed, Ranges.Seen, Ranges.InRuns;
    ArrivalFacts(s, i);
    var m := s.wire[i];
    var r := RecvOf(s.receivers, m.stream);
    var o := Arrive(r, m.offset, |m.payload|, m.payload, false);
    if s.sender.established {
      LinkedArrives(s.sender.streams, s.receivers, m.stream, m.offset, m.payload);
    }
    NotCompleted(s, m, o);
    AllHaveArrives(Cuts(s.wire), s.receivers, s.seen, i, o, m.offset, m.payload);
    ReceiversArrive(s, s', m.stream, o.r, Got(s.delivered, m.stream) + Concat(o.chunks));
    NotesArrive(s, s', m.stream, Concat(o.chunks));
    RecordedSeen(s.list, m.number, s'.list, s.seen);
    RecordedWell(s.list, m.number, s'.list);
  }

  /** A stream whose sender marks no end is never erased. */
  lemma NotCompleted(s: System, m: DataMsg, o: Received)
    requires o == Arrive(RecvOf(s.receivers, m.stream), m.offset, |m.payload|, m.payload, false) && o.r.phase == Recv
    ensures Dispatch(s.receivers, m.stream, m.offset, |m.payload|, m.payload, false) == s.receivers[m.stream := o.r]
  {
  }

  lemma RecordedWell(l: Ranges.AckList, num: nat, l': Ranges.AckList)
    requires Ranges.Recorded(l, num, l')
    ensures Ranges.WellFormed(l')
  {
  }

  // ---- Whole runs -------------------------------------------------------------------------------------------

  lemma NextOk(s: System, e: Event, s': System)
    requires SysInv(s) && Next(s, e, s')
    ensures SysInv(s')
  {
    hide SysInv;
    match e
    case AppSends(id, data) => AppSendsOk(s, id, data, s');
    case PacingFires(now) => PacingFiresOk(s, now, s');
    case TlpFires(now) => TlpFiresOk(s, now, s');
    case DataArrives(i) => DataArrivesOk(s, i, s');
    case AckFires => AckFiresOk(s, s');
    case AckArrives(i, now) => AckArrivesOk(s, i, now, s');
  }

  /** A finite run of the system from its initial state. */
  ghost predicate IsRun(states: seq<System>, events: seq<Event>) {
    && |states| == |events| + 1 && states[0] == Initial
    && forall i :: 0 <= i < |events| ==> Next(states[i], events[i], states[i + 1])
  }

  lemma {:induction false} RunOk(states: seq<System>, events: seq<Event>, k: nat)
    requires IsRun(states, events) && k < |states|
    ensures SysInv(states[k])
  {
    hide SysInv, Next;
    if k == 0 {
      InitialOk();
    } else {
      RunOk(states, events, k - 1);
      NextOk(states[k - 1], events[k - 1], states[k]);
    }
  }
}
