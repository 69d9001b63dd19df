/**
 The sending half of a StreamTransport as a value, and what each of its handlers does to it.

 A `std::list` node that the program addresses by pointer or iterator is named here by its ordinal: the
 number of buffers queued on the stream before it. `popped` counts the nodes already erased from the front,
 so ordinal `n` is alive exactly when `popped <= n < End()`, and `End()` is the list's end iterator.
 An ordered map is walked by visiting packet numbers in ascending order.
 */
module Sending {
  import opened Bytes

  const FRAGMENT_SIZE := 1350
  const PACING_LIMIT := 400000
  const TLP_INTERVAL := 1000
  const TLP_ABORT := 25000
  const QUEUE_LIMIT := 20000000
  const INITIAL_WINDOW := 100000
  const MIN_WINDOW := 10000
  const NO_THRESHOLD := 0xFFFF_FFFF_FFFF_FFFF

  datatype DataItem = DataItem(data: seq<byte>, sentOffset: nat, streamOffset: nat)

  datatype SendStream = SendStream(
    popped: nat, items: seq<DataItem>, next: nat,
    queueOffset: nat, sentOffset: nat, ackedOffset: nat,
    outstanding: map<nat, nat>, bytesInFlight: int)
  {
    function End(): nat { popped + |items| }

    /** The item an ordinal designates; a dangling one reads as an empty item. */
    function Item(ordinal: nat): DataItem {
      if popped <= ordinal < End() then items[ordinal - popped] else DataItem([], 0, 0)
    }

    /** Stream offset up to which buffers have been handed back through `did_send`. */
    function Reported(): nat {
      if items == [] then queueOffset else items[0].streamOffset
    }
  }

  const FreshStream := SendStream(0, [], 0, 0, 0, 0, map[], 0)

  datatype SentPacket = SentPacket(sentTime: nat, stream: StreamId, item: nat, offset: nat, length: nat)

  datatype Congestion = Congestion(window: nat, threshold: nat, wMax: nat, start: nat)

  datatype Sender = Sender(
    established: bool,
    streams: map<StreamId, SendStream>,
    sent: map<nat, SentPacket>, lost: map<nat, SentPacket>, nextPacket: nat,
    queue: seq<StreamId>, queueIds: set<StreamId>,
    bytesInFlight: int, cc: Congestion, largestAcked: nat, largestSentTime: nat,
    pacingArmed: bool, tlpArmed: bool, tlpInterval: nat)
  {
    /** The stream `get_or_create_send_stream` returns. */
    function Stream(id: StreamId): SendStream {
      if id in streams then streams[id] else FreshStream
    }
  }

  function FreshSender(established: bool): Sender {
    Sender(established, map[], map[], map[], 0, [], {}, 0,
           Congestion(INITIAL_WINDOW, NO_THRESHOLD, 0, 0), 0, 0, false, false, TLP_INTERVAL)
  }

  /** A DATA datagram without its connection ids. */
  datatype DataMsg = DataMsg(number: nat, stream: StreamId, offset: nat, payload: seq<byte>)

  /** One `did_send` callback: a buffer of `stream` handed back to the application. */
  datatype Note = Note(stream: StreamId, data: seq<byte>)

  // ---- Queueing -------------------------------------------------------------------------------------

  function RegisterIntent(s: Sender, id: StreamId): Sender {
    if id in s.queueIds then s else s.(queue := s.queue + [id], queueIds := s.queueIds + {id})
  }

  function IsIdle(s: Sender): bool {
    |s.sent| == 0 && |s.lost| == 0 && |s.queue| == 0
  }

  function Send(s: Sender, id: StreamId, data: seq<byte>): (Sender, int) {
    if !s.established then (s, -2)
    else
      var st := s.Stream(id);
      if st.queueOffset - st.ackedOffset > QUEUE_LIMIT then (s.(streams := s.streams[id := st]), -1)
      else
        // An idle iterator equals End(); the appended node takes that ordinal, so `next` need not move.
        var st' := st.(items := st.items + [DataItem(data, 0, st.queueOffset)],
                       queueOffset := st.queueOffset + |data|);
        var s1 := s.(streams := s.streams[id := st'], tlpArmed := s.tlpArmed || IsIdle(s));
        (RegisterIntent(s1, id).(pacingArmed := true), 0)
  }

  // ---- Transmission ---------------------------------------------------------------------------------

  /** The datagram that carries the bytes of a record under the next packet number. */
  function Datagram(s: Sender, p: SentPacket): DataMsg {
    var item := s.Stream(p.stream).Item(p.item);
    DataMsg(s.nextPacket, p.stream, item.streamOffset + p.offset, Slice(item.data, p.offset, p.length))
  }

  /** Sends the bytes of a lost record again under a fresh packet number. */
  function Retransmit(s: Sender, pn: nat, now: nat): Sender
    requires pn in s.lost
  {
    var p := s.lost[pn];
    var st := s.Stream(p.stream);
    s.(streams := s.streams[p.stream := st.(bytesInFlight := st.bytesInFlight + p.length)],
       sent := s.sent[s.nextPacket := p.(sentTime := now)],
       lost := s.lost - {pn},
       nextPacket := s.nextPacket + 1,
       bytesInFlight := s.bytesInFlight + p.length)
  }

  /** The record of the next unsent fragment of a stream. */
  function NextFragment(s: Sender, id: StreamId, now: nat): SentPacket {
    var st := s.Stream(id);
    var item := st.Item(st.next);
    var remaining := if item.sentOffset <= |item.data| then |item.data| - item.sentOffset else 0;
    SentPacket(now, id, st.next, item.sentOffset,
               if remaining > FRAGMENT_SIZE then FRAGMENT_SIZE else remaining)
  }

  /** A stream after `length` bytes of its next item went out; the iterator leaves an exhausted item. */
  function Advance(st: SendStream, length: nat): SendStream
    requires st.popped <= st.next < st.End()
  {
    var item := st.Item(st.next);
    var item' := item.(sentOffset := item.sentOffset + length);
    st.(items := st.items[st.next - st.popped := item'],
        next := if item'.sentOffset < |item'.data| then st.next else st.next + 1,
        sentOffset := st.sentOffset + length,
        bytesInFlight := st.bytesInFlight + length)
  }

  function SendFragment(s: Sender, id: StreamId, now: nat): Sender
    requires s.Stream(id).popped <= s.Stream(id).next < s.Stream(id).End()
  {
    var p := NextFragment(s, id, now);
    s.(streams := s.streams[id := Advance(s.Stream(id), p.length)],
       sent := s.sent[s.nextPacket := p],
       nextPacket := s.nextPacket + 1,
       bytesInFlight := s.bytesInFlight + p.length)
  }

  /** Result of a transmission loop: 0 when exhausted, -1 on the pacing limit, -2 on the congestion window. */
  datatype Pass = Pass(s: Sender, code: int, out: seq<DataMsg>)

  /** `send_lost_data` from packet number `pn` on; `end` bounds the numbers in `lost`. */
  function SendLost(s: Sender, pn: nat, end: nat, initial: int, now: nat): (r: Pass)
    ensures r.s == s.(streams := r.s.streams, sent := r.s.sent, lost := r.s.lost, nextPacket := r.s.nextPacket,
                      bytesInFlight := r.s.bytesInFlight, pacingArmed := r.s.pacingArmed)
    decreases end - pn
  {
    if pn >= end then Pass(s, 0, [])
    else if pn !in s.lost then SendLost(s, pn + 1, end, initial, now)
    else if s.bytesInFlight - initial >= PACING_LIMIT then Pass(s.(pacingArmed := true), -1, [])
    else if s.bytesInFlight > s.cc.window - s.lost[pn].length then Pass(s, -2, [])
    else
      var rest := SendLost(Retransmit(s, pn, now), pn + 1, end, initial, now);
      Pass(rest.s, rest.code, [Datagram(s, s.lost[pn])] + rest.out)
  }

  /** `send_new_data` on one stream. */
  function SendNew(s: Sender, id: StreamId, initial: int, now: nat): (r: Pass)
    ensures r.s == s.(streams := r.s.streams, sent := r.s.sent, nextPacket := r.s.nextPacket,
                      bytesInFlight := r.s.bytesInFlight)
    decreases s.Stream(id).End() - s.Stream(id).next,
              |s.Stream(id).Item(s.Stream(id).next).data| - s.Stream(id).Item(s.Stream(id).next).sentOffset
  {
    var st := s.Stream(id);
    var item := st.Item(st.next);
    if st.next >= st.End() then Pass(s, 0, [])
    else if item.sentOffset >= |item.data| then
      SendNew(s.(streams := s.streams[id := st.(next := st.next + 1)]), id, initial, now)
    else
      var p := NextFragment(s, id, now);
      if s.bytesInFlight > s.cc.window - p.length then Pass(s, -2, [])
      else if s.bytesInFlight - initial > PACING_LIMIT then Pass(s, -1, [])
      else
        var rest := SendNew(SendFragment(s, id, now), id, initial, now);
        Pass(rest.s, rest.code, [Datagram(s, p)] + rest.out)
  }

  /** The loop of `pacing_timer_cb` over the streams with data to send. */
  function SendQueued(s: Sender, initial: int, now: nat): (r: Pass)
    ensures r.s == s.(streams := r.s.streams, sent := r.s.sent, nextPacket := r.s.nextPacket,
                      bytesInFlight := r.s.bytesInFlight, queue := r.s.queue, queueIds := r.s.queueIds,
                      pacingArmed := r.s.pacingArmed)
    decreases |s.queue|
  {
    if s.queue == [] then Pass(s, 0, [])
    else
      var id := s.queue[0];
      var r := SendNew(s, id, initial, now);
      if r.code == 0 then
        var rest := SendQueued(r.s.(queue := s.queue[1..], queueIds := s.queueIds - {id}), initial, now);
        Pass(rest.s, rest.code, r.out + rest.out)
      else if r.code == -1 then Pass(r.s.(pacingArmed := true), -1, r.out)
      else r
  }

  function PacingTick(s: Sender, now: nat): Pass {
    var s0 := s.(pacingArmed := false);
    var r := SendLost(s0, 0, s0.nextPacket, s0.bytesInFlight, now);
    if r.code < 0 then r
    else
      var q := SendQueued(r.s, s0.bytesInFlight, now);
      Pass(q.s, q.code, r.out + q.out)
  }

  // ---- Loss -----------------------------------------------------------------------------------------

  function MarkLost(s: Sender, pn: nat): Sender
    requires pn in s.sent
  {
    var p := s.sent[pn];
    var st := s.Stream(p.stream);
    s.(streams := s.streams[p.stream := st.(bytesInFlight := st.bytesInFlight - p.length)],
       sent := s.sent - {pn},
       lost := s.lost[pn := p],
       bytesInFlight := s.bytesInFlight - p.length)
  }

  /** Declares packets lost in ascending order from `pn`, up to the first that `everything` and the
      50 ms rule spare; also returns the sending time of the last one. */
  function LoseFrom(s: Sender, pn: nat, end: nat, everything: bool): (r: (Sender, seq<nat>))
    ensures r.0 == s.(streams := r.0.streams, sent := r.0.sent, lost := r.0.lost, bytesInFlight := r.0.bytesInFlight)
    decreases end - pn
  {
    if pn >= end then (s, [])
    else if pn !in s.sent then LoseFrom(s, pn + 1, end, everything)
    else if everything || s.largestSentTime > s.sent[pn].sentTime + 50 then
      var r := LoseFrom(MarkLost(s, pn), pn + 1, end, everything);
      (r.0, [s.sent[pn].sentTime] + r.1)
    else (s, [])
  }

  /** Shrinks the window once per congestion event. */
  function OnLoss(cc: Congestion, lostTime: nat, now: nat): Congestion {
    if lostTime > cc.start then
      var reduced := if cc.window < cc.wMax then cc.window * 3 / 5 else cc.window * 3 / 4;
      var window := if reduced < MIN_WINDOW then MIN_WINDOW else reduced;
      Congestion(window, window, cc.window, now)
    else cc
  }

  function LoseAndBackOff(s: Sender, everything: bool, now: nat): Sender {
    var (s1, times) := LoseFrom(s, 0, s.nextPacket, everything);
    if times == [] then s1 else s1.(cc := OnLoss(s1.cc, times[|times| - 1], now))
  }

  function TlpTick(s: Sender, now: nat): Sender {
    if IsIdle(s) then s.(tlpArmed := false, tlpInterval := TLP_INTERVAL)
    else if s.tlpInterval < TLP_ABORT then
      LoseAndBackOff(s, true, now).(pacingArmed := true, tlpArmed := true, tlpInterval := s.tlpInterval * 2)
    else FreshSender(false)
  }

  // ---- Acknowledgement ------------------------------------------------------------------------------

  /** Folds the out-of-order acks that `acked` has reached into it. */
  function MergeAcks(acked: nat, outstanding: map<nat, nat>): (nat, map<nat, nat>)
    decreases |outstanding|
  {
    if outstanding == map[] then (acked, outstanding)
    else
      var k: nat := Least(outstanding.Keys);
      if k > acked then (acked, outstanding)
      else
        assert |outstanding - {k}| < |outstanding| by { assert (outstanding - {k}).Keys == outstanding.Keys - {k}; }
        var reached := k + outstanding[k];
        MergeAcks(if acked < reached then reached else acked, outstanding - {k})
  }

  /** Erases the fully acked items from the front, returning their buffers. */
  function PopAcked(st: SendStream): (SendStream, seq<seq<byte>>)
    decreases |st.items|
  {
    if st.items == [] then (st.(next := st.End()), [])
    else if st.ackedOffset < st.items[0].streamOffset + |st.items[0].data| then (st, [])
    else
      var r := PopAcked(st.(popped := st.popped + 1, items := st.items[1..]));
      (r.0, [st.items[0].data] + r.1)
  }

  /** The effect on its stream of an ack for the `length` bytes at stream offset `start`. */
  function AckRegion(st: SendStream, start: nat, length: nat): (SendStream, seq<seq<byte>>) {
    if st.ackedOffset < start then (st.(outstanding := st.outstanding[start := length]), [])
    else if st.ackedOffset < start + length then
      var (acked, outstanding) := MergeAcks(start + length, st.outstanding);
      PopAcked(st.(ackedOffset := acked, outstanding := outstanding))
    else (st, [])
  }

  function OnAck(cc: Congestion, p: SentPacket, limited: bool): Congestion {
    if p.sentTime > cc.start && !limited then
      if cc.window < cc.threshold then cc.(window := cc.window + p.length)
      else if cc.window == 0 then cc // never: the window has a floor
      else cc.(window := cc.window + 1500 * p.length / cc.window)
    else cc
  }

  function AckPacket(s: Sender, pn: nat, limited: bool): (Sender, seq<Note>)
    requires pn in s.sent
  {
    var p := s.sent[pn];
    var st := s.Stream(p.stream);
    var (st1, buffers) := AckRegion(st, st.Item(p.item).streamOffset + p.offset, p.length);
    (s.(streams := s.streams[p.stream := st1.(bytesInFlight := st1.bytesInFlight - p.length)],
        sent := s.sent - {pn},
        bytesInFlight := s.bytesInFlight - p.length,
        cc := OnAck(s.cc, p, limited)),
     seq(|buffers|, i requires 0 <= i < |buffers| => Note(p.stream, buffers[i])))
  }

  /** Acks every packet in flight numbered `pn` to `high`. */
  function AckRange(s: Sender, pn: nat, high: int, limited: bool): (r: (Sender, seq<Note>))
    ensures r.0 == s.(streams := r.0.streams, sent := r.0.sent, bytesInFlight := r.0.bytesInFlight, cc := r.0.cc)
    decreases high - pn
  {
    if pn > high then (s, [])
    else if pn !in s.sent then AckRange(s, pn + 1, high, limited)
    else
      var (s1, notes) := AckPacket(s, pn, limited);
      var (s2, more) := AckRange(s1, pn + 1, high, limited);
      (s2, notes + more)
  }

  /** Walks the alternating seen/gap ranges of an ACK downwards from `high`. */
  function AckRuns(s: Sender, high: int, ranges: seq<nat>, gap: bool, limited: bool): (r: (Sender, seq<Note>))
    ensures r.0 == s.(streams := r.0.streams, sent := r.0.sent, bytesInFlight := r.0.bytesInFlight, cc := r.0.cc)
    decreases |ranges|
  {
    if ranges == [] then (s, [])
    else
      var low := high - ranges[0];
      if gap then AckRuns(s, low, ranges[1..], false, limited)
      else
        var (s1, notes) := AckRange(s, if low + 1 < 0 then 0 else low + 1, high, limited);
        var (s2, more) := AckRuns(s1, low, ranges[1..], true, limited);
        (s2, notes + more)
  }

  function NoteLargest(s: Sender, largest: nat): Sender {
    if largest > s.largestAcked && largest in s.sent then
      s.(largestAcked := largest, largestSentTime := s.sent[largest].sentTime)
    else s
  }

  function IsLimited(s: Sender): bool {
    5 * s.bytesInFlight < 4 * s.cc.window
  }

  function RecvAck(s: Sender, largest: nat, ranges: seq<nat>, now: nat): (Sender, seq<Note>) {
    if !s.established then (s, [])
    else
      var s1 := NoteLargest(s, largest);
      var (s2, notes) := AckRuns(s1, largest, ranges, false, IsLimited(s1));
      (LoseAndBackOff(s2, false, now).(pacingArmed := true, tlpArmed := true, tlpInterval := TLP_INTERVAL), notes)
  }

  // ---- Flush ----------------------------------------------------------------------------------------

  /** Total length of the records of a stream among the packet numbers below `end`. */
  function BytesOf(m: map<nat, SentPacket>, id: StreamId, end: nat): nat {
    if end == 0 then 0
    else BytesOf(m, id, end - 1) + (if end - 1 in m && m[end - 1].stream == id then m[end - 1].length else 0)
  }

  function DropStream(m: map<nat, SentPacket>, id: StreamId): map<nat, SentPacket> {
    map pn | pn in m && m[pn].stream != id :: m[pn]
  }

  /** `flush_stream`: it subtracts the lost records from the flight a second time. */
  function Flush(s: Sender, id: StreamId): Sender {
    var st := s.Stream(id);
    s.(streams := s.streams[id := st.(
         popped := st.End(), items := [], next := st.End(), queueOffset := st.sentOffset,
         ackedOffset := st.sentOffset, outstanding := map[], bytesInFlight := 0)],
       sent := DropStream(s.sent, id),
       lost := DropStream(s.lost, id),
       bytesInFlight := s.bytesInFlight - BytesOf(s.sent, id, s.nextPacket) - BytesOf(s.lost, id, s.nextPacket))
  }
}
