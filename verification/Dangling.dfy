/**
 What empty buffers do to the send iterator. The sender invariant elsewhere takes buffers to be non-empty; here
 queues may hold empty ones, and acking can then erase the very item the iterator stands at.
 */
module Dangling {
  import opened Bytes
  import opened Sending
  import opened TilingSteps

  /** Ordinal `n` designates an item that ends at this stream offset. */
  function EndOf(st: SendStream, n: nat): nat { st.Item(n).streamOffset + |st.Item(n).data| }

  ghost predicate Follows(st: SendStream, n: nat) { st.Item(n + 1).streamOffset == EndOf(st, n) }

  /** The items follow each other without a hole, up to the end of the queue. */
  ghost predicate Contiguous(st: SendStream) {
    && (forall n: nat :: st.popped <= n < st.End() - 1 ==> Follows(st, n))
    && (st.items != [] ==> EndOf(st, st.End() - 1) == st.queueOffset)
  }

  /** Items before the last are the same, and what the rest of the queue says of offsets too. */
  lemma SameOffsets(st: SendStream, st': SendStream)
    requires Contiguous(st) && st.popped <= st'.popped && st'.End() == st.End() && st'.queueOffset == st.queueOffset
    requires forall n :: st'.popped <= n < st.End() ==>
      st'.Item(n).streamOffset == st.Item(n).streamOffset && |st'.Item(n).data| == |st.Item(n).data|
    ensures Contiguous(st')
  {
    forall n: nat | st'.popped <= n < st'.End() - 1 ensures Follows(st', n) { assert Follows(st, n); }
  }

  /** A stream whose queue may hold empty items: the iterator stands at the first item that is not all sent, or at an
      empty one it has yet to step over. */
  ghost predicate Lax(st: SendStream) {
    && Contiguous(st) && st.popped <= st.next <= st.End() && st.sentOffset <= st.queueOffset
    && (if st.next == st.End() then st.sentOffset == st.queueOffset
        else
          var item := st.Item(st.next);
          && st.sentOffset == item.streamOffset + item.sentOffset
          && item.sentOffset <= |item.data| && (item.data != [] ==> item.sentOffset < |item.data|))
    && (forall n :: st.next < n < st.End() ==> st.Item(n).sentOffset == 0)
  }

  /** The iterator stands at an erased item, although the queue is not empty. */
  predicate Dangles(st: SendStream) { st.items != [] && st.next < st.popped }

  // ---- Every step but the dangling one keeps the queue in order ----------------------------------------------

  lemma EnqueueLax(st: SendStream, data: seq<byte>)
    requires Lax(st)
    ensures Lax(Enqueue(st, data))
  {
    var st' := Enqueue(st, data);
    assert forall n :: st.popped <= n < st.End() ==> st'.Item(n) == st.Item(n);
    assert st'.Item(st.End()) == DataItem(data, 0, st.queueOffset);
    forall n: nat | st.popped <= n < st'.End() - 1 ensures Follows(st', n) {
      if n < st.End() - 1 { assert Follows(st, n); }
    }
  }

  /** `send_new_data` sends a fragment of a non-empty item. */
  lemma AdvanceLax(st: SendStream, length: nat)
    requires Lax(st) && st.next < st.End() && 0 < length <= |st.Item(st.next).data| - st.Item(st.next).sentOffset
    ensures var st' := Advance(st, length);
      Lax(st')
  {
    var st' := Advance(st, length);
    assert forall n :: st.popped <= n < st.End() && n != st.next ==> st'.Item(n) == st.Item(n);
    assert st'.Item(st.next) == st.Item(st.next).(sentOffset := st.Item(st.next).sentOffset + length);
    SameOffsets(st, st');
    EndsGrow(st, st.next, st.End() - 1);
    if st.next + 1 < st.End() { assert Follows(st, st.next); }
  }

  /** `send_new_data` steps over an empty item. */
  lemma StepLax(st: SendStream)
    requires Lax(st) && st.next < st.End() && st.Item(st.next).sentOffset >= |st.Item(st.next).data|
    ensures Lax(st.(next := st.next + 1))
  {
    var st' := st.(next := st.next + 1);
    assert forall n :: st.popped <= n < st.End() ==> st'.Item(n) == st.Item(n);
    SameOffsets(st, st');
    if st.next + 1 < st.End() { assert Follows(st, st.next); }
  }

  // ---- Erasing acked items ------------------------------------------------------------------------------------

  lemma {:induction false} EndsGrow(st: SendStream, n: nat, m: nat)
    requires Contiguous(st) && st.popped <= n <= m < st.End()
    ensures EndOf(st, n) <= EndOf(st, m)
    ensures EndOf(st, n) == EndOf(st, m) <==> forall k :: n < k <= m ==> st.Item(k).data == []
    decreases m
  {
    if n < m {
      EndsGrow(st, n, m - 1);
      assert Follows(st, m - 1);
    }
  }

  function Erased(st: SendStream): SendStream
    requires st.items != []
  {
    st.(popped := st.popped + 1, items := st.items[1..])
  }

  /** Erasing goes on to the first item with unacked bytes; if there is none the iterator is put at the end. */
  lemma {:induction false} PopStops(st: SendStream)
    requires Contiguous(st)
    ensures var st' := PopAcked(st).0;
      && Contiguous(st') && st'.End() == st.End() && st.popped <= st'.popped
      && st' == st.(popped := st'.popped, items := st'.items, next := st'.next)
      && (forall n :: st.popped <= n < st'.popped ==> EndOf(st, n) <= st.ackedOffset)
      && (forall n :: st'.popped <= n < st.End() ==> st'.Item(n) == st.Item(n))
      && (if st'.items == [] then st'.next == st'.End() else st'.next == st.next && st.ackedOffset < EndOf(st, st'.popped))
    decreases |st.items|
  {
    if st.items != [] {
      assert st.Item(st.popped) == st.items[0];
      if EndOf(st, st.popped) <= st.ackedOffset {
        var one := Erased(st);
        assert forall n :: one.popped <= n < st.End() ==> one.Item(n) == st.Item(n);
        SameOffsets(st, one);
        PopStops(one);
        var st' := PopAcked(one).0;
        forall n | st.popped <= n < st'.popped ensures EndOf(st, n) <= st.ackedOffset {
          if n > st.popped { assert EndOf(one, n) <= st.ackedOffset && one.Item(n) == st.Item(n); }
        }
      }
    }
  }

  lemma {:induction false} MergeMost(acked: nat, m: map<nat, nat>, limit: nat)
    requires acked <= limit && forall k :: k in m ==> k + m[k] <= limit
    ensures acked <= MergeAcks(acked, m).0 <= limit
    decreases |m|
  {
    if m != map[] {
      var k: nat := Least(m.Keys);
      if k <= acked {
        assert |m - {k}| < |m| by { assert (m - {k}).Keys == m.Keys - {k}; }
        MergeMost(if acked < k + m[k] then k + m[k] else acked, m - {k}, limit);
      }
    }
  }

  /** The ack of the `length` bytes at `start` completes all that has been sent. */
  predicate Completes(st: SendStream, start: nat, length: nat) {
    st.ackedOffset == start && MergeAcks(start + length, st.outstanding).0 == st.sentOffset
  }

  /** The iterator stands at an empty item, and more data is queued behind. */
  predicate EmptyInFront(st: SendStream) {
    st.next < st.End() && st.Item(st.next).data == [] && exists n :: st.next < n < st.End() && st.Item(n).data != []
  }

  lemma AckDangles(st: SendStream, acked: nat, outstanding: map<nat, nat>)
    requires Lax(st) && acked <= st.sentOffset
    ensures var st' := PopAcked(st.(ackedOffset := acked, outstanding := outstanding)).0;
      && (Dangles(st') <==> acked == st.sentOffset && EmptyInFront(st))
      && (!Dangles(st') ==> Lax(st'))
  {
    var mid := st.(ackedOffset := acked, outstanding := outstanding);
    assert forall n: nat :: mid.Item(n) == st.Item(n);
    SameOffsets(st, mid);
    PopStops(mid);
    var st' := PopAcked(mid).0;
    if Dangles(st') {
      assert mid.Item(st.next) == st.Item(st.next);
      assert EndOf(mid, st.next) <= acked;
      EndsGrow(mid, st.next, st'.popped);
      assert EndOf(mid, st.next) < EndOf(mid, st'.popped);
    }
    if acked == st.sentOffset && EmptyInFront(st) {
      var n :| st.next < n < st.End() && st.Item(n).data != [];
      EndsGrow(mid, st.next, n);
      assert EndOf(mid, st.next) == acked < EndOf(mid, n);
      if st'.popped <= st.next && st'.items != [] { EndsGrow(mid, st'.popped, st.next); }
    }
    if st'.items == [] && st.items != [] { assert EndOf(mid, st.End() - 1) <= acked; }
  }

  /** Exactly when an ack makes the iterator dangle: when it completes all that has been sent while the iterator
      stands at an empty item that has more data behind it. Otherwise the queue stays in order. */
  lemma DanglesIff(st: SendStream, start: nat, length: nat)
    requires Lax(st) && st.ackedOffset <= start && 0 < length && start + length <= st.sentOffset
    requires forall k :: k in st.outstanding ==> k + st.outstanding[k] <= st.sentOffset
    ensures var st' := AckRegion(st, start, length).0;
      && (Dangles(st') <==> Completes(st, start, length) && EmptyInFront(st))
      && (!Dangles(st') ==> Lax(st'))
  {
    if st.ackedOffset == start {
      var (acked, outstanding) := MergeAcks(start + length, st.outstanding);
      MergeMost(start + length, st.outstanding, st.sentOffset);
      AckDangles(st, acked, outstanding);
    } else {
      var st' := AckRegion(st, start, length).0;
      assert forall n: nat :: st'.Item(n) == st.Item(n);
      SameOffsets(st, st');
    }
  }

  // ---- A run that dangles -------------------------------------------------------------------------------------

  lemma FirstTick(id: StreamId, a: seq<byte>, now: nat)
    requires 0 < |a| <= FRAGMENT_SIZE
    ensures var s := PacingTick(Send(FreshSender(true), id, a).0, now).s;
      && s.established && s.nextPacket == 1 && s.sent == map[0 := SentPacket(now, id, 0, 0, |a|)]
      && s.largestAcked == 0 && s.streams.Keys == {id}
      && s.streams[id] == SendStream(0, [DataItem(a, |a|, 0)], 1, |a|, |a|, 0, map[], |a|)
  {
    var s1 := Send(FreshSender(true), id, a).0;
    var st1 := SendStream(0, [DataItem(a, 0, 0)], 0, |a|, 0, 0, map[], 0);
    assert s1.streams[id] == st1 && s1.queue == [id];
    var s := s1.(pacingArmed := false);
    assert SendLost(s, 0, 0, 0, now) == Pass(s, 0, []);
    var sent := SendFragment(s, id, now);
    var st2 := SendStream(0, [DataItem(a, |a|, 0)], 1, |a|, |a|, 0, map[], |a|);
    assert sent.streams[id] == st2;
    assert SendNew(sent, id, 0, now).s == sent && SendNew(sent, id, 0, now).code == 0;
    assert SendNew(s, id, 0, now).s == sent && SendNew(s, id, 0, now).code == 0;
    assert SendQueued(s, 0, now).s == sent.(queue := [], queueIds := s.queueIds - {id});
  }

  lemma OnlyAck(s: Sender, id: StreamId, now: nat)
    requires s.established && s.nextPacket == 1 && s.sent.Keys == {0} && s.sent[0].stream == id && s.largestAcked == 0 && id in s.streams
    ensures var st := s.streams[id];
      id in RecvAck(s, 0, [1], now).0.streams
      && var st' := AckRegion(st, st.Item(s.sent[0].item).streamOffset + s.sent[0].offset, s.sent[0].length).0;
         RecvAck(s, 0, [1], now).0.streams[id] == st'.(bytesInFlight := st'.bytesInFlight - s.sent[0].length)
  {
    hide AckRegion, OnAck;
    var limited := IsLimited(s);
    var one := AckPacket(s, 0, limited).0;
    assert one.sent == map[];
    assert AckRange(one, 1, 0, limited) == (one, []);
    assert AckRange(s, 0, 0, limited).0 == one;
    assert Sending.AckRuns(one, -1, [], true, limited) == (one, []);
    assert [1][1..] == [];
    assert Sending.AckRuns(s, 0, [1], false, limited).0 == one;
    assert LoseFrom(one, 1, 1, false) == (one, []);
    assert LoseFrom(one, 0, 1, false) == (one, []);
  }

  /** With the program's own steps: a buffer is sent, an empty one and another are queued behind it, and the ack of
      the first arrives before the next pacing tick. */
  lemma EmptySendDangles(id: StreamId, a: seq<byte>, b: seq<byte>, now: nat, later: nat)
    requires 0 < |a| <= FRAGMENT_SIZE && 0 < |b|
    ensures var s1 := PacingTick(Send(FreshSender(true), id, a).0, now).s;
      var s2 := RecvAck(Send(Send(s1, id, []).0, id, b).0, 0, [1], later).0;
      id in s2.streams && Dangles(s2.streams[id])
  {
    FirstTick(id, a, now);
    hide PacingTick, RecvAck, AckRegion, Send;
    var s1 := PacingTick(Send(FreshSender(true), id, a).0, now).s;
    var s := Send(Send(s1, id, []).0, id, b).0;
    QueuedBehind(s1, id, a, b);
    AckOfFirst(a, b);
    OnlyAck(s, id, later);
  }

  function ThreeItems(a: seq<byte>, b: seq<byte>): SendStream {
    SendStream(0, [DataItem(a, |a|, 0), DataItem([], 0, |a|), DataItem(b, 0, |a|)], 1, |a| + |b|, |a|, 0, map[], |a|)
  }

  lemma QueuedBehind(s: Sender, id: StreamId, a: seq<byte>, b: seq<byte>)
    requires s.established && id in s.streams && 0 < |a| <= FRAGMENT_SIZE
    requires s.streams[id] == SendStream(0, [DataItem(a, |a|, 0)], 1, |a|, |a|, 0, map[], |a|)
    ensures var s' := Send(Send(s, id, []).0, id, b).0;
      && id in s'.streams && s'.streams[id] == ThreeItems(a, b)
      && s'.established && s'.sent == s.sent && s'.nextPacket == s.nextPacket && s'.largestAcked == s.largestAcked
  {
    var e := Send(s, id, []).0;
    assert e.streams[id] == SendStream(0, [DataItem(a, |a|, 0), DataItem([], 0, |a|)], 1, |a|, |a|, 0, map[], |a|);
    assert Send(e, id, b).0.streams[id].items == [DataItem(a, |a|, 0), DataItem([], 0, |a|)] + [DataItem(b, 0, |a|)];
  }

  lemma AckOfFirst(a: seq<byte>, b: seq<byte>)
    requires 0 < |a| && 0 < |b|
    ensures Dangles(AckRegion(ThreeItems(a, b), 0, |a|).0)
  {
    var st := ThreeItems(a, b);
    assert Follows(st, 0) && Follows(st, 1);
    assert st.Item(2).data == b;
    assert Completes(st, 0, |a|);
    hide AckRegion, MergeAcks;
    DanglesIff(st, 0, |a|);
  }
}
