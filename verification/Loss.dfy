/**
 When packets are declared lost, what a congestion event does to the window, and how acks let it grow. Stated about
 the ACK handler and the tail-loss probe by their own inputs.
 */
module Loss {
  import opened Bytes
  import opened Sending
  import opened Flight
  import opened AckRuns
  import Ranges = AckRanges

  // ---- Which packets are lost -------------------------------------------------------------------------------

  /** The packets in flight are numbered below the next number, and none is filed as lost as well. */
  ghost predicate Filed(s: Sender) {
    (forall n :: n in s.sent ==> n < s.nextPacket) && s.sent.Keys !! s.lost.Keys
  }

  /** Packet `n` and every lower one in `m` was sent more than 50 ms before `t`. */
  ghost predicate Overdue(m: map<nat, SentPacket>, t: nat, n: nat) {
    forall k :: k in m && k <= n ==> m[k].sentTime + 50 < t
  }

  /** The packets that `lost` has taken over from `sent`, as told by `gone`. */
  ghost predicate Taken(s: Sender, s': Sender, gone: set<nat>) {
    && gone <= s.sent.Keys
    && s'.sent == s.sent - gone
    && s'.lost.Keys == s.lost.Keys + gone
    && (forall n :: n in s.lost && n !in gone ==> s'.lost[n] == s.lost[n])
    && (forall n :: n in gone ==> s'.lost[n] == s.sent[n])
  }

  ghost predicate LastTime(m: map<nat, SentPacket>, gone: set<nat>, times: seq<nat>) {
    && (times == [] <==> gone == {})
    && (times != [] ==> exists n :: n in gone && n in m && times[|times| - 1] == m[n].sentTime && forall k :: k in gone ==> k <= n)
  }

  lemma LastOfMore(m: map<nat, SentPacket>, pn: nat, gone: set<nat>, times: seq<nat>)
    requires pn in m && LastTime(m - {pn}, gone, times) && forall k :: k in gone ==> pn < k
    ensures LastTime(m, gone + {pn}, [m[pn].sentTime] + times)
  {
    var n := pn;
    if times != [] {
      n :| n in gone && n in m - {pn} && times[|times| - 1] == (m - {pn})[n].sentTime && forall k :: k in gone ==> k <= n;
    }
    var all := [m[pn].sentTime] + times;
    assert n in gone + {pn} && all[|all| - 1] == m[n].sentTime && forall k :: k in gone + {pn} ==> k <= n;
  }

  /** `gone` is what is overdue in `m`. */
  ghost predicate AllOverdue(m: map<nat, SentPacket>, t: nat, everything: bool, gone: set<nat>) {
    forall n :: n in m ==> (n in gone <==> everything || Overdue(m, t, n))
  }

  lemma MoreOverdue(m: map<nat, SentPacket>, pn: nat, t: nat, everything: bool, more: set<nat>)
    requires pn in m && (everything || m[pn].sentTime + 50 < t) && forall n :: n in m ==> pn <= n
    requires AllOverdue(m - {pn}, t, everything, more)
    ensures AllOverdue(m, t, everything, more + {pn})
  {
    var rest := m - {pn};
    forall n | n in m ensures n in more + {pn} <==> everything || Overdue(m, t, n) {
      if n != pn {
        assert n in rest;
        assert forall k :: k in rest ==> k in m && rest[k] == m[k];
        assert forall k :: k in m && k != pn ==> k in rest;
      }
    }
  }

  lemma NoneOverdue(m: map<nat, SentPacket>, pn: nat, t: nat)
    requires pn in m && m[pn].sentTime + 50 >= t && forall n :: n in m ==> pn <= n
    ensures AllOverdue(m, t, false, {})
  {
  }

  lemma TakenMore(s: Sender, pn: nat, s': Sender, more: set<nat>)
    requires s.sent.Keys !! s.lost.Keys && pn in s.sent && Taken(MarkLost(s, pn), s', more)
    ensures Taken(s, s', more + {pn})
  {
    var s1 := MarkLost(s, pn);
    assert s1.sent - more == s.sent - (more + {pn});
    assert s1.lost.Keys == s.lost.Keys + {pn};
    assert forall n :: n in more ==> s1.sent[n] == s.sent[n] && n != pn;
  }

  lemma TakenNone(s: Sender)
    ensures Taken(s, s, {}) && LastTime(s.sent, {}, [])
  {
    assert s.sent - {} == s.sent;
  }

  lemma MarkedFields(s: Sender, pn: nat)
    requires pn in s.sent
    ensures var s1 := MarkLost(s, pn);
      s1.sent == s.sent - {pn} && s1.lost.Keys == s.lost.Keys + {pn} && s1.largestSentTime == s.largestSentTime
  {
  }

  lemma {:induction false} LosesOverdue(s: Sender, pn: nat, end: nat, everything: bool) returns (gone: set<nat>)
    requires s.sent.Keys !! s.lost.Keys && forall n :: n in s.sent ==> pn <= n < end
    ensures var r := LoseFrom(s, pn, end, everything); Taken(s, r.0, gone) && LastTime(s.sent, gone, r.1)
    ensures AllOverdue(s.sent, s.largestSentTime, everything, gone)
    decreases end - pn
  {
    hide Taken, LastTime, AllOverdue, MarkLost;
    TakenNone(s);
    if pn >= end {
      gone := {};
      assert AllOverdue(s.sent, s.largestSentTime, everything, {}) by { assert s.sent == map[]; NothingOverdue(s.largestSentTime, everything); }
    } else if pn !in s.sent {
      gone := LosesOverdue(s, pn + 1, end, everything);
    } else if everything || s.largestSentTime > s.sent[pn].sentTime + 50 {
      MarkedFields(s, pn);
      var s1 := MarkLost(s, pn);
      var more := LosesOverdue(s1, pn + 1, end, everything);
      gone := more + {pn};
      var r := LoseFrom(s1, pn + 1, end, everything);
      TakenMore(s, pn, r.0, more);
      TakenInside(s1, r.0, more);
      LastOfMore(s.sent, pn, more, r.1);
      MoreOverdue(s.sent, pn, s.largestSentTime, everything, more);
    } else {
      gone := {};
      NoneOverdue(s.sent, pn, s.largestSentTime);
    }
  }

  lemma NothingOverdue(t: nat, everything: bool)
    ensures AllOverdue(map[], t, everything, {})
  {
  }

  lemma TakenInside(s: Sender, s': Sender, gone: set<nat>)
    requires Taken(s, s', gone)
    ensures gone <= s.sent.Keys
  {
  }

  /** The sending time that loss is measured against after an ACK: that of the largest packet it names, if this is a
      new largest one and still in flight, and otherwise the one taken before. */
  function Reference(s: Sender, largest: nat): nat {
    if largest > s.largestAcked && largest in s.sent then s.sent[largest].sentTime else s.largestSentTime
  }

  /** What an ACK leaves in flight by naming the others. */
  ghost predicate Unnamed(s: Sender, largest: nat, ranges: seq<nat>, left: map<nat, SentPacket>) {
    && (forall n :: n in left <==> n in s.sent && !Ranges.InRuns(largest, ranges, false, n))
    && (forall n :: n in left ==> left[n] == s.sent[n])
  }

  /** The sender once an ACK has taken out the packets it names. */
  function AfterAcks(s: Sender, largest: nat, ranges: seq<nat>): Sender {
    var s1 := NoteLargest(s, largest);
    Sending.AckRuns(s1, largest, ranges, false, IsLimited(s1)).0
  }

  lemma LeftByAcks(s: Sender, largest: nat, ranges: seq<nat>)
    ensures Unnamed(s, largest, ranges, AfterAcks(s, largest, ranges).sent)
  {
    hide Sending.AckRuns, Ranges.InRuns;
    var s1 := NoteLargest(s, largest);
    var s2 := AfterAcks(s, largest, ranges);
    forall n: nat
      ensures n in s2.sent <==> n in s.sent && !Ranges.InRuns(largest, ranges, false, n)
      ensures n in s2.sent ==> s2.sent[n] == s.sent[n]
    {
      AckRemovesExactly(s1, largest, ranges, false, IsLimited(s1), n);
    }
  }

  /** An ACK takes out the packets it names, and then declares `gone` lost. */
  lemma AckLosses(s: Sender, largest: nat, ranges: seq<nat>, now: nat) returns (s2: Sender, gone: set<nat>)
    requires s.established && Filed(s)
    ensures s2 == AfterAcks(s, largest, ranges)
    ensures Unnamed(s, largest, ranges, s2.sent) && s2.lost == s.lost
    ensures AllOverdue(s2.sent, Reference(s, largest), false, gone)
    ensures var s' := RecvAck(s, largest, ranges, now).0; var times := LoseFrom(s2, 0, s2.nextPacket, false).1;
      && Taken(s2, s', gone) && s'.largestSentTime == Reference(s, largest) && LastTime(s2.sent, gone, times)
      && s'.largestAcked == (if largest > s.largestAcked && largest in s.sent then largest else s.largestAcked)
      && s'.cc == if times == [] then s2.cc else OnLoss(s2.cc, times[|times| - 1], now)
  {
    hide Sending.AckRuns, Ranges.InRuns, LoseFrom, OnLoss, AllOverdue, LastTime, Unnamed;
    s2 := AfterAcks(s, largest, ranges);
    LeftByAcks(s, largest, ranges);
    InUnnamed(s, largest, ranges, s2.sent);
    gone := LosesOverdue(s2, 0, s2.nextPacket, false);
  }

  /** Time-based loss, by the ACK handler. A packet in flight that the ACK does not name moves to the lost ones, as it
      is, exactly when it and every lower one it does not name was sent more than 50 ms before the reference time.
      Nothing else becomes lost, and what was lost stays so. */
  lemma LostByAck(s: Sender, largest: nat, ranges: seq<nat>, now: nat, n: nat)
    requires s.established && Filed(s)
    ensures var s' := RecvAck(s, largest, ranges, now).0;
      var t := if largest > s.largestAcked && largest in s.sent then s.sent[largest].sentTime else s.largestSentTime;
      var named := Ranges.InRuns(largest, ranges, false, n);
      var late := forall k :: k in s.sent && k <= n && !Ranges.InRuns(largest, ranges, false, k) ==> s.sent[k].sentTime + 50 < t;
      && s'.largestSentTime == t
      && s'.largestAcked == (if largest > s.largestAcked && largest in s.sent then largest else s.largestAcked)
      && (n in s'.lost <==> n in s.lost || (n in s.sent && !named && late))
      && (n in s'.sent <==> n in s.sent && !named && !late)
      && (n in s'.sent ==> s'.sent[n] == s.sent[n])
      && (n in s'.lost ==> s'.lost[n] == if n in s.lost then s.lost[n] else s.sent[n])
  {
    var s2, gone := AckLosses(s, largest, ranges, now);
    hide RecvAck, Sending.AckRuns, NoteLargest, LoseFrom, Ranges.InRuns, OnLoss, LastTime;
    LateIsOverdue(s, largest, ranges, s2.sent, Reference(s, largest), n);
  }

  lemma LateIsOverdue(s: Sender, largest: nat, ranges: seq<nat>, left: map<nat, SentPacket>, t: nat, n: nat)
    requires Unnamed(s, largest, ranges, left)
    ensures Overdue(left, t, n) <==>
      forall k :: k in s.sent && k <= n && !Ranges.InRuns(largest, ranges, false, k) ==> s.sent[k].sentTime + 50 < t
  {
    hide Ranges.InRuns;
  }

  // ---- A congestion event -----------------------------------------------------------------------------------

  /** The window is cut to three quarters, or to three fifths if it had not recovered since the event before, rounded
      down, but not below 10000. It becomes the threshold; the old one is remembered, and so is the time. */
  predicate Reduced(cc: Congestion, cc': Congestion, now: nat) {
    var percent := if cc.window < cc.wMax then 60 else 75;
    && cc'.start == now && cc'.wMax == cc.window && cc'.threshold == cc'.window
    && cc'.window >= 10000 && (cc.window > 10000 ==> cc'.window < cc.window)
    && ((cc'.window == 10000 && percent * cc.window < 100 * 10000)
        || 100 * cc'.window <= percent * cc.window < 100 * (cc'.window + 1))
  }

  /** Losing packets is a congestion event exactly when the last of them was sent after the event before. */
  lemma EventReduces(cc: Congestion, lostTime: nat, now: nat)
    ensures if lostTime > cc.start then Reduced(cc, OnLoss(cc, lostTime, now), now) else OnLoss(cc, lostTime, now) == cc
  {
  }

  /** A tail-loss probe files all packets in flight as lost, as they are, and that is a congestion event exactly when
      the highest of them was sent after the event before. The next probe is due after twice the time. */
  lemma LostByProbe(s: Sender, now: nat)
    requires Filed(s) && !IsIdle(s) && s.tlpInterval < 25000
    ensures var s' := TlpTick(s, now);
      && s'.sent == map[] && s'.lost.Keys == s.lost.Keys + s.sent.Keys
      && (forall n :: n in s.lost ==> s'.lost[n] == s.lost[n]) && (forall n :: n in s.sent ==> s'.lost[n] == s.sent[n])
      && s'.tlpInterval == 2 * s.tlpInterval && s'.tlpArmed && s'.pacingArmed && s'.queue == s.queue
      && (s.sent == map[] ==> s'.cc == s.cc)
      && forall n :: n in s.sent && (forall k :: k in s.sent ==> k <= n) ==>
           if s.sent[n].sentTime > s.cc.start then Reduced(s.cc, s'.cc, now) else s'.cc == s.cc
  {
    ProbeLoses(s, now);
    hide LoseAndBackOff, Reduced;
  }

  lemma ProbeLoses(s: Sender, now: nat)
    requires Filed(s)
    ensures var s' := LoseAndBackOff(s, true, now);
      && s'.sent == map[] && s'.lost.Keys == s.lost.Keys + s.sent.Keys && s'.queue == s.queue
      && (forall n :: n in s.lost ==> s'.lost[n] == s.lost[n]) && (forall n :: n in s.sent ==> s'.lost[n] == s.sent[n])
      && (s.sent == map[] ==> s'.cc == s.cc)
      && forall n :: n in s.sent && (forall k :: k in s.sent ==> k <= n) ==>
           if s.sent[n].sentTime > s.cc.start then Reduced(s.cc, s'.cc, now) else s'.cc == s.cc
  {
    var gone := LosesOverdue(s, 0, s.nextPacket, true);
    EverythingGone(s, gone);
    var r := LoseFrom(s, 0, s.nextPacket, true);
    hide LoseFrom, OnLoss, Reduced, AllOverdue;
    AllTaken(s, r.0, gone);
    ProbeReduces(s, gone, r.1, now);
    hide Taken, LastTime;
  }

  lemma EverythingGone(s: Sender, gone: set<nat>)
    requires AllOverdue(s.sent, s.largestSentTime, true, gone) && gone <= s.sent.Keys
    ensures gone == s.sent.Keys
  {
  }

  lemma AllTaken(s: Sender, s': Sender, gone: set<nat>)
    requires Taken(s, s', gone) && gone == s.sent.Keys
    ensures s'.sent == map[] && s'.lost.Keys == s.lost.Keys + s.sent.Keys
    ensures (forall n :: n in s.sent ==> s'.lost[n] == s.sent[n]) && (forall n :: n in s.lost && n !in s.sent ==> s'.lost[n] == s.lost[n])
  {
    assert s.sent - gone == map[];
  }

  lemma ProbeReduces(s: Sender, gone: set<nat>, times: seq<nat>, now: nat)
    requires LastTime(s.sent, gone, times) && gone == s.sent.Keys
    ensures var cc' := if times == [] then s.cc else OnLoss(s.cc, times[|times| - 1], now);
      && (s.sent == map[] ==> cc' == s.cc)
      && forall n :: n in s.sent && (forall k :: k in s.sent ==> k <= n) ==>
           if s.sent[n].sentTime > s.cc.start then Reduced(s.cc, cc', now) else cc' == s.cc
  {
    hide OnLoss, Reduced;
    if times != [] {
      EventReduces(s.cc, times[|times| - 1], now);
      var n :| n in gone && n in s.sent && times[|times| - 1] == s.sent[n].sentTime && forall k :: k in gone ==> k <= n;
      assert forall m :: m in s.sent && (forall k :: k in s.sent ==> k <= m) ==> m == n;
    } else {
      assert s.sent.Keys == {};
    }
  }

  // ---- How acks let the window grow -------------------------------------------------------------------------

  /** One acked packet, unless the sender was held back by its application or the packet is older than the last
      congestion event: in slow start the window grows by its length, and then by 1500 times that over the window. */
  lemma PacketGrows(cc: Congestion, p: SentPacket, limited: bool)
    requires cc.window >= 10000
    ensures var cc' := OnAck(cc, p, limited); var more := cc'.window - cc.window;
      && cc' == cc.(window := cc'.window) && 0 <= more <= p.length
      && if limited || p.sentTime <= cc.start then more == 0
         else if cc.window < cc.threshold then more == p.length
         else more * cc.window <= 1500 * p.length < (more + 1) * cc.window
  {
    var d := 1500 * p.length / cc.window;
    Quotient(p.length, cc.window);
    if p.sentTime > cc.start && !limited && cc.window >= cc.threshold {
      assert OnAck(cc, p, limited) == cc.(window := cc.window + d);
    }
  }

  lemma Quotient(length: nat, window: nat)
    requires window >= 10000
    ensures var d := 1500 * length / window; d * window <= 1500 * length < (d + 1) * window && d <= length
  {
    var d := 1500 * length / window;
    assert 1500 * length == d * window + 1500 * length % window;
    assert d * window >= d * 10000 by { Product(d, window); }
  }

  lemma Product(d: nat, window: nat)
    requires window >= 10000
    ensures d * window >= d * 10000
  {
    assert d * (window - 10000) >= 0;
  }

  /** Bytes of the packets below `end` that were sent after `start`. */
  function Newer(m: map<nat, SentPacket>, start: nat, end: nat): nat {
    if end == 0 then 0
    else Newer(m, start, end - 1) + (if end - 1 in m && m[end - 1].sentTime > start then m[end - 1].length else 0)
  }

  /** Those of them that an ACK names. */
  function NamedBytes(m: map<nat, SentPacket>, start: nat, end: nat, largest: nat, ranges: seq<nat>): nat {
    if end == 0 then 0
    else
      var n := end - 1;
      NamedBytes(m, start, n, largest, ranges)
      + (if n in m && m[n].sentTime > start && Ranges.InRuns(largest, ranges, false, n) then m[n].length else 0)
  }

  lemma {:induction false} NewerLeft(s: Sender, largest: nat, ranges: seq<nat>, left: map<nat, SentPacket>, start: nat, end: nat)
    requires Unnamed(s, largest, ranges, left)
    ensures Newer(s.sent, start, end) == Newer(left, start, end) + NamedBytes(s.sent, start, end, largest, ranges)
  {
    hide Ranges.InRuns;
    if end > 0 { NewerLeft(s, largest, ranges, left, start, end - 1); }
  }

  lemma {:induction false} NewerWithout(m: map<nat, SentPacket>, pn: nat, start: nat, end: nat)
    requires pn in m
    ensures Newer(m - {pn}, start, end) == Newer(m, start, end) - (if pn < end && m[pn].sentTime > start then m[pn].length else 0)
  {
    if end > 0 { NewerWithout(m, pn, start, end - 1); }
  }

  /** Growth by acks of `bytes` bytes that count. */
  predicate GrewBy(cc: Congestion, cc': Congestion, limited: bool, bytes: int) {
    && cc' == cc.(window := cc'.window)
    && cc.window <= cc'.window <= cc.window + bytes
    && (limited ==> cc'.window == cc.window)
    && (!limited && cc.window + bytes <= cc.threshold ==> cc'.window == cc.window + bytes)
  }

  lemma GrewThen(a: Congestion, b: Congestion, c: Congestion, limited: bool, x: int, y: int)
    requires GrewBy(a, b, limited, x) && GrewBy(b, c, limited, y)
    ensures GrewBy(a, c, limited, x + y)
  {
  }

  lemma PacketGrewBy(s: Sender, pn: nat, limited: bool)
    requires pn in s.sent && pn < s.nextPacket && s.cc.window >= 10000
    ensures var s' := AckPacket(s, pn, limited).0;
      && s'.sent == s.sent - {pn} && s'.nextPacket == s.nextPacket
      && GrewBy(s.cc, s'.cc, limited, Newer(s.sent, s.cc.start, s.nextPacket) - Newer(s'.sent, s.cc.start, s.nextPacket))
  {
    PacketGrows(s.cc, s.sent[pn], limited);
    NewerWithout(s.sent, pn, s.cc.start, s.nextPacket);
    hide OnAck, AckRegion;
  }

  lemma {:induction false} RangeGrewBy(s: Sender, pn: nat, high: int, limited: bool)
    requires (forall n :: n in s.sent ==> n < s.nextPacket) && s.cc.window >= 10000
    ensures var s' := AckRange(s, pn, high, limited).0;
      && (forall n :: n in s'.sent ==> n < s.nextPacket)
      && GrewBy(s.cc, s'.cc, limited, Newer(s.sent, s.cc.start, s.nextPacket) - Newer(s'.sent, s.cc.start, s.nextPacket))
    decreases high - pn
  {
    hide AckPacket;
    if pn <= high {
      if pn !in s.sent {
        RangeGrewBy(s, pn + 1, high, limited);
      } else {
        PacketGrewBy(s, pn, limited);
        var s1 := AckPacket(s, pn, limited).0;
        RangeGrewBy(s1, pn + 1, high, limited);
        var s2 := AckRange(s1, pn + 1, high, limited).0;
        var x := Newer(s.sent, s.cc.start, s.nextPacket) - Newer(s1.sent, s.cc.start, s.nextPacket);
        GrewThen(s.cc, s1.cc, s2.cc, limited, x, Newer(s1.sent, s.cc.start, s.nextPacket) - Newer(s2.sent, s.cc.start, s.nextPacket));
      }
    }
  }

  lemma {:induction false} RunsGrewBy(s: Sender, high: int, ranges: seq<nat>, gap: bool, limited: bool)
    requires (forall n :: n in s.sent ==> n < s.nextPacket) && s.cc.window >= 10000
    ensures var s' := Sending.AckRuns(s, high, ranges, gap, limited).0;
      GrewBy(s.cc, s'.cc, limited, Newer(s.sent, s.cc.start, s.nextPacket) - Newer(s'.sent, s.cc.start, s.nextPacket))
    decreases |ranges|
  {
    hide AckRange;
    if ranges != [] {
      var low := high - ranges[0];
      if gap {
        RunsGrewBy(s, low, ranges[1..], false, limited);
      } else {
        var from: nat := if low + 1 < 0 then 0 else low + 1;
        RangeGrewBy(s, from, high, limited);
        var s1 := AckRange(s, from, high, limited).0;
        RunsGrewBy(s1, low, ranges[1..], true, limited);
        var s2 := Sending.AckRuns(s1, low, ranges[1..], true, limited).0;
        var x := Newer(s.sent, s.cc.start, s.nextPacket) - Newer(s1.sent, s.cc.start, s.nextPacket);
        GrewThen(s.cc, s1.cc, s2.cc, limited, x, Newer(s1.sent, s.cc.start, s.nextPacket) - Newer(s2.sent, s.cc.start, s.nextPacket));
      }
    }
  }

  /** The packets an ACK newly declares lost. */
  ghost predicate NewlyLost(s: Sender, s': Sender, n: nat) { n in s.sent && n in s'.lost }

  /** What an ACK does to the window. It first grows by the packets the ACK names that were sent after the last
      congestion event: not at all if less than four fifths of the window were in use, by all their bytes if that
      stays within the threshold, and by no more than these otherwise. Then, if packets are newly lost and the highest
      of them was sent after the last congestion event, the grown window is reduced. */
  lemma WindowByAck(s: Sender, largest: nat, ranges: seq<nat>, now: nat) returns (grown: Congestion)
    requires s.established && Filed(s) && s.cc.window >= 10000
    ensures GrewBy(s.cc, grown, 5 * s.bytesInFlight < 4 * s.cc.window,
                   NamedBytes(s.sent, s.cc.start, s.nextPacket, largest, ranges))
    ensures var s' := RecvAck(s, largest, ranges, now).0;
      && ((forall n :: !NewlyLost(s, s', n)) ==> s'.cc == grown)
      && forall n :: NewlyLost(s, s', n) && (forall k :: NewlyLost(s, s', k) ==> k <= n) ==>
           if s.sent[n].sentTime > s.cc.start then Reduced(grown, s'.cc, now) else s'.cc == grown
  {
    var s2, gone := AckLosses(s, largest, ranges, now);
    GrownByAcks(s, largest, ranges);
    hide RecvAck, LoseFrom, OnLoss, Reduced, AllOverdue, NamedBytes, Taken, LastTime, NewlyLost, GrewBy, AfterAcks;
    grown := s2.cc;
    InUnnamed(s, largest, ranges, s2.sent);
    LossesReduce(s, s2, RecvAck(s, largest, ranges, now).0, gone, LoseFrom(s2, 0, s2.nextPacket, false).1, now);
  }

  lemma GrownByAcks(s: Sender, largest: nat, ranges: seq<nat>)
    requires Filed(s) && s.cc.window >= 10000
    ensures var s2 := AfterAcks(s, largest, ranges);
      && s2.cc.start == s.cc.start
      && GrewBy(s.cc, s2.cc, 5 * s.bytesInFlight < 4 * s.cc.window, NamedBytes(s.sent, s.cc.start, s.nextPacket, largest, ranges))
  {
    var s1 := NoteLargest(s, largest);
    LeftByAcks(s, largest, ranges);
    hide Sending.AckRuns, Newer, NamedBytes, Unnamed;
    RunsGrewBy(s1, largest, ranges, false, IsLimited(s1));
    NewerLeft(s, largest, ranges, AfterAcks(s, largest, ranges).sent, s.cc.start, s.nextPacket);
  }

  lemma InUnnamed(s: Sender, largest: nat, ranges: seq<nat>, left: map<nat, SentPacket>)
    requires Unnamed(s, largest, ranges, left)
    ensures forall n :: n in left ==> n in s.sent && left[n] == s.sent[n]
  {
  }

  lemma LossesReduce(s: Sender, s2: Sender, s': Sender, gone: set<nat>, times: seq<nat>, now: nat)
    requires s.sent.Keys !! s.lost.Keys && s2.lost == s.lost && s2.cc.start == s.cc.start
    requires forall n :: n in s2.sent ==> n in s.sent && s2.sent[n] == s.sent[n]
    requires Taken(s2, s', gone) && LastTime(s2.sent, gone, times)
    requires s'.cc == if times == [] then s2.cc else OnLoss(s2.cc, times[|times| - 1], now)
    ensures (forall n :: !NewlyLost(s, s', n)) ==> s'.cc == s2.cc
    ensures forall n :: NewlyLost(s, s', n) && (forall k :: NewlyLost(s, s', k) ==> k <= n) ==>
      if s.sent[n].sentTime > s.cc.start then Reduced(s2.cc, s'.cc, now) else s'.cc == s2.cc
  {
    hide OnLoss, Reduced;
    assert forall n :: NewlyLost(s, s', n) <==> n in gone;
    if times != [] {
      EventReduces(s2.cc, times[|times| - 1], now);
      var n :| n in gone && n in s2.sent && times[|times| - 1] == s2.sent[n].sentTime && forall k :: k in gone ==> k <= n;
      assert NewlyLost(s, s', n);
    }
  }

  // ---- Giving up, and flushing ------------------------------------------------------------------------------

  /** After the sixth probe in a row the connection is given up, and everything starts over: no streams, packets, queue
      or timers, and a window of 100000 in slow start. */
  lemma GivesUp(s: Sender, now: nat)
    requires !IsIdle(s) && s.tlpInterval >= 25000
    ensures var s' := TlpTick(s, now);
      && !s'.established && s'.streams == map[] && s'.sent == map[] && s'.lost == map[] && s'.queue == [] && s'.queueIds == {}
      && s'.nextPacket == 0 && s'.bytesInFlight == 0 && s'.cc == Congestion(100000, 0xFFFF_FFFF_FFFF_FFFF, 0, 0)
      && s'.largestAcked == 0 && s'.largestSentTime == 0
      && !s'.pacingArmed && !s'.tlpArmed && s'.tlpInterval == 1000
  {
  }

  /** A probe that finds the sender idle stops the timer; one without a connection, like an ACK, changes nothing else. */
  lemma NothingToDo(s: Sender, largest: nat, ranges: seq<nat>, now: nat)
    ensures IsIdle(s) ==> TlpTick(s, now) == s.(tlpArmed := false, tlpInterval := 1000)
    ensures !s.established ==> RecvAck(s, largest, ranges, now) == (s, [])
  {
  }

  /** Flushing a stream forgets all its packets and its data, and leaves the other streams and their packets alone. */
  lemma FlushForgets(s: Sender, id: StreamId)
    ensures var s' := Flush(s, id); var st, st' := s.Stream(id), s'.Stream(id);
      && (forall n :: n in s'.sent <==> n in s.sent && s.sent[n].stream != id) && (forall n :: n in s'.sent ==> s'.sent[n] == s.sent[n])
      && (forall n :: n in s'.lost <==> n in s.lost && s.lost[n].stream != id) && (forall n :: n in s'.lost ==> s'.lost[n] == s.lost[n])
      && st'.items == [] && st'.next == st'.End() == st.End() && st'.outstanding == map[] && st'.bytesInFlight == 0
      && st'.queueOffset == st'.sentOffset == st'.ackedOffset == st.sentOffset
      && (forall j: StreamId :: j != id ==> s'.Stream(j) == s.Stream(j))
  {
  }
}
