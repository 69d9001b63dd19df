/**
 The packet numbers a receiver has seen, kept as alternating seen/unseen run lengths counted down from the
 largest number.
 */
module AckRanges {

  /** An ACK carries at most this many runs. */
  const ACK_RUNS := 171

  const MAX_RANGES := 1001

  /** `ranges[0]` numbers from `largest` down are seen, the next `ranges[1]` are not, and so on. */
  datatype AckList = AckList(ranges: seq<nat>, largest: nat)

  const Empty := AckList([], 0)

  function Sum(s: seq<nat>): nat {
    if s == [] then 0 else s[0] + Sum(s[1..])
  }

  /** Whether `n` falls in a seen run of `ranges` read downwards from `high`. */
  predicate InRuns(high: int, ranges: seq<nat>, gap: bool, n: int)
    decreases |ranges|
  {
    if ranges == [] then false
    else
      var low := high - ranges[0];
      if low < n <= high then !gap else InRuns(low, ranges[1..], !gap, n)
  }

  predicate Seen(l: AckList, n: int) {
    InRuns(l.largest, l.ranges, false, n)
  }

  /** The highest number below every run. */
  function Bottom(l: AckList): int { l.largest - Sum(l.ranges) }

  predicate AllPositive(s: seq<nat>) {
    forall i :: 0 <= i < |s| ==> 0 < s[i]
  }

  /** Runs start and end with a seen one, none is empty, and none reaches below zero. */
  predicate WellFormed(l: AckList) {
    l.ranges != [] ==> |l.ranges| % 2 == 1 && AllPositive(l.ranges) && Bottom(l) >= -1
  }

  /** Whether recording `num` goes past the last run and leaves more entries than are kept. */
  predicate Trims(l: AckList, num: nat) {
    && l.ranges != [] && num <= Bottom(l)
    && |l.ranges| + (if num == Bottom(l) then 0 else 2) > MAX_RANGES
  }

  /** What recording `num` must achieve: exactly `num` joins the set, except that a trimmed list keeps
      only the numbers above its new bottom. */
  ghost predicate Recorded(l: AckList, num: nat, l': AckList) {
    && WellFormed(l') && l'.ranges != []
    && l'.largest == (if l.ranges == [] || num > l.largest then num else l.largest)
    && (if Trims(l, num) then
          |l'.ranges| == MAX_RANGES
          && forall n: int :: Seen(l', n) <==> (Seen(l, n) || n == num) && n > Bottom(l')
        else
          forall n: int :: Seen(l', n) <==> Seen(l, n) || n == num)
  }

  // ---- Reading runs -----------------------------------------------------------------------------------

  lemma {:induction false} SumSplit(a: seq<nat>, b: seq<nat>)
    ensures Sum(a + b) == Sum(a) + Sum(b)
  {
    if a == [] {
      assert a + b == b;
    } else {
      assert (a + b)[1..] == a[1..] + b;
      SumSplit(a[1..], b);
    }
  }

  lemma {:induction false} SeenInside(high: int, ranges: seq<nat>, gap: bool, n: int)
    requires InRuns(high, ranges, gap, n)
    ensures high - Sum(ranges) < n <= high
    decreases |ranges|
  {
    var low := high - ranges[0];
    if !(low < n <= high) { SeenInside(low, ranges[1..], !gap, n); }
  }

  /** Runs can be read in two parts. */
  lemma {:induction false} SeenSplit(high: int, a: seq<nat>, b: seq<nat>, gap: bool, n: int)
    ensures InRuns(high, a + b, gap, n) <==>
      InRuns(high, a, gap, n) || InRuns(high - Sum(a), b, if |a| % 2 == 0 then gap else !gap, n)
    decreases |a|
  {
    if a == [] {
      assert a + b == b;
    } else {
      assert (a + b)[1..] == a[1..] + b;
      var low := high - a[0];
      SeenSplit(low, a[1..], b, !gap, n);
      if low < n <= high && InRuns(high - Sum(a), b, if |a| % 2 == 0 then gap else !gap, n) {
        SeenInside(high - Sum(a), b, if |a| % 2 == 0 then gap else !gap, n);
      }
    }
  }

  /** Three-part form, for runs read from a seen one. */
  lemma SeenParts(high: int, a: seq<nat>, b: seq<nat>, c: seq<nat>, n: int)
    ensures InRuns(high, a + b + c, false, n) <==>
      InRuns(high, a, false, n) || InRuns(high - Sum(a), b, |a| % 2 == 1, n)
      || InRuns(high - Sum(a) - Sum(b), c, (|a| + |b|) % 2 == 1, n)
  {
    SumSplit(a, b);
    SeenSplit(high, a + b, c, false, n);
    SeenSplit(high, a, b, false, n);
  }

  /** Replacing a stretch `b` of the runs by `b'` of the same extent and parity changes only what `b` covers. */
  lemma SeenReplace(high: int, a: seq<nat>, b: seq<nat>, b': seq<nat>, c: seq<nat>, at: int, gap: bool, num: int)
    requires Sum(b) == Sum(b') && |b| % 2 == |b'| % 2
    requires at == high - Sum(a) && gap == (|a| % 2 == 1)
    requires forall n: int :: InRuns(at, b', gap, n) <==> InRuns(at, b, gap, n) || n == num
    ensures forall n: int :: InRuns(high, a + b' + c, false, n) <==> InRuns(high, a + b + c, false, n) || n == num
    ensures Sum(a + b' + c) == Sum(a + b + c)
  {
    hide InRuns, Sum;
    SumSplit(a + b, c); SumSplit(a + b', c); SumSplit(a, b); SumSplit(a, b');
    forall n: int
      ensures InRuns(high, a + b' + c, false, n) <==> InRuns(high, a + b + c, false, n) || n == num
    {
      SeenParts(high, a, b, c, n);
      SeenParts(high, a, b', c, n);
    }
  }

  // ---- Edits ------------------------------------------------------------------------------------------

  /** Rewriting a stretch of a list so that just `num` joins it. */
  lemma Edit(l: AckList, a: seq<nat>, b: seq<nat>, b': seq<nat>, c: seq<nat>, at: int, gap: bool, num: nat, l': AckList)
    requires WellFormed(l) && l.ranges == a + b + c && l.ranges != []
    requires l' == AckList(a + b' + c, l.largest)
    requires AllPositive(b') && b' != [] && |b| % 2 == |b'| % 2 && Sum(b) == Sum(b')
    requires at == l.largest - Sum(a) && gap == (|a| % 2 == 1)
    requires forall n: int :: InRuns(at, b', gap, n) <==> InRuns(at, b, gap, n) || n == num
    requires Bottom(l) < num <= l.largest
    ensures Recorded(l, num, l')
  {
    SeenReplace(l.largest, a, b, b', c, at, gap, num);
    forall i | 0 <= i < |l'.ranges| ensures 0 < l'.ranges[i] {
      if i < |a| {
        assert l'.ranges[i] == l.ranges[i];
      } else if i < |a| + |b'| {
        assert l'.ranges[i] == b'[i - |a|];
      } else {
        assert l'.ranges[i] == l.ranges[i - |b'| + |b|];
      }
    }
  }

  lemma SumOfTwo(x: nat, y: nat)
    ensures Sum([x, y]) == x + y && Sum([x]) == x
  {
    var two: seq<nat>, one: seq<nat>, last: seq<nat> := [x, y], [x], [y];
    assert two[1..] == last && one[1..] == [] && last[1..] == [];
    assert Sum(last) == y && Sum(two) == x + Sum(last);
  }

  lemma SumOfThree(x: nat, y: nat, z: nat)
    ensures Sum([x, y, z]) == x + y + z
  {
    assert [x, y, z][1..] == [y, z];
    SumOfTwo(y, z);
  }

  lemma RunsOfOne(at: int, x: nat, gap: bool, n: int)
    ensures InRuns(at, [x], gap, n) <==> at - x < n <= at && !gap
  {
    assert [x][1..] == [];
  }

  lemma RunsOfTwo(at: int, x: nat, y: nat, gap: bool, n: int)
    ensures InRuns(at, [x, y], gap, n) <==>
      if at - x < n <= at then !gap else at - x - y < n <= at - x && gap
  {
    assert [x, y][1..] == [y];
    RunsOfOne(at - x, y, !gap, n);
  }

  lemma RunsOfThree(at: int, x: nat, y: nat, z: nat, gap: bool, n: int)
    ensures InRuns(at, [x, y, z], gap, n) <==>
      if at - x < n <= at then !gap
      else if at - x - y < n <= at - x then gap
      else at - x - y - z < n <= at - x - y && !gap
  {
    assert [x, y, z][1..] == [y, z];
    RunsOfTwo(at - x, y, z, !gap, n);
  }

  /** `num` already lies in the seen run `i`. */
  lemma AlreadySeen(l: AckList, i: nat, high: int, num: nat)
    requires WellFormed(l) && i < |l.ranges| && i % 2 == 0 && high == l.largest - Sum(l.ranges[..i])
    requires high - l.ranges[i] < num <= high
    ensures Recorded(l, num, l)
  {
    assert l.ranges == l.ranges[..i] + [l.ranges[i]] + l.ranges[i + 1..];
    SeenParts(l.largest, l.ranges[..i], [l.ranges[i]], l.ranges[i + 1..], num);
    RunsOfOne(high, l.ranges[i], false, num);
    SeenInside(l.largest, l.ranges, false, num);
  }

  lemma GapAbove(l: AckList, i: nat, high: int, num: nat)
    requires WellFormed(l) && i < |l.ranges| && high == l.largest - Sum(l.ranges[..i])
    requires high - l.ranges[i] < num <= high
    ensures Bottom(l) < num <= l.largest
  {
    assert l.ranges == l.ranges[..i] + [l.ranges[i]] + l.ranges[i + 1..];
    SumSplit(l.ranges[..i] + [l.ranges[i]], l.ranges[i + 1..]);
    SumSplit(l.ranges[..i], [l.ranges[i]]);
    SumOfTwo(l.ranges[i], 0);
  }

  /** `num` is the highest number of gap `i`: the run above grows by it. */
  lemma JoinAbove(l: AckList, i: nat, high: int, num: nat)
    requires WellFormed(l) && 0 < i < |l.ranges| && i % 2 == 1 && high == l.largest - Sum(l.ranges[..i])
    requires num == high && 1 < l.ranges[i]
    ensures Recorded(l, num, AckList(l.ranges[i - 1 := l.ranges[i - 1] + 1][i := l.ranges[i] - 1], l.largest))
  {
    var a, x, g, c := l.ranges[..i - 1], l.ranges[i - 1], l.ranges[i], l.ranges[i + 1..];
    assert l.ranges == a + [x, g] + c;
    assert l.ranges[i - 1 := x + 1][i := g - 1] == a + [x + 1, g - 1] + c;
    assert l.ranges[..i] == a + [x];
    SumSplit(a, [x]); SumOfTwo(x, g); SumOfTwo(x + 1, g - 1);
    GapAbove(l, i, high, num);
    var at := high + x;
    forall n: int ensures InRuns(at, [x + 1, g - 1], false, n) <==> InRuns(at, [x, g], false, n) || n == num {
      RunsOfTwo(at, x + 1, g - 1, false, n); RunsOfTwo(at, x, g, false, n);
    }
    Edit(l, a, [x, g], [x + 1, g - 1], c, at, false, num, AckList(a + [x + 1, g - 1] + c, l.largest));
  }

  /** `num` is all of gap `i`: the runs on both sides merge. */
  lemma JoinBoth(l: AckList, i: nat, high: int, num: nat)
    requires WellFormed(l) && 0 < i < |l.ranges| - 1 && i % 2 == 1 && high == l.largest - Sum(l.ranges[..i])
    requires num == high && 1 == l.ranges[i]
    ensures Recorded(l, num, AckList(l.ranges[..i - 1] + [l.ranges[i - 1] + 1 + l.ranges[i + 1]] + l.ranges[i + 2..], l.largest))
  {
    var a, x, y, c := l.ranges[..i - 1], l.ranges[i - 1], l.ranges[i + 1], l.ranges[i + 2..];
    assert l.ranges == a + [x, 1, y] + c;
    assert l.ranges[..i] == a + [x];
    SumSplit(a, [x]); SumOfTwo(x, 0); SumOfThree(x, 1, y); SumOfTwo(x + 1 + y, 0);
    GapAbove(l, i, high, num);
    var at := high + x;
    forall n: int ensures InRuns(at, [x + 1 + y], false, n) <==> InRuns(at, [x, 1, y], false, n) || n == num {
      RunsOfOne(at, x + 1 + y, false, n); RunsOfThree(at, x, 1, y, false, n);
    }
    Edit(l, a, [x, 1, y], [x + 1 + y], c, at, false, num, AckList(a + [x + 1 + y] + c, l.largest));
  }

  /** `num` is the lowest number of gap `i`: the run below grows by it. */
  lemma JoinBelow(l: AckList, i: nat, high: int, num: nat)
    requires WellFormed(l) && 0 < i < |l.ranges| - 1 && i % 2 == 1 && high == l.largest - Sum(l.ranges[..i])
    requires num == high - l.ranges[i] + 1 && 1 < l.ranges[i]
    ensures Recorded(l, num, AckList(l.ranges[i + 1 := l.ranges[i + 1] + 1][i := l.ranges[i] - 1], l.largest))
  {
    var a, g, y, c := l.ranges[..i], l.ranges[i], l.ranges[i + 1], l.ranges[i + 2..];
    assert l.ranges == a + [g, y] + c;
    assert l.ranges[i + 1 := y + 1][i := g - 1] == a + [g - 1, y + 1] + c;
    SumOfTwo(g, y); SumOfTwo(g - 1, y + 1);
    GapAbove(l, i, high, num);
    forall n: int ensures InRuns(high, [g - 1, y + 1], true, n) <==> InRuns(high, [g, y], true, n) || n == num {
      RunsOfTwo(high, g - 1, y + 1, true, n); RunsOfTwo(high, g, y, true, n);
    }
    Edit(l, a, [g, y], [g - 1, y + 1], c, high, true, num, AckList(a + [g - 1, y + 1] + c, l.largest));
  }

  /** `num` is strictly inside gap `i`: the gap splits around it. */
  lemma SplitGap(l: AckList, i: nat, high: int, num: nat)
    requires WellFormed(l) && 0 < i < |l.ranges| && i % 2 == 1 && high == l.largest - Sum(l.ranges[..i])
    requires high - l.ranges[i] + 1 < num < high
    ensures Recorded(l, num, AckList(l.ranges[..i] + [high - num, 1, num - (high - l.ranges[i] + 1)] + l.ranges[i + 1..], l.largest))
  {
    var a, g, c := l.ranges[..i], l.ranges[i], l.ranges[i + 1..];
    var u, d := high - num, num - (high - g + 1);
    assert l.ranges == a + [g] + c;
    SumOfTwo(g, 0); SumOfThree(u, 1, d);
    GapAbove(l, i, high, num);
    forall n: int ensures InRuns(high, [u, 1, d], true, n) <==> InRuns(high, [g], true, n) || n == num {
      RunsOfThree(high, u, 1, d, true, n); RunsOfOne(high, g, true, n);
    }
    Edit(l, a, [g], [u, 1, d], c, high, true, num, AckList(a + [u, 1, d] + c, l.largest));
  }

  lemma OddLength(l: AckList)
    requires WellFormed(l) && l.ranges != []
    ensures |l.ranges| % 2 == 1 && forall i :: 0 <= i < |l.ranges| ==> 0 < l.ranges[i]
  {
  }

  lemma First(l: AckList, num: nat)
    requires l.ranges == []
    ensures Recorded(l, num, AckList([1], num))
  {
    forall n: int ensures Seen(AckList([1], num), n) <==> n == num { RunsOfOne(num, 1, false, n); }
    SumOfTwo(1, 0);
  }

  /** `num` continues the topmost run. */
  lemma ExtendTop(l: AckList, num: nat)
    requires WellFormed(l) && l.ranges != [] && num == l.largest + 1
    ensures Recorded(l, num, AckList(l.ranges[0 := l.ranges[0] + 1], num))
  {
    var l' := AckList(l.ranges[0 := l.ranges[0] + 1], num);
    assert l'.ranges[1..] == l.ranges[1..];
    forall n: int ensures Seen(l', n) <==> Seen(l, n) || n == num {
      if InRuns(l.largest - l.ranges[0], l.ranges[1..], true, n) {
        SeenInside(l.largest - l.ranges[0], l.ranges[1..], true, n);
      }
    }
  }

  /** `num` starts a new topmost run above a new gap. */
  lemma NewTop(l: AckList, num: nat)
    requires WellFormed(l) && l.ranges != [] && num > l.largest + 1
    ensures Recorded(l, num, AckList([1, num - l.largest - 1] + l.ranges, num))
  {
    var top := [1, num - l.largest - 1];
    var l' := AckList(top + l.ranges, num);
    SumOfTwo(1, num - l.largest - 1);
    SumSplit(top, l.ranges);
    forall n: int ensures Seen(l', n) <==> Seen(l, n) || n == num {
      SeenSplit(num, top, l.ranges, false, n);
      RunsOfTwo(num, 1, num - l.largest - 1, false, n);
    }
    assert AllPositive(top);
  }

  /** Keeping the first `k` runs keeps the seen numbers above the new bottom. */
  lemma Prefix(l: AckList, k: nat, n: int)
    requires k <= |l.ranges|
    ensures var l' := AckList(l.ranges[..k], l.largest); Seen(l', n) <==> Seen(l, n) && n > Bottom(l')
  {
    var a, b := l.ranges[..k], l.ranges[k..];
    assert l.ranges == a + b;
    SeenSplit(l.largest, a, b, false, n);
    if InRuns(l.largest, a, false, n) { SeenInside(l.largest, a, false, n); }
    if InRuns(l.largest - Sum(a), b, if k % 2 == 0 then false else true, n) {
      SeenInside(l.largest - Sum(a), b, if k % 2 == 0 then false else true, n);
    }
  }

  /** The list before trimming, when `num` lies below every run. */
  function Grown(l: AckList, num: nat): AckList
    requires l.ranges != [] && num <= Bottom(l)
  {
    if num == Bottom(l) then AckList(l.ranges[|l.ranges| - 1 := l.ranges[|l.ranges| - 1] + 1], l.largest)
    else AckList(l.ranges + [Bottom(l) - num, 1], l.largest)
  }

  lemma GrownFacts(l: AckList, num: nat)
    requires WellFormed(l) && l.ranges != [] && num <= Bottom(l)
    ensures WellFormed(Grown(l, num)) && Bottom(Grown(l, num)) == num - 1
    ensures forall n: int :: Seen(Grown(l, num), n) <==> Seen(l, n) || n == num
  {
    var l' := Grown(l, num);
    if num == Bottom(l) {
      var k := |l.ranges| - 1;
      var a, x := l.ranges[..k], l.ranges[k];
      assert l.ranges == a + [x] && l'.ranges == a + [x + 1];
      SumSplit(a, [x]); SumSplit(a, [x + 1]); SumOfTwo(x, 0); SumOfTwo(x + 1, 0);
      forall n: int ensures Seen(l', n) <==> Seen(l, n) || n == num {
        SeenSplit(l.largest, a, [x], false, n); SeenSplit(l.largest, a, [x + 1], false, n);
        RunsOfOne(l.largest - Sum(a), x, false, n); RunsOfOne(l.largest - Sum(a), x + 1, false, n);
      }
    } else {
      var d := Bottom(l) - num;
      SumSplit(l.ranges, [d, 1]); SumOfTwo(d, 1);
      forall n: int ensures Seen(l', n) <==> Seen(l, n) || n == num {
        SeenSplit(l.largest, l.ranges, [d, 1], false, n);
        RunsOfTwo(Bottom(l), d, 1, true, n);
      }
    }
  }

  /** Recording a number below every run, with the trim. */
  lemma AtEnd(l: AckList, num: nat)
    requires WellFormed(l) && l.ranges != [] && num <= Bottom(l)
    ensures var g := Grown(l, num);
      Recorded(l, num, if |g.ranges| > MAX_RANGES then AckList(g.ranges[..MAX_RANGES], g.largest) else g)
  {
    var g := Grown(l, num);
    GrownFacts(l, num);
    if |g.ranges| > MAX_RANGES {
      var l' := AckList(g.ranges[..MAX_RANGES], g.largest);
      assert g.ranges == g.ranges[..MAX_RANGES] + g.ranges[MAX_RANGES..];
      SumSplit(g.ranges[..MAX_RANGES], g.ranges[MAX_RANGES..]);
      forall n: int ensures Seen(l', n) <==> (Seen(l, n) || n == num) && n > Bottom(l') {
        Prefix(g, MAX_RANGES, n);
      }
    }
  }

  // ---- The list is determined by the set ----------------------------------------------------------------

  predicate Agree(high: int, a: seq<nat>, b: seq<nat>, gap: bool, n: int) {
    InRuns(high, a, gap, n) <==> InRuns(high, b, gap, n)
  }

  ghost predicate SameRuns(high: int, a: seq<nat>, b: seq<nat>, gap: bool) {
    forall n: int :: Agree(high, a, b, gap, n)
  }

  /** Just below its first run, a list reads the opposite way, or ends. */
  lemma AfterFirst(high: int, a: seq<nat>, gap: bool)
    requires AllPositive(a) && a != []
    ensures InRuns(high, a, gap, high) == !gap
    ensures InRuns(high, a, gap, high - a[0]) == (gap && |a| > 1)
  {
    if |a| > 1 {
      assert a[1..][0] == a[1];
    }
  }

  lemma FirstRunAtMost(high: int, a: seq<nat>, b: seq<nat>, gap: bool)
    requires AllPositive(a) && AllPositive(b) && SameRuns(high, a, b, gap)
    requires (|a| % 2 == 1) == (|b| % 2 == 1) == !gap
    requires a != []
    ensures b != [] && a[0] <= b[0]
  {
    AfterFirst(high, a, gap);
    assert Agree(high, a, b, gap, high) && Agree(high, a, b, gap, high - a[0]);
    if b != [] {
      AfterFirst(high, b, gap);
      assert Agree(high, a, b, gap, high - b[0]);
    }
  }

  lemma SameRunsSym(high: int, a: seq<nat>, b: seq<nat>, gap: bool)
    requires SameRuns(high, a, b, gap)
    ensures SameRuns(high, b, a, gap)
  {
    forall n: int ensures Agree(high, b, a, gap, n) {
      assert Agree(high, a, b, gap, n);
    }
  }

  lemma {:induction false} Canonical(high: int, a: seq<nat>, b: seq<nat>, gap: bool)
    requires AllPositive(a) && AllPositive(b) && SameRuns(high, a, b, gap)
    requires (|a| % 2 == 1) == (|b| % 2 == 1) == !gap
    ensures a == b
    decreases |a|
  {
    SameRunsSym(high, a, b, gap);
    if a != [] {
      FirstRunAtMost(high, a, b, gap);
      FirstRunAtMost(high, b, a, gap);
      var low, a', b', gap' := high - a[0], a[1..], b[1..], !gap;
      forall n: int ensures Agree(low, a', b', gap', n) {
        assert Agree(high, a, b, gap, n);
        if n > low {
          if InRuns(low, a', gap', n) { SeenInside(low, a', gap', n); }
          if InRuns(low, b', gap', n) { SeenInside(low, b', gap', n); }
        }
      }
      Canonical(low, a', b', gap');
      assert a == [a[0]] + a' && b == [b[0]] + b';
    } else if b != [] {
      FirstRunAtMost(high, b, a, gap);
    }
  }

  /** Without a trim, the set that `Recorded` prescribes leaves no choice of list. */
  lemma RecordedDetermines(l: AckList, num: nat, l1: AckList, l2: AckList)
    requires Recorded(l, num, l1) && Recorded(l, num, l2) && !Trims(l, num)
    ensures l1 == l2
  {
    forall n: int ensures Agree(l1.largest, l1.ranges, l2.ranges, false, n) {
      assert Seen(l1, n) <==> Seen(l2, n);
    }
    Canonical(l1.largest, l1.ranges, l2.ranges, false);
  }

  /** A number recorded below every run leaves at most 1001 entries. */
  lemma EndLimit(l: AckList, num: nat, l': AckList)
    requires WellFormed(l) && l.ranges != [] && |l.ranges| <= 1001 && num <= Bottom(l) && Recorded(l, num, l')
    ensures |l'.ranges| <= 1001
  {
    if !Trims(l, num) {
      AtEnd(l, num);
      RecordedDetermines(l, num, l', Grown(l, num));
    }
  }

  // ---- The program ------------------------------------------------------------------------------------

  class AckRanges {
    var ranges: seq<nat>
    var largest: nat

    function Value(): AckList
      reads this
    {
      AckList(ranges, largest)
    }

    constructor ()
      ensures Value() == Empty
    {
      ranges, largest := [], 0;
    }

    method AddPacketNumber(num: nat)
      requires WellFormed(Value())
      modifies this
      ensures Recorded(old(Value()), num, Value())
    {
      hide Recorded, InRuns, AllPositive;
      ghost var l := Value();
      if |ranges| == 0 {
        First(l, num);
        ranges := ranges + [1];
        assert ranges == [1];
        largest := num;
        return;
      }

      // Above every run.
      if num > largest {
        if num == largest + 1 {
          ExtendTop(l, num);
          ranges := ranges[0 := ranges[0] + 1];
        } else {
          NewTop(l, num);
          ranges := [num - largest - 1] + ranges;
          ranges := [1] + ranges;
          assert ranges == [1, num - l.largest - 1] + l.ranges;
        }
        largest := num;
        return;
      }

      var high: int := largest;
      var gap := false;
      var i := 0;
      while i < |ranges|
        invariant Value() == l
        invariant 0 <= i <= |ranges| && gap == (i % 2 == 1)
        invariant high == largest - Sum(ranges[..i]) && num <= high
      {
        var low := high - ranges[i];
        // The run holds the numbers above `low` up to `high`.
        if high >= num && num >= low + 1 {
          if !gap {
            AlreadySeen(l, i, high, num);
            return;
          }

          InsertInGap(i, high, num);
          return;
        }

        assert ranges[..i + 1] == ranges[..i] + [ranges[i]];
        SumSplit(ranges[..i], [ranges[i]]);
        SumOfTwo(ranges[i], 0);
        high := low;
        gap := !gap;
        i := i + 1;
      }

      assert ranges[..i] == ranges;
      AppendAtEnd(high, num);
    }

    /** The cases of a number inside gap `i`, whose highest number is `high`. */
    method InsertInGap(i: nat, high: int, num: nat)
      requires WellFormed(Value()) && 0 < i < |ranges| && i % 2 == 1
      requires high == largest - Sum(ranges[..i]) && high - ranges[i] < num <= high
      modifies this
      ensures Recorded(old(Value()), num, Value())
    {
      hide Recorded, InRuns, AllPositive, WellFormed;
      ghost var l := Value();
      OddLength(l);
      var low := high - ranges[i];
      if num == high {
        // The number extends the run above.
        var above, here := ranges[i - 1] + 1, ranges[i] - 1;
        if here == 0 {
          JoinBoth(l, i, high, num);
          ranges := ranges[..i - 1] + [above + ranges[i + 1]] + ranges[i + 2..];
        } else {
          JoinAbove(l, i, high, num);
          ranges := ranges[i - 1 := above][i := here];
        }
      } else if num == low + 1 {
        // The number extends the run below; the gap keeps at least one other.
        JoinBelow(l, i, high, num);
        ranges := ranges[i + 1 := ranges[i + 1] + 1][i := ranges[i] - 1];
      } else {
        // The number stands alone and splits the gap.
        SplitGap(l, i, high, num);
        ranges := ranges[..i] + [high - num, 1, num - (low + 1)] + ranges[i + 1..];
      }
    }

    /** The case of a number below every run. */
    method AppendAtEnd(high: int, num: nat)
      requires WellFormed(Value()) && ranges != [] && high == Bottom(Value()) && num <= high
      modifies this
      ensures Recorded(old(Value()), num, Value())
    {
      hide Recorded, InRuns, AllPositive, WellFormed;
      ghost var l := Value();
      AtEnd(l, num);
      if high == num {
        ranges := ranges[|ranges| - 1 := ranges[|ranges| - 1] + 1];
      } else {
        ranges := ranges + [high - num] + [1];
        assert ranges == l.ranges + [high - num, 1];
      }
      if |ranges| > MAX_RANGES {
        ranges := ranges[..MAX_RANGES];
      }
    }
  }
}
