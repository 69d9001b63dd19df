/** Deduplication of message ids: a set of recent ids, kept in a ring of 256 buckets that a timer empties in turn. */
module Dedup {

  const BUCKETS := 256

  datatype Ring = Ring(events: seq<seq<nat>>, idx: nat, ids: set<nat>)

  /** An id and the tick during which it was recorded. */
  datatype Entry = Entry(tick: nat, id: nat)

  function NoEvents(n: nat): (r: seq<seq<nat>>)
    ensures |r| == n && forall b :: 0 <= b < n ==> r[b] == []
  {
    if n == 0 then [] else NoEvents(n - 1) + [[]]
  }

  function FreshRing(): Ring { Ring(NoEvents(BUCKETS), 0, {}) }

  function Record(r: Ring, id: nat): Ring
    requires r.idx < |r.events|
  {
    if id in r.ids then r
    else r.(events := r.events[r.idx := r.events[r.idx] + [id]], ids := r.ids + {id})
  }

  function Elements(s: seq<nat>): set<nat> {
    set id | id in s
  }

  function Tick(r: Ring): Ring
    requires |r.events| == BUCKETS
  {
    var next := (r.idx + 1) % BUCKETS;
    r.(idx := next, ids := r.ids - Elements(r.events[next]), events := r.events[next := []])
  }

  /** An entry of the log is still remembered at tick `now`. */
  predicate Recent(e: Entry, now: nat) { e.tick + BUCKETS > now }

  ghost predicate InWindow(log: seq<Entry>, now: nat, id: nat) {
    exists i :: 0 <= i < |log| && log[i].id == id && Recent(log[i], now)
  }

  ghost predicate InBucket(log: seq<Entry>, now: nat, b: nat, id: nat) {
    exists i :: 0 <= i < |log| && log[i].id == id && log[i].tick % BUCKETS == b && Recent(log[i], now)
  }

  /** The set is the disjoint union of the buckets, each bucket holds what was recorded during its last tick, and
      two records of one id are at least a whole turn of the ring apart. */
  ghost predicate RingOk(r: Ring, now: nat, log: seq<Entry>) {
    && |r.events| == BUCKETS && r.idx == now % BUCKETS
    && (forall i :: 0 <= i < |log| ==> log[i].tick <= now)
    && (forall i, j :: 0 <= i < j < |log| && log[i].id == log[j].id ==> log[i].tick + BUCKETS <= log[j].tick)
    && (forall id :: id in r.ids <==> InWindow(log, now, id))
    && (forall b, id :: 0 <= b < BUCKETS ==> (id in r.events[b] <==> InBucket(log, now, b, id)))
    && (forall b :: 0 <= b < BUCKETS ==> NoDuplicates(r.events[b]))
  }

  predicate NoDuplicates(s: seq<nat>) {
    forall i, j :: 0 <= i < j < |s| ==> s[i] != s[j]
  }

  lemma FreshOk()
    ensures RingOk(FreshRing(), 0, [])
  {
  }

  lemma WindowAppend(log: seq<Entry>, e: Entry, now: nat, id: nat)
    requires e.tick <= now
    ensures InWindow(log + [e], now, id) <==> InWindow(log, now, id) || (id == e.id && Recent(e, now))
  {
    var more := log + [e];
    if InWindow(log, now, id) {
      var i :| 0 <= i < |log| && log[i].id == id && Recent(log[i], now);
      assert more[i] == log[i];
    }
    if id == e.id && Recent(e, now) { assert more[|log|] == e; }
  }

  lemma BucketAppend(log: seq<Entry>, e: Entry, now: nat, b: nat, id: nat)
    requires e.tick <= now
    ensures InBucket(log + [e], now, b, id) <==> InBucket(log, now, b, id) || (id == e.id && e.tick % BUCKETS == b && Recent(e, now))
  {
    var more := log + [e];
    if InBucket(log, now, b, id) {
      var i :| 0 <= i < |log| && log[i].id == id && log[i].tick % BUCKETS == b && Recent(log[i], now);
      assert more[i] == log[i];
    }
    if id == e.id && e.tick % BUCKETS == b && Recent(e, now) { assert more[|log|] == e; }
  }

  /** Recording a new id logs it under the current tick. */
  lemma RecordOk(r: Ring, now: nat, log: seq<Entry>, id: nat)
    requires RingOk(r, now, log) && id !in r.ids
    ensures RingOk(Record(r, id), now, log + [Entry(now, id)])
  {
    var e := Entry(now, id);
    var r' := Record(r, id);
    forall j ensures j in r'.ids <==> InWindow(log + [e], now, j) { WindowAppend(log, e, now, j); }
    forall b, j | 0 <= b < BUCKETS ensures j in r'.events[b] <==> InBucket(log + [e], now, b, j) {
      BucketAppend(log, e, now, b, j);
    }
    assert id !in r.events[r.idx] by {
      if InBucket(log, now, r.idx, id) { assert InWindow(log, now, id); }
    }
  }

  /** Entries leave the window exactly when their bucket comes round again. */
  lemma Expiry(now: nat, e: Entry)
    requires e.tick <= now
    ensures Recent(e, now) && !Recent(e, now + 1) <==> Recent(e, now) && e.tick % BUCKETS == (now + 1) % BUCKETS
  {
  }

  lemma WindowTick(log: seq<Entry>, now: nat, id: nat)
    requires forall i :: 0 <= i < |log| ==> log[i].tick <= now
    requires forall i, j :: 0 <= i < j < |log| && log[i].id == log[j].id ==> log[i].tick + BUCKETS <= log[j].tick
    ensures InWindow(log, now + 1, id) <==> InWindow(log, now, id) && !InBucket(log, now, (now + 1) % BUCKETS, id)
  {
    if InWindow(log, now + 1, id) {
      var i :| 0 <= i < |log| && log[i].id == id && Recent(log[i], now + 1);
      if InBucket(log, now, (now + 1) % BUCKETS, id) {
        var j :| 0 <= j < |log| && log[j].id == id && log[j].tick % BUCKETS == (now + 1) % BUCKETS && Recent(log[j], now);
        Expiry(now, log[j]);
      }
    }
    if InWindow(log, now, id) && !InBucket(log, now, (now + 1) % BUCKETS, id) {
      var i :| 0 <= i < |log| && log[i].id == id && Recent(log[i], now);
      Expiry(now, log[i]);
    }
  }

  lemma BucketTick(log: seq<Entry>, now: nat, b: nat, id: nat)
    requires forall i :: 0 <= i < |log| ==> log[i].tick <= now
    ensures InBucket(log, now + 1, b, id) <==> b != (now + 1) % BUCKETS && InBucket(log, now, b, id)
  {
    if InBucket(log, now + 1, b, id) {
      var i :| 0 <= i < |log| && log[i].id == id && log[i].tick % BUCKETS == b && Recent(log[i], now + 1);
      Expiry(now, log[i]);
    }
    if b != (now + 1) % BUCKETS && InBucket(log, now, b, id) {
      var i :| 0 <= i < |log| && log[i].id == id && log[i].tick % BUCKETS == b && Recent(log[i], now);
      Expiry(now, log[i]);
    }
  }

  lemma TickOk(r: Ring, now: nat, log: seq<Entry>)
    requires RingOk(r, now, log)
    ensures RingOk(Tick(r), now + 1, log)
  {
    hide InWindow, InBucket;
    var r' := Tick(r);
    forall id ensures id in r'.ids <==> InWindow(log, now + 1, id) { WindowTick(log, now, id); }
    forall b, id | 0 <= b < BUCKETS ensures id in r'.events[b] <==> InBucket(log, now + 1, b, id) { BucketTick(log, now, b, id); }
  }

  // ---- Runs -----------------------------------------------------------------------------------------------

  /** What a node does with its ring: it sees a message id, or its timer ticks. */
  datatype Op = See(id: nat) | Ticks

  /** The ring after a run, the tick it has reached, and the log of the ids it accepted. */
  datatype Trace = Trace(ring: Ring, now: nat, log: seq<Entry>)

  function Step(t: Trace, op: Op): (t': Trace)
    requires |t.ring.events| == BUCKETS && t.ring.idx < BUCKETS
    ensures |t'.ring.events| == BUCKETS && t'.ring.idx < BUCKETS
  {
    match op
    case Ticks => t.(ring := Tick(t.ring), now := t.now + 1)
    case See(id) => if id in t.ring.ids then t else t.(ring := Record(t.ring, id), log := t.log + [Entry(t.now, id)])
  }

  function Run(ops: seq<Op>): (t: Trace)
    ensures |t.ring.events| == BUCKETS && t.ring.idx < BUCKETS
  {
    if ops == [] then Trace(FreshRing(), 0, []) else Step(Run(ops[..|ops| - 1]), ops[|ops| - 1])
  }

  /** After any run the ring is in order: its set is the union of its pairwise disjoint buckets and holds exactly
      the ids accepted since their 256th-last tick. */
  lemma {:induction false} RunOk(ops: seq<Op>)
    ensures RingOk(Run(ops).ring, Run(ops).now, Run(ops).log)
  {
    if ops == [] {
      FreshOk();
    } else {
      var t := Run(ops[..|ops| - 1]);
      RunOk(ops[..|ops| - 1]);
      match ops[|ops| - 1]
      case Ticks => TickOk(t.ring, t.now, t.log);
      case See(id) => if id !in t.ring.ids { RecordOk(t.ring, t.now, t.log, id); }
    }
  }

  lemma BucketOf(t: Trace, id: nat) returns (b: nat)
    requires RingOk(t.ring, t.now, t.log) && id in t.ring.ids
    ensures b < BUCKETS && id in t.ring.events[b]
  {
    hide InBucket, Recent;
    assert InWindow(t.log, t.now, id);
    var i :| 0 <= i < |t.log| && t.log[i].id == id && Recent(t.log[i], t.now);
    b := t.log[i].tick % BUCKETS;
    assert InBucket(t.log, t.now, b, id) by { InBucketIntro(t.log, t.now, id, i); }
  }

  lemma InBucketIntro(log: seq<Entry>, now: nat, id: nat, i: nat)
    requires i < |log| && log[i].id == id && Recent(log[i], now)
    ensures InBucket(log, now, log[i].tick % BUCKETS, id)
  {
  }

  lemma InBucketElim(log: seq<Entry>, now: nat, b: nat, id: nat) returns (i: nat)
    requires InBucket(log, now, b, id)
    ensures i < |log| && log[i].id == id && log[i].tick % BUCKETS == b && Recent(log[i], now)
  {
    i :| 0 <= i < |log| && log[i].id == id && log[i].tick % BUCKETS == b && Recent(log[i], now);
  }

  lemma OneBucket(t: Trace, id: nat, b: nat, b': nat)
    requires RingOk(t.ring, t.now, t.log) && b < BUCKETS && b' < BUCKETS
    requires id in t.ring.events[b] && id in t.ring.events[b']
    ensures b == b' && id in t.ring.ids
  {
    hide InBucket, Recent;
    var i := InBucketElim(t.log, t.now, b, id);
    var j := InBucketElim(t.log, t.now, b', id);
    assert InWindow(t.log, t.now, id);
  }

  lemma BucketsAreTheSet(ops: seq<Op>, id: nat)
    ensures var r := Run(ops).ring;
      && (id in r.ids <==> exists b :: 0 <= b < BUCKETS && id in r.events[b])
      && (forall b, b' :: 0 <= b < BUCKETS && 0 <= b' < BUCKETS && id in r.events[b] && id in r.events[b'] ==> b == b')
  {
    hide RingOk;
    RunOk(ops);
    var t := Run(ops);
    if id in t.ring.ids { var b := BucketOf(t, id); }
    forall b, b' | 0 <= b < BUCKETS && 0 <= b' < BUCKETS && id in t.ring.events[b] && id in t.ring.events[b']
      ensures b == b' && id in t.ring.ids
    {
      OneBucket(t, id, b, b');
    }
  }

  /** A node accepts one id at most once in any 256 ticks, however often it receives it. */
  lemma AcceptedOncePerWindow(ops: seq<Op>, i: nat, j: nat)
    requires i < j < |Run(ops).log| && Run(ops).log[i].id == Run(ops).log[j].id
    ensures Run(ops).log[i].tick + 256 <= Run(ops).log[j].tick
  {
    RunOk(ops);
  }

  /** And it accepts again as soon as the window has passed: an id is refused exactly while its last
      acceptance is recent. */
  lemma RefusedIffRecent(ops: seq<Op>, id: nat)
    ensures var t := Run(ops); id in t.ring.ids <==> exists i :: 0 <= i < |t.log| && t.log[i].id == id && t.log[i].tick + 256 > t.now
  {
    RunOk(ops);
    var t := Run(ops);
    assert id in t.ring.ids <==> InWindow(t.log, t.now, id);
    if InWindow(t.log, t.now, id) {
      var i :| 0 <= i < |t.log| && t.log[i].id == id && Recent(t.log[i], t.now);
      assert t.log[i].tick + 256 > t.now;
    }
    if i :| 0 <= i < |t.log| && t.log[i].id == id && t.log[i].tick + 256 > t.now { assert Recent(t.log[i], t.now); }
  }
}
