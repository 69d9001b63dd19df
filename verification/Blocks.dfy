/**
 Which inputs the block decoder accepts, and what it makes of them: exactly the blocks laid out as sized misc buffers
 followed by transactions, each in full or by its id.
 */
module Blocks {
  import opened Bytes
  import opened Compression

  datatype Entry = Whole(txn: seq<byte>) | Known(id: nat)

  function EntryBytes(e: Entry): seq<byte> {
    match e
    case Whole(txn) => [0] + EncodeLe(|txn|, 8) + txn
    case Known(id) => [1] + EncodeLe(id, 8)
  }

  function EntriesBytes(entries: seq<Entry>): seq<byte>
    decreases |entries|
  {
    if entries == [] then [] else EntryBytes(entries[0]) + EntriesBytes(entries[1..])
  }

  function BlockBytes(misc: seq<seq<byte>>, entries: seq<Entry>): seq<byte> {
    EncodeLe(|EncodeMisc(misc)|, 8) + EncodeMisc(misc) + EntriesBytes(entries)
  }

  predicate EntryFits(e: Entry) {
    match e
    case Whole(txn) => Word(|txn|)
    case Known(id) => Word(id)
  }

  /** All sizes and ids fit their fields. */
  ghost predicate AllFit(misc: seq<seq<byte>>, entries: seq<Entry>) {
    && Word(|EncodeMisc(misc)|) && (forall i :: 0 <= i < |misc| ==> Word(|misc[i]|))
    && EntriesFit(entries)
  }

  predicate EntriesFit(entries: seq<Entry>) {
    forall i :: 0 <= i < |entries| ==> EntryFits(entries[i])
  }

  lemma FitFirst(e: Entry, rest: seq<Entry>)
    ensures EntriesFit([e] + rest) <==> EntryFits(e) && EntriesFit(rest)
  {
    var entries := [e] + rest;
    if EntriesFit(entries) {
      assert entries[0] == e;
      forall i | 0 <= i < |rest| ensures EntryFits(rest[i]) { assert entries[i + 1] == rest[i]; }
    }
  }

  lemma BytesFirst(e: Entry, rest: seq<Entry>)
    ensures EntriesBytes([e] + rest) == EntryBytes(e) + EntriesBytes(rest)
  {
    assert ([e] + rest)[1..] == rest;
  }

  predicate IsMissed(cache: Cache, e: Entry) { e.Known? && e.id !in cache }

  function SlotFor(cache: Cache, e: Entry): Slot {
    match e
    case Whole(txn) => Txn(txn)
    case Known(id) => if id in cache then Txn(cache[id]) else Hole
  }

  /** A slot for each entry. */
  ghost predicate SlotsRead(cache: Cache, entries: seq<Entry>, slots: seq<Slot>) {
    |slots| == |entries| && forall k :: 0 <= k < |entries| ==> slots[k] == SlotFor(cache, entries[k])
  }

  /** Index `i`, counted from `base`, is that of an entry that names the missed id. */
  predicate MissedAt(cache: Cache, entries: seq<Entry>, base: nat, id: nat, i: nat) {
    base <= i < base + |entries| && entries[i - base] == Known(id) && id !in cache
  }

  /** The holes map each missed id to the last index it stands at, and nothing else. The first entry has index `base`. */
  ghost predicate HolesRead(cache: Cache, entries: seq<Entry>, base: nat, holes: map<nat, nat>) {
    && (forall id, i :: MissedAt(cache, entries, base, id, i) ==> id in holes && i <= holes[id])
    && (forall id :: id in holes ==> MissedAt(cache, entries, base, id, holes[id]))
  }

  lemma SlotRead(cache: Cache, e: Entry, rest: seq<Entry>, slots: seq<Slot>)
    requires SlotsRead(cache, rest, slots)
    ensures SlotsRead(cache, [e] + rest, [SlotFor(cache, e)] + slots)
  {
  }

  function HoleFor(cache: Cache, e: Entry, base: nat): map<nat, nat> {
    if IsMissed(cache, e) then map[e.id := base] else map[]
  }

  lemma MissedLater(cache: Cache, e: Entry, rest: seq<Entry>, base: nat, id: nat, i: nat)
    ensures MissedAt(cache, [e] + rest, base, id, i) <==>
      (i == base && e == Known(id) && id !in cache) || MissedAt(cache, rest, base + 1, id, i)
  {
    if base < i < base + 1 + |rest| { assert ([e] + rest)[i - base] == rest[i - (base + 1)]; }
  }

  lemma HoleRead(cache: Cache, e: Entry, rest: seq<Entry>, base: nat, holes: map<nat, nat>)
    requires HolesRead(cache, rest, base + 1, holes)
    ensures HolesRead(cache, [e] + rest, base, HoleFor(cache, e, base) + holes)
  {
    assert forall id :: id in holes ==> base + 1 <= holes[id];
    hide MissedAt;
    var all := HoleFor(cache, e, base) + holes;
    forall id, i | MissedAt(cache, [e] + rest, base, id, i) ensures id in all && i <= all[id] {
      MissedLater(cache, e, rest, base, id, i);
    }
    forall id | id in all ensures MissedAt(cache, [e] + rest, base, id, all[id]) {
      MissedLater(cache, e, rest, base, id, all[id]);
    }
  }

  // ---- Every laid-out block is accepted ---------------------------------------------------------------------

  lemma {:induction false} EntriesDecode(cache: Cache, b: seq<byte>, offset: nat, base: nat, entries: seq<Entry>)
    requires offset <= |b| && b[offset..] == EntriesBytes(entries) && EntriesFit(entries)
    ensures var r := ReadTxns(cache, b, offset, base);
      r.Some? && SlotsRead(cache, entries, r.value.0) && HolesRead(cache, entries, base, r.value.1)
    decreases |entries|
  {
    hide SlotsRead, HolesRead, EntryFits, EntriesFit, EntryBytes, EntriesBytes, ReadTxns, SlotFor, HoleFor, Before;
    if entries == [] {
      NoneDecode(cache, b, offset, base);
    } else {
      var e, rest := entries[0], entries[1..];
      assert entries == [e] + rest;
      FitFirst(e, rest);
      BytesFirst(e, rest);
      EntryDecodes(cache, b, offset, base, e, EntriesBytes(rest));
      var next := offset + |EntryBytes(e)|;
      EntriesDecode(cache, b, next, base + 1, rest);
      EntriesMore(cache, e, rest, base, ReadTxns(cache, b, next, base + 1));
    }
  }

  lemma NoneDecode(cache: Cache, b: seq<byte>, offset: nat, base: nat)
    requires offset <= |b| && b[offset..] == EntriesBytes([])
    ensures var r := ReadTxns(cache, b, offset, base); r.Some? && SlotsRead(cache, [], r.value.0) && HolesRead(cache, [], base, r.value.1)
  {
    assert |b[offset..]| == |b| - offset;
  }

  lemma SplitAt(b: seq<byte>, x: nat, y: nat)
    requires x <= y <= |b|
    ensures b[x..] == b[x..y] + b[y..] && b == b[..x] + b[x..y] + b[y..]
  {
  }

  lemma EntriesMore(cache: Cache, e: Entry, rest: seq<Entry>, base: nat, r: Read)
    requires r.Some? && SlotsRead(cache, rest, r.value.0) && HolesRead(cache, rest, base + 1, r.value.1)
    ensures var all := Before(SlotFor(cache, e), HoleFor(cache, e, base), r);
      all.Some? && SlotsRead(cache, [e] + rest, all.value.0) && HolesRead(cache, [e] + rest, base, all.value.1)
  {
    SlotRead(cache, e, rest, r.value.0);
    HoleRead(cache, e, rest, base, r.value.1);
    hide SlotsRead, HolesRead;
  }

  lemma EntryDecodes(cache: Cache, b: seq<byte>, offset: nat, base: nat, e: Entry, rest: seq<byte>)
    requires offset <= |b| && b[offset..] == EntryBytes(e) + rest && EntryFits(e)
    ensures offset + |EntryBytes(e)| <= |b| && b[offset + |EntryBytes(e)|..] == rest
    ensures ReadTxns(cache, b, offset, base)
      == Before(SlotFor(cache, e), HoleFor(cache, e, base), ReadTxns(cache, b, offset + |EntryBytes(e)|, base + 1))
  {
    EntryAt(b, offset, e, rest);
    hide EntryBytes, EntryFits, DecodeLe;
  }

  lemma EntryAt(b: seq<byte>, offset: nat, e: Entry, rest: seq<byte>)
    requires offset <= |b| && b[offset..] == EntryBytes(e) + rest && EntryFits(e)
    ensures offset + |EntryBytes(e)| <= |b| && b[offset + |EntryBytes(e)|..] == rest && offset + 9 <= |b|
    ensures b[offset] == (if e.Whole? then 0 else 1)
    ensures DecodeLe(b[offset + 1..offset + 9]) == (if e.Whole? then |e.txn| else e.id)
    ensures |EntryBytes(e)| == 9 + (if e.Whole? then |e.txn| else 0)
    ensures e.Whole? ==> offset + 9 + |e.txn| <= |b| && b[offset + 9..offset + 9 + |e.txn|] == e.txn
  {
    var word := if e.Whole? then |e.txn| else e.id;
    LeRoundTrip(word, 8);
    hide EncodeLe, DecodeLe, Word;
    match e
    case Whole(txn) => FullAt(b, offset, [0], EncodeLe(word, 8), txn, rest);
    case Known(id) => CachedAt(b, offset, [1], EncodeLe(word, 8), rest);
  }

  /** Decoding a laid-out block gives back its misc buffers; for each entry the transaction sent in full or known here,
      or an empty marker; and for each missed id its last index. */
  lemma DecodeLaidOut(cache: Cache, misc: seq<seq<byte>>, entries: seq<Entry>)
    requires AllFit(misc, entries)
    ensures var r := Decode(cache, BlockBytes(misc, entries));
      && r.Some? && r.value.misc == misc
      && SlotsRead(cache, entries, r.value.txns) && HolesRead(cache, entries, 0, r.value.holes)
  {
    var b := BlockBytes(misc, entries);
    var f, m, e := EncodeLe(|EncodeMisc(misc)|, 8), EncodeMisc(misc), EntriesBytes(entries);
    LeRoundTrip(|m|, 8);
    hide EncodeLe, EncodeMisc, DecodeLe, ReadMisc, ReadTxns, SlotsRead, HolesRead, EntriesBytes, EntriesFit, Word, Decode;
    ThreeParts(f, m, e);
    MiscReadBack(b, 8, 8 + |m|, misc);
    EntriesDecode(cache, b, 8 + |m|, 0, entries);
    DecodeFrom(cache, b, |m|);
  }

  lemma DecodeFrom(cache: Cache, b: seq<byte>, size: nat)
    requires 8 + size <= |b| && DecodeLe(b[..8]) == size
    requires ReadMisc(b, 8, 8 + size).Some? && ReadTxns(cache, b, 8 + size, 0).Some?
    ensures var r := ReadTxns(cache, b, 8 + size, 0).value;
      Decode(cache, b) == Some(Block(ReadMisc(b, 8, 8 + size).value, r.0, r.1))
  {
    hide ReadMisc, ReadTxns, DecodeLe;
  }

  // ---- And nothing else -------------------------------------------------------------------------------------

  lemma {:induction false} MiscLaidOut(b: seq<byte>, offset: nat, end: nat)
    requires offset <= end <= |b| && ReadMisc(b, offset, end).Some?
    ensures var misc := ReadMisc(b, offset, end).value;
      b[offset..end] == EncodeMisc(misc) && forall i :: 0 <= i < |misc| ==> Word(|misc[i]|)
    decreases end - offset
  {
    if offset < end {
      var word := b[offset..offset + 8];
      var size := DecodeLe(word);
      LeReadBack(word);
      hide EncodeLe, DecodeLe, EncodeMisc;
      var next := offset + 8 + size;
      PastEnd(b, next, end);
      MiscLaidOut(b, next, end);
      var m, rest := b[offset + 8..next], ReadMisc(b, next, end).value;
      MiscFront(m, rest);
      assert b[offset..end] == word + m + b[next..end];
    }
  }

  lemma PastEnd(b: seq<byte>, offset: nat, end: nat)
    requires ReadMisc(b, offset, end).Some?
    ensures offset <= end
  {
  }

  lemma WholeLaid(b: seq<byte>, offset: nat, n: nat)
    requires offset + 9 + n <= |b| && b[offset] == 0 && DecodeLe(b[offset + 1..offset + 9]) == n
    ensures b[offset..offset + 9 + n] == EntryBytes(Whole(b[offset + 9..offset + 9 + n])) && Word(n)
  {
    LeReadBack(b[offset + 1..offset + 9]);
    hide EncodeLe, DecodeLe;
    assert b[offset..offset + 9 + n] == [b[offset]] + b[offset + 1..offset + 9] + b[offset + 9..offset + 9 + n];
  }

  lemma KnownLaid(b: seq<byte>, offset: nat, n: nat)
    requires offset + 9 <= |b| && b[offset] == 1 && DecodeLe(b[offset + 1..offset + 9]) == n
    ensures b[offset..offset + 9] == EntryBytes(Known(n)) && Word(n)
  {
    LeReadBack(b[offset + 1..offset + 9]);
    hide EncodeLe, DecodeLe;
    assert b[offset..offset + 9] == [b[offset]] + b[offset + 1..offset + 9];
  }

  lemma {:induction false} EntriesLaidOut(cache: Cache, b: seq<byte>, offset: nat, base: nat) returns (entries: seq<Entry>)
    requires offset <= |b| && ReadTxns(cache, b, offset, base).Some?
    ensures b[offset..] == EntriesBytes(entries) && EntriesFit(entries)
    decreases |b| - offset
  {
    hide EntryBytes, EntriesBytes, EntriesFit, EntryFits, ReadTxns;
    if offset < |b| {
      var e, next := FirstLaid(cache, b, offset, base);
      var rest := EntriesLaidOut(cache, b, next, base + 1);
      entries := [e] + rest;
      FitFirst(e, rest);
      BytesFirst(e, rest);
      SplitAt(b, offset, next);
    } else {
      entries := [];
      NothingLaid();
    }
  }

  lemma NothingLaid()
    ensures EntriesBytes([]) == [] && EntriesFit([])
  {
  }

  lemma FirstLaid(cache: Cache, b: seq<byte>, offset: nat, base: nat) returns (e: Entry, next: nat)
    requires offset < |b| && ReadTxns(cache, b, offset, base).Some?
    ensures offset < next <= |b| && b[offset..next] == EntryBytes(e) && EntryFits(e) && ReadTxns(cache, b, next, base + 1).Some?
  {
    hide EncodeLe, DecodeLe, EntryBytes;
    var n := DecodeLe(b[offset + 1..offset + 9]);
    if b[offset] == 0 {
      e, next := Whole(b[offset + 9..offset + 9 + n]), offset + 9 + n;
      WholeLaid(b, offset, n);
    } else {
      e, next := Known(n), offset + 9;
      KnownLaid(b, offset, n);
    }
  }

  lemma DecodeParts(cache: Cache, b: seq<byte>)
    requires Decode(cache, b).Some?
    ensures 8 <= |b| && 8 + DecodeLe(b[..8]) <= |b|
    ensures var start := 8 + DecodeLe(b[..8]); ReadMisc(b, 8, start).Some? && ReadTxns(cache, b, start, 0).Some?
  {
    hide ReadMisc, ReadTxns, DecodeLe;
  }

  lemma AcceptedLaidOut(cache: Cache, b: seq<byte>) returns (misc: seq<seq<byte>>, entries: seq<Entry>)
    requires Decode(cache, b).Some?
    ensures AllFit(misc, entries) && b == BlockBytes(misc, entries)
  {
    DecodeParts(cache, b);
    var word := b[..8];
    var start := 8 + DecodeLe(word);
    LeReadBack(word);
    hide EncodeLe, DecodeLe, EncodeMisc, ReadMisc, ReadTxns, EntriesBytes, EntriesFit, Decode;
    MiscLaidOut(b, 8, start);
    misc := ReadMisc(b, 8, start).value;
    entries := EntriesLaidOut(cache, b, start, 0);
    SplitAt(b, 8, start);
    assert |b[8..start]| == start - 8;
  }

  /** The decoder accepts exactly the laid-out blocks, under any cache. */
  lemma DecodesIff(cache: Cache, b: seq<byte>)
    ensures Decode(cache, b).Some? <==> exists misc, entries :: AllFit(misc, entries) && b == BlockBytes(misc, entries)
  {
    hide AllFit, BlockBytes, Decode;
    if Decode(cache, b).Some? { var misc, entries := AcceptedLaidOut(cache, b); }
    if misc, entries :| AllFit(misc, entries) && b == BlockBytes(misc, entries) { DecodeLaidOut(cache, misc, entries); }
  }
}
