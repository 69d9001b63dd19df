/** Blocks compressed against a cache of known transactions: a transaction the cache holds travels as its id. */
module Compression {
  import opened Bytes

  /** The 8-byte transaction hash. */
  type Hash = seq<byte> -> nat

  type Cache = map<nat, seq<byte>>

  const SLACK := 10000

  // ---- Encoding -------------------------------------------------------------------------------------------

  function EncodeMisc(misc: seq<seq<byte>>): seq<byte> {
    if misc == [] then [] else EncodeMisc(misc[..|misc| - 1]) + (EncodeLe(|misc[|misc| - 1]|, 8) + misc[|misc| - 1])
  }

  /** One transaction: type 1 and its id if it is cached, else type 0, its length and its bytes. The id is copied
      as the hash lies in memory, here least significant byte first. */
  function EncodeTxn(hash: Hash, cache: Cache, txn: seq<byte>): seq<byte> {
    if hash(txn) in cache then [1] + EncodeLe(hash(txn), 8) else [0] + EncodeLe(|txn|, 8) + txn
  }

  function EncodeTxns(hash: Hash, cache: Cache, txns: seq<seq<byte>>): seq<byte> {
    if txns == [] then [] else EncodeTxns(hash, cache, txns[..|txns| - 1]) + EncodeTxn(hash, cache, txns[|txns| - 1])
  }

  function Encode(hash: Hash, cache: Cache, misc: seq<seq<byte>>, txns: seq<seq<byte>>): seq<byte> {
    EncodeLe(|EncodeMisc(misc)|, 8) + EncodeMisc(misc) + EncodeTxns(hash, cache, txns)
  }

  function MiscSize(misc: seq<seq<byte>>): nat {
    if misc == [] then 0 else MiscSize(misc[..|misc| - 1]) + |misc[|misc| - 1]|
  }

  /** The size of the buffer `compress` allocates. */
  function Capacity(misc: seq<seq<byte>>, txns: seq<seq<byte>>): nat {
    MiscSize(misc) + 8 * |txns| + SLACK
  }

  /** The check in front of transaction `i` throws: it is uncached, and starts too close to the end of the buffer. */
  predicate ThrowsAt(hash: Hash, cache: Cache, misc: seq<seq<byte>>, txns: seq<seq<byte>>, i: nat)
    requires i <= |txns|
  {
    i < |txns| && hash(txns[i]) !in cache && |Encode(hash, cache, misc, txns[..i])| + 8 * |txns| > Capacity(misc, txns)
  }

  predicate Throws(hash: Hash, cache: Cache, misc: seq<seq<byte>>, txns: seq<seq<byte>>) {
    exists i :: 0 <= i < |txns| && ThrowsAt(hash, cache, misc, txns, i)
  }

  /** `compress` throws before it has written past its buffer. */
  predicate ThrowsFirst(hash: Hash, cache: Cache, misc: seq<seq<byte>>, txns: seq<seq<byte>>) {
    exists i :: 0 <= i < |txns| && ThrowsAt(hash, cache, misc, txns, i) && |Encode(hash, cache, misc, txns[..i])| <= Capacity(misc, txns)
  }

  /** The whole encoding fits the buffer and no check throws. */
  predicate Fits(hash: Hash, cache: Cache, misc: seq<seq<byte>>, txns: seq<seq<byte>>) {
    |Encode(hash, cache, misc, txns)| <= Capacity(misc, txns) && !Throws(hash, cache, misc, txns)
  }

  // ---- Decoding -------------------------------------------------------------------------------------------

  /** A decoded transaction, or the empty marker left for an id the cache does not hold. */
  datatype Slot = Txn(bytes: seq<byte>) | Hole

  datatype Block = Block(misc: seq<seq<byte>>, txns: seq<Slot>, holes: map<nat, nat>)

  function ReadMisc(b: seq<byte>, offset: nat, end: nat): Option<seq<seq<byte>>>
    decreases end - offset
  {
    if offset >= end then (if offset == end then Some([]) else None)
    else if |b| < offset + 8 then None
    else
      var size := DecodeLe(b[offset..offset + 8]);
      if |b| < offset + 8 + size then None
      else
        match ReadMisc(b, offset + 8 + size, end)
        case None => None
        case Some(rest) => Some([b[offset + 8..offset + 8 + size]] + rest)
  }

  type Read = Option<(seq<Slot>, map<nat, nat>)>

  function Before(slot: Slot, hole: map<nat, nat>, rest: Read): Read {
    match rest
    case None => None
    case Some(more) => Some(([slot] + more.0, hole + more.1))
  }

  /** Transactions from `offset` on, the first of which gets index `index`. */
  function ReadTxns(cache: Cache, b: seq<byte>, offset: nat, index: nat): Read
    decreases |b| - offset
  {
    if offset >= |b| then Some(([], map[]))
    else if |b| < offset + 9 then None
    else
      var n := DecodeLe(b[offset + 1..offset + 9]);
      if b[offset] == 0 then
        if |b| < offset + 9 + n then None
        else
          Before(Txn(b[offset + 9..offset + 9 + n]), map[], ReadTxns(cache, b, offset + 9 + n, index + 1))
      else if b[offset] == 1 then
        if n in cache then Before(Txn(cache[n]), map[], ReadTxns(cache, b, offset + 9, index + 1))
        else Before(Hole, map[n := index], ReadTxns(cache, b, offset + 9, index + 1))
      else None
  }

  function Decode(cache: Cache, b: seq<byte>): Option<Block> {
    if |b| < 8 then None
    else
      var size := DecodeLe(b[..8]);
      if |b| < 8 + size then None
      else
        match ReadMisc(b, 8, 8 + size)
        case None => None
        case Some(misc) =>
          match ReadTxns(cache, b, 8 + size, 0)
          case None => None
          case Some(rest) => Some(Block(misc, rest.0, rest.1))
  }

  // ---- Round trip -----------------------------------------------------------------------------------------

  predicate Word(n: nat) { n < Range(8) }

  ghost predicate Encodable(hash: Hash, misc: seq<seq<byte>>, txns: seq<seq<byte>>) {
    && Word(|EncodeMisc(misc)|)
    && (forall i :: 0 <= i < |misc| ==> Word(|misc[i]|))
    && (forall i :: 0 <= i < |txns| ==> Word(|txns[i]|) && Word(hash(txns[i])))
  }

  /** What becomes of transaction `i` for a reader with its own cache. */
  function SlotOf(hash: Hash, writer: Cache, reader: Cache, txn: seq<byte>): Slot {
    if hash(txn) !in writer then Txn(txn)
    else if hash(txn) in reader then Txn(reader[hash(txn)]) else Hole
  }

  /** The id of a transaction whose place the reader cannot fill. */
  predicate IsMissing(hash: Hash, writer: Cache, reader: Cache, txns: seq<seq<byte>>, i: nat) {
    i < |txns| && hash(txns[i]) in writer && hash(txns[i]) !in reader
  }

  /** Each missing id maps to its last index. */
  ghost predicate HolesOk(hash: Hash, writer: Cache, reader: Cache, txns: seq<seq<byte>>, holes: map<nat, nat>) {
    && (forall i: nat :: IsMissing(hash, writer, reader, txns, i) ==> hash(txns[i]) in holes && i <= holes[hash(txns[i])])
    && (forall id :: id in holes ==> IsMissing(hash, writer, reader, txns, holes[id]) && hash(txns[holes[id]]) == id)
  }

  lemma {:induction false} MiscFront(first: seq<byte>, rest: seq<seq<byte>>)
    ensures EncodeMisc([first] + rest) == EncodeLe(|first|, 8) + first + EncodeMisc(rest)
    decreases |rest|
  {
    var n := |rest|;
    var all := [first] + rest;
    if n == 0 {
      assert all == [first] && all[..0] == [];
      assert EncodeMisc(all) == EncodeMisc(all[..0]) + (EncodeLe(|first|, 8) + first);
    } else {
      assert all[..n] == [first] + rest[..n - 1];
      MiscFront(first, rest[..n - 1]);
    }
  }

  lemma TxnsSnoc(hash: Hash, cache: Cache, txns: seq<seq<byte>>, last: seq<byte>)
    ensures EncodeTxns(hash, cache, txns + [last]) == EncodeTxns(hash, cache, txns) + EncodeTxn(hash, cache, last)
    ensures EncodeTxns(hash, cache, []) == []
  {
    hide EncodeTxn;
    assert (txns + [last])[..|txns|] == txns;
  }

  lemma {:induction false} TxnsFront(hash: Hash, cache: Cache, first: seq<byte>, rest: seq<seq<byte>>)
    ensures EncodeTxns(hash, cache, [first] + rest) == EncodeTxn(hash, cache, first) + EncodeTxns(hash, cache, rest)
    decreases |rest|
  {
    hide EncodeTxn, EncodeTxns;
    var n := |rest|;
    if n == 0 {
      TxnsSnoc(hash, cache, [], first);
      assert [] + [first] == [first] + rest && rest == [];
    } else {
      var init, last := rest[..n - 1], rest[n - 1];
      TxnsFront(hash, cache, first, init);
      TxnsSnoc(hash, cache, [first] + init, last);
      TxnsSnoc(hash, cache, init, last);
      assert [first] + rest == [first] + init + [last] && rest == init + [last];
    }
  }

  lemma SubSlice(b: seq<byte>, from: nat, to: nat, x: nat, y: nat)
    requires from <= to <= |b| && x <= y <= to - from
    ensures b[from..to][x..y] == b[from + x..from + y]
  {
    var s := b[from..to];
    forall i | 0 <= i < y - x ensures s[x..y][i] == b[from + x..from + y][i] {
      assert s[x + i] == b[from + x + i];
    }
  }

  lemma Parts(b: seq<byte>, from: nat, to: nat, f: seq<byte>, m: seq<byte>, rest: seq<byte>)
    requires from <= to <= |b| && b[from..to] == f + m + rest
    ensures from + |f| + |m| + |rest| == to
    ensures b[from..from + |f|] == f && b[from + |f|..from + |f| + |m|] == m && b[from + |f| + |m|..to] == rest
  {
    assert |b[from..to]| == |f| + |m| + |rest|;
    ThreeParts(f, m, rest);
    SubSlice(b, from, to, 0, |f|);
    SubSlice(b, from, to, |f|, |f| + |m|);
    SubSlice(b, from, to, |f| + |m|, to - from);
  }

  lemma WordAt(b: seq<byte>, offset: nat, value: nat)
    requires Word(value) && offset + 8 <= |b| && b[offset..offset + 8] == EncodeLe(value, 8)
    ensures DecodeLe(b[offset..offset + 8]) == value
  {
    LeRoundTrip(value, 8);
  }

  lemma {:induction false} MiscReadBack(b: seq<byte>, offset: nat, end: nat, misc: seq<seq<byte>>)
    requires offset <= end <= |b| && b[offset..end] == EncodeMisc(misc)
    requires forall i :: 0 <= i < |misc| ==> Word(|misc[i]|)
    ensures ReadMisc(b, offset, end) == Some(misc)
    decreases |misc|
  {
    if misc != [] {
      hide EncodeLe, EncodeMisc, DecodeLe, Word;
      var m, rest := misc[0], misc[1..];
      assert misc == [m] + rest;
      MiscFront(m, rest);
      MiscAt(b, offset, end, m, EncodeMisc(rest));
      hide ReadMisc;
      MiscReadBack(b, offset + 8 + |m|, end, rest);
    }
  }

  /** The first misc buffer at `offset`. */
  lemma MiscAt(b: seq<byte>, offset: nat, end: nat, m: seq<byte>, rest: seq<byte>)
    requires offset <= end <= |b| && b[offset..end] == EncodeLe(|m|, 8) + m + rest && Word(|m|)
    ensures offset + 8 + |m| <= end && b[offset + 8 + |m|..end] == rest
    ensures ReadMisc(b, offset, end) ==
      match ReadMisc(b, offset + 8 + |m|, end) case None => None case Some(more) => Some([m] + more)
  {
    hide EncodeLe, DecodeLe, Word;
    Parts(b, offset, end, EncodeLe(|m|, 8), m, rest);
    WordAt(b, offset, |m|);
  }

  /** What the reader makes of the transactions from index `i` on. */
  ghost predicate ReadOk(hash: Hash, writer: Cache, reader: Cache, txns: seq<seq<byte>>, i: nat, slots: seq<Slot>, holes: map<nat, nat>) {
    && i <= |txns| && |slots| == |txns| - i
    && (forall k :: 0 <= k < |slots| ==> slots[k] == SlotOf(hash, writer, reader, txns[i + k]))
    && (forall j: nat :: i <= j && IsMissing(hash, writer, reader, txns, j) ==> hash(txns[j]) in holes && j <= holes[hash(txns[j])])
    && (forall id :: id in holes ==> i <= holes[id] && IsMissing(hash, writer, reader, txns, holes[id]) && hash(txns[holes[id]]) == id)
  }

  lemma ReadStep(hash: Hash, writer: Cache, reader: Cache, txns: seq<seq<byte>>, i: nat, slots: seq<Slot>, holes: map<nat, nat>)
    requires i < |txns| && ReadOk(hash, writer, reader, txns, i + 1, slots, holes)
    ensures var slot := SlotOf(hash, writer, reader, txns[i]);
      ReadOk(hash, writer, reader, txns, i, [slot] + slots,
             if slot.Hole? then map[hash(txns[i]) := i] + holes else holes)
  {
    var slot := SlotOf(hash, writer, reader, txns[i]);
    var all := [slot] + slots;
    forall k | 0 <= k < |all| ensures all[k] == SlotOf(hash, writer, reader, txns[i + k]) {
      if k > 0 { assert all[k] == slots[k - 1] && txns[i + k] == txns[i + 1 + (k - 1)]; }
    }
  }

  /** The first transaction at `offset`, field by field. */
  lemma TxnAt(hash: Hash, writer: Cache, b: seq<byte>, offset: nat, t: seq<byte>, rest: seq<byte>)
    requires offset <= |b| && b[offset..] == EncodeTxn(hash, writer, t) + rest
    requires Word(|t|) && Word(hash(t))
    ensures offset + 9 <= |b| && b[offset] == (if hash(t) in writer then 1 else 0)
    ensures DecodeLe(b[offset + 1..offset + 9]) == if hash(t) in writer then hash(t) else |t|
    ensures hash(t) in writer ==> b[offset + 9..] == rest
    ensures hash(t) !in writer ==>
      offset + 9 + |t| <= |b| && b[offset + 9..offset + 9 + |t|] == t && b[offset + 9 + |t|..] == rest
  {
    var word := if hash(t) in writer then hash(t) else |t|;
    LeRoundTrip(word, 8);
    hide EncodeLe, DecodeLe, Word;
    if hash(t) in writer {
      CachedAt(b, offset, [1], EncodeLe(word, 8), rest);
    } else {
      FullAt(b, offset, [0], EncodeLe(word, 8), t, rest);
    }
  }

  lemma CachedAt(b: seq<byte>, offset: nat, flag: seq<byte>, f: seq<byte>, rest: seq<byte>)
    requires offset <= |b| && b[offset..] == flag + f + rest && |flag| == 1 && |f| == 8
    ensures offset + 9 <= |b| && b[offset] == flag[0] && b[offset + 1..offset + 9] == f && b[offset + 9..] == rest
  {
    assert b[offset..] == b[offset..|b|];
    Parts(b, offset, |b|, flag, f, rest);
    assert b[offset] == b[offset..offset + 1][0];
    assert b[offset + 9..] == b[offset + 9..|b|];
  }

  lemma FullAt(b: seq<byte>, offset: nat, flag: seq<byte>, f: seq<byte>, t: seq<byte>, rest: seq<byte>)
    requires offset <= |b| && b[offset..] == flag + f + t + rest && |flag| == 1 && |f| == 8
    ensures offset + 9 + |t| <= |b| && b[offset] == flag[0] && b[offset + 1..offset + 9] == f
    ensures b[offset + 9..offset + 9 + |t|] == t && b[offset + 9 + |t|..] == rest
  {
    assert b[offset..] == b[offset..|b|];
    FourParts(b, offset, |b|, flag, f, t, rest);
    assert b[offset] == b[offset..offset + 1][0];
    assert b[offset + 9 + |t|..] == b[offset + 9 + |t|..|b|];
  }

  lemma FourParts(b: seq<byte>, from: nat, to: nat, a: seq<byte>, f: seq<byte>, m: seq<byte>, rest: seq<byte>)
    requires from <= to <= |b| && b[from..to] == a + f + m + rest
    ensures from + |a| + |f| + |m| + |rest| == to
    ensures b[from..from + |a|] == a && b[from + |a|..from + |a| + |f|] == f
    ensures b[from + |a| + |f|..from + |a| + |f| + |m|] == m && b[from + |a| + |f| + |m|..to] == rest
  {
    assert a + f + m + rest == a + f + (m + rest);
    Parts(b, from, to, a, f, m + rest);
    Parts(b, from, to, a + f, m, rest);
  }

  lemma {:induction false} TxnsReadBack(hash: Hash, writer: Cache, reader: Cache, b: seq<byte>, offset: nat, txns: seq<seq<byte>>, i: nat)
    requires offset <= |b| && i <= |txns| && b[offset..] == EncodeTxns(hash, writer, txns[i..])
    requires forall k :: 0 <= k < |txns| ==> Word(|txns[k]|) && Word(hash(txns[k]))
    ensures var r := ReadTxns(reader, b, offset, i);
      r.Some? && ReadOk(hash, writer, reader, txns, i, r.value.0, r.value.1)
    decreases |txns| - i
  {
    hide EncodeTxn, DecodeLe, Word, ReadOk;
    if i == |txns| {
      assert txns[i..] == [];
      NothingRead(hash, writer, reader, txns);
    } else {
      var t, rest := txns[i], txns[i + 1..];
      assert txns[i..] == [t] + rest;
      TxnsFront(hash, writer, t, rest);
      TxnAt(hash, writer, b, offset, t, EncodeTxns(hash, writer, rest));
      var next := if hash(t) in writer then offset + 9 else offset + 9 + |t|;
      TxnsReadBack(hash, writer, reader, b, next, txns, i + 1);
      var r := ReadTxns(reader, b, next, i + 1);
      assert map[] + r.value.1 == r.value.1;
      ReadStep(hash, writer, reader, txns, i, r.value.0, r.value.1);
    }
  }

  lemma NothingRead(hash: Hash, writer: Cache, reader: Cache, txns: seq<seq<byte>>)
    ensures ReadOk(hash, writer, reader, txns, |txns|, [], map[])
  {
  }

  /** The slots and holes of a whole block, when ids do not collide. */
  lemma ReadAll(hash: Hash, writer: Cache, reader: Cache, txns: seq<seq<byte>>, slots: seq<Slot>, holes: map<nat, nat>)
    requires ReadOk(hash, writer, reader, txns, 0, slots, holes)
    requires forall i :: 0 <= i < |txns| && hash(txns[i]) in reader ==> reader[hash(txns[i])] == txns[i]
    ensures |slots| == |txns| && HolesOk(hash, writer, reader, txns, holes)
    ensures forall i :: 0 <= i < |txns| ==>
      slots[i] == if IsMissing(hash, writer, reader, txns, i) then Hole else Txn(txns[i])
  {
    forall i | 0 <= i < |txns|
      ensures slots[i] == if IsMissing(hash, writer, reader, txns, i) then Hole else Txn(txns[i])
    {
      assert slots[i] == SlotOf(hash, writer, reader, txns[0 + i]);
    }
  }

  /** Decompressing what any cache encoded, under any other cache: the misc buffers come back as they were, every
      transaction comes back as itself or as an empty marker, the markers stand exactly for the cached-encoded ids
      missing here, and each missing id maps to its last index. */
  lemma RoundTrip(hash: Hash, writer: Cache, reader: Cache, misc: seq<seq<byte>>, txns: seq<seq<byte>>)
    requires Encodable(hash, misc, txns)
    requires forall i :: 0 <= i < |txns| && hash(txns[i]) in reader ==> reader[hash(txns[i])] == txns[i] // no id collision
    ensures var r := Decode(reader, Encode(hash, writer, misc, txns));
      && r.Some? && r.value.misc == misc && |r.value.txns| == |txns|
      && (forall i :: 0 <= i < |txns| ==>
            r.value.txns[i] == if IsMissing(hash, writer, reader, txns, i) then Hole else Txn(txns[i]))
      && HolesOk(hash, writer, reader, txns, r.value.holes)
  {
    var b := Encode(hash, writer, misc, txns);
    var size := |EncodeMisc(misc)|;
    var f, m, e := EncodeLe(size, 8), EncodeMisc(misc), EncodeTxns(hash, writer, txns);
    LeRoundTrip(size, 8);
    hide EncodeLe, EncodeMisc, EncodeTxns, DecodeLe, ReadMisc, ReadTxns, ReadOk, HolesOk, IsMissing;
    ThreeParts(f, m, e);
    MiscReadBack(b, 8, 8 + size, misc);
    assert txns[0..] == txns;
    TxnsReadBack(hash, writer, reader, b, 8 + size, txns, 0);
    var r := ReadTxns(reader, b, 8 + size, 0);
    ReadAll(hash, writer, reader, txns, r.value.0, r.value.1);
  }

  // ---- Building the encoding ------------------------------------------------------------------------------

  lemma {:induction false} MiscLength(misc: seq<seq<byte>>)
    ensures |EncodeMisc(misc)| == MiscSize(misc) + 8 * |misc|
  {
    if misc != [] { MiscLength(misc[..|misc| - 1]); }
  }

  lemma EncodeSnoc(hash: Hash, cache: Cache, misc: seq<seq<byte>>, txns: seq<seq<byte>>, i: nat)
    requires i < |txns|
    ensures Encode(hash, cache, misc, txns[..i + 1]) == Encode(hash, cache, misc, txns[..i]) + EncodeTxn(hash, cache, txns[i])
  {
    var next := txns[..i + 1];
    assert next[..|next| - 1] == txns[..i] && next[|next| - 1] == txns[i];
    assert EncodeTxns(hash, cache, next) == EncodeTxns(hash, cache, txns[..i]) + EncodeTxn(hash, cache, txns[i]);
  }

  lemma {:induction false} EncodeMonotone(hash: Hash, cache: Cache, misc: seq<seq<byte>>, txns: seq<seq<byte>>, i: nat, j: nat)
    requires i <= j <= |txns|
    ensures |Encode(hash, cache, misc, txns[..i])| <= |Encode(hash, cache, misc, txns[..j])|
    decreases j - i
  {
    if i < j {
      EncodeSnoc(hash, cache, misc, txns, i);
      EncodeMonotone(hash, cache, misc, txns, i + 1, j);
    }
  }

  lemma {:induction false} MiscMonotone(misc: seq<seq<byte>>, i: nat)
    requires i <= |misc|
    ensures |EncodeMisc(misc[..i])| <= |EncodeMisc(misc)|
    decreases |misc| - i
  {
    if i < |misc| {
      assert misc[..i + 1][..i] == misc[..i];
      MiscMonotone(misc, i + 1);
    } else {
      assert misc[..i] == misc;
    }
  }

  /** Total size of the transactions that are not cached, which travel in full. */
  function Full(hash: Hash, cache: Cache, txns: seq<seq<byte>>): nat {
    if txns == [] then 0
    else
      var last := txns[|txns| - 1];
      Full(hash, cache, txns[..|txns| - 1]) + (if hash(last) in cache then 0 else |last|)
  }

  lemma {:induction false} EncodedLength(hash: Hash, cache: Cache, txns: seq<seq<byte>>)
    ensures |EncodeTxns(hash, cache, txns)| == 9 * |txns| + Full(hash, cache, txns)
  {
    if txns != [] {
      EncodedLength(hash, cache, txns[..|txns| - 1]);
      TxnLength(hash, cache, txns[|txns| - 1]);
    }
  }

  /** The buffer sets 8 bytes aside for every transaction where an entry takes 9 plus its data, and nothing for the
      lengths of the misc buffers; the slack must cover all of that. And every uncached transaction must start at
      least 8 bytes per transaction of the whole block before the end of the buffer. */
  lemma FitsIff(hash: Hash, cache: Cache, misc: seq<seq<byte>>, txns: seq<seq<byte>>)
    ensures Fits(hash, cache, misc, txns) <==>
      && 8 + 8 * |misc| + |txns| + Full(hash, cache, txns) <= 10000
      && forall i :: 0 <= i < |txns| && hash(txns[i]) !in cache ==> 8 + 8 * |misc| + 9 * i + Full(hash, cache, txns[..i]) <= 10000
  {
    hide EncodeTxns, EncodeMisc, EncodeLe, MiscSize, Full;
    MiscLength(misc);
    EncodedLength(hash, cache, txns);
    forall i | 0 <= i < |txns|
      ensures ThrowsAt(hash, cache, misc, txns, i) <==>
        hash(txns[i]) !in cache && 8 + 8 * |misc| + 9 * i + Full(hash, cache, txns[..i]) > SLACK
    {
      EncodedLength(hash, cache, txns[..i]);
    }
  }

  function Repeat(txn: seq<byte>, n: nat): (r: seq<seq<byte>>)
    ensures |r| == n && forall i :: 0 <= i < n ==> r[i] == txn
  {
    if n == 0 then [] else Repeat(txn, n - 1) + [txn]
  }

  lemma {:induction false} NothingFull(hash: Hash, cache: Cache, txns: seq<seq<byte>>)
    requires forall i :: 0 <= i < |txns| ==> hash(txns[i]) in cache
    ensures Full(hash, cache, txns) == 0
  {
    if txns != [] { NothingFull(hash, cache, txns[..|txns| - 1]); }
  }

  /** The check in front of an uncached transaction is too strict: after 1200 cached transactions a short uncached
      one makes `compress` throw, although the whole encoding is well within its buffer. */
  lemma ThrowsThoughItFits(hash: Hash, cache: Cache, cached: seq<byte>, other: seq<byte>)
    requires hash(cached) in cache && hash(other) !in cache && |other| == 10
    ensures var txns := Repeat(cached, 1200) + [other];
      |Encode(hash, cache, [], txns)| < Capacity([], txns) && ThrowsFirst(hash, cache, [], txns)
  {
    var before := Repeat(cached, 1200);
    var txns := before + [other];
    assert txns[..1200] == before && txns[..|txns| - 1] == before;
    NothingFull(hash, cache, before);
    EncodedLength(hash, cache, before);
    EncodedLength(hash, cache, txns);
    hide EncodeTxns, Throws;
    assert ThrowsAt(hash, cache, [], txns, 1200);
  }

  // ---- The program ----------------------------------------------------------------------------------------

  /** The outcome of `compress`: it throws, writes past its buffer (undefined in the program), or succeeds. */
  datatype Compressed = Thrown | Overrun | Compressed(bytes: seq<byte>)

  class BlockCompressor {
    const hash: Hash
    var txns: Cache
    var seen: map<nat, nat>

    /** Cached transactions lie under their own ids, and each has a time stamp. */
    ghost predicate Valid()
      reads this
    {
      txns.Keys == seen.Keys && forall id :: id in txns ==> hash(txns[id]) == id
    }

    constructor (hash: Hash)
      ensures Valid() && this.hash == hash && txns == map[] && seen == map[]
    {
      this.hash := hash;
      txns, seen := map[], map[];
    }

    method AddTxn(txn: seq<byte>, timestamp: nat)
      requires Valid()
      modifies this
      ensures Valid()
      ensures txns == (if hash(txn) in old(txns) then old(txns) else old(txns)[hash(txn) := txn])
      ensures seen == old(seen)[hash(txn) := timestamp]
    {
      var id := hash(txn);
      if id !in txns { txns := txns[id := txn]; }
      seen := seen[id := timestamp];
    }

    method RemoveTxnById(id: nat)
      requires Valid()
      modifies this
      ensures Valid() && txns == old(txns) - {id} && seen == old(seen) - {id}
    {
      txns := txns - {id};
      seen := seen - {id};
    }

    method RemoveTxn(txn: seq<byte>)
      requires Valid()
      modifies this
      ensures Valid() && txns == old(txns) - {hash(txn)} && seen == old(seen) - {hash(txn)}
    {
      var id := hash(txn);
      RemoveTxnById(id);
    }

    /** Total size of the misc buffers. */
    method SizeOf(misc: seq<seq<byte>>) returns (size: nat)
      ensures size == MiscSize(misc)
    {
      size := 0;
      for i := 0 to |misc|
        invariant size == MiscSize(misc[..i])
      {
        assert misc[..i + 1][..i] == misc[..i];
        size := size + |misc[i]|;
      }
      assert misc[..|misc|] == misc;
    }

    /** Writes the misc buffers one after the other; false if they do not fit. */
    method CopyMisc(buf: array<byte>, misc: seq<seq<byte>>) returns (ok: bool, offset: nat)
      requires 8 <= buf.Length
      modifies buf
      ensures buf[..8] == old(buf[..8])
      ensures ok == (8 + |EncodeMisc(misc)| <= buf.Length)
      ensures ok ==> offset == 8 + |EncodeMisc(misc)| && buf[8..offset] == EncodeMisc(misc)
    {
      hide EncodeLe;
      offset := 8;
      for i := 0 to |misc|
        invariant offset == 8 + |EncodeMisc(misc[..i])| <= buf.Length
        invariant buf[..8] == old(buf[..8]) && buf[8..offset] == EncodeMisc(misc[..i])
      {
        var m := misc[i];
        assert misc[..i + 1][..i] == misc[..i];
        assert EncodeMisc(misc[..i + 1]) == EncodeMisc(misc[..i]) + (EncodeLe(|m|, 8) + m);
        if offset + 8 + |m| > buf.Length {
          MiscMonotone(misc, i + 1);
          return false, offset;
        }
        ghost var head := buf[..offset];
        WriteLe(buf, offset, |m|, 8);
        assert buf[..offset + 8] == head + EncodeLe(|m|, 8);
        WriteBytes(buf, offset + 8, m);
        var next := offset + 8 + |m|;
        assert buf[..next] == head + EncodeLe(|m|, 8) + m;
        assert buf[8..next] == head[8..] + (EncodeLe(|m|, 8) + m);
        assert buf[..8] == head[..8];
        offset := next;
      }
      assert misc[..|misc|] == misc;
      ok := true;
    }

    /** Writes one transaction at `offset`. */
    method WriteTxn(buf: array<byte>, offset: nat, txn: seq<byte>)
      requires offset + |EncodeTxn(hash, txns, txn)| <= buf.Length
      modifies buf
      ensures buf[..offset + |EncodeTxn(hash, txns, txn)|] == old(buf[..offset]) + EncodeTxn(hash, txns, txn)
    {
      hide EncodeLe;
      ghost var head := buf[..offset];
      if hash(txn) !in txns {
        WriteHeader(buf, offset, 0, |txn|);
        WriteBytes(buf, offset + 9, txn);
        assert buf[..offset + 9 + |txn|] == head + ([0] + EncodeLe(|txn|, 8)) + txn;
        assert head + ([0] + EncodeLe(|txn|, 8)) + txn == head + ([0] + EncodeLe(|txn|, 8) + txn);
      } else {
        WriteHeader(buf, offset, 1, hash(txn));
      }
    }

    method WriteHeader(buf: array<byte>, offset: nat, kind: byte, word: nat)
      requires offset + 9 <= buf.Length
      modifies buf
      ensures buf[..offset + 9] == old(buf[..offset]) + ([kind] + EncodeLe(word, 8))
    {
      hide EncodeLe;
      ghost var head := buf[..offset];
      buf[offset] := kind;
      assert buf[..offset + 1] == head + [kind];
      WriteLe(buf, offset + 1, word, 8);
      assert buf[..offset + 9] == head + [kind] + EncodeLe(word, 8);
    }

    /** Writes the transactions of a block after what stands before `start`. */
    method CopyTxns(buf: array<byte>, misc: seq<seq<byte>>, block: seq<seq<byte>>, start: nat) returns (r: Compressed)
      requires buf.Length == Capacity(misc, block) && start <= buf.Length
      requires buf[..start] == Encode(hash, txns, misc, [])
      modifies buf
      ensures r.Compressed? <==> Fits(hash, txns, misc, block)
      ensures r.Compressed? ==> r.bytes == Encode(hash, txns, misc, block)
      ensures r.Thrown? <==> ThrowsFirst(hash, txns, misc, block)
    {
      hide EncodeLe, EncodeTxn, EncodeTxns, EncodeMisc, Encode, MiscSize;
      var offset := start;
      assert block[..0] == [] && block[..|block|] == block;
      for i := 0 to |block|
        invariant offset == |Encode(hash, txns, misc, block[..i])| <= buf.Length
        invariant buf[..offset] == Encode(hash, txns, misc, block[..i])
        invariant forall j :: 0 <= j < i ==> !ThrowsAt(hash, txns, misc, block, j)
      {
        var txn := block[i];
        EncodeSnoc(hash, txns, misc, block, i);
        if hash(txn) !in txns && offset + 8 * |block| > buf.Length {
          assert ThrowsAt(hash, txns, misc, block, i);
          return Thrown;
        }
        var length := 9 + if hash(txn) in txns then 0 else |txn|;
        TxnLength(hash, txns, txn);
        if offset + length > buf.Length {
          forall j | i + 1 <= j <= |block| ensures |Encode(hash, txns, misc, block[..j])| > buf.Length {
            EncodeMonotone(hash, txns, misc, block, i + 1, j);
          }
          return Overrun;
        }
        WriteTxn(buf, offset, txn);
        offset := offset + length;
      }
      r := Compressed(buf[..offset]);
    }

    method Compress(misc: seq<seq<byte>>, block: seq<seq<byte>>) returns (r: Compressed)
      ensures r.Compressed? <==> Fits(hash, txns, misc, block)
      ensures r.Compressed? ==> r.bytes == Encode(hash, txns, misc, block)
      ensures r.Thrown? <==> ThrowsFirst(hash, txns, misc, block)
    {
      hide EncodeLe, EncodeTxn;
      var miscSize := SizeOf(misc);
      MiscLength(misc);
      var total := miscSize + 8 * |block| + SLACK; // 8 bytes for each transaction, and the slack
      var buf := new byte[total](_ => 0);

      WriteLe(buf, 0, miscSize + 8 * |misc|, 8);
      assert buf[..8] == EncodeLe(|EncodeMisc(misc)|, 8);
      var ok, offset := CopyMisc(buf, misc);
      assert |Encode(hash, txns, misc, [])| == 8 + |EncodeMisc(misc)|;
      if !ok {
        assert block[..0] == [] && block[..|block|] == block;
        forall j | 0 <= j <= |block| ensures |Encode(hash, txns, misc, block[..j])| > buf.Length {
          EncodeMonotone(hash, txns, misc, block, 0, j);
        }
        return Overrun;
      }
      assert buf[..offset] == buf[..8] + buf[8..offset];
      assert buf[..offset] == Encode(hash, txns, misc, []);
      r := CopyTxns(buf, misc, block, offset);
    }

    method Decompress(b: seq<byte>) returns (r: Option<Block>)
      ensures r == Decode(txns, b)
    {
      if |b| < 8 { return None; }
      var size := DecodeLe(b[..8]);
      if |b| < 8 + size { return None; }

      var misc: seq<seq<byte>> := [];
      var offset := 8;
      MiscNothing(ReadMisc(b, 8, 8 + size));
      while offset < 8 + size
        invariant MiscSoFar(misc, ReadMisc(b, offset, 8 + size)) == ReadMisc(b, 8, 8 + size)
        decreases 8 + size - offset
      {
        if |b| < offset + 8 { return None; }
        var n := DecodeLe(b[offset..offset + 8]);
        if |b| < offset + 8 + n { return None; }
        var item := b[offset + 8..offset + 8 + n];
        MiscMore(misc, item, ReadMisc(b, offset + 8 + n, 8 + size));
        misc := misc + [item];
        offset := offset + 8 + n;
      }

      // The items must end where the announced size says.
      if offset != 8 + size { return None; }
      assert misc + [] == misc;

      var read := ReadBlock(b, offset);
      match read
      case None => return None;
      case Some(rest) => return Some(Block(misc, rest.0, rest.1));
    }

    /** Reads the transactions from `start` on. */
    method ReadBlock(b: seq<byte>, start: nat) returns (r: Read)
      ensures r == ReadTxns(txns, b, start, 0)
    {
      hide TxnsSoFar, Before, DecodeLe;
      var slots: seq<Slot> := [];
      var holes: map<nat, nat> := map[];
      var offset := start;
      TxnsNothing(ReadTxns(txns, b, start, 0));
      while offset < |b|
        invariant TxnsSoFar(slots, holes, ReadTxns(txns, b, offset, |slots|)) == ReadTxns(txns, b, start, 0)
        decreases |b| - offset
      {
        if |b| < offset + 9 {
          TxnsFailed(slots, holes);
          return None;
        }

        var n := DecodeLe(b[offset + 1..offset + 9]);
        if b[offset] == 0 { // sent in full
          if |b| < offset + 9 + n {
            TxnsFailed(slots, holes);
            return None;
          }
          var slot := Txn(b[offset + 9..offset + 9 + n]);
          TxnsMore(slots, holes, slot, map[], ReadTxns(txns, b, offset + 9 + n, |slots| + 1));
          slots := slots + [slot];
          offset := offset + 9 + n;
        } else if b[offset] == 1 { // sent by id
          ghost var rest := ReadTxns(txns, b, offset + 9, |slots| + 1);
          if n !in txns {
            // The id is noted as missing, with the index of its marker.
            TxnsMore(slots, holes, Hole, map[n := |slots|], rest);
            holes := holes + map[n := |slots|];
            slots := slots + [Hole];
          } else {
            TxnsMore(slots, holes, Txn(txns[n]), map[], rest);
            slots := slots + [Txn(txns[n])];
          }
          offset := offset + 9;
        } else {
          TxnsFailed(slots, holes);
          return None;
        }
      }
      TxnsEnd(slots, holes);
      return Some((slots, holes));
    }
  }

  lemma TxnLength(hash: Hash, cache: Cache, txn: seq<byte>)
    ensures |EncodeTxn(hash, cache, txn)| == 9 + if hash(txn) in cache then 0 else |txn|
  {
  }

  function MiscSoFar(misc: seq<seq<byte>>, rest: Option<seq<seq<byte>>>): Option<seq<seq<byte>>> {
    match rest
    case None => None
    case Some(more) => Some(misc + more)
  }

  lemma MiscNothing(rest: Option<seq<seq<byte>>>)
    ensures MiscSoFar([], rest) == rest
  {
    match rest
    case None =>
    case Some(more) => assert [] + more == more;
  }

  lemma MiscMore(misc: seq<seq<byte>>, item: seq<byte>, rest: Option<seq<seq<byte>>>)
    ensures MiscSoFar(misc + [item], rest) ==
      MiscSoFar(misc, match rest case None => None case Some(more) => Some([item] + more))
  {
    match rest
    case None =>
    case Some(more) => assert misc + [item] + more == misc + ([item] + more);
  }

  function TxnsSoFar(slots: seq<Slot>, holes: map<nat, nat>, rest: Read): Read {
    match rest
    case None => None
    case Some(more) => Some((slots + more.0, holes + more.1))
  }

  lemma TxnsNothing(rest: Read)
    ensures TxnsSoFar([], map[], rest) == rest
  {
    match rest
    case None =>
    case Some(more) => assert [] + more.0 == more.0 && map[] + more.1 == more.1;
  }

  lemma TxnsFailed(slots: seq<Slot>, holes: map<nat, nat>)
    ensures TxnsSoFar(slots, holes, None) == None
  {
  }

  lemma TxnsEnd(slots: seq<Slot>, holes: map<nat, nat>)
    ensures TxnsSoFar(slots, holes, Some(([], map[]))) == Some((slots, holes))
  {
    assert slots + [] == slots && holes + map[] == holes;
  }

  lemma TxnsMore(slots: seq<Slot>, holes: map<nat, nat>, slot: Slot, hole: map<nat, nat>, rest: Read)
    ensures TxnsSoFar(slots + [slot], holes + hole, rest) ==
      TxnsSoFar(slots, holes, Before(slot, hole, rest))
    ensures holes + map[] == holes
  {
    match rest
    case None =>
    case Some(more) =>
      assert slots + [slot] + more.0 == slots + ([slot] + more.0);
      assert holes + hole + more.1 == holes + (hole + more.1);
  }
}
