/** The Bloom filter in which every relay of a message leaves eight bits of its public key. */
module Witness {
  import opened Bytes

  const WITNESS := 34
  const BLOOM := 32
  const KEY_BITS := 8

  // ---- Octets as bits -------------------------------------------------------------------------------------

  /** Bit `k` of `x`, the least significant being bit 0: `x & (1 << k)` is not zero. */
  predicate BitOf(x: nat, k: nat) {
    if k == 0 then x % 2 == 1 else BitOf(x / 2, k - 1)
  }

  /** `x | (1 << k)`. */
  function WithBit(x: nat, k: nat): nat {
    if k == 0 then (if x % 2 == 1 then x else x + 1) else 2 * WithBit(x / 2, k - 1) + x % 2
  }

  function Two(k: nat): nat {
    if k == 0 then 1 else 2 * Two(k - 1)
  }

  lemma {:induction false} WithBitValue(x: nat, k: nat)
    ensures WithBit(x, k) == if BitOf(x, k) then x else x + Two(k)
  {
    if k > 0 { WithBitValue(x / 2, k - 1); }
  }

  lemma {:induction false} WithBitBound(x: nat, k: nat, width: nat)
    requires x < Two(width) && k < width
    ensures WithBit(x, k) < Two(width)
  {
    var t, half := Two(width - 1), x / 2;
    assert Two(width) == 2 * t && x == 2 * half + x % 2;
    hide Two;
    assert half < t;
    if k > 0 { WithBitBound(half, k - 1, width - 1); }
  }

  lemma {:induction false} WithBitSets(x: nat, k: nat, l: nat)
    ensures BitOf(WithBit(x, k), l) <==> k == l || BitOf(x, l)
  {
    if k > 0 && l > 0 {
      WithBitSets(x / 2, k - 1, l - 1);
    }
  }

  function SetInOctet(x: byte, k: nat): (r: byte)
    requires k < 8
    ensures forall l: nat :: BitOf(r, l) <==> k == l || BitOf(x, l)
  {
    assert Two(8) == 256 by { assert Two(4) == 16; assert Two(6) == 64; }
    WithBitBound(x, k, 8);
    assert forall l: nat :: BitOf(WithBit(x, k), l) <==> k == l || BitOf(x, l) by {
      forall l: nat ensures BitOf(WithBit(x, k), l) <==> k == l || BitOf(x, l) { WithBitSets(x, k, l); }
    }
    WithBit(x, k)
  }

  // ---- The filter -----------------------------------------------------------------------------------------

  predicate IsBloom(bloom: seq<byte>) { |bloom| == BLOOM }

  predicate TestBit(bloom: seq<byte>, idx: byte)
    requires IsBloom(bloom)
  {
    BitOf(bloom[idx / 8], idx % 8)
  }

  function SetBit(bloom: seq<byte>, idx: byte): (r: seq<byte>)
    requires IsBloom(bloom)
    ensures IsBloom(r)
    ensures forall j: byte :: TestBit(r, j) <==> j == idx || TestBit(bloom, j)
  {
    var r := bloom[idx / 8 := SetInOctet(bloom[idx / 8], idx % 8)];
    assert forall j: byte :: TestBit(r, j) <==> j == idx || TestBit(bloom, j) by {
      forall j: byte ensures TestBit(r, j) <==> j == idx || TestBit(bloom, j) {
        assert j == idx <==> j / 8 == idx / 8 && j % 8 == idx % 8;
      }
    }
    r
  }

  type Key = k: seq<byte> | |k| >= KEY_BITS witness [0, 0, 0, 0, 0, 0, 0, 0]

  /** The filter after the first `n` octets of a key have been entered. */
  function Enter(bloom: seq<byte>, key: Key, n: nat): (r: seq<byte>)
    requires IsBloom(bloom) && n <= KEY_BITS
    ensures IsBloom(r)
    ensures forall j: byte :: TestBit(r, j) <==> TestBit(bloom, j) || j in key[..n]
  {
    if n == 0 then bloom
    else
      assert key[..n] == key[..n - 1] + [key[n - 1]];
      SetBit(Enter(bloom, key, n - 1), key[n - 1])
  }

  /** Whether the filter holds a key. */
  predicate Holds(bloom: seq<byte>, key: Key)
    requires IsBloom(bloom)
  {
    forall i :: 0 <= i < KEY_BITS ==> TestBit(bloom, key[i])
  }

  /** A filter that grew holds what it held, and the key just entered. */
  lemma EnterHolds(bloom: seq<byte>, key: Key, other: Key)
    requires IsBloom(bloom)
    ensures Holds(Enter(bloom, key, KEY_BITS), key)
    ensures Holds(bloom, other) ==> Holds(Enter(bloom, key, KEY_BITS), other)
  {
    forall i | 0 <= i < KEY_BITS ensures TestBit(Enter(bloom, key, KEY_BITS), key[i]) {
      assert key[..KEY_BITS][i] == key[i];
    }
  }

  // ---- The program ----------------------------------------------------------------------------------------

  class BloomWitnesser {
    const publicKey: Key

    constructor (publicKey: Key)
      ensures this.publicKey == publicKey
    {
      this.publicKey := publicKey;
    }

    /** Whether the filter of a parsed witness holds a key. */
    method Contains(bloom: seq<byte>, key: Key) returns (found: bool)
      requires IsBloom(bloom)
      ensures found == Holds(bloom, key)
    {
      found := true;
      for i := 0 to KEY_BITS
        invariant found == forall k :: 0 <= k < i ==> TestBit(bloom, key[k])
      {
        found := found && TestBit(bloom, key[i]);
      }
    }

    /** Writes the witness at `offset`: a fresh one, or a copy of the previous hop's, with the own bits set. */
    method WriteWitness(out: array<byte>, offset: nat, prev: seq<byte>)
      requires offset + WITNESS <= out.Length && (prev == [] || |prev| == WITNESS)
      modifies out
      ensures out[..] == old(out[..offset]) + Witnessed(publicKey, prev) + old(out[offset + WITNESS..])
    {
      hide EncodeLe, Enter;
      var start := if prev == [] then EncodeLe(WITNESS, 2) + Zeros(BLOOM) else prev;
      WriteBytes(out, offset, start);
      ghost var head, tail := out[..offset], out[offset + WITNESS..];
      assert out[offset..offset + WITNESS] == start;
      assert out[..offset + 2] == head + start[..2];
      assert out[offset + 2..offset + WITNESS] == start[2..];

      SetBits(out, offset + 2);
      Assembled(out[..], offset + 2, offset + WITNESS, head, start[..2], tail);
    }

    method SetBits(out: array<byte>, from: nat)
      requires from + BLOOM <= out.Length
      modifies out
      ensures out[..from] == old(out[..from]) && out[from + BLOOM..] == old(out[from + BLOOM..])
      ensures out[from..from + BLOOM] == Enter(old(out[from..from + BLOOM]), publicKey, KEY_BITS)
    {
      hide BitOf, TestBit;
      for i := 0 to KEY_BITS
        invariant out[..from] == old(out[..from]) && out[from + BLOOM..] == old(out[from + BLOOM..])
        invariant out[from..from + BLOOM] == Enter(old(out[from..from + BLOOM]), publicKey, i)
      {
        var idx := publicKey[i];
        ghost var before := out[..];
        var at := from + idx / 8;
        out[at] := SetInOctet(out[at], idx % 8);
        assert out[..] == before[at := out[at]];
        SliceUpdate(before, from, from + BLOOM, at, out[at]);
      }
    }
  }

  lemma Assembled(s: seq<byte>, from: nat, to: nat, head: seq<byte>, length: seq<byte>, tail: seq<byte>)
    requires from <= to <= |s| && s[..from] == head + length && s[to..] == tail
    ensures s == head + (length + s[from..to]) + tail
  {
    assert s == s[..from] + s[from..to] + s[to..];
  }

  lemma SliceUpdate(s: seq<byte>, from: nat, to: nat, at: nat, x: byte)
    requires from <= at < to <= |s|
    ensures s[at := x][from..to] == s[from..to][at - from := x]
    ensures s[at := x][..from] == s[..from] && s[at := x][to..] == s[to..]
    ensures s[at] == s[from..to][at - from]
  {
  }

  function Zeros(n: nat): (r: seq<byte>)
    ensures |r| == n
  {
    seq(n, _ => 0)
  }

  /** The witness a relay with key `key` writes, given the previous hop's (empty for a new message). */
  function Witnessed(key: Key, prev: seq<byte>): (r: seq<byte>)
    requires prev == [] || |prev| == WITNESS
    ensures |r| == WITNESS
  {
    var start := if prev == [] then EncodeLe(WITNESS, 2) + Zeros(BLOOM) else prev;
    start[..2] + Enter(start[2..], key, KEY_BITS)
  }
}
