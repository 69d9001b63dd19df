/** Octets, the fixed-width integer codecs of `core::Buffer`, and two small collection helpers. */
module Bytes {
  type byte = b: int | 0 <= b < 256

  /** Streams are named by a two-byte field. */
  type StreamId = n: nat | n < 0x1_0000

  datatype Option<T> = None | Some(value: T)

  /** 256 to the power `width`: one more than the largest value of a `width`-byte field. */
  function Range(width: nat): (r: nat)
    ensures r >= 1
  {
    if width == 0 then 1 else 256 * Range(width - 1)
  }

  /** Little-endian field, as `write_uintN_le_unsafe` lays it out. */
  function EncodeLe(value: nat, width: nat): (s: seq<byte>)
    ensures |s| == width
  {
    if width == 0 then [] else [value % 256] + EncodeLe(value / 256, width - 1)
  }

  function DecodeLe(s: seq<byte>): nat {
    if s == [] then 0 else s[0] + 256 * DecodeLe(s[1..])
  }

  /** Big-endian field, as `write_uintN_be_unsafe` lays it out. */
  function EncodeBe(value: nat, width: nat): (s: seq<byte>)
    ensures |s| == width
  {
    if width == 0 then [] else EncodeBe(value / 256, width - 1) + [value % 256]
  }

  function DecodeBe(s: seq<byte>): nat {
    if s == [] then 0 else 256 * DecodeBe(s[..|s| - 1]) + s[|s| - 1]
  }

  lemma {:induction false} LeRoundTrip(value: nat, width: nat)
    requires value < Range(width)
    ensures DecodeLe(EncodeLe(value, width)) == value
  {
    if width > 0 {
      LeRoundTrip(value / 256, width - 1);
      assert EncodeLe(value, width)[1..] == EncodeLe(value / 256, width - 1);
    }
  }

  lemma {:induction false} LeReadBack(s: seq<byte>)
    ensures EncodeLe(DecodeLe(s), |s|) == s && DecodeLe(s) < Range(|s|)
  {
    if s != [] {
      LeReadBack(s[1..]);
      assert s == [s[0]] + s[1..];
    }
  }

  lemma {:induction false} BeRoundTrip(value: nat, width: nat)
    requires value < Range(width)
    ensures DecodeBe(EncodeBe(value, width)) == value
  {
    if width > 0 {
      BeRoundTrip(value / 256, width - 1);
      assert EncodeBe(value, width)[..width - 1] == EncodeBe(value / 256, width - 1);
    }
  }

  /** `length` octets of `data` from `from`; an out-of-range request reads nothing. */
  function Slice(data: seq<byte>, from: nat, length: nat): (r: seq<byte>) {
    if from + length <= |data| then data[from..from + length] else []
  }

  lemma LeastExists(s: set<nat>)
    requires s != {}
    ensures exists m :: m in s && forall x :: x in s ==> m <= x
  {
    var m :| m in s;
    while exists x :: x in s && x < m
      invariant m in s
      decreases m
    {
      var x :| x in s && x < m;
      m := x;
    }
  }

  /** The key an ordered map's `begin()` iterator points at. */
  function Least(s: set<nat>): (m: nat)
    requires s != {}
    ensures m in s && forall x :: x in s ==> m <= x
  {
    LeastExists(s);
    var m :| m in s && forall x :: x in s ==> m <= x;
    m
  }

  function Concat(buffers: seq<seq<byte>>): seq<byte> {
    if buffers == [] then [] else buffers[0] + Concat(buffers[1..])
  }

  lemma {:induction false} ConcatSplit(a: seq<seq<byte>>, b: seq<seq<byte>>)
    ensures Concat(a + b) == Concat(a) + Concat(b)
  {
    if a == [] {
      assert a + b == b;
    } else {
      assert (a + b)[1..] == a[1..] + b;
      ConcatSplit(a[1..], b);
    }
  }

  lemma ThreeParts(a: seq<byte>, b: seq<byte>, c: seq<byte>)
    ensures var s := a + b + c;
      s[..|a|] == a && s[|a|..|a| + |b|] == b && s[|a| + |b|..] == c
  {
  }

  /** Writes a little-endian field into the buffer. */
  method WriteLe(buf: array<byte>, offset: nat, value: nat, width: nat)
    requires offset + width <= buf.Length
    modifies buf
    ensures buf[..] == old(buf[..offset]) + EncodeLe(value, width) + old(buf[offset + width..])
  {
    var v, i := value, 0;
    while i < width
      invariant 0 <= i <= width
      invariant EncodeLe(value, width) == buf[offset..offset + i] + EncodeLe(v, width - i)
      invariant buf[..offset] == old(buf[..offset]) && buf[offset + width..] == old(buf[offset + width..])
    {
      ghost var before := buf[offset..offset + i];
      buf[offset + i] := v % 256;
      assert buf[offset..offset + i + 1] == before + [v % 256];
      assert before + ([v % 256] + EncodeLe(v / 256, width - i - 1)) == (before + [v % 256]) + EncodeLe(v / 256, width - i - 1);
      v, i := v / 256, i + 1;
    }
    assert buf[..] == buf[..offset] + buf[offset..offset + width] + buf[offset + width..];
  }

  /** Copies bytes into the buffer. */
  method WriteBytes(buf: array<byte>, offset: nat, data: seq<byte>)
    requires offset + |data| <= buf.Length
    modifies buf
    ensures buf[..] == old(buf[..offset]) + data + old(buf[offset + |data|..])
  {
    for i := 0 to |data|
      invariant buf[offset..offset + i] == data[..i]
      invariant buf[..offset] == old(buf[..offset]) && buf[offset + |data|..] == old(buf[offset + |data|..])
    {
      buf[offset + i] := data[i];
      assert buf[offset..offset + i + 1] == buf[offset..offset + i] + [data[i]];
      assert data[..i + 1] == data[..i] + [data[i]];
    }
    assert data[..|data|] == data;
    assert buf[..] == buf[..offset] + buf[offset..offset + |data|] + buf[offset + |data|..];
  }
}
