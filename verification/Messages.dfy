/** The layouts of DATA and ACK datagrams, and their in-place construction. */
module Messages {
  import opened Bytes
  import Ranges = AckRanges

  /** Space the DATA layout reserves for an authentication tag and a nonce. */
  const TAG := 16
  const NONCE := 12

  /** A field of `width` bytes at `offset`; out of range reads as zero. */
  function Field(b: seq<byte>, offset: nat, width: nat): nat {
    DecodeLe(Slice(b, offset, width))
  }

  predicate Fits(value: nat, width: nat) { value < Range(width) }

  // ---- DATA -----------------------------------------------------------------------------------------------

  /** The content of a DATA datagram as its handler reads it: `src` is the handler's own connection id. */
  datatype Data = Data(fin: bool, src: nat, dst: nat, number: nat, stream: nat, offset: nat, length: nat, payload: seq<byte>)

  /** How every datagram starts: version 0, the type, and the ids of the endpoint that writes it. */
  function EncodeIds(kind: byte, src: nat, dst: nat): (b: seq<byte>)
    ensures |b| == 10
  {
    [0, kind] + EncodeLe(src, 4) + EncodeLe(dst, 4)
  }

  function EncodeFields(number: nat, stream: nat, offset: nat, length: nat): (b: seq<byte>)
    ensures |b| == 20
  {
    EncodeLe(number, 8) + EncodeLe(stream, 2) + EncodeLe(offset, 8) + EncodeLe(length, 2)
  }

  /** The datagram an endpoint with ids `src` and `dst` sends; `tag` and `nonce` trail the payload. */
  function EncodeData(fin: bool, src: nat, dst: nat, number: nat, stream: nat, offset: nat, payload: seq<byte>,
                      tag: seq<byte>, nonce: seq<byte>): seq<byte>
  {
    EncodeIds(if fin then 1 else 0, src, dst) + EncodeFields(number, stream, offset, |payload|) + (payload + tag + nonce)
  }

  /** What `did_recv` and `did_recv_DATA` make of a datagram of type 0 or 1. */
  function DecodeData(b: seq<byte>): Option<Data> {
    if |b| < 2 || b[0] != 0 || b[1] > 1 then None
    else if |b| < 30 + NONCE + TAG then None
    else
      Some(Data(b[1] == 1, Field(b, 6, 4), Field(b, 2, 4), Field(b, 10, 8), Field(b, 18, 2), Field(b, 20, 8), Field(b, 28, 2),
                b[30..|b| - (TAG + NONCE)]))
  }

  lemma FieldAt(a: seq<byte>, value: nat, width: nat, c: seq<byte>)
    requires Fits(value, width)
    ensures Field(a + EncodeLe(value, width) + c, |a|, width) == value
  {
    var b := a + EncodeLe(value, width) + c;
    assert Slice(b, |a|, width) == EncodeLe(value, width);
    LeRoundTrip(value, width);
  }

  lemma IdsRead(kind: byte, src: nat, dst: nat, rest: seq<byte>)
    requires Fits(src, 4) && Fits(dst, 4)
    ensures var b := EncodeIds(kind, src, dst) + rest;
      b[0] == 0 && b[1] == kind && Field(b, 2, 4) == src && Field(b, 6, 4) == dst
  {
    hide Fits, Field;
    var b := EncodeIds(kind, src, dst) + rest;
    var head := [0, kind];
    assert b == head + EncodeLe(src, 4) + (EncodeLe(dst, 4) + rest);
    FieldAt(head, src, 4, EncodeLe(dst, 4) + rest);
    assert b == (head + EncodeLe(src, 4)) + EncodeLe(dst, 4) + rest;
    FieldAt(head + EncodeLe(src, 4), dst, 4, rest);
  }

  lemma FieldsRead(ids: seq<byte>, number: nat, stream: nat, offset: nat, length: nat, rest: seq<byte>)
    requires |ids| == 10 && Fits(number, 8) && Fits(stream, 2) && Fits(offset, 8) && Fits(length, 2)
    ensures var b := ids + EncodeFields(number, stream, offset, length) + rest;
      Field(b, 10, 8) == number && Field(b, 18, 2) == stream && Field(b, 20, 8) == offset && Field(b, 28, 2) == length
  {
    hide Fits, Field, EncodeLe;
    var b := ids + EncodeFields(number, stream, offset, length) + rest;
    var f1, f2, f3, f4 := EncodeLe(number, 8), EncodeLe(stream, 2), EncodeLe(offset, 8), EncodeLe(length, 2);
    assert b == ids + f1 + (f2 + f3 + f4 + rest);
    FieldAt(ids, number, 8, f2 + f3 + f4 + rest);
    assert b == (ids + f1) + f2 + (f3 + f4 + rest);
    FieldAt(ids + f1, stream, 2, f3 + f4 + rest);
    assert b == (ids + f1 + f2) + f3 + (f4 + rest);
    FieldAt(ids + f1 + f2, offset, 8, f4 + rest);
    assert b == (ids + f1 + f2 + f3) + f4 + rest;
    FieldAt(ids + f1 + f2 + f3, length, 2, rest);
  }

  /** A DATA datagram is read back as it was written, with the two connection ids exchanged. */
  lemma DataRoundTrip(fin: bool, src: nat, dst: nat, number: nat, stream: nat, offset: nat, payload: seq<byte>,
                      tag: seq<byte>, nonce: seq<byte>)
    requires Fits(src, 4) && Fits(dst, 4) && Fits(number, 8) && Fits(stream, 2) && Fits(offset, 8) && Fits(|payload|, 2)
    requires |tag| == TAG && |nonce| == NONCE
    ensures DecodeData(EncodeData(fin, src, dst, number, stream, offset, payload, tag, nonce))
         == Some(Data(fin, dst, src, number, stream, offset, |payload|, payload))
  {
    hide Fits, EncodeIds, EncodeFields, DecodeData;
    DataReads(Data(fin, dst, src, number, stream, offset, |payload|, payload), tag, nonce);
  }

  // ---- ACK ------------------------------------------------------------------------------------------------

  datatype Ack = Ack(src: nat, dst: nat, number: nat, ranges: seq<nat>)

  function EncodeRanges(ranges: seq<nat>): (b: seq<byte>)
    ensures |b| == 8 * |ranges|
  {
    if ranges == [] then [] else EncodeRanges(ranges[..|ranges| - 1]) + EncodeLe(ranges[|ranges| - 1], 8)
  }

  function DecodeRanges(b: seq<byte>, count: nat): (r: seq<nat>)
    ensures |r| == count
  {
    if count == 0 then [] else DecodeRanges(b, count - 1) + [Field(b, 8 * (count - 1), 8)]
  }

  /** The run lengths an ACK has room for. */
  function Sent(ranges: seq<nat>): seq<nat> {
    if |ranges| > Ranges.ACK_RUNS then ranges[..Ranges.ACK_RUNS] else ranges
  }

  function EncodeAck(src: nat, dst: nat, number: nat, ranges: seq<nat>): seq<byte> {
    EncodeIds(2, src, dst) + EncodeLe(|Sent(ranges)|, 2) + EncodeLe(number, 8) + EncodeRanges(Sent(ranges))
  }

  /** What `did_recv_ACK` makes of a datagram of type 2. */
  function DecodeAck(b: seq<byte>): Option<Ack> {
    if |b| < 2 || b[0] != 0 || b[1] != 2 then None
    else if |b| < 20 || |b| != 20 + 8 * Field(b, 10, 2) then None
    else Some(Ack(Field(b, 6, 4), Field(b, 2, 4), Field(b, 12, 8), DecodeRanges(b[20..], Field(b, 10, 2))))
  }

  lemma {:induction false} RangesRoundTrip(ranges: seq<nat>, tail: seq<byte>)
    requires forall i :: 0 <= i < |ranges| ==> Fits(ranges[i], 8)
    ensures DecodeRanges(EncodeRanges(ranges) + tail, |ranges|) == ranges
  {
    hide Fits, Field, EncodeLe;
    if ranges != [] {
      var n := |ranges| - 1;
      var init, last := ranges[..n], ranges[n];
      var e := EncodeLe(last, 8);
      assert EncodeRanges(ranges) + tail == EncodeRanges(init) + (e + tail);
      RangesRoundTrip(init, e + tail);
      assert EncodeRanges(ranges) + tail == EncodeRanges(init) + e + tail;
      FieldAt(EncodeRanges(init), last, 8, tail);
    }
  }

  /** An ACK is read back with the ids exchanged and exactly the first 171 run lengths, or all if there are fewer. */
  lemma AckRoundTrip(src: nat, dst: nat, number: nat, ranges: seq<nat>)
    requires Fits(src, 4) && Fits(dst, 4) && Fits(number, 8) && forall i :: 0 <= i < |ranges| ==> Fits(ranges[i], 8)
    ensures DecodeAck(EncodeAck(src, dst, number, ranges))
      == Some(Ack(dst, src, number, if |ranges| > 171 then ranges[..171] else ranges))
  {
    assert Fits(|Sent(ranges)|, 2) by { assert Range(2) == 256 * (256 * 1); }
    hide Fits, EncodeLe, EncodeIds, EncodeRanges, DecodeAck;
    AckReads(Ack(dst, src, number, Sent(ranges)));
  }

  // ---- What the handlers accept -----------------------------------------------------------------------------

  lemma ReadField(b: seq<byte>, offset: nat, width: nat)
    requires offset + width <= |b|
    ensures EncodeLe(Field(b, offset, width), width) == b[offset..offset + width] && Fits(Field(b, offset, width), width)
  {
    LeReadBack(b[offset..offset + width]);
  }

  lemma ReadIds(b: seq<byte>)
    requires 10 <= |b| && b[0] == 0
    ensures b[..10] == EncodeIds(b[1], Field(b, 2, 4), Field(b, 6, 4)) && Fits(Field(b, 2, 4), 4) && Fits(Field(b, 6, 4), 4)
  {
    ReadField(b, 2, 4);
    ReadField(b, 6, 4);
    hide Field, Fits;
    assert b[..10] == [b[0], b[1]] + b[2..6] + b[6..10];
  }

  lemma ReadFields(b: seq<byte>)
    requires 30 <= |b|
    ensures b[10..30] == EncodeFields(Field(b, 10, 8), Field(b, 18, 2), Field(b, 20, 8), Field(b, 28, 2))
    ensures Fits(Field(b, 10, 8), 8) && Fits(Field(b, 18, 2), 2) && Fits(Field(b, 20, 8), 8) && Fits(Field(b, 28, 2), 2)
  {
    ReadField(b, 10, 8);
    ReadField(b, 18, 2);
    ReadField(b, 20, 8);
    ReadField(b, 28, 2);
    hide Field, Fits;
    assert b[10..30] == b[10..18] + b[18..20] + b[20..28] + b[28..30];
  }

  /** A DATA datagram laid out field by field; its length field may say anything. */
  function DataBytes(d: Data, tag: seq<byte>, nonce: seq<byte>): seq<byte> {
    EncodeIds(if d.fin then 1 else 0, d.dst, d.src) + EncodeFields(d.number, d.stream, d.offset, d.length) + (d.payload + tag + nonce)
  }

  predicate DataFits(d: Data) {
    Fits(d.src, 4) && Fits(d.dst, 4) && Fits(d.number, 8) && Fits(d.stream, 2) && Fits(d.offset, 8) && Fits(d.length, 2)
  }

  /** The DATA handler reads exactly the laid-out datagrams, each with the ids exchanged. */
  lemma DataDecodesIff(b: seq<byte>, d: Data)
    ensures DecodeData(b) == Some(d) <==>
      exists tag, nonce :: |tag| == 16 && |nonce| == 12 && DataFits(d) && b == DataBytes(d, tag, nonce)
  {
    if DecodeData(b) == Some(d) {
      ReadIds(b);
      ReadFields(b);
      hide Field, Fits, EncodeIds, EncodeFields;
      var n := |b|;
      var tag, nonce := b[n - 28..n - 12], b[n - 12..];
      assert b == b[..10] + b[10..30] + (b[30..n - 28] + tag + nonce);
      assert b == DataBytes(d, tag, nonce);
    }
    if tag, nonce :| |tag| == 16 && |nonce| == 12 && DataFits(d) && b == DataBytes(d, tag, nonce) { DataReads(d, tag, nonce); }
  }

  lemma DataReads(d: Data, tag: seq<byte>, nonce: seq<byte>)
    requires |tag| == 16 && |nonce| == 12 && DataFits(d)
    ensures DecodeData(DataBytes(d, tag, nonce)) == Some(d)
  {
    hide Fits, Field, EncodeIds, EncodeFields;
    var kind: byte := if d.fin then 1 else 0;
    var ids, fields, rest := EncodeIds(kind, d.dst, d.src), EncodeFields(d.number, d.stream, d.offset, d.length), d.payload + tag + nonce;
    var b := ids + fields + rest;
    assert b == ids + (fields + rest);
    IdsRead(kind, d.dst, d.src, fields + rest);
    FieldsRead(ids, d.number, d.stream, d.offset, d.length, rest);
    assert b[30..|b| - 28] == d.payload;
  }

  lemma {:induction false} ReadRanges(b: seq<byte>, count: nat)
    requires 8 * count <= |b|
    ensures EncodeRanges(DecodeRanges(b, count)) == b[..8 * count]
    ensures forall i :: 0 <= i < count ==> Fits(DecodeRanges(b, count)[i], 8)
  {
    hide Fits, Field;
    if count > 0 {
      ReadRanges(b, count - 1);
      ReadField(b, 8 * (count - 1), 8);
      var r := DecodeRanges(b, count);
      assert r[..count - 1] == DecodeRanges(b, count - 1);
      assert b[..8 * count] == b[..8 * (count - 1)] + b[8 * (count - 1)..8 * count];
    }
  }

  function AckBytes(a: Ack): seq<byte> {
    EncodeIds(2, a.dst, a.src) + EncodeLe(|a.ranges|, 2) + EncodeLe(a.number, 8) + EncodeRanges(a.ranges)
  }

  predicate AckFits(a: Ack) {
    Fits(a.src, 4) && Fits(a.dst, 4) && Fits(|a.ranges|, 2) && Fits(a.number, 8) && forall i :: 0 <= i < |a.ranges| ==> Fits(a.ranges[i], 8)
  }

  /** The ACK handler reads exactly the laid-out datagrams, each with the ids exchanged. */
  lemma AckDecodesIff(b: seq<byte>, a: Ack)
    ensures DecodeAck(b) == Some(a) <==> AckFits(a) && b == AckBytes(a)
  {
    hide DecodeAck, AckFits, AckBytes;
    if DecodeAck(b) == Some(a) { ReadAck(b, a); }
    if AckFits(a) && b == AckBytes(a) { AckReads(a); }
  }

  lemma ReadAck(b: seq<byte>, a: Ack)
    requires DecodeAck(b) == Some(a)
    ensures AckFits(a) && b == AckBytes(a)
  {
    ReadIds(b);
    ReadField(b, 10, 2);
    ReadField(b, 12, 8);
    ReadRanges(b[20..], |a.ranges|);
    hide Field, Fits, EncodeIds, EncodeRanges, DecodeRanges, EncodeLe;
    assert b[20..][..8 * |a.ranges|] == b[20..];
    FourCut(b);
  }

  lemma FourCut(b: seq<byte>)
    requires 20 <= |b|
    ensures b == b[..10] + b[10..12] + b[12..20] + b[20..]
  {
  }

  lemma AckReads(a: Ack)
    requires AckFits(a)
    ensures DecodeAck(AckBytes(a)) == Some(a)
  {
    AckFields(a.src, a.dst, |a.ranges|, a.number, EncodeRanges(a.ranges));
    RangesRoundTrip(a.ranges, []);
    hide Field, EncodeIds, EncodeLe, Fits, EncodeRanges, DecodeRanges;
    assert EncodeRanges(a.ranges) + [] == EncodeRanges(a.ranges);
  }

  lemma AckFields(src: nat, dst: nat, n: nat, number: nat, rest: seq<byte>)
    requires Fits(src, 4) && Fits(dst, 4) && Fits(n, 2) && Fits(number, 8)
    ensures var b := EncodeIds(2, dst, src) + EncodeLe(n, 2) + EncodeLe(number, 8) + rest;
      && |b| == 20 + |rest| && b[0] == 0 && b[1] == 2 && Field(b, 2, 4) == dst && Field(b, 6, 4) == src
      && Field(b, 10, 2) == n && Field(b, 12, 8) == number && b[20..] == rest
  {
    hide EncodeLe, Field, EncodeIds, Fits;
    var ids, f1, f2 := EncodeIds(2, dst, src), EncodeLe(n, 2), EncodeLe(number, 8);
    var b := ids + f1 + f2 + rest;
    assert b == ids + (f1 + f2 + rest);
    IdsRead(2, dst, src, f1 + f2 + rest);
    assert b == ids + f1 + (f2 + rest);
    FieldAt(ids, n, 2, f2 + rest);
    FieldAt(ids + f1, number, 8, rest);
  }

  // ---- Construction in place --------------------------------------------------------------------------------

  /** `set_ranges`: writes run lengths from offset 20 for as long as they fit, returning where it stopped. */
  method SetRanges(buf: array<byte>, ranges: seq<nat>) returns (end: nat)
    requires buf.Length >= 20
    modifies buf
    ensures var n := if |ranges| <= (buf.Length - 20) / 8 then |ranges| else (buf.Length - 20) / 8;
      end == 20 + 8 * n && buf[..20] == old(buf[..20]) && buf[20..end] == EncodeRanges(ranges[..n])
  {
    end := 20;
    var i := 0;
    while i < |ranges| && end + 8 <= buf.Length
      invariant 0 <= i <= |ranges| && end == 20 + 8 * i <= buf.Length
      invariant buf[..20] == old(buf[..20]) && buf[20..end] == EncodeRanges(ranges[..i])
    {
      ghost var before := buf[..];
      WriteLe(buf, end, ranges[i], 8);
      assert buf[20..end + 8] == before[20..end] + EncodeLe(ranges[i], 8);
      assert ranges[..i + 1][..i] == ranges[..i];
      assert buf[..20] == before[..20];
      i, end := i + 1, end + 8;
    }
  }

  /** `send_ACK`: sizes the buffer for at most 171 runs and fills it in. */
  method BuildAck(src: nat, dst: nat, number: nat, ranges: seq<nat>) returns (buf: array<byte>)
    ensures fresh(buf) && buf[..] == EncodeAck(src, dst, number, ranges)
  {
    hide EncodeLe, EncodeRanges;
    var size := if |ranges| > Ranges.ACK_RUNS then Ranges.ACK_RUNS else |ranges|;
    buf := new byte[20 + 8 * size](_ => 0);
    buf[0], buf[1] := 0, 2;
    assert buf[..2] == [0, 2];
    WriteLe(buf, 2, src, 4);
    assert buf[..6] == [0, 2] + EncodeLe(src, 4);
    WriteLe(buf, 6, dst, 4);
    assert buf[..10] == [0, 2] + EncodeLe(src, 4) + EncodeLe(dst, 4);
    WriteLe(buf, 12, number, 8);
    assert buf[12..20] == EncodeLe(number, 8);
    assert buf[..10] == [0, 2] + EncodeLe(src, 4) + EncodeLe(dst, 4);
    WriteLe(buf, 10, size, 2);
    assert buf[..12] == [0, 2] + EncodeLe(src, 4) + EncodeLe(dst, 4) + EncodeLe(size, 2);
    assert buf[12..20] == EncodeLe(number, 8);
    assert buf[..20] == buf[..12] + buf[12..20];
    var end := SetRanges(buf, ranges);
    assert ranges[..size] == Sent(ranges);
    assert end == buf.Length;
    assert buf[..] == buf[..20] + buf[20..];
  }
}
