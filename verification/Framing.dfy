/**
 The two incremental parsers of length-prefixed messages: one stores each message and forwards it whole, the other
 passes its bytes through as they come.
 */
module Framing {
  import opened Bytes
  import opened Trace

  const PREFIX := 8
  const MAX_LENGTH := 5000000

  /** The value of a big-endian field read byte by byte after `acc`. */
  function Shift(acc: nat, s: seq<byte>): nat
    decreases |s|
  {
    if s == [] then acc else Shift(acc * 256 + s[0], s[1..])
  }

  // ---- Store then forward ---------------------------------------------------------------------------------

  /** Either `size` bytes of a length prefix with value `length` so far, or the stored part of a body. */
  datatype Store = Header(length: nat, size: nat) | Body(length: nat, got: seq<byte>)

  const Ready := Header(0, 0)

  predicate StoreOk(p: Store) {
    match p
    case Header(_, size) => size < PREFIX
    case Body(length, got) => |got| <= length <= MAX_LENGTH && (got == [] || |got| < length)
  }

  /** The new state, the messages completed, and whether the stream is still acceptable. */
  datatype Stored = Stored(p: Store, messages: seq<seq<byte>>, ok: bool)

  function Take(p: Store, bytes: seq<byte>): (r: Stored)
    requires StoreOk(p)
    ensures r.ok ==> StoreOk(r.p)
    decreases |bytes|, if p.Body? then 1 else 0
  {
    if bytes == [] then Stored(p, [], true)
    else
      match p
      case Header(length, size) =>
        if |bytes| + size < PREFIX then Stored(Header(Shift(length, bytes), size + |bytes|), [], true)
        else
          var n := Shift(length, bytes[..PREFIX - size]);
          if n > MAX_LENGTH then Stored(Header(n, size), [], false)
          else Take(Body(n, []), bytes[PREFIX - size..])
      case Body(length, got) =>
        if |bytes| + |got| < length then Stored(Body(length, got + bytes), [], true)
        else
          var r := Take(Ready, bytes[length - |got|..]);
          Stored(r.p, [got + bytes[..length - |got|]] + r.messages, r.ok)
  }

  // ---- Cut through ----------------------------------------------------------------------------------------

  datatype Cut = CutHeader(length: nat, size: nat) | CutBody(length: nat, size: nat)

  const CutReady := CutHeader(0, 0)

  datatype Passed = Passed(p: Cut, events: seq<Event>, ok: bool)

  predicate CutOk(p: Cut) {
    match p
    case CutHeader(_, size) => size < PREFIX
    case CutBody(length, size) => size <= length <= MAX_LENGTH && (size == 0 || size < length)
  }

  function PassOn(p: Cut, bytes: seq<byte>): (r: Passed)
    requires CutOk(p)
    ensures r.ok ==> CutOk(r.p)
    decreases |bytes|, if p.CutBody? then 1 else 0
  {
    if bytes == [] then Passed(p, [], true)
    else
      match p
      case CutHeader(length, size) =>
        if |bytes| + size < PREFIX then Passed(CutHeader(Shift(length, bytes), size + |bytes|), [], true)
        else
          var n := Shift(length, bytes[..PREFIX - size]);
          if n > MAX_LENGTH then Passed(CutHeader(n, size), [], false)
          else
            var r := PassOn(CutBody(n, 0), bytes[PREFIX - size..]);
            Passed(r.p, [Start(n)] + r.events, r.ok)
      case CutBody(length, size) =>
        if |bytes| + size < length then Passed(CutBody(length, size + |bytes|), [Chunk(bytes)], true)
        else
          var r := PassOn(CutReady, bytes[length - size..]);
          Passed(r.p, [Chunk(bytes[..length - size]), End] + r.events, r.ok)
  }

  // ---- Cut through refines store then forward -------------------------------------------------------------

  function OpenOf(p: Store): Open {
    match p
    case Header(_, _) => Closed
    case Body(length, got) => Opened(length, got)
  }

  function CutOf(p: Store): Cut {
    match p
    case Header(length, size) => CutHeader(length, size)
    case Body(length, got) => CutBody(length, |got|)
  }

  /** On the same bytes, the cut-through trace is properly bracketed, each message's chunks total its announced
      length, and the trace collapses to exactly the messages the storing parser completes. */
  lemma {:induction false} PassRefinesTake(p: Store, bytes: seq<byte>)
    requires StoreOk(p)
    ensures var r := Take(p, bytes); var q := PassOn(CutOf(p), bytes);
      && q.p == CutOf(r.p) && q.ok == r.ok
      && (r.ok ==> Collapse(OpenOf(p), q.events) == Reading(r.messages, OpenOf(r.p)))
      && (!r.ok ==> Collapse(OpenOf(p), q.events) == Reading(r.messages, Closed))
    decreases |bytes|, if p.Body? then 1 else 0
  {
    hide Collapse, Shift;
    if bytes == [] {
      CollapseNothing(OpenOf(p));
    } else {
      match p
      case Header(length, size) =>
        if |bytes| + size < PREFIX {
          CollapseNothing(Closed);
        } else {
          var n := Shift(length, bytes[..PREFIX - size]);
          if n <= MAX_LENGTH {
            PassRefinesTake(Body(n, []), bytes[PREFIX - size..]);
            CollapseStart(n, PassOn(CutBody(n, 0), bytes[PREFIX - size..]).events);
          } else {
            CollapseNothing(Closed);
          }
        }
      case Body(length, got) =>
        if |bytes| + |got| < length {
          CollapseChunk(length, got, bytes);
        } else {
          var k := length - |got|;
          PassRefinesTake(Ready, bytes[k..]);
          CollapseWhole(length, got, bytes[..k], PassOn(CutReady, bytes[k..]).events);
        }
    }
  }

  /** Feeding a sequence of chunks; nothing is fed after an error. */
  function TakeAll(p: Store, chunks: seq<seq<byte>>): Stored
    requires StoreOk(p)
    decreases |chunks|
  {
    if chunks == [] then Stored(p, [], true)
    else
      var r := Take(p, chunks[0]);
      if !r.ok then r
      else
        var rest := TakeAll(r.p, chunks[1..]);
        Stored(rest.p, r.messages + rest.messages, rest.ok)
  }

  function PassAll(p: Cut, chunks: seq<seq<byte>>): Passed
    requires CutOk(p)
    decreases |chunks|
  {
    if chunks == [] then Passed(p, [], true)
    else
      var r := PassOn(p, chunks[0]);
      if !r.ok then r
      else
        var rest := PassAll(r.p, chunks[1..]);
        Passed(rest.p, r.events + rest.events, rest.ok)
  }

  /** The refinement over any chunking of any byte stream. */
  lemma {:induction false} PassAllRefines(p: Store, chunks: seq<seq<byte>>)
    requires StoreOk(p)
    ensures var r := TakeAll(p, chunks); var q := PassAll(CutOf(p), chunks);
      && q.p == CutOf(r.p) && q.ok == r.ok
      && Collapse(OpenOf(p), q.events) == Reading(r.messages, if r.ok then OpenOf(r.p) else Closed)
    decreases |chunks|
  {
    if chunks != [] {
      PassRefinesTake(p, chunks[0]);
      var r := Take(p, chunks[0]);
      if r.ok {
        PassAllRefines(r.p, chunks[1..]);
        CollapseSplit(OpenOf(p), PassOn(CutOf(p), chunks[0]).events, PassAll(CutOf(r.p), chunks[1..]).events);
      }
    }
  }

  // ---- Chunking does not matter ---------------------------------------------------------------------------

  lemma {:induction false} ShiftSplit(acc: nat, a: seq<byte>, b: seq<byte>)
    ensures Shift(acc, a + b) == Shift(Shift(acc, a), b)
    decreases |a|
  {
    if a == [] {
      assert a + b == b;
    } else {
      assert (a + b)[1..] == a[1..] + b;
      ShiftSplit(acc * 256 + a[0], a[1..], b);
    }
  }

  function Then(r: Stored, b: seq<byte>): Stored
    requires r.ok ==> StoreOk(r.p)
  {
    if !r.ok then r
    else var rest := Take(r.p, b); Stored(rest.p, r.messages + rest.messages, rest.ok)
  }

  /** Same verdict and messages, and the same state unless the stream was rejected (then nothing more is fed). */
  predicate SameOutcome(r: Stored, t: Stored) {
    r.ok == t.ok && r.messages == t.messages && (r.ok ==> r.p == t.p)
  }

  lemma ThenFirst(m: seq<byte>, r: Stored, b: seq<byte>)
    requires r.ok ==> StoreOk(r.p)
    ensures var first := Stored(r.p, [m] + r.messages, r.ok); var t := Then(r, b);
      Then(first, b) == Stored(t.p, [m] + t.messages, t.ok)
  {
    if r.ok {
      var rest := Take(r.p, b);
      assert ([m] + r.messages) + rest.messages == [m] + (r.messages + rest.messages);
    }
  }

  lemma NothingFirst(r: Stored)
    ensures Stored(r.p, [] + r.messages, r.ok) == r
  {
    assert [] + r.messages == r.messages;
  }

  /** The first chunk ends inside the length prefix. */
  lemma SplitInHeader(p: Store, a: seq<byte>, b: seq<byte>)
    requires StoreOk(p) && p.Header? && a != [] && b != [] && |a| < PREFIX - p.size
    ensures SameOutcome(Then(Take(p, a), b), Take(p, a + b))
  {
    var k := PREFIX - p.size;
    NothingFirst(Take(Take(p, a).p, b));
    if |a| + |b| < k {
      ShiftSplit(p.length, a, b);
    } else {
      assert (a + b)[..k] == a + b[..k - |a|] && (a + b)[k..] == b[k - |a|..];
      ShiftSplit(p.length, a, b[..k - |a|]);
    }
  }

  lemma TakePart(length: nat, got: seq<byte>, bytes: seq<byte>)
    requires StoreOk(Body(length, got)) && bytes != [] && |bytes| + |got| < length
    ensures Take(Body(length, got), bytes) == Stored(Body(length, got + bytes), [], true)
  {
  }

  lemma TakeWhole(length: nat, got: seq<byte>, bytes: seq<byte>)
    requires StoreOk(Body(length, got)) && bytes != [] && |bytes| + |got| >= length
    ensures var r := Take(Ready, bytes[length - |got|..]);
      Take(Body(length, got), bytes) == Stored(r.p, [got + bytes[..length - |got|]] + r.messages, r.ok)
  {
  }

  /** The first chunk ends inside a message. */
  lemma SplitInBody(length: nat, got: seq<byte>, a: seq<byte>, b: seq<byte>)
    requires StoreOk(Body(length, got)) && a != [] && b != [] && |a| + |got| < length
    ensures Then(Take(Body(length, got), a), b) == Take(Body(length, got), a + b)
  {
    hide Take;
    TakePart(length, got, a);
    NothingFirst(Take(Body(length, got + a), b));
    assert got + (a + b) == (got + a) + b;
    if |a| + |b| + |got| < length {
      TakePart(length, got, a + b);
      TakePart(length, got + a, b);
    } else {
      var k := length - |got|;
      assert (a + b)[..k] == a + b[..k - |a|] && (a + b)[k..] == b[k - |a|..];
      assert got + (a + b[..k - |a|]) == (got + a) + b[..k - |a|];
      TakeWhole(length, got, a + b);
      TakeWhole(length, got + a, b);
    }
  }

  /** Feeding `a` and then `b` is feeding `a + b`: same messages, same verdict, and the same state while accepted. */
  lemma {:induction false} TakeSplit(p: Store, a: seq<byte>, b: seq<byte>)
    requires StoreOk(p)
    ensures SameOutcome(Then(Take(p, a), b), Take(p, a + b))
    decreases |a|, if p.Body? then 1 else 0
  {
    hide Shift;
    if a == [] {
      assert a + b == b;
      NothingFirst(Take(p, b));
    } else if b == [] {
      assert a + b == a;
      assert Take(p, a).messages + [] == Take(p, a).messages;
    } else {
      var k := if p.Header? then PREFIX - p.size else p.length - |p.got|;
      if |a| < k {
        if p.Header? { SplitInHeader(p, a, b); } else { SplitInBody(p.length, p.got, a, b); }
      } else {
        assert (a + b)[..k] == a[..k] && (a + b)[k..] == a[k..] + b;
        match p
        case Header(length, _) =>
          var n := Shift(length, a[..k]);
          if n <= MAX_LENGTH { TakeSplit(Body(n, []), a[k..], b); }
        case Body(_, got) =>
          TakeSplit(Ready, a[k..], b);
          ThenFirst(got + a[..k], Take(Ready, a[k..]), b);
      }
    }
  }

  /** However a byte stream is chunked, the parser ends in the same state with the same messages and verdict. */
  lemma {:induction false} ChunkingIrrelevant(p: Store, chunks: seq<seq<byte>>)
    requires StoreOk(p)
    ensures SameOutcome(TakeAll(p, chunks), Take(p, Concat(chunks)))
    decreases |chunks|
  {
    if chunks != [] {
      TakeSplit(p, chunks[0], Concat(chunks[1..]));
      var r := Take(p, chunks[0]);
      if r.ok { ChunkingIrrelevant(r.p, chunks[1..]); }
    }
  }

  // ---- Round trip -----------------------------------------------------------------------------------------

  /** The bytes LpfTransport's `send` writes for one message. */
  function Frame(m: seq<byte>): seq<byte> { EncodeBe(|m|, PREFIX) + m }

  function Frames(messages: seq<seq<byte>>): seq<byte> {
    if messages == [] then [] else Frame(messages[0]) + Frames(messages[1..])
  }

  lemma {:induction false} ShiftDecodes(s: seq<byte>)
    ensures Shift(0, s) == DecodeBe(s)
  {
    if s != [] {
      var n := |s| - 1;
      assert s == s[..n] + [s[n]];
      ShiftSplit(0, s[..n], [s[n]]);
      ShiftDecodes(s[..n]);
      assert [s[n]][1..] == [];
    }
  }

  lemma PrefixRange()
    ensures Range(PREFIX) == 0x1_0000_0000_0000_0000
  {
    assert Range(2) == 0x1_0000;
    assert Range(4) == 0x1_0000_0000 by { assert Range(4) == 256 * (256 * Range(2)); }
    assert Range(6) == 0x1_0000_0000_0000 by { assert Range(6) == 256 * (256 * Range(4)); }
    assert Range(8) == 256 * (256 * Range(6));
  }

  /** A whole frame at the front of what is fed. */
  lemma TakeFrame(m: seq<byte>, rest: seq<byte>)
    requires |m| < Range(PREFIX)
    ensures var t := Take(Ready, Frame(m) + rest);
      if |m| > MAX_LENGTH then t == Stored(Header(|m|, 0), [], false)
      else if m == [] && rest == [] then t == Stored(Body(0, []), [], true)
      else var r := Take(Ready, rest); t == Stored(r.p, [m] + r.messages, r.ok)
  {
    var bytes := Frame(m) + rest;
    BeRoundTrip(|m|, PREFIX);
    assert bytes[..PREFIX] == EncodeBe(|m|, PREFIX) && bytes[PREFIX..] == m + rest;
    ShiftDecodes(bytes[..PREFIX]);
    if |m| <= MAX_LENGTH && m + rest != [] {
      assert (m + rest)[..|m|] == m && (m + rest)[|m|..] == rest;
      assert [] + m == m;
    }
  }

  /** Feeding what `send` writes for a list of messages delivers exactly that list; only a final empty message
      stays pending until the next byte. */
  lemma {:induction false} FramesRoundTrip(messages: seq<seq<byte>>)
    requires forall i :: 0 <= i < |messages| ==> |messages[i]| <= MAX_LENGTH
    ensures Take(Ready, Frames(messages)) ==
      if messages != [] && messages[|messages| - 1] == [] then Stored(Body(0, []), messages[..|messages| - 1], true)
      else Stored(Ready, messages, true)
    decreases |messages|
  {
    if messages != [] {
      var rest := messages[1..];
      PrefixRange();
      TakeFrame(messages[0], Frames(rest));
      FramesRoundTrip(rest);
      if rest == [] {
        assert messages == [messages[0]];
      } else {
        assert |Frames(rest)| >= PREFIX;
        assert messages == [messages[0]] + rest;
        assert messages[|messages| - 1] == rest[|rest| - 1];
        assert messages[..|messages| - 1] == [messages[0]] + rest[..|rest| - 1];
      }
    }
  }

  /** The calls made on a frame, in any chunks: one whole message. */
  lemma FrameTrace(m: seq<byte>, chunks: seq<seq<byte>>)
    requires 0 < |m| <= MAX_LENGTH && Concat(chunks) == Frame(m)
    ensures Collapse(Closed, PassAll(CutReady, chunks).events) == Reading([m], Closed)
  {
    PrefixRange();
    TakeFrame(m, []);
    assert Frame(m) + [] == Frame(m);
    ChunkingIrrelevant(Ready, chunks);
    PassAllRefines(Ready, chunks);
  }

  /** `send` accepts any length, the parser does not: a list arrives whole exactly when every message fits. */
  lemma {:induction false} AcceptedIff(messages: seq<seq<byte>>)
    requires forall i :: 0 <= i < |messages| ==> |messages[i]| < Range(PREFIX)
    ensures Take(Ready, Frames(messages)).ok <==> forall i :: 0 <= i < |messages| ==> |messages[i]| <= 5000000
    decreases |messages|
  {
    if messages != [] {
      var rest := messages[1..];
      TakeFrame(messages[0], Frames(rest));
      AcceptedIff(rest);
      if forall i :: 0 <= i < |messages| ==> |messages[i]| <= MAX_LENGTH {
        assert forall i :: 0 <= i < |rest| ==> rest[i] == messages[i + 1];
      } else if |messages[0]| <= MAX_LENGTH {
        var i :| 0 <= i < |messages| && |messages[i]| > MAX_LENGTH;
        assert rest[i - 1] == messages[i];
        assert Frames(rest) != [] by { assert |Frame(rest[0])| >= PREFIX; }
      }
    }
  }

  /** From any prefix of the frames, in any chunking, only messages of the list come out, in order. */
  lemma PrefixDelivers(messages: seq<seq<byte>>, chunks: seq<seq<byte>>)
    requires forall i :: 0 <= i < |messages| ==> |messages[i]| <= MAX_LENGTH
    requires Concat(chunks) <= Frames(messages)
    ensures TakeAll(Ready, chunks).ok && TakeAll(Ready, chunks).messages <= messages
  {
    ChunkingIrrelevant(Ready, chunks);
    var a := Concat(chunks);
    var b := Frames(messages)[|a|..];
    assert a + b == Frames(messages);
    TakeSplit(Ready, a, b);
    FramesRoundTrip(messages);
  }

  // ---- The programs ---------------------------------------------------------------------------------------

  class StoreThenForwardBuffer {
    var buf: array?<byte>
    var length: nat
    var size: nat

    ghost predicate Valid()
      reads this, buf
    {
      && (buf == null ==> size < PREFIX)
      && (buf != null ==> buf.Length == length <= MAX_LENGTH && size <= length && (size == 0 || size < length))
    }

    function View(): Store
      reads this, buf
      requires buf != null ==> size <= buf.Length
    {
      if buf == null then Header(length, size) else Body(length, buf[..size])
    }

    constructor ()
      ensures Valid() && View() == Ready && buf == null
    {
      buf, length, size := null, 0, 0;
    }

    /** Returns 0, or -1 on a message too big, and the messages completed by `bytes`. */
    method DidRecv(bytes: seq<byte>) returns (res: int, messages: seq<seq<byte>>)
      requires Valid()
      modifies this, buf
      ensures buf == old(buf) || buf == null || fresh(buf)
      ensures buf != null ==> size <= buf.Length
      ensures var r := Take(old(View()), bytes); messages == r.messages && res == (if r.ok then 0 else -1) && View() == r.p
      ensures res == 0 ==> Valid()
      decreases |bytes|, if buf != null then 1 else 0
    {
      hide Shift;
      if |bytes| == 0 { return 0, []; }

      if buf == null { // in the length prefix
        if |bytes| + size < PREFIX {
          length := ShiftIn(length, bytes);
          size := size + |bytes|;
        } else {
          var k := PREFIX - size;
          length := ShiftIn(length, bytes[..k]);

          if length > MAX_LENGTH { return -1, []; } // the field keeps the rejected length

          buf := new byte[length](_ => 0);
          size := 0;

          // What follows the prefix or the message is taken in turn.
          assert buf[..0] == [];
          res, messages := DidRecv(bytes[k..]);
          return;
        }
      } else { // in a body
        if |bytes| + size < length {
          Append(bytes);
        } else {
          var k := length - size;
          Append(bytes[..k]);
          var message := buf[..];
          assert message == old(buf[..size]) + bytes[..k];
          buf := null;

          size := 0;
          length := 0;

          // What follows the prefix or the message is taken in turn.
          res, messages := DidRecv(bytes[k..]);
          messages := [message] + messages;
          return;
        }
      }
      return 0, [];
    }

    /** Copies bytes to the end of the stored part. */
    method Append(bytes: seq<byte>)
      requires buf != null && size + |bytes| <= buf.Length
      modifies this`size, buf
      ensures size == old(size) + |bytes| && buf[..size] == old(buf[..size]) + bytes
    {
      for i := 0 to |bytes|
        invariant size == old(size) && size + |bytes| <= buf.Length
        invariant buf[..size + i] == old(buf[..size]) + bytes[..i]
      {
        buf[size + i] := bytes[i];
        assert buf[..size + i + 1] == buf[..size + i] + [bytes[i]];
        assert bytes[..i + 1] == bytes[..i] + [bytes[i]];
      }
      assert bytes[..|bytes|] == bytes;
      size := size + |bytes|;
    }
  }

  /** Shifts bytes into a big-endian accumulator. */
  method ShiftIn(acc: nat, bytes: seq<byte>) returns (n: nat)
    ensures n == Shift(acc, bytes)
  {
    n := acc;
    var i := 0;
    while i < |bytes|
      invariant 0 <= i <= |bytes| && Shift(n, bytes[i..]) == Shift(acc, bytes)
    {
      assert bytes[i..][1..] == bytes[i + 1..];
      n := n * 256 + bytes[i];
      i := i + 1;
    }
  }

  class CutThroughBuffer {
    var cutThrough: bool
    var length: nat
    var size: nat

    ghost predicate Valid()
      reads this
    {
      CutOk(View())
    }

    function View(): Cut
      reads this
    {
      if cutThrough then CutBody(length, size) else CutHeader(length, size)
    }

    constructor ()
      ensures Valid() && View() == CutReady
    {
      cutThrough, length, size := false, 0, 0;
    }

    /** Returns 0, or -1 on a message too big, and the delegate calls made. */
    method DidRecv(bytes: seq<byte>) returns (res: int, events: seq<Event>)
      requires Valid()
      modifies this
      ensures var r := PassOn(old(View()), bytes); events == r.events && res == (if r.ok then 0 else -1) && View() == r.p
      ensures res == 0 ==> Valid()
      decreases |bytes|, if cutThrough then 1 else 0
    {
      if |bytes| == 0 { return 0, []; }

      if !cutThrough { // in the length prefix
        if |bytes| + size < PREFIX {
          length := ShiftIn(length, bytes);
          size := size + |bytes|;
          return 0, [];
        } else {
          var k := PREFIX - size;
          length := ShiftIn(length, bytes[..k]);

          if length > MAX_LENGTH { return -1, []; } // the field keeps the rejected length

          events := [Start(length)];
          cutThrough := true;
          size := 0;

          // What follows the prefix or the message is taken in turn.
          var more;
          res, more := DidRecv(bytes[k..]);
          events := events + more;
        }
      } else { // in a body
        if |bytes| + size < length {
          size := size + |bytes|;
          return 0, [Chunk(bytes)];
        } else {
          var k := length - size;
          events := [Chunk(bytes[..k]), End];

          cutThrough := false;
          size := 0;
          length := 0;

          // What follows the prefix or the message is taken in turn.
          var more;
          res, more := DidRecv(bytes[k..]);
          events := events + more;
        }
      }
    }
  }
}
