/**
 The MESSAGE a PubSubNode relays: how it is parsed and rebuilt hop by hop, and how cut-through forwarding produces
 the same bytes without waiting for the whole message.
 */
module Relay {
  import opened Bytes
  import opened Witness
  import opened Trace
  import Framing

  const MESSAGE: byte := 3
  const HEADER := 11

  /** Attestation and witness of the previous hop; both empty for a message that starts here. */
  datatype Header = Header(attestation: seq<byte>, trail: seq<byte>)

  datatype Parsed = Parsed(id: nat, channel: nat, header: Header, data: seq<byte>)

  predicate HeaderOk(h: Header) { h.trail == [] || |h.trail| == WITNESS }

  // ---- Building and parsing -------------------------------------------------------------------------------

  /** `attest`: a verbatim copy, or an empty attestation's two zero octets. */
  function Attested(h: Header): seq<byte> {
    if h.attestation == [] then EncodeLe(0, 2) else h.attestation
  }

  /** `create_MESSAGE`. */
  function Create(key: Key, id: nat, channel: nat, h: Header, data: seq<byte>): seq<byte>
    requires HeaderOk(h)
  {
    [MESSAGE] + EncodeBe(id, 8) + EncodeBe(channel, 2) + Attested(h) + Witnessed(key, h.trail) + data
  }

  /** A two-octet little-endian field, if it is all there. */
  function Word(b: seq<byte>, offset: nat): Option<nat> {
    if offset + 2 <= |b| then Some(DecodeLe(b[offset..offset + 2])) else None
  }

  /** The lengths of attestation and witness, and where the data starts, if the header is well formed. */
  function ParseHeader(b: seq<byte>, offset: nat): Option<Header> {
    match Word(b, offset)
    case None => None
    case Some(n) =>
      if |b| < offset + n then None
      else if Word(b, offset + n) != Some(WITNESS) then None
      else if |b| < offset + n + WITNESS then None
      else Some(Header(b[offset..offset + n], b[offset + n..offset + n + WITNESS]))
  }

  function DataStart(offset: nat, h: Header): nat { offset + |h.attestation| + |h.trail| }

  /** What `did_recv` and `did_recv_MESSAGE` make of a whole message. */
  function Parse(m: seq<byte>): Option<Parsed> {
    if |m| == 0 || m[0] != MESSAGE || |m| < HEADER then None
    else
      match ParseHeader(m, HEADER)
      case None => None
      case Some(h) => Some(Parsed(DecodeBe(m[1..9]), DecodeBe(m[9..11]), h, m[DataStart(HEADER, h)..]))
  }

  lemma ParseHeaderFits(b: seq<byte>, offset: nat)
    requires ParseHeader(b, offset).Some?
    ensures var h := ParseHeader(b, offset).value;
      && DataStart(offset, h) <= |b| && |h.trail| == WITNESS
      && b[offset..DataStart(offset, h)] == h.attestation + h.trail
  {
  }

  // ---- One hop --------------------------------------------------------------------------------------------

  /** An attestation that starts with its own length. */
  predicate SelfDescribing(a: seq<byte>) {
    2 <= |a| && DecodeLe(a[..2]) == |a|
  }

  /** A witness as a hop leaves it: its length, then the filter. */
  predicate WitnessOk(w: seq<byte>) {
    |w| == WITNESS && DecodeLe(w[..2]) == WITNESS
  }

  lemma WitnessedOk(key: Key, prev: seq<byte>)
    requires prev == [] || WitnessOk(prev)
    ensures WitnessOk(Witnessed(key, prev))
  {
    assert WITNESS < Range(2);
    LeRoundTrip(WITNESS, 2);
    var start := if prev == [] then EncodeLe(WITNESS, 2) + Zeros(BLOOM) else prev;
    assert Witnessed(key, prev)[..2] == start[..2];
    if prev == [] { assert start[..2] == EncodeLe(WITNESS, 2); }
  }

  /** The header at the start of `rest`, when it is an attestation of `n` octets by its own account. */
  lemma HeaderAt(b: seq<byte>, offset: nat, a: seq<byte>, w: seq<byte>, data: seq<byte>)
    requires offset <= |b| && b[offset..] == a + w + data && SelfDescribing(a) && WitnessOk(w)
    ensures ParseHeader(b, offset) == Some(Header(a, w)) && b[DataStart(offset, Header(a, w))..] == data
  {
    var n := |a|;
    hide DecodeLe;
    assert b[offset..offset + 2] == b[offset..][..2] == a[..2];
    assert b[offset + n..offset + n + 2] == b[offset..][n..n + 2] == w[..2];
    assert b[offset..offset + n] == b[offset..][..n] == a;
    assert b[offset + n..offset + n + WITNESS] == b[offset..][n..n + WITNESS] == w;
    assert b[offset + n + WITNESS..] == b[offset..][n + WITNESS..] == data;
  }

  lemma CreateLayout(key: Key, id: nat, channel: nat, h: Header, data: seq<byte>)
    requires HeaderOk(h) && id < Range(8) && channel < Range(2)
    ensures var m := Create(key, id, channel, h, data);
      && |m| >= HEADER && m[0] == MESSAGE && DecodeBe(m[1..9]) == id && DecodeBe(m[9..11]) == channel
      && m[HEADER..] == Attested(h) + Witnessed(key, h.trail) + data
  {
    BeRoundTrip(id, 8);
    BeRoundTrip(channel, 2);
    hide EncodeBe, DecodeBe, Attested, Witnessed;
    Fields([MESSAGE], EncodeBe(id, 8), EncodeBe(channel, 2), Attested(h), Witnessed(key, h.trail), data);
  }

  lemma Fields(x: seq<byte>, y: seq<byte>, z: seq<byte>, a: seq<byte>, w: seq<byte>, d: seq<byte>)
    requires |x| == 1 && |y| == 8 && |z| == 2
    ensures var m := x + y + z + a + w + d;
      m[0] == x[0] && m[1..9] == y && m[9..11] == z && m[11..] == a + w + d
  {
    var m := x + y + z + a + w + d;
    assert m == x + y + (z + (a + w + d));
    ThreeParts(x, y, z + (a + w + d));
    assert m == (x + y) + z + (a + w + d);
    ThreeParts(x + y, z, a + w + d);
  }

  /** A created message parses back to its fields exactly when its attestation describes its own length. In
      particular a message that starts with an empty attestation is rejected by the next hop. */
  lemma CreateParseIff(key: Key, id: nat, channel: nat, h: Header, data: seq<byte>)
    requires (h.trail == [] || WitnessOk(h.trail)) && id < Range(8) && channel < Range(2)
    ensures Parse(Create(key, id, channel, h, data)) ==
        Some(Parsed(id, channel, Header(h.attestation, Witnessed(key, h.trail)), data))
      <==> SelfDescribing(h.attestation)
  {
    var m, w := Create(key, id, channel, h, data), Witnessed(key, h.trail);
    CreateLayout(key, id, channel, h, data);
    WitnessedOk(key, h.trail);
    if SelfDescribing(h.attestation) {
      HeaderAt(m, HEADER, h.attestation, w, data);
    } else {
      NotSelfDescribing(m, h.attestation, w, data);
    }
  }

  lemma NotSelfDescribing(m: seq<byte>, a: seq<byte>, w: seq<byte>, data: seq<byte>)
    requires |m| >= HEADER && WitnessOk(w) && !SelfDescribing(a)
    requires m[HEADER..] == (if a == [] then EncodeLe(0, 2) else a) + w + data
    ensures ParseHeader(m, HEADER).Some? ==> ParseHeader(m, HEADER).value.attestation != a
  {
    if |a| >= 2 {
      assert m[HEADER..HEADER + 2] == m[HEADER..][..2] == a[..2];
    } else if |a| == 1 {
      assert w[0] == 34 by { assert DecodeLe(w[..2]) == w[0] + 256 * DecodeLe(w[..2][1..]); }
      assert m[HEADER..HEADER + 2] == m[HEADER..][..2] == [a[0], w[0]];
      assert DecodeLe([a[0], w[0]]) == a[0] + 256 * DecodeLe([w[0]]) by { assert [a[0], w[0]][1..] == [w[0]]; }
      assert DecodeLe([w[0]]) == w[0] by { assert [w[0]][1..] == []; }
    } else {
      assert m[HEADER..HEADER + 2] == m[HEADER..][..2] == EncodeLe(0, 2);
      LeRoundTrip(0, 2);
      assert WITNESS != 0;
    }
  }

  /** A message that starts with an empty attestation carries the octets 0, 0 in its place, and no node accepts it. */
  lemma EmptyIsRefused(key: Key, id: nat, channel: nat, trail: seq<byte>, data: seq<byte>)
    requires (trail == [] || WitnessOk(trail)) && id < Range(8) && channel < Range(2)
    ensures var m := Create(key, id, channel, Header([], trail), data);
      |m| == 13 + WITNESS + |data| && m[11] == 0 && m[12] == 0 && Parse(m) == None
  {
    var h := Header([], trail);
    var m := Create(key, id, channel, h, data);
    CreateLayout(key, id, channel, h, data);
    hide EncodeBe, DecodeBe, Witnessed;
    var zeros := EncodeLe(0, 2);
    LeRoundTrip(0, 2);
    assert zeros == [0, 0] by { assert EncodeLe(0, 1) == [0] + EncodeLe(0, 0); }
    assert m[HEADER..] == zeros + Witnessed(key, trail) + data;
    assert m[11] == m[HEADER..][0] && m[12] == m[HEADER..][1];
    assert m[HEADER..HEADER + 2] == [m[11], m[12]];
  }

  /** A hop: parse, and rebuild for the next peer. */
  function Hop(key: Key, m: seq<byte>): Option<seq<byte>> {
    match Parse(m)
    case None => None
    case Some(p) => if HeaderOk(p.header) then Some(Create(key, p.id, p.channel, p.header, p.data)) else None
  }

  /** A parsed message laid out. */
  function Layout(p: Parsed): seq<byte> {
    [3] + EncodeBe(p.id, 8) + EncodeBe(p.channel, 2) + p.header.attestation + p.header.trail + p.data
  }

  /** Parsing accepts exactly the messages laid out with an attestation that starts with its own length and a witness
      of 34 octets that does, and reads their parts. */
  lemma ParseIff(m: seq<byte>, p: Parsed)
    ensures Parse(m) == Some(p) <==>
      && p.id < Range(8) && p.channel < Range(2) && SelfDescribing(p.header.attestation)
      && |p.header.trail| == 34 && DecodeLe(p.header.trail[..2]) == 34
      && m == Layout(p)
  {
    if Parse(m) == Some(p) {
      ParsedShape(m);
      ParsedSelfDescribing(m);
      ParsedLayout(m);
    }
    if p.id < Range(8) && p.channel < Range(2) && SelfDescribing(p.header.attestation)
      && |p.header.trail| == 34 && DecodeLe(p.header.trail[..2]) == 34 && m == Layout(p) { LayoutParses(p); }
  }

  lemma LayoutParses(p: Parsed)
    requires p.id < Range(8) && p.channel < Range(2) && SelfDescribing(p.header.attestation) && WitnessOk(p.header.trail)
    ensures Parse(Layout(p)) == Some(p)
  {
    var m := Layout(p);
    BeRoundTrip(p.id, 8);
    BeRoundTrip(p.channel, 2);
    hide EncodeBe, DecodeBe, ParseHeader;
    Fields([MESSAGE], EncodeBe(p.id, 8), EncodeBe(p.channel, 2), p.header.attestation, p.header.trail, p.data);
    HeaderAt(m, HEADER, p.header.attestation, p.header.trail, p.data);
  }

  lemma ParsedLayout(m: seq<byte>)
    requires Parse(m).Some?
    ensures m == Layout(Parse(m).value)
  {
    var p := Parse(m).value;
    ParseHeaderFits(m, HEADER);
    BeReadBack(m[1..9]);
    BeReadBack(m[9..11]);
    hide EncodeBe, DecodeBe, ParseHeader;
    var h := p.header;
    var d := DataStart(HEADER, h);
    assert m == [m[0]] + m[1..9] + m[9..11] + m[HEADER..d] + m[d..];
    assert m[HEADER..d] == h.attestation + h.trail;
  }

  // ---- Any number of hops ---------------------------------------------------------------------------------

  function Hops(keys: seq<Key>, m: seq<byte>): Option<seq<byte>> {
    if keys == [] then Some(m)
    else
      match Hops(keys[..|keys| - 1], m)
      case None => None
      case Some(last) => Hop(keys[|keys| - 1], last)
  }

  function Bloom(p: Parsed): seq<byte>
    requires |p.header.trail| == WITNESS
  {
    p.header.trail[2..]
  }

  /** Fields of two parses that relaying must not touch. */
  predicate SameContent(p: Parsed, q: Parsed) {
    p.id == q.id && p.channel == q.channel && p.header.attestation == q.header.attestation && p.data == q.data
  }

  lemma DecodeBound(s: seq<byte>)
    ensures DecodeBe(s) < Range(|s|)
  {
    if s != [] { DecodeBound(s[..|s| - 1]); }
  }

  lemma ParsedShape(m: seq<byte>)
    requires Parse(m).Some?
    ensures var p := Parse(m).value; p.id < Range(8) && p.channel < Range(2) && |p.header.trail| == WITNESS
    ensures DecodeLe(Parse(m).value.header.trail[..2]) == WITNESS
  {
    ParseHeaderFits(m, HEADER);
    DecodeBound(m[1..9]);
    DecodeBound(m[9..11]);
    var h := ParseHeader(m, HEADER).value;
    var at := HEADER + |h.attestation|;
    assert m[at..at + 2] == h.trail[..2];
  }

  /** A parse never yields an attestation that does not describe itself. */
  lemma ParsedSelfDescribing(m: seq<byte>)
    requires Parse(m).Some?
    ensures SelfDescribing(Parse(m).value.header.attestation)
  {
    var h := Parse(m).value.header;
    var n := |h.attestation|;
    assert DecodeLe(m[HEADER..HEADER + 2]) == n;
    // With n < 2 the witness length would overlap the attestation length, and 34 is neither.
    TwoOctets(m, HEADER);
    TwoOctets(m, HEADER + n);
    if n >= 2 { assert h.attestation[..2] == m[HEADER..HEADER + 2]; }
  }

  lemma TwoOctets(b: seq<byte>, offset: nat)
    requires offset + 2 <= |b|
    ensures var x: int, y: int := b[offset], b[offset + 1]; DecodeLe(b[offset..offset + 2]) == x + 256 * y
  {
    var s := b[offset..offset + 2];
    assert s[1..] == [s[1]] && [s[1]][1..] == [];
    assert DecodeLe(s[1..]) == s[1];
  }

  /** One hop keeps the content and every key in the filter, and adds its own. */
  lemma HopKeeps(key: Key, m: seq<byte>)
    requires Parse(m).Some?
    ensures Hop(key, m).Some? && Parse(Hop(key, m).value).Some?
    ensures var p, q := Parse(m).value, Parse(Hop(key, m).value).value;
      SameContent(p, q) && q.header.trail == Witnessed(key, p.header.trail)
  {
    var p := Parse(m).value;
    ParsedShape(m);
    ParsedSelfDescribing(m);
    hide Parse, Create, Witnessed, SelfDescribing;
    CreateParseIff(key, p.id, p.channel, p.header, p.data);
  }

  lemma WitnessedHolds(key: Key, w: seq<byte>, other: Key)
    requires |w| == WITNESS
    ensures Holds(Witnessed(key, w)[2..], key)
    ensures Holds(w[2..], other) ==> Holds(Witnessed(key, w)[2..], other)
  {
    EnterHolds(w[2..], key, other);
    assert Witnessed(key, w)[2..] == Enter(w[2..], key, KEY_BITS);
  }

  /** The message after a chain of hops, when every one of them could parse it. */
  lemma {:induction false} ChainParses(keys: seq<Key>, m: seq<byte>)
    requires Parse(m).Some?
    ensures Hops(keys, m).Some? && Parse(Hops(keys, m).value).Some?
    ensures SameContent(Parse(m).value, Parse(Hops(keys, m).value).value)
    ensures |Parse(Hops(keys, m).value).value.header.trail| == WITNESS
  {
    if keys == [] {
      ParsedShape(m);
    } else {
      hide Parse, Hop;
      var n := |keys| - 1;
      ChainParses(keys[..n], m);
      HopKeeps(keys[n], Hops(keys[..n], m).value);
      ParsedShape(Hop(keys[n], Hops(keys[..n], m).value).value);
    }
  }

  lemma HopHolds(key: Key, m: seq<byte>, other: Key)
    requires Parse(m).Some?
    ensures Hop(key, m).Some? && Parse(Hop(key, m).value).Some?
    ensures |Parse(m).value.header.trail| == WITNESS && |Parse(Hop(key, m).value).value.header.trail| == WITNESS
    ensures Holds(Bloom(Parse(Hop(key, m).value).value), key)
    ensures Holds(Bloom(Parse(m).value), other) ==> Holds(Bloom(Parse(Hop(key, m).value).value), other)
  {
    hide Parse, Hop, Holds;
    HopKeeps(key, m);
    ParsedShape(m);
    ParsedShape(Hop(key, m).value);
    WitnessedHolds(key, Parse(m).value.header.trail, other);
  }

  lemma {:induction false} ChainHolds(keys: seq<Key>, m: seq<byte>, i: nat)
    requires Parse(m).Some? && i < |keys|
    ensures Hops(keys, m).Some? && Parse(Hops(keys, m).value).Some?
    ensures |Parse(Hops(keys, m).value).value.header.trail| == WITNESS
    ensures Holds(Bloom(Parse(Hops(keys, m).value).value), keys[i])
    decreases |keys|
  {
    hide Parse, Hop, Holds;
    var n := |keys| - 1;
    ChainParses(keys, m);
    ChainParses(keys[..n], m);
    HopHolds(keys[n], Hops(keys[..n], m).value, keys[i]);
    if i < n { ChainHolds(keys[..n], m, i); }
  }

  /** For any number of hops, the parsed id, channel, attestation and payload stay as they were, and the witness
      reports every key of the chain. */
  lemma ChainKeeps(keys: seq<Key>, m: seq<byte>)
    requires Parse(m).Some?
    ensures Hops(keys, m).Some? && Parse(Hops(keys, m).value).Some?
    ensures var p, q := Parse(m).value, Parse(Hops(keys, m).value).value;
      && SameContent(p, q) && |q.header.trail| == WITNESS
      && forall i :: 0 <= i < |keys| ==> Holds(Bloom(q), keys[i])
  {
    hide Parse, Hop, Holds;
    ChainParses(keys, m);
    forall i | 0 <= i < |keys| ensures Holds(Bloom(Parse(Hops(keys, m).value).value), keys[i]) {
      ChainHolds(keys, m, i);
    }
  }

  // ---- Cut through ----------------------------------------------------------------------------------------

  /** A peer a message may be relayed to: its key, whether the message came from it, and whether it has a free
      cut-through stream. */
  datatype Peer = Peer(key: Key, isSender: bool, hasStream: bool)

  /** One message on its way through: whether its header has been processed, its announced length, and the peers it
      goes to. */
  datatype Through = Through(headerReceived: bool, length: nat, targets: seq<nat>)

  function Waiting(length: nat): Through { Through(false, length, []) }

  /** The new state, the ids now recorded as seen, the result code, and the calls made on every target's connection. */
  datatype Step = Step(t: Through, seen: set<nat>, code: int, calls: seq<Event>)

  /** The peers a message with filter `bloom` is passed on to, by index. */
  predicate IsTarget(peers: seq<Peer>, bloom: seq<byte>, i: nat)
    requires IsBloom(bloom)
  {
    i < |peers| && !peers[i].isSender && !Holds(bloom, peers[i].key) && peers[i].hasStream
  }

  function Targets(peers: seq<Peer>, bloom: seq<byte>): (r: seq<nat>)
    requires IsBloom(bloom)
    ensures forall i: nat :: i in r <==> IsTarget(peers, bloom, i)
    ensures forall i, j :: 0 <= i < j < |r| ==> r[i] < r[j]
  {
    TargetsUpTo(peers, bloom, |peers|)
  }

  function TargetsUpTo(peers: seq<Peer>, bloom: seq<byte>, n: nat): (r: seq<nat>)
    requires IsBloom(bloom) && n <= |peers|
    ensures forall i: nat :: i in r <==> i < n && IsTarget(peers, bloom, i)
    ensures forall i :: 0 <= i < |r| ==> r[i] < n
    ensures forall i, j :: 0 <= i < j < |r| ==> r[i] < r[j]
  {
    if n == 0 then []
    else
      var r := TargetsUpTo(peers, bloom, n - 1);
      if IsTarget(peers, bloom, n - 1) then r + [n - 1] else r
  }

  /** The chunk with the relay's own witness written over the one it carries. */
  function Rewitness(key: Key, b: seq<byte>, h: Header): seq<byte>
    requires DataStart(HEADER, h) <= |b| && |h.trail| == WITNESS
  {
    b[..HEADER + |h.attestation|] + Witnessed(key, h.trail) + b[DataStart(HEADER, h)..]
  }

  /** `cut_through_recv_bytes`: with the header, every target is announced the length of the message received. */
  function OnBytes(t: Through, seen: set<nat>, key: Key, peers: seq<Peer>, b: seq<byte>): Step {
    if t.headerReceived then Step(t, seen, 0, [Chunk(b)])
    else if |b| < HEADER then Step(t, seen, -1, [])
    else
      var id := DecodeBe(b[1..9]);
      if id in seen then Step(Through(true, t.length, []), seen, 0, [])
      else
        match ParseHeader(b, HEADER)
        case None => Step(Through(true, t.length, []), seen + {id}, -1, [])
        case Some(h) =>
          ParseHeaderFits(b, HEADER);
          Step(Through(true, t.length, Targets(peers, h.trail[2..])), seen + {id}, 0, [Start(t.length), Chunk(Rewitness(key, b, h))])
  }

  /** What the node does on a call of the cut-through parser. */
  function OnEvent(t: Through, seen: set<nat>, key: Key, peers: seq<Peer>, e: Event): Step {
    match e
    case Start(n) => Step(Waiting(n), seen, 0, [])
    case Chunk(b) => OnBytes(t, seen, key, peers, b)
    case End => Step(t, seen, 0, [End])
  }

  /** All calls made on the connection of peer `i` while the parser makes the calls `events`; a negative result
      closes the connection the message comes from. */
  function CallsTo(i: nat, t: Through, seen: set<nat>, key: Key, peers: seq<Peer>, events: seq<Event>): seq<Event>
    decreases |events|
  {
    if events == [] then []
    else
      var s := OnEvent(t, seen, key, peers, events[0]);
      (if i in s.t.targets then s.calls else [])
      + (if s.code < 0 then [] else CallsTo(i, s.t, s.seen, key, peers, events[1..]))
  }

  /** Once its targets are known, a message goes to each of them as it comes. */
  lemma {:induction false} PassedThrough(i: nat, t: Through, seen: set<nat>, key: Key, peers: seq<Peer>, chunks: seq<seq<byte>>)
    requires t.headerReceived
    ensures CallsTo(i, t, seen, key, peers, Chunks(chunks) + [End]) == if i in t.targets then Chunks(chunks) + [End] else []
    decreases |chunks|
  {
    var events := Chunks(chunks) + [End];
    if chunks == [] {
      assert events == [End] && events[1..] == [];
    } else {
      assert events[0] == Chunk(chunks[0]) && events[1..] == Chunks(chunks[1..]) + [End];
      PassedThrough(i, t, seen, key, peers, chunks[1..]);
    }
  }

  /** A chunk that holds the header decides how the whole message parses. */
  lemma HeaderInFirst(first: seq<byte>, rest: seq<byte>)
    requires |first| >= HEADER && ParseHeader(first, HEADER).Some?
    ensures ParseHeader(first + rest, HEADER) == ParseHeader(first, HEADER)
    ensures (first + rest)[1..9] == first[1..9] && (first + rest)[9..11] == first[9..11]
  {
    var m := first + rest;
    var h := ParseHeader(first, HEADER).value;
    var at := HEADER + |h.attestation|;
    hide DecodeLe;
    assert m[HEADER..HEADER + 2] == first[HEADER..HEADER + 2];
    assert m[at..at + 2] == first[at..at + 2];
    assert m[HEADER..at] == first[HEADER..at] && m[at..at + WITNESS] == first[at..at + WITNESS];
  }

  lemma {:induction false} BeReadBack(s: seq<byte>)
    ensures EncodeBe(DecodeBe(s), |s|) == s
  {
    if s != [] {
      var n := |s| - 1;
      BeReadBack(s[..n]);
      assert s == s[..n] + [s[n]];
    }
  }

  /** Rebuilding a parsed message is the message itself with the relay's witness over the old one. */
  lemma CreateIsRewitness(key: Key, m: seq<byte>)
    requires Parse(m).Some?
    ensures ParseHeader(m, HEADER).Some? && Hop(key, m).Some?
    ensures DataStart(HEADER, ParseHeader(m, HEADER).value) <= |m| && |ParseHeader(m, HEADER).value.trail| == WITNESS
    ensures Hop(key, m).value == Rewitness(key, m, ParseHeader(m, HEADER).value)
  {
    var p := Parse(m).value;
    var h := p.header;
    ParsedShape(m);
    ParsedSelfDescribing(m);
    ParseHeaderFits(m, HEADER);
    BeReadBack(m[1..9]);
    BeReadBack(m[9..11]);
    var a := HEADER + |h.attestation|;
    assert Attested(h) == h.attestation == m[HEADER..a];
    hide DecodeBe, EncodeBe, Witnessed, SelfDescribing, DecodeLe;
    assert m[..a] == [m[0]] + m[1..9] + m[9..11] + m[HEADER..a];
  }

  lemma RewitnessFirst(key: Key, first: seq<byte>, rest: seq<byte>, h: Header)
    requires DataStart(HEADER, h) <= |first| && |h.trail| == WITNESS
    ensures Rewitness(key, first + rest, h) == Rewitness(key, first, h) + rest
  {
    hide Witnessed;
    var d := DataStart(HEADER, h);
    assert (first + rest)[d..] == first[d..] + rest;
    assert (first + rest)[..HEADER + |h.attestation|] == first[..HEADER + |h.attestation|];
  }

  /** The calls for one message, by whether its first chunk holds a whole header. */
  lemma MessageCalls(i: nat, n: nat, seen: set<nat>, key: Key, peers: seq<Peer>, t: Through, first: seq<byte>, rest: seq<seq<byte>>)
    requires |first| >= HEADER ==> DecodeBe(first[1..9]) !in seen
    ensures var calls := CallsTo(i, t, seen, key, peers, [Start(n)] + Chunks([first] + rest) + [End]);
      match ParseHeader(first, HEADER)
      case None => calls == []
      case Some(h) =>
        |h.trail| == WITNESS && DataStart(HEADER, h) <= |first|
        && calls == if i in Targets(peers, h.trail[2..]) then [Start(n)] + Chunks([Rewitness(key, first, h)] + rest) + [End] else []
  {
    var events := [Start(n)] + Chunks([first] + rest) + [End];
    assert ([first] + rest)[1..] == rest;
    assert events[0] == Start(n) && events[1..][0] == Chunk(first) && events[1..][1..] == Chunks(rest) + [End];
    var s := OnBytes(Waiting(n), seen, key, peers, first);
    match ParseHeader(first, HEADER)
    case None =>
    case Some(h) =>
      ParseHeaderFits(first, HEADER);
      hide Rewitness, Targets, TargetsUpTo, ParseHeader, DecodeBe;
      PassedThrough(i, s.t, s.seen, key, peers, rest);
      assert ([Rewitness(key, first, h)] + rest)[1..] == rest;
      assert s.calls + (Chunks(rest) + [End]) == [Start(n)] + ([Chunk(Rewitness(key, first, h))] + Chunks(rest)) + [End];
  }

  /** The calls for the message `m`, whose first chunk `first` brings the header or does not. */
  lemma WholeCalls(seen: set<nat>, key: Key, peers: seq<Peer>, m: seq<byte>, first: seq<byte>, rest: seq<seq<byte>>, t: Through, i: nat)
    requires Parse(m).Some? && Parse(m).value.id !in seen && m == first + Concat(rest)
    ensures Hop(key, m).Some? && |Hop(key, m).value| == |m| && |Parse(m).value.header.trail| == WITNESS
    ensures var calls := CallsTo(i, t, seen, key, peers, [Start(|m|)] + Chunks([first] + rest) + [End]);
      if ParseHeader(first, HEADER).Some? && i in Targets(peers, Bloom(Parse(m).value)) then
        exists out :: calls == [Start(|m|)] + Chunks(out) + [End] && |out| == 1 + |rest| && Concat(out) == Hop(key, m).value
      else calls == []
  {
    CreateIsRewitness(key, m);
    var h := ParseHeader(m, HEADER).value;
    RewitnessLength(key, m, h);
    assert |first| >= HEADER ==> first[1..9] == m[1..9];
    MessageCalls(i, |m|, seen, key, peers, t, first, rest);
    if ParseHeader(first, HEADER).Some? {
      HeaderInFirst(first, Concat(rest));
      RewitnessFirst(key, first, Concat(rest), h);
      hide Rewitness, CallsTo, Chunks, Hop, ParseHeader, Targets;
      var out := [Rewitness(key, first, h)] + rest;
      assert out[1..] == rest;
      assert Concat(out) == Hop(key, m).value;
    }
  }

  /** Cut through refines store and forward. The frame of a fresh message `m` comes in, in any chunks. If the first
      chunk of its body holds the whole header, every target's connection is told to start a message of the length
      of `m`, is given chunks that total it, and is told to end: what is written downstream is exactly the frame of
      the message that parsing `m` and rebuilding it would give. Otherwise nothing is sent to anyone. */
  lemma CutThroughMatches(seen: set<nat>, key: Key, peers: seq<Peer>, m: seq<byte>, chunks: seq<seq<byte>>, t: Through, i: nat)
    requires Parse(m).Some? && |m| <= Framing.MAX_LENGTH && Parse(m).value.id !in seen
    requires Concat(chunks) == Framing.Frame(m)
    ensures var events := Framing.PassAll(Framing.CutReady, chunks).events;
      && |events| > 1 && events[1].Chunk?
      && Hop(key, m).Some? && |Hop(key, m).value| == |m| && |Parse(m).value.header.trail| == WITNESS
      && var calls := CallsTo(i, t, seen, key, peers, events);
         if ParseHeader(events[1].bytes, HEADER).Some? && i in Targets(peers, Bloom(Parse(m).value)) then
           && Written(calls) == Framing.Frame(Hop(key, m).value)
           && Collapse(Closed, calls) == Reading([Hop(key, m).value], Closed)
           && |calls| == |events| && calls[0] == Start(|m|) && calls[|calls| - 1] == End
         else calls == []
  {
    var events := Framing.PassAll(Framing.CutReady, chunks).events;
    Framing.FrameTrace(m, chunks);
    var bs := OneMessage(events, m);
    hide Parse, Hop, ParseHeader, Targets, CallsTo, Collapse, Written;
    var first, rest := bs[0], bs[1..];
    assert bs == [first] + rest && m == first + Concat(rest);
    assert events[1] == Chunk(first);
    WholeCalls(seen, key, peers, m, first, rest, t, i);
    if ParseHeader(first, HEADER).Some? && i in Targets(peers, Bloom(Parse(m).value)) {
      var calls := CallsTo(i, t, seen, key, peers, events);
      var out :| calls == [Start(|m|)] + Chunks(out) + [End] && |out| == 1 + |rest| && Concat(out) == Hop(key, m).value;
      WholeTrace(out, |m|);
    }
  }

  lemma RewitnessLength(key: Key, b: seq<byte>, h: Header)
    requires DataStart(HEADER, h) <= |b| && |h.trail| == WITNESS
    ensures |Rewitness(key, b, h)| == |b|
  {
  }

  // ---- What a message leaves behind -------------------------------------------------------------------------

  /** Where the node stands after the parser's calls `events`: the message, the ids recorded, and the first negative
      result code, after which the connection is closed. */
  function Stand(t: Through, seen: set<nat>, key: Key, peers: seq<Peer>, events: seq<Event>): (Through, set<nat>, int)
    decreases |events|
  {
    if events == [] then (t, seen, 0)
    else
      var s := OnEvent(t, seen, key, peers, events[0]);
      if s.code < 0 then (s.t, s.seen, s.code) else Stand(s.t, s.seen, key, peers, events[1..])
  }

  /** Calls can be followed in two parts, as long as the connection is not closed. */
  lemma {:induction false} CallsSplit(i: nat, t: Through, seen: set<nat>, key: Key, peers: seq<Peer>, a: seq<Event>, b: seq<Event>)
    ensures var (t', seen', code) := Stand(t, seen, key, peers, a);
      CallsTo(i, t, seen, key, peers, a + b)
      == CallsTo(i, t, seen, key, peers, a) + (if code < 0 then [] else CallsTo(i, t', seen', key, peers, b))
    decreases |a|
  {
    if a == [] {
      assert a + b == b;
      assert [] + CallsTo(i, t, seen, key, peers, b) == CallsTo(i, t, seen, key, peers, b);
    } else {
      var s := OnEvent(t, seen, key, peers, a[0]);
      assert (a + b)[0] == a[0] && (a + b)[1..] == a[1..] + b;
      CallsSplit(i, s.t, s.seen, key, peers, a[1..], b);
    }
  }

  lemma {:induction false} ChunksStand(t: Through, seen: set<nat>, key: Key, peers: seq<Peer>, chunks: seq<seq<byte>>)
    requires t.headerReceived
    ensures Stand(t, seen, key, peers, Chunks(chunks) + [End]) == (t, seen, 0)
    decreases |chunks|
  {
    var events := Chunks(chunks) + [End];
    if chunks == [] {
      assert events == [End] && events[1..] == [];
    } else {
      assert events[0] == Chunk(chunks[0]) && events[1..] == Chunks(chunks[1..]) + [End];
      ChunksStand(t, seen, key, peers, chunks[1..]);
    }
  }

  /** The verdict on a message depends on its first chunk: refused if that cannot hold the fixed part of the header, or
      if it is new and its header does not parse; swallowed if its id is known; passed on otherwise. */
  lemma MessageStands(n: nat, seen: set<nat>, key: Key, peers: seq<Peer>, t: Through, first: seq<byte>, rest: seq<seq<byte>>)
    ensures var (t', seen', code) := Stand(t, seen, key, peers, [Start(n)] + Chunks([first] + rest) + [End]);
      if |first| < 11 then code == -1 && seen' == seen
      else
        var id := DecodeBe(first[1..9]);
        && seen' == seen + {id} && code == (if id !in seen && ParseHeader(first, 11) == None then -1 else 0)
        && (id in seen ==> t'.headerReceived && t'.targets == [])
  {
    var events := [Start(n)] + Chunks([first] + rest) + [End];
    assert ([first] + rest)[1..] == rest;
    assert events[0] == Start(n) && events[1..][0] == Chunk(first) && events[1..][1..] == Chunks(rest) + [End];
    var s := OnBytes(Waiting(n), seen, key, peers, first);
    if |first| >= 11 && DecodeBe(first[1..9]) in seen { assert seen + {DecodeBe(first[1..9])} == seen; }
    if s.code == 0 { ChunksStand(s.t, s.seen, key, peers, rest); }
  }

  /** A peer that is not a target is not called while the message passes. */
  lemma KnownCalls(i: nat, n: nat, seen: set<nat>, key: Key, peers: seq<Peer>, t: Through, first: seq<byte>, rest: seq<seq<byte>>)
    requires |first| >= 11 && DecodeBe(first[1..9]) in seen
    ensures CallsTo(i, t, seen, key, peers, [Start(n)] + Chunks([first] + rest) + [End]) == []
  {
    var events := [Start(n)] + Chunks([first] + rest) + [End];
    assert ([first] + rest)[1..] == rest;
    assert events[0] == Start(n) && events[1..][0] == Chunk(first) && events[1..][1..] == Chunks(rest) + [End];
    PassedThrough(i, Through(true, n, []), seen, key, peers, rest);
  }

  /** A message whose id is known, in any chunks of which the first of its body holds the fixed part of the header, is
      swallowed: every call returns 0, no connection is called, no id is recorded, and what follows on the connection
      is handled as if the message had not been there. */
  lemma KnownIsSwallowed(seen: set<nat>, key: Key, peers: seq<Peer>, m: seq<byte>, chunks: seq<seq<byte>>, t: Through, i: nat, more: seq<Event>)
    requires 11 <= |m| <= 5000000 && DecodeBe(m[1..9]) in seen && Concat(chunks) == Framing.Frame(m)
    requires var events := Framing.PassAll(Framing.CutReady, chunks).events; |events| > 1 && events[1].Chunk? ==> |events[1].bytes| >= 11
    ensures var events := Framing.PassAll(Framing.CutReady, chunks).events;
      && |events| > 1 && events[1].Chunk?
      && Stand(t, seen, key, peers, events) == (Through(true, |m|, []), seen, 0)
      && CallsTo(i, t, seen, key, peers, events + more) == CallsTo(i, Through(true, |m|, []), seen, key, peers, more)
  {
    var events := Framing.PassAll(Framing.CutReady, chunks).events;
    Framing.FrameTrace(m, chunks);
    var bs := OneMessage(events, m);
    var first, rest := bs[0], bs[1..];
    assert bs == [first] + rest && m == first + Concat(rest);
    assert events[1] == Chunk(first);
    assert first[1..9] == m[1..9];
    KnownStands(|m|, seen, key, peers, t, first, rest);
    KnownCalls(i, |m|, seen, key, peers, t, first, rest);
    CallsSplit(i, t, seen, key, peers, events, more);
  }

  lemma KnownStands(n: nat, seen: set<nat>, key: Key, peers: seq<Peer>, t: Through, first: seq<byte>, rest: seq<seq<byte>>)
    requires |first| >= 11 && DecodeBe(first[1..9]) in seen
    ensures Stand(t, seen, key, peers, [Start(n)] + Chunks([first] + rest) + [End]) == (Through(true, n, []), seen, 0)
  {
    var events := [Start(n)] + Chunks([first] + rest) + [End];
    assert ([first] + rest)[1..] == rest;
    assert events[0] == Start(n) && events[1..][0] == Chunk(first) && events[1..][1..] == Chunks(rest) + [End];
    ChunksStand(Through(true, n, []), seen, key, peers, rest);
  }
}
