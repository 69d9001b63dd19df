/**
 Two endpoints and a network that may lose, delay, reorder and duplicate every datagram of every past epoch.
 Whatever the interleaving of handshakes, simultaneous opens, stale packets, resets and closes, two endpoints that
 are Established at the same time hold mirrored connection ids.
 */
module Agreement {
  import opened Handshake

  datatype Side = A | B

  function Other(x: Side): Side { if x == A then B else A }

  /** One value for each side. */
  datatype Pair<T> = Pair(a: T, b: T) {
    function At(x: Side): T { if x == A then a else b }
    function Put(x: Side, v: T): Pair<T> { if x == A then Pair(v, b) else Pair(a, v) }
  }

  /** When and by whom a connection id was drawn. */
  datatype Birth = Birth(side: Side, time: nat)

  datatype World = World(
    conns: Pair<Conn>,
    net: Pair<set<Packet>>,   // every datagram each side ever sent
    births: map<nat, Birth>,       // every id ever drawn
    bound: map<nat, nat>,          // the peer id each drawn id was paired with
    clock: nat,
    reported: seq<nat>)            // ids of the connections reported through `did_dial`

  const Start := World(Pair(Idle, Idle), Pair({}, {}), map[], map[], 0, [])

  datatype Event =
    | Dials(x: Side, newId: nat)
    | Receives(x: Side, p: Packet, newId: nat, sealOk: bool)
    | Ticks(x: Side)
    | Closes(x: Side)
    | Resets(x: Side)               // lost peer, skip or flush timeout
    | Transmits(x: Side, kind: Kind) // DATA and ACK once established, stream control at any time

  /** Connection ids are drawn non-zero and never twice. */
  ghost predicate FreshId(w: World, id: nat) { id != 0 && id !in w.births }

  function Bind(bound: map<nat, nat>, c: Conn): map<nat, nat> {
    if c.dst != 0 && c.src !in bound then bound[c.src := c.dst] else bound
  }

  function Apply(w: World, x: Side, o: Outcome, newId: nat): World
  {
    var drawn := o.conn.src == newId && newId !in w.births && newId != 0;
    w.(conns := w.conns.Put(x, o.conn),
       net := w.net.Put(x, w.net.At(x) + (set p | p in o.out)),
       births := if drawn then w.births[newId := Birth(x, w.clock)] else w.births,
       clock := if drawn then w.clock + 1 else w.clock,
       bound := Bind(w.bound, o.conn),
       reported := if o.reports then w.reported + [o.conn.src] else w.reported)
  }

  ghost predicate Next(w: World, e: Event, w': World)
  {
    match e
    case Dials(x, newId) => FreshId(w, newId) && w' == Apply(w, x, Dial(w.conns.At(x), newId), newId)
    case Receives(x, p, newId, sealOk) =>
      && FreshId(w, newId) && p in w.net.At(Other(x))
      && w' == Apply(w, x, Handle(w.conns.At(x), p, newId, sealOk), newId)
    case Ticks(x) => w.conns.At(x).timer != Off && w' == Apply(w, x, TimerFires(w.conns.At(x)), 0)
    case Closes(x) => w' == Apply(w, x, Close(w.conns.At(x)), 0)
    case Resets(x) => w' == Apply(w, x, Stay(Idle), 0)
    case Transmits(x, kind) =>
      && (kind == CTRL || (w.conns.At(x).state == Established && (kind == DATA || kind == ACK)))
      && w' == Apply(w, x, Outcome(w.conns.At(x), [Own(w.conns.At(x), kind)], false), 0)
  }

  // ---- The invariant --------------------------------------------------------------------------------------

  ghost predicate IsLatest(x: Side, s: nat, births: map<nat, Birth>) {
    && s in births && births[s].side == x
    && forall id :: id in births && births[id].side == x ==> births[id].time <= births[s].time
  }

  /** An endpoint's own id is the last it drew; it is paired exactly when `dst` is set; and an Established
      endpoint's peer has paired the same two ids. */
  ghost predicate ConnOk(x: Side, c: Conn, births: map<nat, Birth>, bound: map<nat, nat>) {
    && (c.src != 0 ==> IsLatest(x, c.src, births))
    && (c.src == 0 ==> c.dst == 0)
    && (c.src != 0 ==> if c.dst == 0 then c.src !in bound else c.src in bound && bound[c.src] == c.dst)
    && (c.state == Listen ==> c.src == 0)
    && (c.state == DialSent ==> c.src != 0 && c.dst == 0)
    && (c.state == DialRcvd ==> c.dst != 0)
    && (c.state == Established ==> c.dst != 0 && c.dst in bound && bound[c.dst] == c.src)
    && (c.timer.DialRetry? ==> c.state == DialSent)
    && (c.timer.CloseRetry? ==> c.state == Closing)
    && (c.state == DialSent ==> c.timer.DialRetry?)
    && (c.state == Closing ==> c.timer.CloseRetry? && c.timer.interval > 0)
    && (c.state == Listen ==> c == Idle)
  }

  /** Pairs join ids of different sides, and the peer's id is older than any id its partner's side draws later. */
  ghost predicate BoundOk(births: map<nat, Birth>, bound: map<nat, nat>) {
    forall s :: s in bound ==>
      && s in births && bound[s] in births
      && births[bound[s]].side == Other(births[s].side)
      && forall s' :: s' in births && births[s'].side == births[s].side && births[s'].time > births[s].time ==>
           births[bound[s]].time < births[s'].time
  }

  ghost predicate BirthsOk(births: map<nat, Birth>, clock: nat) {
    && 0 !in births
    && (forall id :: id in births ==> births[id].time < clock)
    && (forall id, id' :: id in births && id' in births && births[id].time == births[id'].time ==> id == id')
  }

  ghost predicate Paired(x: Side, p: Packet, births: map<nat, Birth>, bound: map<nat, nat>) {
    p.first in bound && bound[p.first] == p.second && p.first in births && births[p.first].side == x
  }

  /** What a datagram of side `x` tells about the ids it carries. */
  ghost predicate PacketOk(x: Side, p: Packet, births: map<nat, Birth>, bound: map<nat, nat>) {
    match p.kind
    case DIAL => p.first in births && births[p.first].side == x
    case DIALCONF => Paired(x, p, births, bound)
    case CONF => Paired(x, p, births, bound)
    case DATA => Paired(x, p, births, bound)
    case _ => true
  }

  ghost predicate Inv(w: World) {
    && BirthsOk(w.births, w.clock) && BoundOk(w.births, w.bound)
    && (forall x :: ConnOk(x, w.conns.At(x), w.births, w.bound))
    && (forall x, p :: p in w.net.At(x) ==> PacketOk(x, p, w.births, w.bound))
  }

  // ---- Growing knowledge keeps the invariant --------------------------------------------------------------

  /** `births'` and `bound'` extend `births` and `bound`: side `x` may have drawn one id, and paired its latest. */
  ghost predicate Grows(x: Side, births: map<nat, Birth>, births': map<nat, Birth>, bound: map<nat, nat>, bound': map<nat, nat>) {
    && (forall id :: id in births ==> id in births' && births'[id] == births[id])
    && (forall id :: id in births' && id !in births ==> births'[id].side == x)
    && (forall s :: s in bound ==> s in bound' && bound'[s] == bound[s])
    && (forall s :: s in bound' && s !in bound ==> s in births' && births'[s].side == x)
  }

  lemma ConnGrows(x: Side, y: Side, c: Conn, births: map<nat, Birth>, births': map<nat, Birth>, bound: map<nat, nat>, bound': map<nat, nat>)
    requires Grows(x, births, births', bound, bound') && y != x && ConnOk(y, c, births, bound)
    ensures ConnOk(y, c, births', bound')
  {
  }

  lemma PacketGrows(x: Side, y: Side, p: Packet, births: map<nat, Birth>, births': map<nat, Birth>, bound: map<nat, nat>, bound': map<nat, nat>)
    requires Grows(x, births, births', bound, bound') && BoundOk(births, bound) && PacketOk(y, p, births, bound)
    ensures PacketOk(y, p, births', bound')
  {
  }

  lemma DrawOk(births: map<nat, Birth>, bound: map<nat, nat>, clock: nat, x: Side, newId: nat)
    requires BirthsOk(births, clock) && BoundOk(births, bound) && newId != 0 && newId !in births
    ensures BirthsOk(births[newId := Birth(x, clock)], clock + 1)
    ensures BoundOk(births[newId := Birth(x, clock)], bound)
  {
  }

  /** Pairing a side's latest id with an existing id of the other side keeps the order condition. */
  lemma BindOk(births: map<nat, Birth>, bound: map<nat, nat>, x: Side, s: nat, d: nat)
    requires BoundOk(births, bound) && s !in bound
    requires IsLatest(x, s, births) && d in births && births[d].side == Other(x)
    ensures BoundOk(births, bound[s := d])
  {
  }

  // ---- Each event -----------------------------------------------------------------------------------------

  /** What an outcome must meet for the world to stay consistent. */
  ghost predicate OutcomeOk(w: World, x: Side, o: Outcome, w': World)
    requires Inv(w)
  {
    && w'.conns == w.conns.Put(x, o.conn)
    && w'.net == w.net.Put(x, w.net.At(x) + (set p | p in o.out))
    && BirthsOk(w'.births, w'.clock) && BoundOk(w'.births, w'.bound)
    && Grows(x, w.births, w'.births, w.bound, w'.bound)
    && ConnOk(x, o.conn, w'.births, w'.bound)
    && forall p :: p in o.out ==> PacketOk(x, p, w'.births, w'.bound)
  }

  lemma OutcomeKeeps(w: World, x: Side, o: Outcome, w': World)
    requires Inv(w) && OutcomeOk(w, x, o, w')
    ensures Inv(w')
  {
    hide ConnOk, BoundOk, BirthsOk, PacketOk, Grows;
    forall y ensures ConnOk(y, w'.conns.At(y), w'.births, w'.bound) {
      if y != x { ConnGrows(x, y, w.conns.At(y), w.births, w'.births, w.bound, w'.bound); }
    }
    forall y, p | p in w'.net.At(y) ensures PacketOk(y, p, w'.births, w'.bound) {
      if p in w.net.At(y) { PacketGrows(x, y, p, w.births, w'.births, w.bound, w'.bound); }
    }
  }

  /** Outcomes that draw no id and pair none. */
  lemma QuietOk(w: World, x: Side, o: Outcome, newId: nat)
    requires Inv(w) && newId !in w.births
    requires o.conn.src == w.conns.At(x).src || o.conn == Idle
    requires o.conn.dst == w.conns.At(x).dst || o.conn == Idle
    requires ConnOk(x, o.conn, w.births, w.bound)
    requires forall p :: p in o.out ==> PacketOk(x, p, w.births, w.bound)
    ensures Inv(Apply(w, x, o, newId))
  {
    var w' := Apply(w, x, o, newId);
    assert ConnOk(x, w.conns.At(x), w.births, w.bound);
    assert w'.births == w.births && w'.bound == w.bound && w'.clock == w.clock;
    OutcomeKeeps(w, x, o, w');
  }

  lemma IdleOk(x: Side, births: map<nat, Birth>, bound: map<nat, nat>)
    ensures ConnOk(x, Idle, births, bound)
  {
  }

  lemma DialsOk(w: World, x: Side, newId: nat)
    requires Inv(w) && FreshId(w, newId)
    ensures Inv(Apply(w, x, Dial(w.conns.At(x), newId), newId))
  {
    var c := w.conns.At(x);
    assert ConnOk(x, c, w.births, w.bound);
    var o := Dial(c, newId);
    if c.state != Listen {
      QuietOk(w, x, o, newId);
    } else {
      DrawOk(w.births, w.bound, w.clock, x, newId);
      OutcomeKeeps(w, x, o, Apply(w, x, o, newId));
    }
  }

  /** A connection whose latest id `s` was just paired with `d`; Established only if the peer paired them too. */
  lemma PairedConn(x: Side, c: Conn, births: map<nat, Birth>, bound: map<nat, nat>)
    requires IsLatest(x, c.src, births) && c.src != 0 && c.dst != 0
    requires c.src in bound && bound[c.src] == c.dst && c.timer == Off
    requires c.state == DialRcvd || (c.state == Established && c.dst in bound && bound[c.dst] == c.src)
    ensures ConnOk(x, c, births, bound)
    ensures PacketOk(x, Own(c, DIALCONF), births, bound) && PacketOk(x, Own(c, CONF), births, bound)
  {
  }

  lemma BindGrows(x: Side, births: map<nat, Birth>, bound: map<nat, nat>, s: nat, d: nat)
    requires s in births && births[s].side == x && s !in bound
    ensures Grows(x, births, births, bound, bound[s := d])
  {
  }

  lemma DrawGrows(x: Side, births: map<nat, Birth>, clock: nat, bound: map<nat, nat>, s: nat, d: nat)
    requires s !in births && s !in bound
    ensures Grows(x, births, births[s := Birth(x, clock)], bound, bound[s := d])
  {
  }

  lemma LatestDrawn(x: Side, births: map<nat, Birth>, clock: nat, s: nat)
    requires BirthsOk(births, clock) && s !in births
    ensures IsLatest(x, s, births[s := Birth(x, clock)])
  {
  }

  /** A received DIAL names an id the peer drew; a DIALCONF an id the peer has paired. */
  lemma PeerId(w: World, x: Side, p: Packet)
    requires Inv(w) && p in w.net.At(Other(x)) && (p.kind == DIAL || p.kind == DIALCONF)
    ensures p.first in w.births && w.births[p.first].side == Other(x) && p.first != 0
    ensures p.kind == DIALCONF ==> p.first in w.bound && w.bound[p.first] == p.second
  {
    assert PacketOk(Other(x), p, w.births, w.bound);
  }

  lemma Unbound(w: World, s: nat)
    requires Inv(w) && s !in w.births
    ensures s !in w.bound
  {
  }

  /** A listening endpoint answers a DIAL: it draws an id and pairs it at once. */
  lemma AnswersOk(w: World, x: Side, p: Packet, newId: nat)
    requires Inv(w) && FreshId(w, newId) && p in w.net.At(Other(x)) && p.kind == DIAL
    requires w.conns.At(x).state == Listen && p.Mine() == 0 && w.conns.At(x).timer == Off
    ensures Inv(Apply(w, x, OnDial(w.conns.At(x), p, newId, true), newId))
  {
    hide IsLatest, BoundOk, ConnOk, PacketOk, Grows;
    var o := OnDial(w.conns.At(x), p, newId, true);
    var births, bound := w.births[newId := Birth(x, w.clock)], w.bound[newId := p.Theirs()];
    PeerId(w, x, p);
    Unbound(w, newId);
    LatestDrawn(x, w.births, w.clock, newId);
    DrawOk(w.births, w.bound, w.clock, x, newId);
    hide BirthsOk;
    BindOk(births, w.bound, x, newId, p.Theirs());
    DrawGrows(x, w.births, w.clock, w.bound, newId, p.Theirs());
    PairedConn(x, o.conn, births, bound);
    OutcomeKeeps(w, x, o, Apply(w, x, o, newId));
  }

  lemma DiallingId(w: World, x: Side)
    requires Inv(w) && w.conns.At(x).state == DialSent
    ensures var c := w.conns.At(x); c.src != 0 && IsLatest(x, c.src, w.births) && c.src !in w.bound && c.src in w.births
  {
    assert ConnOk(x, w.conns.At(x), w.births, w.bound);
  }

  /** A dialling endpoint pairs its id with the sender of a DIAL or of a matching DIALCONF. */
  lemma PairsOk(w: World, x: Side, p: Packet, newId: nat, o: Outcome)
    requires Inv(w) && FreshId(w, newId) && p in w.net.At(Other(x)) && w.conns.At(x).state == DialSent
    requires (p.kind == DIAL && p.Mine() == 0 && o == OnDial(w.conns.At(x), p, newId, true))
      || (p.kind == DIALCONF && p.Mine() == w.conns.At(x).src && o == OnDialConf(w.conns.At(x), p, true))
    ensures Inv(Apply(w, x, o, newId))
  {
    hide IsLatest, BoundOk, BirthsOk, ConnOk, PacketOk, Grows;
    DiallingId(w, x);
    PeerId(w, x, p);
    var s := w.conns.At(x).src;
    LatestSide(x, s, w.births);
    BindOk(w.births, w.bound, x, s, p.Theirs());
    BindGrows(x, w.births, w.bound, s, p.Theirs());
    PairedConn(x, o.conn, w.births, w.bound[s := p.Theirs()]);
    OutcomeKeeps(w, x, o, Apply(w, x, o, newId));
  }

  lemma LatestSide(x: Side, s: nat, births: map<nat, Birth>)
    requires IsLatest(x, s, births)
    ensures s in births && births[s].side == x
  {
  }

  lemma ReceivesOk(w: World, x: Side, p: Packet, newId: nat, sealOk: bool)
    requires Inv(w) && FreshId(w, newId) && p in w.net.At(Other(x))
    ensures Inv(Apply(w, x, Handle(w.conns.At(x), p, newId, sealOk), newId))
  {
    var c := w.conns.At(x);
    var o := Handle(c, p, newId, sealOk);
    if p.kind == DIAL && c.state == Listen && p.Mine() == 0 && sealOk {
      AnswersOk(w, x, p, newId);
    } else if p.kind == DIAL && c.state == DialSent && p.Mine() == 0 && sealOk {
      PairsOk(w, x, p, newId, o);
    } else if p.kind == DIALCONF && c.state == DialSent && p.Mine() == c.src && sealOk {
      PairsOk(w, x, p, newId, o);
    } else {
      assert ConnOk(x, c, w.births, w.bound) && PacketOk(Other(x), p, w.births, w.bound);
      QuietOutcome(x, c, p, newId, sealOk, w.births, w.bound);
      QuietOk(w, x, o, newId);
    }
  }

  /** Every other reaction to a datagram pairs no id. */
  lemma QuietOutcome(x: Side, c: Conn, p: Packet, newId: nat, sealOk: bool, births: map<nat, Birth>, bound: map<nat, nat>)
    requires ConnOk(x, c, births, bound) && PacketOk(Other(x), p, births, bound)
    requires !(p.kind == DIAL && (c.state == Listen || c.state == DialSent) && p.Mine() == 0 && sealOk)
    requires !(p.kind == DIALCONF && c.state == DialSent && p.Mine() == c.src && sealOk)
    ensures var o := Handle(c, p, newId, sealOk);
      && (o.conn.src == c.src || o.conn == Idle) && (o.conn.dst == c.dst || o.conn == Idle)
      && ConnOk(x, o.conn, births, bound)
      && forall q :: q in o.out ==> PacketOk(x, q, births, bound)
  {
    IdleOk(x, births, bound);
  }

  lemma NextOk(w: World, e: Event, w': World)
    requires Inv(w) && Next(w, e, w')
    ensures Inv(w')
  {
    hide BirthsOk, BoundOk, IsLatest;
    match e
    case Dials(x, newId) => DialsOk(w, x, newId);
    case Receives(x, p, newId, sealOk) => ReceivesOk(w, x, p, newId, sealOk);
    case Ticks(x) =>
      assert ConnOk(x, w.conns.At(x), w.births, w.bound);
      NoZero(w);
      TickOutcome(x, w.conns.At(x), w.births, w.bound);
      QuietOk(w, x, TimerFires(w.conns.At(x)), 0);
    case Closes(x) =>
      assert ConnOk(x, w.conns.At(x), w.births, w.bound);
      NoZero(w);
      QuietOk(w, x, Close(w.conns.At(x)), 0);
    case Resets(x) =>
      NoZero(w);
      IdleOk(x, w.births, w.bound);
      QuietOk(w, x, Stay(Idle), 0);
    case Transmits(x, kind) =>
      assert ConnOk(x, w.conns.At(x), w.births, w.bound);
      NoZero(w);
      TransmitOk(x, w.conns.At(x), kind, w.births, w.bound);
      QuietOk(w, x, Outcome(w.conns.At(x), [Own(w.conns.At(x), kind)], false), 0);
  }

  lemma TickOutcome(x: Side, c: Conn, births: map<nat, Birth>, bound: map<nat, nat>)
    requires ConnOk(x, c, births, bound)
    ensures var o := TimerFires(c);
      && (o.conn.src == c.src || o.conn == Idle) && (o.conn.dst == c.dst || o.conn == Idle)
      && ConnOk(x, o.conn, births, bound) && forall q :: q in o.out ==> PacketOk(x, q, births, bound)
  {
  }

  lemma NoZero(w: World)
    requires Inv(w)
    ensures 0 !in w.births
  {
  }

  lemma TransmitOk(x: Side, c: Conn, kind: Kind, births: map<nat, Birth>, bound: map<nat, nat>)
    requires ConnOk(x, c, births, bound)
    requires kind == CTRL || (c.state == Established && (kind == DATA || kind == ACK))
    ensures PacketOk(x, Own(c, kind), births, bound)
  {
  }

  // ---- Runs -----------------------------------------------------------------------------------------------

  ghost predicate IsRun(worlds: seq<World>, events: seq<Event>) {
    && |worlds| == |events| + 1 && worlds[0] == Start
    && forall i :: 0 <= i < |events| ==> Next(worlds[i], events[i], worlds[i + 1])
  }

  lemma {:induction false} RunOk(worlds: seq<World>, events: seq<Event>, k: nat)
    requires IsRun(worlds, events) && k < |worlds|
    ensures Inv(worlds[k])
  {
    if k > 0 {
      RunOk(worlds, events, k - 1);
      hide Inv, Next;
      NextOk(worlds[k - 1], events[k - 1], worlds[k]);
    }
  }

  lemma Mirrored(w: World)
    requires Inv(w) && w.conns.a.state == Established && w.conns.b.state == Established
    ensures w.conns.a.src == w.conns.b.dst && w.conns.a.dst == w.conns.b.src
  {
    var a, b := w.conns.a, w.conns.b;
    assert ConnOk(A, w.conns.At(A), w.births, w.bound) && ConnOk(B, w.conns.At(B), w.births, w.bound);
    assert w.bound[a.src] == a.dst && w.bound[a.dst] == a.src && w.bound[b.src] == b.dst && w.bound[b.dst] == b.src;
    assert w.births[a.dst].side == B && w.births[b.dst].side == A;
  }

  /** Handshake agreement: in every reachable state in which both endpoints are Established, each one's source
      id is the other's destination id. */
  lemma EstablishedAgree(worlds: seq<World>, events: seq<Event>, k: nat)
    requires IsRun(worlds, events) && k < |worlds|
    requires worlds[k].conns.a.state == Established && worlds[k].conns.b.state == Established
    ensures worlds[k].conns.a.src == worlds[k].conns.b.dst != 0
    ensures worlds[k].conns.a.dst == worlds[k].conns.b.src != 0
  {
    RunOk(worlds, events, k);
    Mirrored(worlds[k]);
    assert ConnOk(A, worlds[k].conns.At(A), worlds[k].births, worlds[k].bound);
  }

  // ---- Completion -----------------------------------------------------------------------------------------

  /** Both are Established with mirrored ids. */
  predicate Joined(a: Conn, b: Conn) {
    a.state == Established && b.state == Established && a.src == b.dst && a.dst == b.src
  }

  /** An endpoint that dials one that listens: four datagrams in turn establish both, and the one that dialled is
      told so. Should CONF be lost, the first DATA does as well. */
  lemma DialCompletes(b: Conn, i: nat, j: nat)
    requires b.state == Listen
    ensures var a := Dial(Idle, i);
      var answered := Handle(b, a.out[0], j, true);
      var entered := Handle(a.conn, answered.out[0], 0, true);
      && |a.out| == |answered.out| == |entered.out| == 1 && entered.reports
      && Joined(entered.conn, Handle(answered.conn, entered.out[0], 0, true).conn)
      && Joined(entered.conn, Handle(answered.conn, Own(entered.conn, DATA), 0, true).conn)
  {
  }

  /** Both dial at once: each answers the other's DIAL, and each is Established by the other's answer. */
  lemma SimultaneousOpenCompletes(i: nat, j: nat)
    ensures var a, b := Dial(Idle, i), Dial(Idle, j);
      var a1, b1 := Handle(a.conn, b.out[0], 0, true), Handle(b.conn, a.out[0], 0, true);
      var a2, b2 := Handle(a1.conn, b1.out[0], 0, true), Handle(b1.conn, a1.out[0], 0, true);
      |a.out| == |b.out| == |a1.out| == |b1.out| == 1 && Joined(a2.conn, b2.conn) && a2.reports && b2.reports
  {
  }

  /** A DIAL repeated because its answer was lost is answered again, and completes. */
  lemma RepeatCompletes(a: Conn, b: Conn, j: nat)
    requires a.state == DialSent && (b.state == DialRcvd || b.state == Established) && b.dst == a.src
    ensures var answer := Handle(b, Own(a, DIAL), j, true);
      var entered := Handle(a, answer.out[0], 0, true);
      && |answer.out| == |entered.out| == 1
      && Joined(entered.conn, Handle(answer.conn, entered.out[0], 0, true).conn)
  {
  }

  /** An endpoint left behind in a connection the other no longer knows is brought back by a dial: its answer to
      the DIAL names stale ids, the RST that answers returns it to listening, and the repeated DIAL is served. */
  lemma StaleIsReplaced(stale: Conn, a: Conn, i: nat, j: nat)
    requires stale.state == DialRcvd || stale.state == Established
    requires a.state == DialSent && a.dst == 0 && a.src != stale.dst && a.timer.DialRetry? && a.timer.interval < DIAL_ABORT
    ensures var answer := Handle(stale, Own(a, DIAL), j, true);
      var refusal := Handle(a, answer.out[0], 0, true);
      && |answer.out| == 1 && answer.conn == stale && |refusal.out| == 1 && refusal.conn == a
      && Handle(stale, refusal.out[0], 0, true).conn == Idle
      && var again := TimerFires(a);
      && var served := Handle(Idle, again.out[0], j, true);
      && var entered := Handle(again.conn, served.out[0], 0, true);
      && Joined(entered.conn, Handle(served.conn, entered.out[0], 0, true).conn)
  {
  }

  // ---- Reports --------------------------------------------------------------------------------------------

  /** `did_dial` is reported at most once per connection id, and a connection it was reported for is open or closing. */
  ghost predicate ReportsOk(w: World) {
    && (forall i, j :: 0 <= i < j < |w.reported| ==> w.reported[i] != w.reported[j])
    && (forall i :: 0 <= i < |w.reported| ==> w.reported[i] in w.births)
    && (forall x :: w.conns.At(x).src in w.reported ==> w.conns.At(x).state == Established || w.conns.At(x).state == Closing)
  }

  /** A report comes with the step into Established, of a connection this endpoint dialled. */
  lemma ReportOnEntry(c: Conn, p: Packet, newId: nat, sealOk: bool)
    requires Handle(c, p, newId, sealOk).reports
    ensures c.dialled && (c.state == DialSent || c.state == DialRcvd)
    ensures var c' := Handle(c, p, newId, sealOk).conn; c'.state == Established && c'.src == c.src
  {
  }

  /** Established is left only for Idle or Closing, and an id changes only when it is drawn or dropped. */
  lemma HandleShape(c: Conn, p: Packet, newId: nat, sealOk: bool)
    requires c.state == Listen ==> c.src == 0
    ensures var c' := Handle(c, p, newId, sealOk).conn;
      && (c' == Idle || c'.src == c.src || c'.src == newId)
      && (c.state == Established || c.state == Closing ==> c' == Idle || c'.state == c.state)
  {
  }

  lemma SidesDiffer(w: World, x: Side)
    requires Inv(w) && w.conns.At(x).src != 0
    ensures w.conns.At(Other(x)).src != w.conns.At(x).src && w.conns.At(x).src in w.births
  {
    assert ConnOk(x, w.conns.At(x), w.births, w.bound) && ConnOk(Other(x), w.conns.At(Other(x)), w.births, w.bound);
  }

  lemma ReportsApply(w: World, x: Side, o: Outcome, newId: nat)
    requires Inv(w) && ReportsOk(w) && newId !in w.births
    requires o.conn == Idle || o.conn.src == w.conns.At(x).src || o.conn.src == newId
    requires var c := w.conns.At(x); c.src == o.conn.src != 0 && (c.state == Established || c.state == Closing) ==>
      o.conn.state == Established || o.conn.state == Closing
    requires o.reports ==> w.conns.At(x).src != 0 && o.conn.src == w.conns.At(x).src
    requires o.reports ==> o.conn.state == Established
    requires o.reports ==> w.conns.At(x).state == DialSent || w.conns.At(x).state == DialRcvd
    ensures ReportsOk(Apply(w, x, o, newId))
  {
    var w' := Apply(w, x, o, newId);
    NoZero(w);
    if w.conns.At(x).src != 0 { SidesDiffer(w, x); }
    hide Inv;
    forall y | w'.conns.At(y).src in w'.reported
      ensures w'.conns.At(y).state == Established || w'.conns.At(y).state == Closing
    {
      assert w.conns.At(y).src in w.reported ==> w.conns.At(y).state == Established || w.conns.At(y).state == Closing;
    }
  }

  lemma NextReports(w: World, e: Event, w': World)
    requires Inv(w) && ReportsOk(w) && Next(w, e, w')
    ensures ReportsOk(w')
  {
    NoZero(w);
    assert forall x :: ConnOk(x, w.conns.At(x), w.births, w.bound);
    assert forall x :: w.conns.At(x).state == Listen ==> w.conns.At(x).src == 0;
    assert forall x :: w.conns.At(x).state == DialSent || w.conns.At(x).state == DialRcvd ==> w.conns.At(x).src != 0;
    hide Inv, ReportsOk, ConnOk;
    match e
    case Dials(x, newId) => ReportsApply(w, x, Dial(w.conns.At(x), newId), newId);
    case Receives(x, p, newId, sealOk) =>
      var o := Handle(w.conns.At(x), p, newId, sealOk);
      HandleShape(w.conns.At(x), p, newId, sealOk);
      if o.reports { ReportOnEntry(w.conns.At(x), p, newId, sealOk); }
      hide Handle;
      ReportsApply(w, x, o, newId);
    case Ticks(x) => ReportsApply(w, x, TimerFires(w.conns.At(x)), 0);
    case Closes(x) => ReportsApply(w, x, Close(w.conns.At(x)), 0);
    case Resets(x) => ReportsApply(w, x, Stay(Idle), 0);
    case Transmits(x, kind) => ReportsApply(w, x, Outcome(w.conns.At(x), [Own(w.conns.At(x), kind)], false), 0);
  }

  /** Over every run, the application hears of each connection id at most once. */
  lemma {:induction false} ReportedOnce(worlds: seq<World>, events: seq<Event>, k: nat)
    requires IsRun(worlds, events) && k < |worlds|
    ensures forall i, j :: 0 <= i < j < |worlds[k].reported| ==> worlds[k].reported[i] != worlds[k].reported[j]
    ensures ReportsOk(worlds[k])
  {
    if k > 0 {
      ReportedOnce(worlds, events, k - 1);
      RunOk(worlds, events, k - 1);
      assert Next(worlds[k - 1], events[k - 1], worlds[k]);
      hide Inv, Next;
      NextReports(worlds[k - 1], events[k - 1], worlds[k]);
    }
  }
}
