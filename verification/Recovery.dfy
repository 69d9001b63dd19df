/**
 From which states of the handshake the two endpoints can still get connected, when nothing sent so far arrives any
 more but the network works from now on.
 */
module Recovery {
  import opened Handshake
  import opened Agreement

  /** The endpoints, and what each has sent from now on. */
  datatype Link = Link(conns: Pair<Conn>, sent: Pair<seq<Packet>>)

  datatype Move = MakesDial(x: Side) | TimerRuns(x: Side) | SendsData(x: Side) | Delivers(x: Side, i: nat)

  function Act(l: Link, x: Side, o: Outcome): Link {
    Link(l.conns.Put(x, o.conn), l.sent.Put(x, l.sent.At(x) + o.out))
  }

  /** One step; `i` is the id drawn to dial and `j` the one drawn to answer. */
  function Do(l: Link, m: Move, i: nat, j: nat): Link {
    match m
    case MakesDial(x) => Act(l, x, Dial(l.conns.At(x), i))
    case TimerRuns(x) => if l.conns.At(x).timer == Off then l else Act(l, x, TimerFires(l.conns.At(x)))
    case SendsData(x) =>
      if l.conns.At(x).state != Established then l
      else Act(l, x, Outcome(l.conns.At(x), [Own(l.conns.At(x), DATA)], false))
    case Delivers(x, k) =>
      if k >= |l.sent.At(Other(x))| then l
      else Act(l, x, Handle(l.conns.At(x), l.sent.At(Other(x))[k], j, true))
  }

  function Play(l: Link, moves: seq<Move>, i: nat, j: nat): Link
    decreases |moves|
  {
    if moves == [] then l else Play(Do(l, moves[0], i, j), moves[1..], i, j)
  }

  ghost predicate Recovers(l: Link, i: nat, j: nat) {
    exists moves :: Connected(Play(l, moves, i, j))
  }

  predicate Connected(l: Link) { Joined(l.conns.a, l.conns.b) }

  lemma Already(l: Link, i: nat, j: nat)
    requires Connected(l)
    ensures Recovers(l, i, j)
  {
    assert Play(l, [], i, j) == l;
  }

  lemma Via(l: Link, m: Move, i: nat, j: nat)
    requires Recovers(Do(l, m, i, j), i, j)
    ensures Recovers(l, i, j)
  {
    var moves :| Connected(Play(Do(l, m, i, j), moves, i, j));
    assert ([m] + moves)[1..] == moves;
    assert Play(l, [m] + moves, i, j) == Play(Do(l, m, i, j), moves, i, j);
  }

  /** The last datagram `x` has sent arrives. */
  function Latest(l: Link, x: Side): Move
    requires l.sent.At(x) != []
  {
    Delivers(Other(x), |l.sent.At(x)| - 1)
  }

  predicate JustSent(l: Link, x: Side, p: Packet) {
    l.sent.At(x) != [] && l.sent.At(x)[|l.sent.At(x)| - 1] == p
  }

  /** The datagram `p` that `x` has just sent arrives, with this outcome. */
  lemma Received(l: Link, x: Side, p: Packet, i: nat, j: nat) returns (l': Link)
    requires JustSent(l, x, p)
    ensures var y := Other(x); var o := Handle(l.conns.At(y), p, j, true);
      && l'.conns == l.conns.Put(y, o.conn)
      && (o.out != [] ==> JustSent(l', y, o.out[|o.out| - 1]))
      && (Recovers(l', i, j) ==> Recovers(l, i, j))
  {
    l' := Do(l, Latest(l, x), i, j);
    if Recovers(l', i, j) { Via(l, Latest(l, x), i, j); }
  }

  // ---- From a dial that is under way --------------------------------------------------------------------------

  /** `x` has been answered: it accepts the answer and confirms. */
  lemma Confirms(l: Link, x: Side, i: nat, j: nat)
    requires var y := Other(x); var c, d := l.conns.At(x), l.conns.At(y);
      && c.state == DialSent && (d.state == DialRcvd || d.state == Established) && d.dst == c.src
      && JustSent(l, y, Own(d, DIALCONF))
    ensures Recovers(l, i, j)
  {
    var y := Other(x);
    var l1 := Received(l, y, Own(l.conns.At(y), DIALCONF), i, j);
    var l2 := Received(l1, x, Own(l1.conns.At(x), CONF), i, j);
    Already(l2, i, j);
  }

  /** A DIAL has just been sent to an endpoint that listens, dials too, or knows the dialler by this id. */
  lemma Answers(l: Link, x: Side, i: nat, j: nat)
    requires var y := Other(x); var c, d := l.conns.At(x), l.conns.At(y);
      && c.state == DialSent && c.dst == 0 && JustSent(l, x, Own(c, DIAL))
      && (d == Idle || d.state == DialSent || ((d.state == DialRcvd || d.state == Established) && d.dst == c.src))
    ensures Recovers(l, i, j)
  {
    var l1 := Received(l, x, Own(l.conns.At(x), DIAL), i, j);
    Confirms(l1, x, i, j);
  }

  /** A DIAL has just been sent to an endpoint left in another connection: it is reset by the exchange. */
  lemma Refuses(l: Link, x: Side, i: nat, j: nat)
    requires var y := Other(x); var c, d := l.conns.At(x), l.conns.At(y);
      && c.state == DialSent && c.dst == 0 && c.timer.DialRetry? && JustSent(l, x, Own(c, DIAL))
      && (d.state == DialRcvd || d.state == Established) && d.dst != c.src
    ensures Recovers(l, i, j)
  {
    var y := Other(x);
    var c, d := l.conns.At(x), l.conns.At(y);
    var l1 := Received(l, x, Own(c, DIAL), i, j);
    var l2 := Received(l1, y, Own(d, DIALCONF), i, j);
    var l3 := Received(l2, x, Packet(RST, d.dst, d.src), i, j);
    assert l3.conns.At(y) == Idle && l3.conns.At(x) == c;
    Retries(l3, x, i, j);
  }

  /** Both listen. */
  lemma BothIdle(l: Link, x: Side, i: nat, j: nat)
    requires l.conns.At(x) == Idle && l.conns.At(Other(x)) == Idle
    ensures Recovers(l, i, j)
  {
    var l1 := Do(l, MakesDial(x), i, j);
    Answers(l1, x, i, j);
    Via(l, MakesDial(x), i, j);
  }

  /** `x` dials, and the other listens or dials too. */
  lemma Retries(l: Link, x: Side, i: nat, j: nat)
    requires var y := Other(x); var c, d := l.conns.At(x), l.conns.At(y);
      c.state == DialSent && c.dst == 0 && c.timer.DialRetry? && d == Idle
    ensures Recovers(l, i, j)
  {
    var l1 := Do(l, TimerRuns(x), i, j);
    if l.conns.At(x).timer.interval >= DIAL_ABORT {
      BothIdle(l1, x, i, j);
    } else {
      Answers(l1, x, i, j);
    }
    Via(l, TimerRuns(x), i, j);
  }

  // ---- From an endpoint left behind ---------------------------------------------------------------------------

  /** `x` listens, and the other is in a connection. */
  lemma Replaces(l: Link, x: Side, i: nat, j: nat)
    requires var y := Other(x); var d := l.conns.At(y);
      l.conns.At(x) == Idle && (d.state == DialRcvd || d.state == Established) && d.dst != i
    ensures Recovers(l, i, j)
  {
    var l1 := Do(l, MakesDial(x), i, j);
    Refuses(l1, x, i, j);
    Via(l, MakesDial(x), i, j);
  }

  /** `x` dials; the other does not listen. */
  lemma DialGoesOn(l: Link, x: Side, i: nat, j: nat)
    requires var y := Other(x); var c, d := l.conns.At(x), l.conns.At(y);
      && c.state == DialSent && c.dst == 0 && c.timer.DialRetry? && d.dst != i
      && ((d.state == DialSent && d.dst == 0 && d.timer.DialRetry?) || d.state == DialRcvd || d.state == Established)
    ensures Recovers(l, i, j)
  {
    var y := Other(x);
    var c, d := l.conns.At(x), l.conns.At(y);
    var l1 := Do(l, TimerRuns(x), i, j);
    if c.timer.interval >= DIAL_ABORT {
      if d.state == DialSent { Retries(l1, y, i, j); } else { Replaces(l1, x, i, j); }
    } else if d.state == DialSent || d.dst == c.src {
      Answers(l1, x, i, j);
    } else {
      Refuses(l1, x, i, j);
    }
    Via(l, TimerRuns(x), i, j);
  }

  /** `x` is Established and the other waits for confirmation: DATA confirms, or shows that they do not match. */
  lemma DataConfirms(l: Link, x: Side, i: nat, j: nat)
    requires var y := Other(x); var c, d := l.conns.At(x), l.conns.At(y);
      c.state == Established && d.state == DialRcvd && d.dst != i
    ensures Recovers(l, i, j)
  {
    var y := Other(x);
    var c, d := l.conns.At(x), l.conns.At(y);
    var l1 := Do(l, SendsData(x), i, j);
    var l2 := Received(l1, x, Own(c, DATA), i, j);
    if Matches(d, Own(c, DATA)) {
      Already(l2, i, j);
    } else {
      var l3 := Received(l2, y, Packet(RST, c.dst, c.src), i, j);
      assert l3.conns.At(x) == Idle && l3.conns.At(y) == d;
      Replaces(l3, x, i, j);
    }
    Via(l, SendsData(x), i, j);
  }

  /** A closing endpoint gives up and listens. */
  lemma {:induction false} ClosesFirst(l: Link, x: Side, i: nat, j: nat)
    requires var c := l.conns.At(x); c.timer.CloseRetry? && c.timer.interval > 0
    requires forall l': Link :: l'.conns == l.conns.Put(x, Idle) ==> Recovers(l', i, j)
    ensures Recovers(l, i, j)
    decreases CLOSE_ABORT - l.conns.At(x).timer.interval
  {
    var l1 := Do(l, TimerRuns(x), i, j);
    if l.conns.At(x).timer.interval < CLOSE_ABORT { ClosesFirst(l1, x, i, j); }
    Via(l, TimerRuns(x), i, j);
  }

  // ---- All reachable states -----------------------------------------------------------------------------------

  /** What the handshake invariant says of one endpoint. */
  predicate Usual(c: Conn, i: nat) {
    && (c.state == Listen ==> c == Idle)
    && (c.state == DialSent ==> c.dst == 0 && c.timer.DialRetry?)
    && (c.state == DialRcvd || c.state == Established ==> c.dst != i)
    && (c.state == DialRcvd ==> c.timer == Off)
    && (c.state == Closing ==> c.timer.CloseRetry? && c.timer.interval > 0)
    && i != 0
  }

  lemma UsualNow(w: World, x: Side, i: nat)
    requires Inv(w) && i != 0 && i !in w.births
    ensures Usual(w.conns.At(x), i)
  {
    assert ConnOk(x, w.conns.At(x), w.births, w.bound);
  }

  lemma NoneCloses(l: Link, x: Side, i: nat, j: nat)
    requires var c, d := l.conns.At(x), l.conns.At(Other(x));
      && Usual(c, i) && Usual(d, i) && c.state != Closing && d.state != Closing
      && !(c.state == DialRcvd && d.state == DialRcvd)
      && (c.state == Established && d.state == Established ==> Joined(c, d))
      && (c.state == Listen || (c.state == DialSent && d.state != Listen) || (c.state == Established && d.state == DialRcvd)
          || (c.state == Established && d.state == Established))
    ensures Recovers(l, i, j)
  {
    var y := Other(x);
    var c, d := l.conns.At(x), l.conns.At(y);
    match c.state
    case Listen =>
      if d.state == Listen { BothIdle(l, x, i, j); }
      else if d.state == DialSent { Retries(l, y, i, j); }
      else { Replaces(l, x, i, j); }
    case DialSent => DialGoesOn(l, x, i, j);
    case Established => if d.state == DialRcvd { DataConfirms(l, x, i, j); } else { Already(l, i, j); }
  }

  lemma SomeOrder(l: Link, i: nat, j: nat)
    requires var c, d := l.conns.a, l.conns.b;
      && Usual(c, i) && Usual(d, i) && c.state != Closing && d.state != Closing
      && !(c.state == DialRcvd && d.state == DialRcvd)
      && (c.state == Established && d.state == Established ==> Joined(c, d))
    ensures Recovers(l, i, j)
  {
    var c, d := l.conns.a, l.conns.b;
    if c.state == Listen || (c.state == DialSent && d.state != Listen) || (c.state == Established && (d.state == DialRcvd || d.state == Established)) {
      NoneCloses(l, A, i, j);
    } else {
      NoneCloses(l, B, i, j);
    }
  }

  lemma CloseOne(l: Link, x: Side, i: nat, j: nat)
    requires var c, d := l.conns.At(x), l.conns.At(Other(x)); Usual(c, i) && Usual(d, i) && c.state == Closing && d.state != Closing
    ensures Recovers(l, i, j)
  {
    forall l': Link | l'.conns == l.conns.Put(x, Idle) ensures Recovers(l', i, j) { SomeOrder(l', i, j); }
    ClosesFirst(l, x, i, j);
  }

  lemma CloseBoth(l: Link, i: nat, j: nat)
    requires Usual(l.conns.a, i) && Usual(l.conns.b, i) && l.conns.a.state == Closing && l.conns.b.state == Closing
    ensures Recovers(l, i, j)
  {
    forall l': Link | l'.conns == l.conns.Put(A, Idle) ensures Recovers(l', i, j) { CloseOne(l', B, i, j); }
    ClosesFirst(l, A, i, j);
  }

  lemma StaysPut(l: Link, x: Side)
    requires l.sent == Pair([], [])
    ensures Act(l, x, Stay(l.conns.At(x))) == l
  {
    assert l.sent.At(x) + [] == [];
  }

  /** Two endpoints that each wait for the other's confirmation have no timer and nothing to send. */
  lemma {:induction false} Stuck(l: Link, moves: seq<Move>, i: nat, j: nat)
    requires l.conns.a.state == DialRcvd && l.conns.b.state == DialRcvd && l.conns.a.timer == Off && l.conns.b.timer == Off
    requires l.sent == Pair([], [])
    ensures Play(l, moves, i, j) == l
    decreases |moves|
  {
    if moves != [] {
      var m := moves[0];
      StaysPut(l, A);
      StaysPut(l, B);
      assert Do(l, m, i, j) == l by {
        match m
        case MakesDial(x) => assert x == A || x == B;
        case TimerRuns(x) => assert x == A || x == B;
        case SendsData(x) => assert x == A || x == B;
        case Delivers(x, _) => assert x == A || x == B;
      }
      Stuck(l, moves[1..], i, j);
    }
  }

  lemma RecoversFrom(w: World, i: nat, j: nat)
    requires Inv(w) && i != 0 && i !in w.births
    ensures Recovers(Link(w.conns, Pair([], [])), i, j) <==> !(w.conns.a.state == DialRcvd && w.conns.b.state == DialRcvd)
  {
    var l := Link(w.conns, Pair([], []));
    UsualNow(w, A, i);
    UsualNow(w, B, i);
    if w.conns.a.state == DialRcvd && w.conns.b.state == DialRcvd {
      forall moves ensures !Connected(Play(l, moves, i, j)) { Stuck(l, moves, i, j); }
    } else {
      if w.conns.a.state == Established && w.conns.b.state == Established { Mirrored(w); }
      match (w.conns.a.state == Closing, w.conns.b.state == Closing)
      case (false, false) => SomeOrder(l, i, j);
      case (true, false) => CloseOne(l, A, i, j);
      case (false, true) => CloseOne(l, B, i, j);
      case (true, true) => CloseBoth(l, i, j);
    }
  }

  /** In every reachable state, whatever was lost, the endpoints can still be connected to each other, with mirrored
      ids, by dials, timers, DATA and what is sent from now on, if and only if they are not both waiting for a
      confirmation: then no timer runs, and neither sends anything any more. */
  lemma RecoversIff(worlds: seq<World>, events: seq<Agreement.Event>, k: nat, i: nat, j: nat)
    requires Agreement.IsRun(worlds, events) && k < |worlds| && i != 0 && i !in worlds[k].births
    ensures Recovers(Link(worlds[k].conns, Pair([], [])), i, j)
      <==> !(worlds[k].conns.a.state == DialRcvd && worlds[k].conns.b.state == DialRcvd)
  {
    RunOk(worlds, events, k);
    RecoversFrom(worlds[k], i, j);
  }

  /** The stuck state is reached by a simultaneous open whose two answers are lost. */
  lemma StuckReachable(i: nat, j: nat) returns (worlds: seq<World>, events: seq<Event>)
    requires i != 0 && j != 0 && i != j
    ensures Agreement.IsRun(worlds, events) && |worlds| == 5
    ensures worlds[4].conns.a.state == DialRcvd && worlds[4].conns.b.state == DialRcvd
  {
    var w1 := Apply(Start, A, Dial(Idle, i), i);
    var w2 := Apply(w1, B, Dial(Idle, j), j);
    var k := i + j + 1;
    var w3 := Apply(w2, A, Handle(w2.conns.a, Packet(DIAL, j, 0), k, true), k);
    var w4 := Apply(w3, B, Handle(w3.conns.b, Packet(DIAL, i, 0), k, true), k);
    worlds := [Start, w1, w2, w3, w4];
    events := [Agreement.Dials(A, i), Agreement.Dials(B, j), Agreement.Receives(A, Packet(DIAL, j, 0), k, true),
               Agreement.Receives(B, Packet(DIAL, i, 0), k, true)];
    assert Dial(Idle, i).out == [Packet(DIAL, i, 0)] && Dial(Idle, j).out == [Packet(DIAL, j, 0)];
    assert Agreement.Next(Start, events[0], w1);
    assert Agreement.Next(w1, events[1], w2);
    assert Packet(DIAL, j, 0) in w2.net.b && Packet(DIAL, i, 0) in w2.net.a;
    assert Agreement.Next(w2, events[2], w3);
    assert Agreement.Next(w3, events[3], w4);
  }
}
