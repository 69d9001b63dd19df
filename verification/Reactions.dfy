/**
 What an endpoint answers to a datagram of a connection it does not hold, what it ignores, and how often it repeats
 itself. These laws fix the handshake's reactions from outside; agreement and recovery follow from them over runs.
 */
module Reactions {
  import opened Handshake

  // ---- Datagrams of another connection ----------------------------------------------------------------------

  /** The kinds whose ids an endpoint in state `c` checks. */
  predicate Checked(c: Conn, kind: Kind) {
    kind == DIALCONF || kind == CONF || kind == DATA || kind == CTRL || (kind == ACK && c.state == Established)
  }

  /** The datagram names a connection that `c` does not hold. An endpoint that dials knows only its own id yet. */
  predicate Foreign(c: Conn, p: Packet) {
    if c.state == DialSent && p.kind == DIALCONF then p.second != c.src else p.second != c.src || p.first != c.dst
  }

  /** Ids as the handlers leave them: none while listening, and no peer's while dialling. */
  predicate IdsOk(c: Conn) {
    (c.state == Listen ==> c == Idle) && (c.state == DialSent ==> c.dst == 0)
  }

  /** An endpoint that is not closing answers a datagram of a connection it does not hold with one RST, and only such a
      datagram. It stays as it is, and the RST resets the sender if that still holds those ids. */
  lemma StrangerIsReset(c: Conn, d: Conn, kind: Kind, newId: nat, sealOk: bool)
    requires c.state != Closing && Checked(c, kind) && IdsOk(c) && d.src != 0
    ensures var p := Packet(kind, d.src, d.dst); var o := Handle(c, p, newId, sealOk);
      && (Foreign(c, p) ==>
            o.conn == c && !o.reports && o.out == [Packet(RST, d.dst, d.src)] && Handle(d, o.out[0], newId, sealOk).conn == Idle)
      && (!Foreign(c, p) ==> forall i :: 0 <= i < |o.out| ==> o.out[i].kind != RST)
  {
  }

  /** A RST resets an endpoint that holds its ids, in any state, and no other that is not listening. It is not answered. */
  lemma ResetIff(c: Conn, p: Packet, newId: nat, sealOk: bool)
    requires p.kind == RST && IdsOk(c)
    ensures var o := Handle(c, p, newId, sealOk);
      && o.conn == (if c.src == p.second && c.dst == p.first then Idle else c) && o.out == [] && !o.reports
  {
  }

  /** A closing endpoint answers nothing to handshake datagrams and acks, and RST to DATA and stream control of another
      connection only. */
  lemma ClosingIsSilent(c: Conn, p: Packet, newId: nat, sealOk: bool)
    requires c.state == Closing && p.kind != RST
    ensures Handle(c, p, newId, sealOk) ==
      if (p.kind == DATA || p.kind == CTRL) && (p.second != c.src || p.first != c.dst) then Outcome(c, [Packet(RST, p.second, p.first)], false)
      else Outcome(c, [], false)
  {
  }

  /** Before it is Established an endpoint ignores acks, and it never reacts to CLOSE. Only one that listens dials. */
  lemma Ignored(c: Conn, p: Packet, newId: nat, sealOk: bool)
    ensures p.kind == CLOSE || (p.kind == ACK && c.state != Established) ==> Handle(c, p, newId, sealOk) == Outcome(c, [], false)
    ensures c.state != Listen ==> Dial(c, newId) == Outcome(c, [], false)
  {
  }

  // ---- Datagrams of the connection itself -------------------------------------------------------------------

  /** A DIAL that names an id of this endpoint, or whose seal does not open, changes nothing and is not answered while
      it could open a connection; nor is a DIALCONF to this endpoint's id whose seal does not open. */
  lemma SealNeeded(c: Conn, p: Packet, newId: nat, sealOk: bool)
    requires (c.state == Listen || c.state == DialSent) && IdsOk(c)
    requires (p.kind == DIAL && (p.second != 0 || !sealOk)) || (p.kind == DIALCONF && c.state == DialSent && p.second == c.src && !sealOk)
    ensures Handle(c, p, newId, sealOk) == Outcome(c, [], false)
  {
  }

  /** An endpoint becomes Established exactly by a datagram of the connection: the answer to its DIAL, or the
      confirmation of its own answer, by DIALCONF, CONF or DATA. It reports so exactly if it had dialled. */
  lemma EstablishedIff(c: Conn, p: Packet, newId: nat, sealOk: bool)
    requires c.state != Established && IdsOk(c)
    ensures var o := Handle(c, p, newId, sealOk);
      && (o.conn.state == Established <==>
           || (c.state == DialSent && p.kind == DIALCONF && p.second == c.src && sealOk)
           || (c.state == DialRcvd && (p.kind == DIALCONF || p.kind == CONF || p.kind == DATA) && p.second == c.src && p.first == c.dst))
      && (o.conn.state == Established ==>
           && o.conn.src == c.src && o.conn.dst == p.first && o.reports == c.dialled
           && o.out == if p.kind == DIALCONF then [Packet(CONF, c.src, p.first)] else [])
      && (o.reports ==> o.conn.state == Established)
  {
  }

  /** Once Established, nothing but a RST that names its ids ends the connection or changes it; duplicates of DIAL and
      DIALCONF are answered again. */
  lemma EstablishedStays(c: Conn, p: Packet, newId: nat, sealOk: bool)
    requires c.state == Established
    ensures var o := Handle(c, p, newId, sealOk);
      && o.conn == (if p.kind == RST && p.second == c.src && p.first == c.dst then Idle else c) && !o.reports
      && (p.kind == DIAL ==> o.out == [Packet(DIALCONF, c.src, c.dst)])
      && (p.kind == DIALCONF && p.second == c.src && p.first == c.dst ==> o.out == [Packet(CONF, c.src, c.dst)])
      && (p.kind == CONF || p.kind == DATA || p.kind == ACK || p.kind == CTRL ==>
            p.second == c.src && p.first == c.dst ==> o.out == [])
  {
  }

  /** A DIAL accepted by an endpoint that listens or dials: it answers under a fresh id, or under the one it dials with,
      and stops dialling. One that waits for its own answer to be confirmed repeats the answer. */
  lemma DialAnswered(c: Conn, p: Packet, newId: nat, sealOk: bool)
    requires p.kind == DIAL && IdsOk(c)
    ensures var o := Handle(c, p, newId, sealOk);
      && (c.state != Established && c.state != Closing && (c.state == DialRcvd || (p.second == 0 && sealOk)) ==>
            o.conn.state == DialRcvd && o.out == [Packet(DIALCONF, o.conn.src, o.conn.dst)])
      && (c.state == DialRcvd ==> o.conn == c)
      && (c.state == Listen && p.second == 0 && sealOk ==> o.conn == Conn(DialRcvd, newId, p.first, false, Off))
      && (c.state == DialSent && p.second == 0 && sealOk ==> o.conn == Conn(DialRcvd, c.src, p.first, c.dialled, Off))
  {
  }

  // ---- Retries ----------------------------------------------------------------------------------------------

  /** The endpoint after its state timer has fired `n` times, and what it has sent by then. */
  function Fired(c: Conn, n: nat): (Conn, seq<Packet>) {
    if n == 0 then (c, [])
    else
      var (d, out) := Fired(c, n - 1);
      if d.timer == Off then (d, out) else (TimerFires(d).conn, out + TimerFires(d).out)
  }

  function Doubled(n: nat): nat { if n == 0 then 1 else 2 * Doubled(n - 1) }

  function Copies(p: Packet, n: nat): seq<Packet> { if n == 0 then [] else Copies(p, n - 1) + [p] }

  lemma {:induction false} DialsAgain(i: nat, n: nat)
    requires n <= 6
    ensures var c := Dial(Idle, i).conn;
      Fired(c, n) == (c.(timer := DialRetry(1000 * Doubled(n))), Copies(Packet(DIAL, i, 0), n))
  {
    if n > 0 {
      DialsAgain(i, n - 1);
      DoubledUpTo(n - 1);
    }
  }

  lemma DoubledUpTo(n: nat)
    requires n <= 6
    ensures Doubled(n) <= 64 && (n <= 5 ==> Doubled(n) <= 32) && (n <= 2 ==> Doubled(n) <= 4)
    ensures Doubled(6) == 64 && Doubled(3) == 8
  {
    assert Doubled(0) == 1 && Doubled(1) == 2 && Doubled(2) == 4;
    assert Doubled(3) == 8;
    assert Doubled(4) == 16;
    assert Doubled(5) == 32;
  }

  /** A dial that is never answered is repeated six times, after 1, 2, 4, ... and 32 seconds; 64 seconds after the last
      the endpoint listens again. */
  lemma DialGivesUp(i: nat)
    ensures var a := Dial(Idle, i);
      && a.out == [Packet(DIAL, i, 0)] && a.conn.timer == DialRetry(1000) && a.conn.state == DialSent
      && Fired(a.conn, 6).1 == Copies(Packet(DIAL, i, 0), 6) && Fired(a.conn, 6).0.timer == DialRetry(64000)
      && Fired(a.conn, 7) == (Idle, Copies(Packet(DIAL, i, 0), 6))
  {
    DialsAgain(i, 6);
    DoubledUpTo(6);
    assert Copies(Packet(DIAL, i, 0), 6) + [] == Copies(Packet(DIAL, i, 0), 6);
  }

  lemma {:induction false} ClosesAgain(c: Conn, n: nat)
    requires n <= 3
    ensures var d := Close(c).conn;
      Fired(d, n) == (d.(timer := CloseRetry(1000 * Doubled(n))), Copies(Packet(CLOSE, c.src, c.dst), n))
  {
    if n > 0 {
      ClosesAgain(c, n - 1);
      DoubledUpTo(n - 1);
    }
  }

  /** A close in any state names the ids it held, repeats itself three times, and then listens again. */
  lemma CloseGivesUp(c: Conn)
    ensures var d := Close(c);
      && d.out == [Packet(CLOSE, c.src, c.dst)] && d.conn.state == Closing && !d.reports && !d.conn.dialled
      && d.conn.src == c.src && d.conn.dst == c.dst && d.conn.timer == CloseRetry(1000)
      && Fired(d.conn, 3).1 == Copies(Packet(CLOSE, c.src, c.dst), 3)
      && Fired(d.conn, 4) == (Idle, Copies(Packet(CLOSE, c.src, c.dst), 3))
  {
    ClosesAgain(c, 3);
    DoubledUpTo(3);
    assert Copies(Packet(CLOSE, c.src, c.dst), 3) + [] == Copies(Packet(CLOSE, c.src, c.dst), 3);
  }
}
