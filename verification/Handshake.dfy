/** The DIAL / DIALCONF / CONF / RST handshake of one endpoint, as the effect of each handler on its state. */
module Handshake {

  datatype ConnState = Listen | DialSent | DialRcvd | Established | Closing

  /** The state timer: off, or retrying DIAL or CLOSE after an interval. */
  datatype Timer = Off | DialRetry(interval: nat) | CloseRetry(interval: nat)

  const FIRST_RETRY := 1000
  const DIAL_ABORT := 64000
  const CLOSE_ABORT := 8000

  datatype Conn = Conn(state: ConnState, src: nat, dst: nat, dialled: bool, timer: Timer)

  const Idle := Conn(Listen, 0, 0, false, Off)

  /** CTRL stands for SKIPSTREAM, FLUSHSTREAM and FLUSHCONF, which treat connection ids alike. */
  datatype Kind = DIAL | DIALCONF | CONF | RST | DATA | ACK | CTRL | CLOSE

  /** A datagram by its wire fields: the id at offset 2, then the id at offset 6. */
  datatype Packet = Packet(kind: Kind, first: nat, second: nat) {
    /** A receiver reads its own id at offset 6 and the sender's at offset 2. */
    function Mine(): nat { second }
    function Theirs(): nat { first }
  }

  /** The effect of a handler: new state, datagrams sent, and whether `did_dial` is reported. */
  datatype Outcome = Outcome(conn: Conn, out: seq<Packet>, reports: bool)

  function Own(c: Conn, kind: Kind): Packet { Packet(kind, c.src, c.dst) }

  /** `send_RST` with the ids of an offending packet, as read. */
  function Reject(p: Packet): Packet { Packet(RST, p.Mine(), p.Theirs()) }

  predicate Matches(c: Conn, p: Packet) { p.Mine() == c.src && p.Theirs() == c.dst }

  function Stay(c: Conn): Outcome { Outcome(c, [], false) }

  function OnDial(c: Conn, p: Packet, newId: nat, sealOk: bool): Outcome {
    match c.state
    case Listen =>
      if p.Mine() != 0 || !sealOk then Stay(c)
      else
        var c' := c.(dst := p.Theirs(), src := newId, state := DialRcvd);
        Outcome(c', [Own(c', DIALCONF)], false)
    case DialSent =>
      if p.Mine() != 0 || !sealOk then Stay(c)
      else
        var c' := c.(dst := p.Theirs(), timer := Off, state := DialRcvd);
        Outcome(c', [Own(c', DIALCONF)], false)
    case DialRcvd => Outcome(c, [Own(c, DIALCONF)], false)
    case Established => Outcome(c, [Own(c, DIALCONF)], false)
    case Closing => Stay(c)
  }

  function OnDialConf(c: Conn, p: Packet, sealOk: bool): Outcome {
    match c.state
    case DialSent =>
      if p.Mine() != c.src then Outcome(c, [Reject(p)], false)
      else if !sealOk then Stay(c)
      else
        var c' := c.(timer := Off, dst := p.Theirs(), state := Established);
        Outcome(c', [Own(c', CONF)], c.dialled)
    case DialRcvd =>
      if !Matches(c, p) then Outcome(c, [Reject(p)], false)
      else Outcome(c.(timer := Off, state := Established), [Own(c, CONF)], c.dialled)
    case Established =>
      if !Matches(c, p) then Outcome(c, [Reject(p)], false) else Outcome(c, [Own(c, CONF)], false)
    case Listen => Outcome(c, [Reject(p)], false)
    case Closing => Stay(c)
  }

  function OnConf(c: Conn, p: Packet): Outcome {
    match c.state
    case DialRcvd =>
      if !Matches(c, p) then Outcome(c, [Reject(p)], false) else Outcome(c.(state := Established), [], c.dialled)
    case Established => if !Matches(c, p) then Outcome(c, [Reject(p)], false) else Stay(c)
    case Listen => Outcome(c, [Reject(p)], false)
    case DialSent => Outcome(c, [Reject(p)], false)
    case Closing => Stay(c)
  }

  function OnRst(c: Conn, p: Packet): Outcome {
    if Matches(c, p) || c.state == Listen then Stay(Idle) else Stay(c)
  }

  function OnData(c: Conn, p: Packet): Outcome {
    if !Matches(c, p) then Outcome(c, [Reject(p)], false)
    else if c.state == DialRcvd then Outcome(c.(state := Established), [], c.dialled)
    else Stay(c)
  }

  function OnAck(c: Conn, p: Packet): Outcome {
    if c.state == Established && !Matches(c, p) then Outcome(c, [Reject(p)], false) else Stay(c)
  }

  function OnCtrl(c: Conn, p: Packet): Outcome {
    if !Matches(c, p) then Outcome(c, [Reject(p)], false) else Stay(c)
  }

  /** `did_recv`: CLOSE is not dispatched. */
  function Handle(c: Conn, p: Packet, newId: nat, sealOk: bool): Outcome {
    match p.kind
    case DIAL => OnDial(c, p, newId, sealOk)
    case DIALCONF => OnDialConf(c, p, sealOk)
    case CONF => OnConf(c, p)
    case RST => OnRst(c, p)
    case DATA => OnData(c, p)
    case ACK => OnAck(c, p)
    case CTRL => OnCtrl(c, p)
    case CLOSE => Stay(c)
  }

  function Dial(c: Conn, newId: nat): Outcome {
    if c.state != Listen then Stay(c)
    else
      var c' := c.(dialled := true, timer := DialRetry(FIRST_RETRY), src := newId, state := DialSent);
      Outcome(c', [Own(c', DIAL)], false)
  }

  /** `dial_timer_cb` and `close_timer_cb`. */
  function TimerFires(c: Conn): Outcome {
    match c.timer
    case Off => Stay(c)
    case DialRetry(interval) =>
      if interval >= DIAL_ABORT then Stay(Idle)
      else Outcome(c.(timer := DialRetry(interval * 2)), [Own(c, DIAL)], false)
    case CloseRetry(interval) =>
      if interval >= CLOSE_ABORT then Stay(Idle)
      else Outcome(c.(timer := CloseRetry(interval * 2)), [Own(c, CLOSE)], false)
  }

  function Close(c: Conn): Outcome {
    Outcome(Conn(Closing, c.src, c.dst, false, CloseRetry(FIRST_RETRY)), [Own(c, CLOSE)], false)
  }

  // ---- The program ----------------------------------------------------------------------------------------

  class Connection {
    var state: ConnState
    var src: nat
    var dst: nat
    var dialled: bool
    var timer: Timer

    function View(): Conn
      reads this
    {
      Conn(state, src, dst, dialled, timer)
    }

    constructor ()
      ensures View() == Idle
    {
      state, src, dst, dialled, timer := Listen, 0, 0, false, Off;
    }

    method Reset()
      modifies this
      ensures View() == Idle
    {
      state := Listen;
      src, dst := 0, 0;
      dialled := false;
      timer := Off;
    }

    method DidDial(newId: nat) returns (out: seq<Packet>)
      modifies this
      ensures Outcome(View(), out, false) == Dial(old(View()), newId)
    {
      if state != Listen { return []; }
      dialled := true;
      timer := DialRetry(FIRST_RETRY);
      src := newId;
      out := [Packet(DIAL, src, dst)];
      state := DialSent;
    }

    method DidRecvDial(p: Packet, newId: nat, sealOk: bool) returns (out: seq<Packet>)
      modifies this
      ensures Outcome(View(), out, false) == OnDial(old(View()), p, newId, sealOk)
    {
      out := [];
      match state
      case Listen =>
        if p.Mine() != 0 || !sealOk { return; }
        dst := p.Theirs();
        src := newId;
        out := [Packet(DIALCONF, src, dst)];
        state := DialRcvd;
      case DialSent =>
        if p.Mine() != 0 || !sealOk { return; }
        dst := p.Theirs();
        timer := Off;
        out := [Packet(DIALCONF, src, dst)];
        state := DialRcvd;
      case DialRcvd => out := [Packet(DIALCONF, src, dst)];
      case Established => out := [Packet(DIALCONF, src, dst)];
      case Closing =>
    }

    method DidRecvDialConf(p: Packet, sealOk: bool) returns (out: seq<Packet>, reports: bool)
      modifies this
      ensures Outcome(View(), out, reports) == OnDialConf(old(View()), p, sealOk)
    {
      out, reports := [], false;
      match state
      case DialSent =>
        if p.Mine() != src { return [Packet(RST, p.Mine(), p.Theirs())], false; }
        if !sealOk { return; }
        timer := Off;
        dst := p.Theirs();
        out := [Packet(CONF, src, dst)];
        state := Established;
        reports := dialled;
      case DialRcvd =>
        if p.Mine() != src || p.Theirs() != dst { return [Packet(RST, p.Mine(), p.Theirs())], false; }
        timer := Off;
        out := [Packet(CONF, src, dst)];
        state := Established;
        reports := dialled;
      case Established =>
        if p.Mine() != src || p.Theirs() != dst { return [Packet(RST, p.Mine(), p.Theirs())], false; }
        out := [Packet(CONF, src, dst)];
      case Listen => out := [Packet(RST, p.Mine(), p.Theirs())];
      case Closing =>
    }

    method DidRecvConf(p: Packet) returns (out: seq<Packet>, reports: bool)
      modifies this
      ensures Outcome(View(), out, reports) == OnConf(old(View()), p)
    {
      out, reports := [], false;
      match state
      case DialRcvd =>
        if p.Mine() != src || p.Theirs() != dst { return [Packet(RST, p.Mine(), p.Theirs())], false; }
        state := Established;
        reports := dialled;
      case Established =>
        if p.Mine() != src || p.Theirs() != dst { return [Packet(RST, p.Mine(), p.Theirs())], false; }
      case Listen => out := [Packet(RST, p.Mine(), p.Theirs())];
      case DialSent => out := [Packet(RST, p.Mine(), p.Theirs())];
      case Closing =>
    }

    method DidRecvRst(p: Packet)
      modifies this
      ensures View() == OnRst(old(View()), p).conn
    {
      if p.Mine() == src && p.Theirs() == dst {
        Reset();
      } else if state == Listen {
        Reset();
      }
    }

    /** The connection-id part of `did_recv_DATA`. */
    method DidRecvData(p: Packet) returns (out: seq<Packet>, reports: bool)
      modifies this
      ensures Outcome(View(), out, reports) == OnData(old(View()), p)
    {
      if p.Mine() != src || p.Theirs() != dst { return [Packet(RST, p.Mine(), p.Theirs())], false; }
      out, reports := [], false;
      if state == DialRcvd {
        state := Established;
        reports := dialled;
      }
    }

    /** The connection-id part of `did_recv_ACK`: others than the ids' own connection are answered once Established. */
    method DidRecvAck(p: Packet) returns (out: seq<Packet>)
      modifies this
      ensures Outcome(View(), out, false) == OnAck(old(View()), p)
    {
      if state != Established { return []; }
      if p.Mine() != src || p.Theirs() != dst { return [Packet(RST, p.Mine(), p.Theirs())]; }
      out := [];
    }

    /** The connection-id part of the stream-control handlers. */
    method DidRecvCtrl(p: Packet) returns (out: seq<Packet>)
      modifies this
      ensures Outcome(View(), out, false) == OnCtrl(old(View()), p)
    {
      if p.Mine() != src || p.Theirs() != dst { return [Packet(RST, p.Mine(), p.Theirs())]; }
      out := [];
    }

    /** `did_recv`: hands a datagram to its handler. */
    method DidRecv(p: Packet, newId: nat, sealOk: bool) returns (out: seq<Packet>, reports: bool)
      modifies this
      ensures Outcome(View(), out, reports) == Handle(old(View()), p, newId, sealOk)
    {
      out, reports := [], false;
      match p.kind
      case DIAL => out := DidRecvDial(p, newId, sealOk);
      case DIALCONF => out, reports := DidRecvDialConf(p, sealOk);
      case CONF => out, reports := DidRecvConf(p);
      case RST => DidRecvRst(p);
      case DATA => out, reports := DidRecvData(p);
      case ACK => out := DidRecvAck(p);
      case CTRL => out := DidRecvCtrl(p);
      case CLOSE =>
    }

    method StateTimerCb() returns (out: seq<Packet>)
      modifies this
      ensures Outcome(View(), out, false) == TimerFires(old(View()))
    {
      out := [];
      match timer
      case Off =>
      case DialRetry(interval) =>
        if interval >= DIAL_ABORT { Reset(); return; } // gives up
        out := [Packet(DIAL, src, dst)];
        timer := DialRetry(interval * 2);
      case CloseRetry(interval) =>
        if interval >= CLOSE_ABORT { Reset(); return; } // gives up
        out := [Packet(CLOSE, src, dst)];
        timer := CloseRetry(interval * 2);
    }

    method CloseConnection() returns (out: seq<Packet>)
      modifies this
      ensures Outcome(View(), out, false) == Close(old(View()))
    {
      // Retries of CLOSE still name the connection.
      var src', dst' := src, dst;
      Reset();
      src, dst := src', dst';

      state := Closing;
      out := [Packet(CLOSE, src, dst)];
      timer := CloseRetry(FIRST_RETRY);
    }
  }
}
