/**
 The calls a message in parts is passed on by: a start with its length, its bytes in chunks, and an end. The
 cut-through parser makes them on a node, and a node makes them on the connections it relays to.
 */
module Trace {
  import opened Bytes

  datatype Event = Start(length: nat) | Chunk(bytes: seq<byte>) | End

  /** A trace read back: the messages it completes, and the message it leaves open, if any. */
  datatype Open = Closed | Opened(length: nat, got: seq<byte>)

  /** What a trace amounts to, starting inside `open`; `None` if it is not bracketed by starts and ends,
      or a message's chunks do not total its announced length. */
  datatype Reading = Bad | Reading(messages: seq<seq<byte>>, open: Open)

  function Collapse(open: Open, events: seq<Event>): Reading
    decreases |events|
  {
    if events == [] then Reading([], open)
    else
      match events[0]
      case Start(n) => if open.Opened? then Bad else Collapse(Opened(n, []), events[1..])
      case Chunk(b) => if open.Closed? then Bad else Collapse(Opened(open.length, open.got + b), events[1..])
      case End =>
        if open.Closed? || |open.got| != open.length then Bad
        else
          match Collapse(Closed, events[1..])
          case Bad => Bad
          case Reading(messages, rest) => Reading([open.got] + messages, rest)
  }

  lemma CollapseNothing(open: Open)
    ensures Collapse(open, []) == Reading([], open)
  {
  }

  lemma CollapseStart(n: nat, events: seq<Event>)
    ensures Collapse(Closed, [Start(n)] + events) == Collapse(Opened(n, []), events)
  {
    assert ([Start(n)] + events)[1..] == events;
  }

  lemma CollapseChunk(length: nat, got: seq<byte>, b: seq<byte>)
    ensures Collapse(Opened(length, got), [Chunk(b)]) == Reading([], Opened(length, got + b))
  {
    assert [Chunk(b)][1..] == [];
  }

  lemma CollapseWhole(length: nat, got: seq<byte>, b: seq<byte>, events: seq<Event>)
    requires |got| + |b| == length && Collapse(Closed, events).Reading?
    ensures Collapse(Opened(length, got), [Chunk(b), End] + events)
      == Reading([got + b] + Collapse(Closed, events).messages, Collapse(Closed, events).open)
  {
    var whole := [Chunk(b), End] + events;
    assert whole[1..] == [End] + events && whole[1..][1..] == events;
  }

  /** Traces can be read in two parts. */
  lemma {:induction false} CollapseSplit(open: Open, a: seq<Event>, b: seq<Event>)
    requires Collapse(open, a).Reading?
    ensures Collapse(open, a + b) ==
      match Collapse(Collapse(open, a).open, b)
      case Bad => Bad
      case Reading(more, rest) => Reading(Collapse(open, a).messages + more, rest)
    decreases |a|
  {
    if a == [] {
      assert a + b == b;
      match Collapse(open, b)
      case Bad =>
      case Reading(more, rest) => assert [] + more == more;
    } else {
      assert (a + b)[1..] == a[1..] + b;
      match a[0]
      case Start(n) => CollapseSplit(Opened(n, []), a[1..], b);
      case Chunk(c) => CollapseSplit(Opened(open.length, open.got + c), a[1..], b);
      case End =>
        CollapseSplit(Closed, a[1..], b);
        match Collapse(Collapse(open, a).open, b)
        case Bad =>
        case Reading(more, rest) =>
          assert [open.got] + (Collapse(Closed, a[1..]).messages + more) == ([open.got] + Collapse(Closed, a[1..]).messages) + more;
    }
  }

  // ---- The trace of one message -----------------------------------------------------------------------------

  function Chunks(bs: seq<seq<byte>>): (r: seq<Event>)
    ensures |r| == |bs|
    decreases |bs|
  {
    if bs == [] then [] else [Chunk(bs[0])] + Chunks(bs[1..])
  }

  /** The bytes a connection writes for the calls made on it: the length as a prefix, then the chunks. */
  function Written(events: seq<Event>): seq<byte>
    decreases |events|
  {
    if events == [] then []
    else
      (match events[0] case Start(n) => EncodeBe(n, 8) case Chunk(b) => b case End => []) + Written(events[1..])
  }

  lemma {:induction false} ClosingCompletes(length: nat, got: seq<byte>, events: seq<Event>)
    requires Collapse(Opened(length, got), events).Reading? && Collapse(Opened(length, got), events).open == Closed
    ensures Collapse(Opened(length, got), events).messages != []
    decreases |events|
  {
    if events[0].Chunk? { ClosingCompletes(length, got + events[0].bytes, events[1..]); }
  }

  lemma NothingMore(events: seq<Event>)
    requires Collapse(Closed, events) == Reading([], Closed)
    ensures events == []
  {
    if events != [] && events[0].Start? { ClosingCompletes(events[0].length, [], events[1..]); }
  }

  lemma {:induction false} RestOfOne(length: nat, got: seq<byte>, events: seq<Event>, m: seq<byte>) returns (bs: seq<seq<byte>>)
    requires Collapse(Opened(length, got), events) == Reading([m], Closed)
    ensures events == Chunks(bs) + [End] && got + Concat(bs) == m && length == |m|
    decreases |events|
  {
    if events[0].Chunk? {
      var b := events[0].bytes;
      var more := RestOfOne(length, got + b, events[1..], m);
      bs := [b] + more;
      assert bs[1..] == more;
      assert got + (b + Concat(more)) == got + b + Concat(more);
      assert events == [events[0]] + events[1..];
    } else {
      var messages := [got] + Collapse(Closed, events[1..]).messages;
      assert messages == [m] && messages[0] == got;
      assert Collapse(Closed, events[1..]).messages == messages[1..];
      NothingMore(events[1..]);
      bs := [];
      assert events == [End] && got + [] == got;
    }
  }

  /** A trace that amounts to one message is its start, its bytes in chunks, and its end. */
  lemma OneMessage(events: seq<Event>, m: seq<byte>) returns (bs: seq<seq<byte>>)
    requires Collapse(Closed, events) == Reading([m], Closed) && m != []
    ensures bs != [] && events == [Start(|m|)] + Chunks(bs) + [End] && Concat(bs) == m
  {
    bs := RestOfOne(events[0].length, [], events[1..], m);
    assert events == [events[0]] + events[1..];
    assert [] + Concat(bs) == Concat(bs);
  }

  lemma {:induction false} ChunksCollapse(length: nat, got: seq<byte>, bs: seq<seq<byte>>)
    requires |got + Concat(bs)| == length
    ensures Collapse(Opened(length, got), Chunks(bs) + [End]) == Reading([got + Concat(bs)], Closed)
    ensures Written(Chunks(bs) + [End]) == Concat(bs)
    decreases |bs|
  {
    var events := Chunks(bs) + [End];
    if bs == [] {
      assert events == [End] && events[1..] == [];
      assert got + [] == got;
    } else {
      assert events[1..] == Chunks(bs[1..]) + [End];
      assert got + bs[0] + Concat(bs[1..]) == got + (bs[0] + Concat(bs[1..]));
      ChunksCollapse(length, got + bs[0], bs[1..]);
    }
  }

  /** And conversely: such a trace amounts to its message, and writes the frame of it. */
  lemma WholeTrace(bs: seq<seq<byte>>, n: nat)
    requires |Concat(bs)| == n
    ensures var events := [Start(n)] + Chunks(bs) + [End];
      Collapse(Closed, events) == Reading([Concat(bs)], Closed) && Written(events) == EncodeBe(n, 8) + Concat(bs)
  {
    var events := [Start(n)] + Chunks(bs) + [End];
    assert events[1..] == Chunks(bs) + [End];
    assert [] + Concat(bs) == Concat(bs);
    ChunksCollapse(n, [], bs);
  }
}
