/**
 Message ids spreading through a network of nodes, each with its own deduplication ring. A node that accepts an id
 relays it at once, by storing or by cutting through, along entries of its connection sets; copies may arrive in any
 order or be lost.
 */
module Flood {
  import opened Bytes
  import Dedup

  // ---- Connection sets ------------------------------------------------------------------------------------

  /** The connections of a node, each given by the peer it leads to: those it solicited, by cluster, and the others. */
  datatype Node = Node(clusters: seq<seq<nat>>, unsol: seq<nat>)

  /** One entry of a node's connection sets. */
  datatype Slot = InCluster(c: nat, i: nat) | Unsolicited(i: nat)

  type Network = seq<Node>

  /** With more clusters than this a node sends to a sample of them. */
  const SAMPLED := 5

  predicate IsSlot(node: Node, slot: Slot) {
    match slot
    case InCluster(c, i) => c < |node.clusters| && i < |node.clusters[c]|
    case Unsolicited(i) => i < |node.unsol|
  }

  function PeerAt(node: Node, slot: Slot): nat
    requires IsSlot(node, slot)
  {
    match slot
    case InCluster(c, i) => node.clusters[c][i]
    case Unsolicited(i) => node.unsol[i]
  }

  predicate NoRepeats<T(==)>(s: seq<T>) {
    forall i, j :: 0 <= i < j < |s| ==> s[i] != s[j]
  }

  function UpTo(n: nat): (r: seq<nat>)
    ensures |r| == n && forall i :: 0 <= i < n ==> r[i] == i
  {
    if n == 0 then [] else UpTo(n - 1) + [n - 1]
  }

  lemma UpToOnce(n: nat)
    ensures NoRepeats(UpTo(n))
  {
  }

  function ClusterSlots(c: nat, n: nat): (r: seq<Slot>)
    ensures |r| == n && forall i :: 0 <= i < n ==> r[i] == InCluster(c, i)
  {
    if n == 0 then [] else ClusterSlots(c, n - 1) + [InCluster(c, n - 1)]
  }

  function OtherSlots(n: nat): (r: seq<Slot>)
    ensures |r| == n && forall i :: 0 <= i < n ==> r[i] == Unsolicited(i)
  {
    if n == 0 then [] else OtherSlots(n - 1) + [Unsolicited(n - 1)]
  }

  function SlotsOf(node: Node, c: nat): seq<Slot> {
    if c < |node.clusters| then ClusterSlots(c, |node.clusters[c]|) else []
  }

  /** The entries of the given clusters, in turn; a cluster without connections has none. */
  function Solicited(node: Node, clusters: seq<nat>): (r: seq<Slot>)
    ensures forall slot :: slot in r ==> slot.InCluster? && slot.c in clusters && IsSlot(node, slot)
  {
    if clusters == [] then []
    else
      var n := |clusters| - 1;
      var c := clusters[n];
      Solicited(node, clusters[..n]) + SlotsOf(node, c)
  }

  /** The entries `send_message_on_channel_impl` goes through; `sample` names the clusters it draws if there are many. */
  function Offered(node: Node, sample: seq<nat>): seq<Slot> {
    Solicited(node, if |node.clusters| <= SAMPLED then UpTo(|node.clusters|) else sample) + OtherSlots(|node.unsol|)
  }

  /** The entries `cut_through_recv_bytes` goes through. */
  function Everyone(node: Node): seq<Slot> {
    Solicited(node, UpTo(|node.clusters|)) + OtherSlots(|node.unsol|)
  }

  /** Leaves out the entries that lead to `excluded`, and those in `skip`. */
  function Kept(node: Node, slots: seq<Slot>, excluded: Option<nat>, skip: set<Slot>): (r: seq<Slot>)
    requires forall slot :: slot in slots ==> IsSlot(node, slot)
    ensures forall slot :: slot in r <==> slot in slots && Some(PeerAt(node, slot)) != excluded && slot !in skip
    decreases |slots|
  {
    if slots == [] then []
    else
      var n := |slots| - 1;
      var rest := Kept(node, slots[..n], excluded, skip);
      if Some(PeerAt(node, slots[n])) == excluded || slots[n] in skip then rest else rest + [slots[n]]
  }

  lemma {:induction false} KeptOnce(node: Node, slots: seq<Slot>, excluded: Option<nat>, skip: set<Slot>)
    requires forall slot :: slot in slots ==> IsSlot(node, slot)
    requires NoRepeats(slots)
    ensures NoRepeats(Kept(node, slots, excluded, skip))
    decreases |slots|
  {
    if slots != [] {
      var n := |slots| - 1;
      KeptOnce(node, slots[..n], excluded, skip);
      assert slots[n] !in slots[..n];
    }
  }

  lemma {:induction false} SolicitedOnce(node: Node, clusters: seq<nat>)
    requires NoRepeats(clusters)
    ensures NoRepeats(Solicited(node, clusters))
  {
    if clusters != [] {
      var n := |clusters| - 1;
      SolicitedOnce(node, clusters[..n]);
      var a := Solicited(node, clusters[..n]);
      assert clusters[n] !in clusters[..n];
      assert forall slot :: slot in a ==> slot.c != clusters[n];
    }
  }

  lemma JoinedOnce(a: seq<Slot>, n: nat)
    requires NoRepeats(a) && forall slot :: slot in a ==> slot.InCluster?
    ensures NoRepeats(a + OtherSlots(n))
  {
    var s := a + OtherSlots(n);
    forall i, j | 0 <= i < j < |s| ensures s[i] != s[j] {
      if i < |a| <= j { assert s[i] in a && s[j].Unsolicited?; }
    }
  }

  /** However the entries are chosen, none is gone through twice: a sample names no cluster twice. */
  lemma OfferedOnce(node: Node, sample: seq<nat>)
    requires NoRepeats(sample)
    ensures NoRepeats(Offered(node, sample)) && NoRepeats(Everyone(node))
  {
    hide NoRepeats;
    var clusters := if |node.clusters| <= SAMPLED then UpTo(|node.clusters|) else sample;
    assert NoRepeats(UpTo(|node.clusters|)) by { UpToOnce(|node.clusters|); }
    SolicitedOnce(node, clusters);
    SolicitedOnce(node, UpTo(|node.clusters|));
    JoinedOnce(Solicited(node, clusters), |node.unsol|);
    JoinedOnce(Solicited(node, UpTo(|node.clusters|)), |node.unsol|);
  }

  // ---- The network ----------------------------------------------------------------------------------------

  /** A copy of message `id` sent along one entry; `unrecorded` if its sender made up the id and did not record it. */
  datatype Send = Send(node: nat, slot: Slot, id: nat, tick: nat, unrecorded: bool)

  /** The ring of every node, every copy ever sent, and which of them are still under way. */
  datatype State = State(nodes: seq<Dedup.Trace>, sent: seq<Send>, pending: set<nat>)

  /** What an accepting node does: it refuses the message for its header (before or after recording the id), stores
      and forwards it, or cuts it through, skipping peers in the filter or without a stream. */
  datatype Relay = Refuses | Swallows | Forwards(sample: seq<nat>) | CutsThrough(skip: set<Slot>)

  datatype Event =
    | Ticks(n: nat)
    | Originates(n: nat, id: nat, sample: seq<nat>)
    | Publishes(n: nat, id: nat, excluded: Option<nat>, sample: seq<nat>)
    | Arrives(i: nat, how: Relay)
    | Vanishes(i: nat)

  ghost predicate Shape(net: Network, s: State) {
    && |s.nodes| == |net|
    && (forall n :: 0 <= n < |net| ==> var r := s.nodes[n].ring; |r.events| == Dedup.BUCKETS && r.idx < Dedup.BUCKETS)
    && (forall i :: 0 <= i < |s.sent| ==> s.sent[i].node < |net| && IsSlot(net[s.sent[i].node], s.sent[i].slot))
    && (forall i :: i in s.pending ==> i < |s.sent|)
  }

  function Fresh(net: Network): State {
    State(seq(|net|, _ => Dedup.Run([])), [], {})
  }

  function Copies(n: nat, slots: seq<Slot>, id: nat, tick: nat, unrecorded: bool): (r: seq<Send>)
    ensures |r| == |slots| && forall i :: 0 <= i < |slots| ==> r[i] == Send(n, slots[i], id, tick, unrecorded)
    decreases |slots|
  {
    if slots == [] then []
    else Copies(n, slots[..|slots| - 1], id, tick, unrecorded) + [Send(n, slots[|slots| - 1], id, tick, unrecorded)]
  }

  function Numbers(from: nat, to: nat): (r: set<nat>)
    requires from <= to
    ensures |r| == to - from && forall i :: i in r <==> from <= i < to
  {
    if from == to then {} else Numbers(from, to - 1) + {to - 1}
  }

  function Emit(s: State, n: nat, slots: seq<Slot>, id: nat, unrecorded: bool): State
    requires n < |s.nodes|
  {
    State(s.nodes, s.sent + Copies(n, slots, id, s.nodes[n].now, unrecorded),
          s.pending + Numbers(|s.sent|, |s.sent| + |slots|))
  }

  function Accept(s: State, n: nat, id: nat, slots: seq<Slot>): State
    requires n < |s.nodes| && |s.nodes[n].ring.events| == Dedup.BUCKETS && s.nodes[n].ring.idx < Dedup.BUCKETS
  {
    Emit(s.(nodes := s.nodes[n := Dedup.Step(s.nodes[n], Dedup.See(id))]), n, slots, id, false)
  }

  /** The entries an accepting node sends along. */
  function RelaySlots(node: Node, from: nat, how: Relay): seq<Slot> {
    match how
    case Refuses => []
    case Swallows => []
    case Forwards(sample) => Kept(node, Offered(node, sample), Some(from), {})
    case CutsThrough(skip) => Kept(node, Everyone(node), Some(from), skip)
  }

  lemma ClusterHas(c: nat, n: nat, slot: Slot)
    ensures slot in ClusterSlots(c, n) <==> slot.InCluster? && slot.c == c && slot.i < n
  {
    if slot.InCluster? && slot.c == c && slot.i < n { assert ClusterSlots(c, n)[slot.i] == slot; }
  }

  lemma OtherHas(n: nat, slot: Slot)
    ensures slot in OtherSlots(n) <==> slot.Unsolicited? && slot.i < n
  {
    if slot.Unsolicited? && slot.i < n { assert OtherSlots(n)[slot.i] == slot; }
  }

  lemma {:induction false} SolicitedHas(node: Node, clusters: seq<nat>, slot: Slot)
    ensures slot in Solicited(node, clusters) <==> slot.InCluster? && IsSlot(node, slot) && slot.c in clusters
  {
    if clusters != [] {
      var n := |clusters| - 1;
      SolicitedHas(node, clusters[..n], slot);
      SlotsOfHas(node, clusters[n], slot);
      SolicitedLast(node, clusters);
      hide Solicited, SlotsOf, IsSlot;
      InConcat(Solicited(node, clusters[..n]), SlotsOf(node, clusters[n]), slot);
      if slot.InCluster? { InLonger(clusters, slot.c); }
    }
  }

  lemma SolicitedLast(node: Node, clusters: seq<nat>)
    requires clusters != []
    ensures var n := |clusters| - 1; Solicited(node, clusters) == Solicited(node, clusters[..n]) + SlotsOf(node, clusters[n])
  {
  }

  lemma InConcat(a: seq<Slot>, b: seq<Slot>, slot: Slot)
    ensures slot in a + b <==> slot in a || slot in b
  {
  }

  lemma SlotsOfHas(node: Node, c: nat, slot: Slot)
    ensures slot in SlotsOf(node, c) <==> slot.InCluster? && IsSlot(node, slot) && slot.c == c
  {
    if c < |node.clusters| { ClusterHas(c, |node.clusters[c]|, slot); }
    hide ClusterSlots;
  }

  lemma InLonger(clusters: seq<nat>, c: nat)
    requires clusters != []
    ensures var n := |clusters| - 1; c in clusters <==> c in clusters[..n] || c == clusters[n]
  {
    assert clusters == clusters[..|clusters| - 1] + [clusters[|clusters| - 1]];
  }

  lemma UpToHas(n: nat, c: nat)
    ensures c in UpTo(n) <==> c < n
  {
    if c < n { assert UpTo(n)[c] == c; }
  }

  lemma OfferedHas(node: Node, sample: seq<nat>, slot: Slot)
    ensures slot in Offered(node, sample)
      <==> IsSlot(node, slot) && (slot.Unsolicited? || |node.clusters| <= 5 || slot.c in sample)
    ensures slot in Everyone(node) <==> IsSlot(node, slot)
  {
    SolicitedHas(node, UpTo(|node.clusters|), slot);
    SolicitedHas(node, sample, slot);
    OtherHas(|node.unsol|, slot);
    if slot.InCluster? { UpToHas(|node.clusters|, slot.c); }
    hide Solicited, OtherSlots, UpTo;
  }

  /** A node that forwards sends along every entry that does not lead back, of all clusters if there are at most five
      and of the sampled ones otherwise, and of the unsolicited connections. One that cuts through leaves out the
      skipped entries, and no clusters. One that refuses sends nothing. */
  lemma RelaysToAll(node: Node, from: nat, how: Relay, slot: Slot)
    ensures slot in RelaySlots(node, from, how) <==>
      && IsSlot(node, slot) && PeerAt(node, slot) != from
      && match how
         case Forwards(sample) => slot.Unsolicited? || |node.clusters| <= 5 || slot.c in sample
         case CutsThrough(skip) => slot !in skip
         case _ => false
  {
    OfferedHas(node, if how.Forwards? then how.sample else [], slot);
    hide Offered, Everyone;
  }

  predicate Distinct(how: Relay) { how.Forwards? ==> NoRepeats(how.sample) }

  function Target(net: Network, c: Send): nat
    requires c.node < |net| && IsSlot(net[c.node], c.slot)
  {
    PeerAt(net[c.node], c.slot)
  }

  ghost predicate Next(net: Network, s: State, e: Event, s': State) {
    && Shape(net, s)
    && match e
       case Ticks(n) => n < |net| && s' == s.(nodes := s.nodes[n := Dedup.Step(s.nodes[n], Dedup.Ticks)])
       case Originates(n, id, sample) =>
         n < |net| && NoRepeats(sample) && s' == Emit(s, n, Kept(net[n], Offered(net[n], sample), None, {}), id, true)
       case Publishes(n, id, excluded, sample) =>
         && n < |net| && NoRepeats(sample)
         && s' == if id in s.nodes[n].ring.ids then s else Accept(s, n, id, Kept(net[n], Offered(net[n], sample), excluded, {}))
       case Arrives(i, how) => i in s.pending && Distinct(how) && s' == Arrival(net, s, i, how)
       case Vanishes(i) => i in s.pending && s' == s.(pending := s.pending - {i})
  }

  /** A copy arrives at a node of the network that does not remember its id, or it goes no further. */
  ghost function Arrival(net: Network, s: State, i: nat, how: Relay): State
    requires Shape(net, s) && i in s.pending
  {
    var c := s.sent[i];
    var to := Target(net, c);
    var s1 := s.(pending := s.pending - {i});
    if to >= |net| || c.id in s.nodes[to].ring.ids || how.Refuses? then s1
    else Accept(s1, to, c.id, RelaySlots(net[to], c.node, how))
  }

  ghost predicate IsRun(net: Network, states: seq<State>, events: seq<Event>) {
    && |states| == |events| + 1 && states[0] == Fresh(net)
    && forall k :: 0 <= k < |events| ==> Next(net, states[k], events[k], states[k + 1])
  }

  // ---- One send per entry ---------------------------------------------------------------------------------

  ghost predicate RingsOk(s: State) {
    forall n :: 0 <= n < |s.nodes| ==> Dedup.RingOk(s.nodes[n].ring, s.nodes[n].now, s.nodes[n].log)
  }

  /** Every copy was sent at a past tick of its node, for a recorded id unless it is marked otherwise. */
  ghost predicate SendsLogged(s: State) {
    forall i :: 0 <= i < |s.sent| ==>
      var c := s.sent[i];
      && c.node < |s.nodes| && c.tick <= s.nodes[c.node].now
      && (!c.unrecorded ==> Dedup.Entry(c.tick, c.id) in s.nodes[c.node].log)
  }

  predicate SameUse(a: Send, b: Send) {
    a.node == b.node && a.slot == b.slot && a.id == b.id && !a.unrecorded && !b.unrecorded
  }

  ghost predicate UsesApart(sent: seq<Send>) {
    forall i, j :: 0 <= i < j < |sent| && SameUse(sent[i], sent[j]) ==> sent[i].tick + Dedup.BUCKETS <= sent[j].tick
  }

  ghost predicate Inv(net: Network, s: State) {
    Shape(net, s) && RingsOk(s) && SendsLogged(s) && UsesApart(s.sent)
  }

  lemma FreshInv(net: Network)
    ensures Inv(net, Fresh(net))
  {
    Dedup.RunOk([]);
  }

  /** An id in the log that is not remembered was recorded a whole turn of the ring ago. */
  lemma Forgotten(t: Dedup.Trace, tick: nat, id: nat)
    requires Dedup.RingOk(t.ring, t.now, t.log) && id !in t.ring.ids && Dedup.Entry(tick, id) in t.log
    ensures tick + Dedup.BUCKETS <= t.now
  {
    var i :| 0 <= i < |t.log| && t.log[i] == Dedup.Entry(tick, id);
    assert Dedup.Recent(t.log[i], t.now) ==> Dedup.InWindow(t.log, t.now, id);
  }

  lemma EmitKeeps(net: Network, s: State, n: nat, slots: seq<Slot>, id: nat, unrecorded: bool)
    requires Inv(net, s) && n < |net| && NoRepeats(slots) && forall slot :: slot in slots ==> IsSlot(net[n], slot)
    requires !unrecorded ==> Dedup.Entry(s.nodes[n].now, id) in s.nodes[n].log
    requires !unrecorded ==> forall i :: 0 <= i < |s.sent| && s.sent[i].node == n && s.sent[i].id == id && !s.sent[i].unrecorded ==>
      s.sent[i].tick + Dedup.BUCKETS <= s.nodes[n].now
    ensures Inv(net, Emit(s, n, slots, id, unrecorded))
  {
    hide Dedup.RingOk;
    var s' := Emit(s, n, slots, id, unrecorded);
    forall i, j | 0 <= i < j < |s'.sent| && SameUse(s'.sent[i], s'.sent[j])
      ensures s'.sent[i].tick + Dedup.BUCKETS <= s'.sent[j].tick
    {
    }
  }

  lemma RecordKeeps(net: Network, s: State, n: nat, id: nat)
    requires Inv(net, s) && n < |net| && id !in s.nodes[n].ring.ids
    ensures var s1 := s.(nodes := s.nodes[n := Dedup.Step(s.nodes[n], Dedup.See(id))]);
      && Inv(net, s1) && s1.nodes[n].now == s.nodes[n].now && Dedup.Entry(s1.nodes[n].now, id) in s1.nodes[n].log
      && forall i :: 0 <= i < |s.sent| && s.sent[i].node == n && s.sent[i].id == id && !s.sent[i].unrecorded ==>
           s.sent[i].tick + Dedup.BUCKETS <= s.nodes[n].now
  {
    var t := s.nodes[n];
    assert Dedup.RingOk(t.ring, t.now, t.log);
    Dedup.RecordOk(t.ring, t.now, t.log, id);
    forall i | 0 <= i < |s.sent| && s.sent[i].node == n && s.sent[i].id == id && !s.sent[i].unrecorded
      ensures s.sent[i].tick + Dedup.BUCKETS <= s.nodes[n].now
    {
      Forgotten(t, s.sent[i].tick, id);
    }
    hide Dedup.RingOk, Dedup.Record;
  }

  lemma AcceptKeeps(net: Network, s: State, n: nat, id: nat, slots: seq<Slot>)
    requires Inv(net, s) && n < |net| && id !in s.nodes[n].ring.ids
    requires NoRepeats(slots) && forall slot :: slot in slots ==> IsSlot(net[n], slot)
    ensures Inv(net, Accept(s, n, id, slots))
  {
    assert Shape(net, s);
    hide Inv;
    RecordKeeps(net, s, n, id);
    EmitKeeps(net, s.(nodes := s.nodes[n := Dedup.Step(s.nodes[n], Dedup.See(id))]), n, slots, id, false);
  }

  lemma RelayOnce(node: Node, from: nat, how: Relay)
    requires Distinct(how)
    ensures NoRepeats(RelaySlots(node, from, how)) && forall slot :: slot in RelaySlots(node, from, how) ==> IsSlot(node, slot)
  {
    OfferedOnce(node, if how.Forwards? then how.sample else []);
    match how
    case Forwards(sample) => KeptOnce(node, Offered(node, sample), Some(from), {});
    case CutsThrough(skip) => KeptOnce(node, Everyone(node), Some(from), skip);
    case _ =>
  }

  lemma TicksKeep(net: Network, s: State, n: nat)
    requires Inv(net, s) && n < |net|
    ensures Inv(net, s.(nodes := s.nodes[n := Dedup.Step(s.nodes[n], Dedup.Ticks)]))
  {
    var t := s.nodes[n];
    assert Dedup.RingOk(t.ring, t.now, t.log);
    Dedup.TickOk(t.ring, t.now, t.log);
    hide Dedup.RingOk, Dedup.Tick;
  }

  lemma FewerPending(net: Network, s: State, pending: set<nat>)
    requires Inv(net, s) && pending <= s.pending
    ensures Inv(net, s.(pending := pending))
  {
  }

  lemma NextKeeps(net: Network, s: State, e: Event, s': State)
    requires Inv(net, s) && Next(net, s, e, s')
    ensures Inv(net, s')
  {
    assert Shape(net, s);
    hide Inv, Shape, Emit, Accept, NoRepeats;
    match e
    case Ticks(n) => TicksKeep(net, s, n);
    case Originates(n, id, sample) =>
      OfferedOnce(net[n], sample);
      KeptOnce(net[n], Offered(net[n], sample), None, {});
      EmitKeeps(net, s, n, Kept(net[n], Offered(net[n], sample), None, {}), id, true);
    case Publishes(n, id, excluded, sample) =>
      if id !in s.nodes[n].ring.ids {
        OfferedOnce(net[n], sample);
        KeptOnce(net[n], Offered(net[n], sample), excluded, {});
        AcceptKeeps(net, s, n, id, Kept(net[n], Offered(net[n], sample), excluded, {}));
      }
    case Arrives(i, how) => ArrivalKeeps(net, s, i, how);
    case Vanishes(i) => FewerPending(net, s, s.pending - {i});
  }

  lemma ArrivalKeeps(net: Network, s: State, i: nat, how: Relay)
    requires Inv(net, s) && i in s.pending && Distinct(how)
    ensures Inv(net, Arrival(net, s, i, how))
  {
    var c := s.sent[i];
    var to := Target(net, c);
    FewerPending(net, s, s.pending - {i});
    hide Inv, Emit, Accept, NoRepeats;
    if to < |net| && c.id !in s.nodes[to].ring.ids && !how.Refuses? {
      RelayOnce(net[to], c.node, how);
      AcceptKeeps(net, s.(pending := s.pending - {i}), to, c.id, RelaySlots(net[to], c.node, how));
    }
  }

  lemma {:induction false} RunKeeps(net: Network, states: seq<State>, events: seq<Event>, k: nat)
    requires IsRun(net, states, events) && k < |states|
    ensures Inv(net, states[k])
  {
    hide Inv, Next;
    if k == 0 {
      FreshInv(net);
    } else {
      RunKeeps(net, states, events, k - 1);
      NextKeeps(net, states[k - 1], events[k - 1], states[k]);
    }
  }

  /** Over any run, two sends of one id along the same entry are a whole turn of the sender's ring apart, unless the
      sender made up the id itself. So within a window an entry carries an id at most once. */
  lemma OneSendPerEntry(net: Network, states: seq<State>, events: seq<Event>, k: nat, i: nat, j: nat)
    requires IsRun(net, states, events) && k < |states|
    requires i < j < |states[k].sent| && SameUse(states[k].sent[i], states[k].sent[j])
    ensures states[k].sent[i].tick + 256 <= states[k].sent[j].tick
  {
    RunKeeps(net, states, events, k);
  }

  // ---- Flooding ends --------------------------------------------------------------------------------------

  /** All entries of the network. */
  function Entries(net: Network): set<(nat, Slot)> {
    (set n: nat, c: nat, i: nat | n < |net| && c < |net[n].clusters| && i < |net[n].clusters[c]| :: (n, InCluster(c, i)))
    + (set n: nat, i: nat | n < |net| && i < |net[n].unsol| :: (n, Unsolicited(i)))
  }

  lemma EntriesHave(net: Network, n: nat, slot: Slot)
    requires n < |net| && IsSlot(net[n], slot)
    ensures (n, slot) in Entries(net)
  {
  }

  /** Copies of `id` under way. */
  function Under(s: State, id: nat): set<nat> {
    set i | i in s.pending && i < |s.sent| && s.sent[i].id == id
  }

  /** Copies of `id` sent between two states. */
  function SentBetween(s: State, s': State, id: nat): set<nat> {
    set i: nat | |s.sent| <= i < |s'.sent| && s'.sent[i].id == id
  }

  /** How many copies of `id` arrive or vanish in steps `first` to `last`. */
  function Consumed(states: seq<State>, events: seq<Event>, first: nat, last: nat, id: nat): nat
    requires first <= last <= |events| < |states|
    decreases last
  {
    if first == last then 0
    else Consumed(states, events, first, last - 1, id) + (if Consumes(states[last - 1], events[last - 1], id) then 1 else 0)
  }

  predicate Consumes(s: State, e: Event, id: nat) {
    match e
    case Arrives(i, _) => i < |s.sent| && s.sent[i].id == id
    case Vanishes(i) => i < |s.sent| && s.sent[i].id == id
    case _ => false
  }

  /** One step later in a run: time does not go back, and sends are only added, at the present tick. */
  ghost predicate Later(s: State, s': State) {
    && |s'.nodes| == |s.nodes| && s.sent <= s'.sent
    && (forall n :: 0 <= n < |s.nodes| ==> s.nodes[n].now <= s'.nodes[n].now)
    && (forall i :: |s.sent| <= i < |s'.sent| ==>
          var c := s'.sent[i]; c.node < |s.nodes| && s.nodes[c.node].now <= c.tick)
  }

  lemma LaterThen(a: State, b: State, c: State)
    requires Later(a, b) && Later(b, c)
    ensures Later(a, c)
  {
  }

  lemma EmitLater(s: State, n: nat, slots: seq<Slot>, id: nat, unrecorded: bool)
    requires n < |s.nodes|
    ensures Later(s, Emit(s, n, slots, id, unrecorded))
  {
  }

  lemma AcceptLater(s: State, n: nat, id: nat, slots: seq<Slot>)
    requires n < |s.nodes| && |s.nodes[n].ring.events| == Dedup.BUCKETS && s.nodes[n].ring.idx < Dedup.BUCKETS
    ensures Later(s, Accept(s, n, id, slots))
  {
    var s1 := s.(nodes := s.nodes[n := Dedup.Step(s.nodes[n], Dedup.See(id))]);
    EmitLater(s1, n, slots, id, false);
    LaterThen(s, s1, Accept(s, n, id, slots));
  }

  lemma NextLater(net: Network, s: State, e: Event, s': State)
    requires Next(net, s, e, s')
    ensures Later(s, s')
  {
    hide Emit, Accept, Later;
    match e
    case Ticks(n) => TickLater(s, n);
    case Originates(n, id, sample) => EmitLater(s, n, Kept(net[n], Offered(net[n], sample), None, {}), id, true);
    case Publishes(n, id, excluded, sample) =>
      SameLater(s, s);
      if id !in s.nodes[n].ring.ids { AcceptLater(s, n, id, Kept(net[n], Offered(net[n], sample), excluded, {})); }
    case Arrives(i, how) =>
      var c, dest := s.sent[i], Target(net, s.sent[i]);
      var s1 := s.(pending := s.pending - {i});
      SameLater(s, s1);
      if dest < |net| && c.id !in s.nodes[dest].ring.ids && !how.Refuses? {
        AcceptLater(s1, dest, c.id, RelaySlots(net[dest], c.node, how));
        LaterThen(s, s1, s');
      }
    case Vanishes(i) => SameLater(s, s');
  }

  lemma SameLater(s: State, s': State)
    requires s'.nodes == s.nodes && s'.sent == s.sent
    ensures Later(s, s')
  {
  }

  lemma TickLater(s: State, n: nat)
    requires n < |s.nodes| && |s.nodes[n].ring.events| == Dedup.BUCKETS && s.nodes[n].ring.idx < Dedup.BUCKETS
    ensures Later(s, s.(nodes := s.nodes[n := Dedup.Step(s.nodes[n], Dedup.Ticks)]))
  {
  }

  lemma {:induction false} RunLater(net: Network, states: seq<State>, events: seq<Event>, first: nat, last: nat)
    requires IsRun(net, states, events) && first <= last < |states|
    ensures Later(states[first], states[last])
    decreases last
  {
    hide Next, Later;
    if first == last {
      SameLater(states[first], states[last]);
    } else {
      RunLater(net, states, events, first, last - 1);
      assert Next(net, states[last - 1], events[last - 1], states[last]);
      NextLater(net, states[last - 1], events[last - 1], states[last]);
      LaterThen(states[first], states[last - 1], states[last]);
    }
  }

  // ---- Every copy is consumed at most once ------------------------------------------------------------------

  /** The second state has more copies of `id` under way. */
  ghost predicate Emits(s: State, s': State, id: nat, unrecorded: bool) {
    && s.sent <= s'.sent && s'.nodes == s.nodes
    && (forall i :: |s.sent| <= i < |s'.sent| ==> s'.sent[i].id == id && s'.sent[i].unrecorded == unrecorded)
    && (forall i: nat :: i in s'.pending <==> i in s.pending || |s.sent| <= i < |s'.sent|)
  }

  lemma EmitSends(s: State, n: nat, slots: seq<Slot>, id: nat, unrecorded: bool)
    requires n < |s.nodes|
    ensures Emits(s, Emit(s, n, slots, id, unrecorded), id, unrecorded)
  {
  }

  /** The copies of `x` among the added ones. */
  function Added(s: State, s': State, id: nat, x: nat): set<nat>
    requires |s.sent| <= |s'.sent|
  {
    if id == x then Numbers(|s.sent|, |s'.sent|) else {}
  }

  lemma UnderAdded(s: State, s': State, id: nat, unrecorded: bool, x: nat)
    requires Emits(s, s', id, unrecorded) && forall i :: i in s.pending ==> i < |s.sent|
    ensures Under(s', x) == Under(s, x) + Added(s, s', id, x) && |Under(s', x)| == |Under(s, x)| + |Added(s, s', id, x)|
  {
    forall i ensures i in Under(s', x) <==> i in Under(s, x) + Added(s, s', id, x) { }
    assert Under(s', x) == Under(s, x) + Added(s, s', id, x);
    assert Under(s, x) !! Added(s, s', id, x);
  }

  lemma BetweenAdded(s0: State, s: State, s': State, id: nat, unrecorded: bool, x: nat)
    requires Emits(s, s', id, unrecorded) && |s0.sent| <= |s.sent|
    ensures |SentBetween(s0, s', x)| == |SentBetween(s0, s, x)| + |Added(s, s', id, x)|
  {
    forall i ensures i in SentBetween(s0, s', x) <==> i in SentBetween(s0, s, x) + Added(s, s', id, x) { }
    assert SentBetween(s0, s', x) == SentBetween(s0, s, x) + Added(s, s', id, x);
    assert SentBetween(s0, s, x) !! Added(s, s', id, x);
  }

  lemma EmitCounts(s0: State, s: State, n: nat, slots: seq<Slot>, id: nat, unrecorded: bool, x: nat)
    requires n < |s.nodes| && |s0.sent| <= |s.sent| && forall i :: i in s.pending ==> i < |s.sent|
    ensures var s' := Emit(s, n, slots, id, unrecorded);
      |Under(s', x)| - |SentBetween(s0, s', x)| == |Under(s, x)| - |SentBetween(s0, s, x)|
  {
    EmitSends(s, n, slots, id, unrecorded);
    hide Emit, Under, SentBetween;
    UnderAdded(s, Emit(s, n, slots, id, unrecorded), id, unrecorded, x);
    BetweenAdded(s0, s, Emit(s, n, slots, id, unrecorded), id, unrecorded, x);
  }

  lemma ConsumeCounts(s: State, i: nat, x: nat)
    requires i in s.pending && i < |s.sent|
    ensures var s' := s.(pending := s.pending - {i});
      |Under(s', x)| == |Under(s, x)| - (if s.sent[i].id == x then 1 else 0)
  {
    var s' := s.(pending := s.pending - {i});
    assert Under(s', x) == if s.sent[i].id == x then Under(s, x) - {i} else Under(s, x);
  }

  lemma SameCounts(s0: State, s: State, s': State, x: nat)
    requires s'.sent == s.sent && s'.pending == s.pending
    ensures Under(s', x) == Under(s, x) && SentBetween(s0, s', x) == SentBetween(s0, s, x)
  {
  }

  lemma AcceptCounts(s0: State, s: State, n: nat, id: nat, slots: seq<Slot>, x: nat)
    requires n < |s.nodes| && |s.nodes[n].ring.events| == Dedup.BUCKETS && s.nodes[n].ring.idx < Dedup.BUCKETS
    requires |s0.sent| <= |s.sent| && forall i :: i in s.pending ==> i < |s.sent|
    ensures var s' := Accept(s, n, id, slots);
      |Under(s', x)| - |SentBetween(s0, s', x)| == |Under(s, x)| - |SentBetween(s0, s, x)|
  {
    var s1 := s.(nodes := s.nodes[n := Dedup.Step(s.nodes[n], Dedup.See(id))]);
    SameCounts(s0, s, s1, x);
    EmitCounts(s0, s1, n, slots, id, false, x);
  }

  lemma NextCounts(net: Network, s0: State, s: State, e: Event, s': State, x: nat)
    requires Next(net, s, e, s') && |s0.sent| <= |s.sent|
    ensures |Under(s', x)| - |SentBetween(s0, s', x)| == |Under(s, x)| - |SentBetween(s0, s, x)| - (if Consumes(s, e, x) then 1 else 0)
  {
    hide Emit, Accept, Under, SentBetween;
    match e
    case Ticks(n) => SameCounts(s0, s, s', x);
    case Originates(n, id, sample) => EmitCounts(s0, s, n, Kept(net[n], Offered(net[n], sample), None, {}), id, true, x);
    case Publishes(n, id, excluded, sample) =>
      if id !in s.nodes[n].ring.ids { AcceptCounts(s0, s, n, id, Kept(net[n], Offered(net[n], sample), excluded, {}), x); }
    case Arrives(i, how) =>
      var c, dest := s.sent[i], Target(net, s.sent[i]);
      var s1 := s.(pending := s.pending - {i});
      ConsumeCounts(s, i, x);
      SameSent(s0, s, s1, x);
      if dest < |net| && c.id !in s.nodes[dest].ring.ids && !how.Refuses? {
        AcceptCounts(s0, s1, dest, c.id, RelaySlots(net[dest], c.node, how), x);
      }
    case Vanishes(i) =>
      ConsumeCounts(s, i, x);
      SameSent(s0, s, s', x);
  }

  lemma SameSent(s0: State, s: State, s': State, x: nat)
    requires s'.sent == s.sent
    ensures SentBetween(s0, s', x) == SentBetween(s0, s, x)
  {
  }

  lemma {:induction false} RunCounts(net: Network, states: seq<State>, events: seq<Event>, first: nat, last: nat, x: nat)
    requires IsRun(net, states, events) && first <= last < |states|
    ensures Consumed(states, events, first, last, x) + |Under(states[last], x)|
         == |Under(states[first], x)| + |SentBetween(states[first], states[last], x)|
    decreases last
  {
    hide Next, Under, Consumes;
    if first == last {
      assert SentBetween(states[first], states[last], x) == {};
    } else {
      RunCounts(net, states, events, first, last - 1, x);
      assert Next(net, states[last - 1], events[last - 1], states[last]);
      RunLater(net, states, events, first, last - 1);
      NextCounts(net, states[first], states[last - 1], events[last - 1], states[last], x);
    }
  }

  lemma {:induction false} Injective<T>(a: set<nat>, f: map<nat, T>, b: set<T>)
    requires forall i :: i in a ==> i in f && f[i] in b
    requires forall i, j :: i in a && j in a && f[i] == f[j] ==> i == j
    ensures |a| <= |b|
    decreases |a|
  {
    if a != {} {
      var i :| i in a;
      Injective(a - {i}, f, b - {f[i]});
    }
  }

  /** No node makes up `id` itself in these steps. */
  predicate NotMadeUp(events: seq<Event>, first: nat, last: nat, id: nat) {
    forall k :: first <= k < last <= |events| ==> !(events[k].Originates? && events[k].id == id)
  }

  /** Every copy of `id` sent since `s0` is of a recorded id. */
  ghost predicate Marked(s0: State, s: State, id: nat) {
    forall i :: |s0.sent| <= i < |s.sent| && s.sent[i].id == id ==> !s.sent[i].unrecorded
  }

  lemma EmitMarks(s0: State, s: State, n: nat, slots: seq<Slot>, id: nat, unrecorded: bool, x: nat)
    requires n < |s.nodes| && (id == x ==> !unrecorded) && Marked(s0, s, x)
    ensures Marked(s0, Emit(s, n, slots, id, unrecorded), x)
  {
    EmitSends(s, n, slots, id, unrecorded);
    hide Emit;
  }

  lemma AcceptMarks(s0: State, s: State, n: nat, id: nat, slots: seq<Slot>, x: nat)
    requires n < |s.nodes| && |s.nodes[n].ring.events| == Dedup.BUCKETS && s.nodes[n].ring.idx < Dedup.BUCKETS
    requires Marked(s0, s, x)
    ensures Marked(s0, Accept(s, n, id, slots), x)
  {
    var s1 := s.(nodes := s.nodes[n := Dedup.Step(s.nodes[n], Dedup.See(id))]);
    EmitMarks(s0, s1, n, slots, id, false, x);
  }

  lemma SameMarks(s0: State, s: State, s': State, x: nat)
    requires s'.sent == s.sent && Marked(s0, s, x)
    ensures Marked(s0, s', x)
  {
  }

  lemma NextMarks(net: Network, s0: State, s: State, e: Event, s': State, x: nat)
    requires Next(net, s, e, s') && Marked(s0, s, x) && !(e.Originates? && e.id == x)
    ensures Marked(s0, s', x)
  {
    hide Emit, Accept, Marked;
    match e
    case Ticks(n) => SameMarks(s0, s, s', x);
    case Originates(n, id, sample) => EmitMarks(s0, s, n, Kept(net[n], Offered(net[n], sample), None, {}), id, true, x);
    case Publishes(n, id, excluded, sample) =>
      if id !in s.nodes[n].ring.ids { AcceptMarks(s0, s, n, id, Kept(net[n], Offered(net[n], sample), excluded, {}), x); }
    case Arrives(i, how) =>
      var c, dest := s.sent[i], Target(net, s.sent[i]);
      var s1 := s.(pending := s.pending - {i});
      SameMarks(s0, s, s1, x);
      if dest < |net| && c.id !in s.nodes[dest].ring.ids && !how.Refuses? {
        AcceptMarks(s0, s1, dest, c.id, RelaySlots(net[dest], c.node, how), x);
      }
    case Vanishes(i) => SameMarks(s0, s, s', x);
  }

  lemma {:induction false} RunMarks(net: Network, states: seq<State>, events: seq<Event>, first: nat, last: nat, x: nat)
    requires IsRun(net, states, events) && first <= last < |states| && NotMadeUp(events, first, last, x)
    ensures Marked(states[first], states[last], x)
    decreases last
  {
    hide Next;
    if first < last {
      RunMarks(net, states, events, first, last - 1, x);
      assert Next(net, states[last - 1], events[last - 1], states[last]);
      hide Marked;
      NextMarks(net, states[first], states[last - 1], events[last - 1], states[last], x);
    }
  }

  /** No node has ticked 256 times from one state to the other. */
  ghost predicate WithinWindow(net: Network, s: State, s': State) {
    && |s.nodes| == |s'.nodes| == |net|
    && forall n :: 0 <= n < |net| ==> s'.nodes[n].now < s.nodes[n].now + 256
  }

  /** While its node ticks fewer than 256 times, an entry carries an id at most once, unless the node itself made up
      the id. */
  lemma EntryOncePerWindow(net: Network, states: seq<State>, events: seq<Event>, first: nat, last: nat, x: nat, i: nat, j: nat)
    requires IsRun(net, states, events) && first <= last < |states|
    requires i in SentBetween(states[first], states[last], x) && j in SentBetween(states[first], states[last], x)
    requires var a, b := states[last].sent[i], states[last].sent[j];
      a.node == b.node && a.slot == b.slot && a.node < |states[first].nodes| && a.node < |states[last].nodes|
      && states[last].nodes[a.node].now < states[first].nodes[a.node].now + 256
    ensures i == j || states[last].sent[i].unrecorded || states[last].sent[j].unrecorded
  {
    hide Next;
    RunKeeps(net, states, events, last);
    RunLater(net, states, events, first, last);
    var sent := states[last].sent;
    assert !sent[i].unrecorded && !sent[j].unrecorded ==> SameUse(sent[i], sent[j]) && SameUse(sent[j], sent[i]);
  }

  /** Within a window no more copies of an id are sent than there are entries in the whole network. */
  lemma SendsBounded(net: Network, states: seq<State>, events: seq<Event>, first: nat, last: nat, x: nat)
    requires IsRun(net, states, events) && first <= last < |states| && NotMadeUp(events, first, last, x)
    requires WithinWindow(net, states[first], states[last])
    ensures |SentBetween(states[first], states[last], x)| <= |Entries(net)|
  {
    hide Next, Entries, RingsOk, UsesApart, Later;
    RunKeeps(net, states, events, last);
    RunMarks(net, states, events, first, last, x);
    var sent := states[last].sent;
    var a := SentBetween(states[first], states[last], x);
    var f := map i | i in a :: (sent[i].node, sent[i].slot);
    forall i | i in a ensures f[i] in Entries(net) { EntriesHave(net, sent[i].node, sent[i].slot); }
    forall i, j | i in a && j in a && f[i] == f[j] ensures i == j {
      EntryOncePerWindow(net, states, events, first, last, x, i, j);
    }
    Injective(a, f, Entries(net));
  }

  /** Flooding ends. As long as no node ticks 256 times, the copies of an id that arrive are at most those that were
      under way at the start and one for every connection-set entry in the network. */
  lemma FloodTerminates(net: Network, states: seq<State>, events: seq<Event>, first: nat, last: nat, x: nat)
    requires IsRun(net, states, events) && first <= last < |states| && NotMadeUp(events, first, last, x)
    requires WithinWindow(net, states[first], states[last])
    ensures Consumed(states, events, first, last, x) <= |Under(states[first], x)| + |Entries(net)|
  {
    SendsBounded(net, states, events, first, last, x);
    RunCounts(net, states, events, first, last, x);
  }

  // ---- A node that makes up an id -----------------------------------------------------------------------------

  const Two: seq<Slot> := [Unsolicited(0), Unsolicited(1)]

  function Pair(p: nat, q: nat): Node { Node([], [p, q]) }

  lemma OfferedTwo(p: nat, q: nat)
    ensures Offered(Pair(p, q), []) == Two
  {
    assert UpTo(0) == [];
    assert Solicited(Pair(p, q), []) == [];
    assert [] + OtherSlots(2) == Two;
  }

  lemma KeptTwo(p: nat, q: nat, excluded: Option<nat>)
    ensures Kept(Pair(p, q), Two, excluded, {}) ==
      (if Some(p) == excluded then [] else [Unsolicited(0)]) + (if Some(q) == excluded then [] else [Unsolicited(1)])
  {
    assert Two[..1] == [Two[0]] && Two[..1][..0] == [];
    assert Kept(Pair(p, q), [Two[0]], excluded, {}) == if Some(p) == excluded then [] else [Unsolicited(0)];
  }

  lemma StepTwo(net: Network, s: State, i: nat, p: nat, q: nat)
    requires Shape(net, s) && i in s.pending && Target(net, s.sent[i]) < |net|
    requires net[Target(net, s.sent[i])] == Pair(p, q) && s.sent[i].id !in s.nodes[Target(net, s.sent[i])].ring.ids
    requires (p == s.sent[i].node) != (q == s.sent[i].node)
    ensures var n := Target(net, s.sent[i]); var c := s.sent[i];
      Arrival(net, s, i, Forwards([])) ==
        Accept(s.(pending := s.pending - {i}), n, c.id, [Unsolicited(if p == c.node then 1 else 0)])
  {
    OfferedTwo(p, q);
    KeptTwo(p, q, Some(s.sent[i].node));
  }

  /** `send_message_on_channel` without an id makes one up and does not record it. Three nodes connected to each
      other: the message comes back to its originator, which takes it for new, and sends it a second time along the
      same entry, within the same tick. */
  lemma MadeUpIdReturns(x: nat) returns (net: Network, states: seq<State>, events: seq<Event>)
    ensures IsRun(net, states, events) && |states| == 5
    ensures var sent := states[4].sent; |sent| == 5 && sent[0] == Send(0, Unsolicited(0), x, 0, true) && sent[4] == sent[0].(unrecorded := false)
  {
    hide Inv, Shape, Next, Emit;
    var s0, s1;
    net, s0, s1 := MakesUp(x);
    InvShape(net, s1);
    var s2 := Hop(net, s1, 0, 0, 2);
    InvShape(net, s2);
    var s3 := Hop(net, s2, 2, 0, 1);
    InvShape(net, s3);
    var s4 := Hop(net, s3, 3, 1, 2);
    states := [s0, s1, s2, s3, s4];
    events := [Originates(0, x, []), Arrives(0, Forwards([])), Arrives(2, Forwards([])), Arrives(3, Forwards([]))];
  }

  lemma MakesUp(x: nat) returns (net: Network, s0: State, s1: State)
    ensures net == [Pair(1, 2), Pair(0, 2), Pair(0, 1)] && s0 == Fresh(net) && Next(net, s0, Originates(0, x, []), s1) && Inv(net, s1)
    ensures s1.nodes == s0.nodes && s1.sent == [Send(0, Unsolicited(0), x, 0, true), Send(0, Unsolicited(1), x, 0, true)]
    ensures s1.pending == {0, 1} && |s0.nodes| == 3
    ensures forall n :: 0 <= n < 3 ==> s0.nodes[n].now == 0 && s0.nodes[n].ring.ids == {}
  {
    hide Inv, Shape, Emit, Next, Offered, NoRepeats;
    net := [Pair(1, 2), Pair(0, 2), Pair(0, 1)];
    s0 := Fresh(net);
    FreshTrace();
    FreshInv(net);
    InvShape(net, s0);
    OriginatesTwo(net, s0, x);
    s1 := Emit(s0, 0, Two, x, true);
    TwoSent(s0, x);
    NextKeeps(net, s0, Originates(0, x, []), s1);
  }

  lemma OriginatesTwo(net: Network, s: State, x: nat)
    requires Shape(net, s) && |s.nodes| == |net| > 0 && net[0] == Pair(1, 2)
    ensures Next(net, s, Originates(0, x, []), Emit(s, 0, Two, x, true))
  {
    BothKept();
    hide Shape, Emit, Offered, Kept;
  }

  lemma BothKept()
    ensures Kept(Pair(1, 2), Offered(Pair(1, 2), []), None, {}) == Two
  {
    OfferedTwo(1, 2);
    KeptTwo(1, 2, None);
  }

  lemma FreshTrace()
    ensures Dedup.Run([]).now == 0 && Dedup.Run([]).ring.ids == {}
  {
  }

  lemma InvShape(net: Network, s: State)
    requires Inv(net, s)
    ensures Shape(net, s) && |s.nodes| == |net|
  {
  }

  lemma TwoSent(s: State, x: nat)
    requires |s.nodes| == 3 && s.sent == [] && s.pending == {} && s.nodes[0].now == 0
    ensures var s' := Emit(s, 0, Two, x, true);
      s'.nodes == s.nodes && s'.sent == [Send(0, Unsolicited(0), x, 0, true), Send(0, Unsolicited(1), x, 0, true)] && s'.pending == {0, 1}
  {
    assert Two[..1] == [Two[0]] && Two[..1][..0] == [];
    assert Copies(0, [Two[0]], x, 0, true) == [Send(0, Unsolicited(0), x, 0, true)];
  }

  /** Copy `i` arrives at a node of the triangle that does not know it, and is forwarded to the third node. */
  lemma Hop(net: Network, s: State, i: nat, p: nat, q: nat) returns (s': State)
    requires Inv(net, s) && Shape(net, s) && i in s.pending && |net| == |s.nodes| && Target(net, s.sent[i]) < |net|
    requires var n := Target(net, s.sent[i]); net[n] == Pair(p, q) && s.sent[i].id !in s.nodes[n].ring.ids
    requires (p == s.sent[i].node) != (q == s.sent[i].node)
    ensures Next(net, s, Arrives(i, Forwards([])), s') && Inv(net, s') && |s'.nodes| == |s.nodes|
    ensures var n := Target(net, s.sent[i]); var c := s.sent[i];
      && s'.sent == s.sent + [Send(n, Unsolicited(if p == c.node then 1 else 0), c.id, s.nodes[n].now, false)]
      && s'.pending == s.pending - {i} + {|s.sent|}
      && forall m :: 0 <= m < |net| && m != n ==> s'.nodes[m] == s.nodes[m]
  {
    StepTwo(net, s, i, p, q);
    s' := Arrival(net, s, i, Forwards([]));
    assert Next(net, s, Arrives(i, Forwards([])), s');
    NextKeeps(net, s, Arrives(i, Forwards([])), s');
    hide Inv, Arrival;
    var slot := Unsolicited(if p == s.sent[i].node then 1 else 0);
    assert [slot][..0] == [];
  }
}
