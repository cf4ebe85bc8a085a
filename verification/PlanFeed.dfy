/** What a plan feeds to its engine: packets in order, node by node, against what the wire says. */
module PlanFeeds {
  import opened Identity
  import opened PlanModel

  /** What feeding does: the engine afterwards, the exact needs resolved, whether anything attached, and useful credit. */
  datatype NodesFed = NodesFed(after: Engine, resolved: seq<NetworkNeed>, attached: bool, credit: nat)
  datatype Fed = Fed(after: Engine, resolved: seq<NetworkNeed>, attached: bool, counts: map<PeerId, nat>)

  /**
   * The nodes of one packet, in order, up to the first fatal one. The engine is
   * asked only about nodes that decode to a nonzero hash.
   */
  function FeedNodes(engine: Engine, kind: TreeKind, nodes: seq<WireNode>): (r: NodesFed)
    ensures r.after.heard == engine.heard
    decreases |nodes|
  {
    if nodes == [] || nodes[0].decoded.None? || nodes[0].decoded.value == 0 then NodesFed(engine, [], false, 0)
    else
      var answer := engine.Now().networkApply;
      if answer.invalid then NodesFed(engine.Ticked(), [], false, 0)
      else
        var rest := FeedNodes(engine.Ticked(), kind, nodes[1..]);
        NodesFed(rest.after, Resolved(answer, kind, nodes[0]) + rest.resolved, answer.attachment.Applied? || rest.attached,
                 rest.credit + if answer.useful then 1 else 0)
  }

  /** Only an attached node that carries its id resolves its exact need. */
  function Resolved(answer: NetworkApply, kind: TreeKind, node: WireNode): seq<NetworkNeed>
    requires node.decoded.Some?
  {
    if answer.attachment.Applied? && node.nodeId.Some?
    then [NetworkNeed(node.nodeId.value, node.decoded.value, kind)] else []
  }

  function Credited(peer: PeerId, credit: nat): map<PeerId, nat> { if credit == 0 then map[] else map[peer := credit] }

  /** A header packet seeded the engine and carries no tree node. */
  function FeedOne(engine: Engine, packet: Packet): (r: Fed)
    ensures r.after.heard == engine.heard
  {
    if packet.kind == Base then Fed(engine, [], false, map[])
    else
      var f := FeedNodes(engine, TreeOf(packet.kind), packet.nodes);
      Fed(f.after, f.resolved, f.attached, Credited(packet.peer, f.credit))
  }

  function TreeOf(kind: PacketKind): TreeKind { if kind == TransactionNodes then TransactionTree else StateTree }

  function FeedAll(engine: Engine, packets: seq<Packet>): (r: Fed)
    ensures r.after.heard == engine.heard
  {
    if packets == [] then Fed(engine, [], false, map[])
    else
      var before := FeedAll(engine, packets[..|packets| - 1]);
      var last := FeedOne(before.after, Last(packets));
      Fed(last.after, before.resolved + last.resolved, before.attached || last.attached, MaxScores(before.counts, last.counts))
  }

  // ----- what the wire says against what was fed -----------------------------

  /** Node `j` is reached: it and all before it decode, and the engine finds none of them invalid. */
  ghost predicate Reached(engine: Engine, nodes: seq<WireNode>, j: int) {
    0 <= j < |nodes| && forall i :: 0 <= i <= j ==> Fine(engine, nodes, i)
  }

  ghost predicate Attaches(engine: Engine, nodes: seq<WireNode>, j: int) {
    Reached(engine, nodes, j) && engine.answer(engine.clock + j).networkApply.attachment.Applied?
  }

  ghost predicate Serves(engine: Engine, nodes: seq<WireNode>, j: int) {
    Reached(engine, nodes, j) && engine.answer(engine.clock + j).networkApply.useful
  }

  ghost predicate Names(engine: Engine, kind: TreeKind, nodes: seq<WireNode>, j: int, n: NetworkNeed) {
    Attaches(engine, nodes, j) && nodes[j].nodeId == Some(n.nodeId) && nodes[j].decoded == Some(n.hash) && n.kind == kind
  }

  ghost predicate Fine(engine: Engine, nodes: seq<WireNode>, i: int)
    requires 0 <= i < |nodes|
  {
    nodes[i].decoded.Some? && nodes[i].decoded.value != 0 && !engine.answer(engine.clock + i).networkApply.invalid
  }

  lemma FineNext(engine: Engine, nodes: seq<WireNode>, i: int)
    requires 0 <= i < |nodes| - 1
    ensures Fine(engine, nodes, i + 1) <==> Fine(engine.Ticked(), nodes[1..], i)
  {
    assert nodes[1..][i] == nodes[i + 1] && engine.Ticked().clock + i == engine.clock + (i + 1);
  }

  lemma ReachedNext(engine: Engine, nodes: seq<WireNode>, j: int)
    requires nodes != [] && Reached(engine, nodes, 0) && j >= 0
    ensures Reached(engine, nodes, j + 1) <==> Reached(engine.Ticked(), nodes[1..], j)
  {
    var e, rest := engine.Ticked(), nodes[1..];
    assert Fine(engine, nodes, 0);
    hide Fine;
    forall i | 0 <= i < |rest| ensures Fine(engine, nodes, i + 1) <==> Fine(e, rest, i) {
      FineNext(engine, nodes, i);
    }
    if Reached(e, rest, j) {
      forall i | 0 <= i <= j + 1 ensures Fine(engine, nodes, i) {
        if i > 0 {
          assert Fine(e, rest, i - 1);
        }
      }
    }
    if Reached(engine, nodes, j + 1) {
      forall i | 0 <= i <= j ensures Fine(e, rest, i) {
        assert Fine(engine, nodes, i + 1);
      }
    }
  }

  /** Exactly the reached nodes count: what attaches, what it resolves and what is useful. */
  lemma {:induction false} FeedNodesExactly(engine: Engine, kind: TreeKind, nodes: seq<WireNode>, n: NetworkNeed)
    ensures var f := FeedNodes(engine, kind, nodes);
            && (n in f.resolved <==> exists j :: Names(engine, kind, nodes, j, n))
            && (f.attached <==> exists j :: Attaches(engine, nodes, j))
            && (f.credit > 0 <==> exists j :: Serves(engine, nodes, j))
    decreases |nodes|
  {
    hide *;
    if Reached(engine, nodes, 0) {
      FirstNode(engine, kind, nodes, n);
      FeedNodesExactly(engine.Ticked(), kind, nodes[1..], n);
      NodesShift(engine, kind, nodes, n);
    } else {
      NoneReached(engine, kind, nodes, n);
    }
  }

  lemma FirstNode(engine: Engine, kind: TreeKind, nodes: seq<WireNode>, n: NetworkNeed)
    requires Reached(engine, nodes, 0)
    ensures nodes != []
    ensures var f, rest := FeedNodes(engine, kind, nodes), FeedNodes(engine.Ticked(), kind, nodes[1..]);
            && (n in f.resolved <==> Names(engine, kind, nodes, 0, n) || n in rest.resolved)
            && (f.attached <==> Attaches(engine, nodes, 0) || rest.attached)
            && (f.credit > 0 <==> Serves(engine, nodes, 0) || rest.credit > 0)
  {
    assert Fine(engine, nodes, 0) && engine.clock + 0 == engine.clock;
  }

  lemma NoneReached(engine: Engine, kind: TreeKind, nodes: seq<WireNode>, n: NetworkNeed)
    requires !Reached(engine, nodes, 0)
    ensures var f := FeedNodes(engine, kind, nodes); n !in f.resolved && !f.attached && f.credit == 0
    ensures forall j :: !Names(engine, kind, nodes, j, n) && !Attaches(engine, nodes, j) && !Serves(engine, nodes, j)
  {
    assert engine.clock + 0 == engine.clock;
    assert nodes != [] ==> !Fine(engine, nodes, 0);
    forall j ensures Reached(engine, nodes, j) ==> Reached(engine, nodes, 0) {
      ReachedFirst(engine, nodes, j);
    }
  }

  lemma ReachedFirst(engine: Engine, nodes: seq<WireNode>, j: int)
    ensures Reached(engine, nodes, j) ==> Reached(engine, nodes, 0)
  {
  }

  /** A node is the first, or one of the rest. */
  lemma NodesShift(engine: Engine, kind: TreeKind, nodes: seq<WireNode>, n: NetworkNeed)
    requires nodes != [] && Reached(engine, nodes, 0)
    ensures var e, rest := engine.Ticked(), nodes[1..];
            && ((exists j :: Names(engine, kind, nodes, j, n)) <==> Names(engine, kind, nodes, 0, n) || exists j :: Names(e, kind, rest, j, n))
            && ((exists j :: Attaches(engine, nodes, j)) <==> Attaches(engine, nodes, 0) || exists j :: Attaches(e, rest, j))
            && ((exists j :: Serves(engine, nodes, j)) <==> Serves(engine, nodes, 0) || exists j :: Serves(e, rest, j))
  {
    var e, rest := engine.Ticked(), nodes[1..];
    forall j | Reached(e, rest, j)
      ensures (Attaches(engine, nodes, j + 1) <==> Attaches(e, rest, j)) && (Serves(engine, nodes, j + 1) <==> Serves(e, rest, j))
      ensures Names(engine, kind, nodes, j + 1, n) <==> Names(e, kind, rest, j, n)
    {
      ReachedNext(engine, nodes, j);
      assert e.clock + j == engine.clock + (j + 1) && rest[j] == nodes[j + 1];
    }
    forall j | Reached(engine, nodes, j) && j > 0
      ensures (Attaches(engine, nodes, j) <==> Attaches(e, rest, j - 1)) && (Serves(engine, nodes, j) <==> Serves(e, rest, j - 1))
      ensures Names(engine, kind, nodes, j, n) <==> Names(e, kind, rest, j - 1, n)
    {
      ReachedNext(engine, nodes, j - 1);
      assert e.clock + (j - 1) == engine.clock + j && rest[j - 1] == nodes[j];
    }
  }

  // ----- several packets -------------------------------------------------------

  /** Packet `i` as the engine meets it, after those before it. */
  ghost predicate PacketNames(engine: Engine, packets: seq<Packet>, i: int, n: NetworkNeed) {
    0 <= i < |packets| && packets[i].kind != Base
    && exists j :: Names(FeedAll(engine, packets[..i]).after, TreeOf(packets[i].kind), packets[i].nodes, j, n)
  }

  ghost predicate PacketAttaches(engine: Engine, packets: seq<Packet>, i: int) {
    0 <= i < |packets| && packets[i].kind != Base
    && exists j :: Attaches(FeedAll(engine, packets[..i]).after, packets[i].nodes, j)
  }

  ghost predicate PacketServes(engine: Engine, packets: seq<Packet>, i: int) {
    0 <= i < |packets| && packets[i].kind != Base
    && exists j :: Serves(FeedAll(engine, packets[..i]).after, packets[i].nodes, j)
  }

  lemma FeedOneExactly(engine: Engine, packet: Packet, n: NetworkNeed)
    ensures var f := FeedOne(engine, packet);
            && (n in f.resolved <==> packet.kind != Base && exists j :: Names(engine, TreeOf(packet.kind), packet.nodes, j, n))
            && (f.attached <==> packet.kind != Base && exists j :: Attaches(engine, packet.nodes, j))
            && (f.counts != map[] <==> packet.kind != Base && exists j :: Serves(engine, packet.nodes, j))
  {
    FeedNodesExactly(engine, TreeOf(packet.kind), packet.nodes, n);
    hide Names, Attaches, Serves, FeedNodes;
    var credit := FeedNodes(engine, TreeOf(packet.kind), packet.nodes).credit;
    assert credit > 0 ==> packet.peer in Credited(packet.peer, credit);
  }

  lemma NoScores(a: map<PeerId, nat>, b: map<PeerId, nat>)
    ensures MaxScores(a, b) != map[] <==> a != map[] || b != map[]
    ensures MaxScores(a, map[]) == a
  {
    hide MaxScores;
    if a != map[] {
      var p :| p in a;
      assert p in MaxScores(a, b);
    }
    if b != map[] {
      var p :| p in b;
      assert p in MaxScores(a, b);
    }
  }

  /** Fed in order, packets resolve exactly the needs their attached nodes name, and are useful if one node is. */
  lemma {:induction false} FeedAllExactly(engine: Engine, packets: seq<Packet>, n: NetworkNeed)
    ensures var f := FeedAll(engine, packets);
            && (n in f.resolved <==> exists i :: PacketNames(engine, packets, i, n))
            && (f.attached <==> exists i :: PacketAttaches(engine, packets, i))
            && (f.counts != map[] <==> exists i :: PacketServes(engine, packets, i))
  {
    hide *;
    if packets != [] {
      FeedAllExactly(engine, packets[..|packets| - 1], n);
      FeedAllStep(engine, packets, n);
      LastPacket(engine, packets, n);
      PacketsShift(engine, packets, n);
    } else {
      InRange(engine, packets, n);
      FedNothing(engine, packets);
    }
  }

  lemma FedNothing(engine: Engine, packets: seq<Packet>)
    requires packets == []
    ensures FeedAll(engine, packets) == Fed(engine, [], false, map[])
  {
  }

  lemma FeedAllStep(engine: Engine, packets: seq<Packet>, n: NetworkNeed)
    requires packets != []
    ensures var m := |packets| - 1;
            var f, before := FeedAll(engine, packets), FeedAll(engine, packets[..m]);
            var last := FeedOne(before.after, packets[m]);
            && (n in f.resolved <==> n in before.resolved || n in last.resolved)
            && (f.attached <==> before.attached || last.attached)
            && (f.counts != map[] <==> before.counts != map[] || last.counts != map[])
  {
    hide FeedOne, MaxScores;
    var before := FeedAll(engine, packets[..|packets| - 1]);
    NoScores(before.counts, FeedOne(before.after, packets[|packets| - 1]).counts);
  }

  /** A packet is the last, or one of those before it. */
  lemma PacketsShift(engine: Engine, packets: seq<Packet>, n: NetworkNeed)
    requires packets != []
    ensures var m := |packets| - 1;
            && ((exists i :: PacketNames(engine, packets, i, n)) <==>
                  PacketNames(engine, packets, m, n) || exists i :: PacketNames(engine, packets[..m], i, n))
            && ((exists i :: PacketAttaches(engine, packets, i)) <==>
                  PacketAttaches(engine, packets, m) || exists i :: PacketAttaches(engine, packets[..m], i))
            && ((exists i :: PacketServes(engine, packets, i)) <==>
                  PacketServes(engine, packets, m) || exists i :: PacketServes(engine, packets[..m], i))
  {
    hide *;
    var m := |packets| - 1;
    InRange(engine, packets, n);
    InRange(engine, packets[..m], n);
    forall i | 0 <= i < m
      ensures PacketNames(engine, packets, i, n) <==> PacketNames(engine, packets[..m], i, n)
      ensures PacketAttaches(engine, packets, i) <==> PacketAttaches(engine, packets[..m], i)
      ensures PacketServes(engine, packets, i) <==> PacketServes(engine, packets[..m], i)
    {
      EarlierPacket(engine, packets, i, n);
    }
  }

  lemma InRange(engine: Engine, packets: seq<Packet>, n: NetworkNeed)
    ensures forall i :: PacketNames(engine, packets, i, n) ==> 0 <= i < |packets|
    ensures forall i :: PacketAttaches(engine, packets, i) ==> 0 <= i < |packets|
    ensures forall i :: PacketServes(engine, packets, i) ==> 0 <= i < |packets|
  {
  }

  lemma LastPacket(engine: Engine, packets: seq<Packet>, n: NetworkNeed)
    requires packets != []
    ensures var m := |packets| - 1;
            var f := FeedOne(FeedAll(engine, packets[..m]).after, packets[m]);
            && (PacketNames(engine, packets, m, n) <==> n in f.resolved)
            && (PacketAttaches(engine, packets, m) <==> f.attached)
            && (PacketServes(engine, packets, m) <==> f.counts != map[])
  {
    hide Names, Attaches, Serves, FeedOne;
    FeedOneExactly(FeedAll(engine, packets[..|packets| - 1]).after, packets[|packets| - 1], n);
  }

  lemma EarlierPacket(engine: Engine, packets: seq<Packet>, i: int, n: NetworkNeed)
    requires 0 <= i < |packets| - 1
    ensures var fewer := packets[..|packets| - 1];
            && (PacketNames(engine, packets, i, n) <==> PacketNames(engine, fewer, i, n))
            && (PacketAttaches(engine, packets, i) <==> PacketAttaches(engine, fewer, i))
            && (PacketServes(engine, packets, i) <==> PacketServes(engine, fewer, i))
  {
    hide Names, Attaches, Serves, FeedAll;
    assert packets[..|packets| - 1][..i] == packets[..i];
  }
}
