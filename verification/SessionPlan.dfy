/**
 * The coordinator-owned plan of one acquisition session: a single-owner state
 * machine over a mailbox, a tree engine, a network frontier, outstanding reads
 * and one write/fence machine. The frontier and the work carry their own
 * invariants in their types; `Valid` adds what spans the components.
 */
module SessionPlans {
  import opened Arith
  import opened Identity
  import opened PlanModel
  import opened PlanFeeds
  import opened PlanLemmas
  import opened PlanTurns
  import F = Frontiers
  import W = Works

  /** Pops up to `limit` needs off the front of a queue. */
  method PopFront(queue: seq<NetworkNeed>, limit: nat) returns (popped: seq<NetworkNeed>, rest: seq<NetworkNeed>)
    ensures queue == popped + rest && |popped| == Min(limit, |queue|)
  {
    popped, rest := [], queue;
    while |popped| < limit && rest != []
      invariant queue == popped + rest && |popped| <= limit
      decreases |rest|
    {
      popped, rest := popped + [rest[0]], rest[1..];
    }
  }

  /** Pops the longest front run of one tree kind, up to `limit` needs. */
  method PopOneKind(queue: seq<NetworkNeed>, limit: nat) returns (batch: seq<NetworkNeed>)
    requires queue != [] && limit > 0
    ensures 1 <= |batch| <= limit && |batch| <= |queue| && batch == queue[..|batch|]
    ensures forall n :: n in batch ==> n.kind == queue[0].kind
    ensures |batch| < limit && |batch| < |queue| ==> queue[|batch|].kind != queue[0].kind
  {
    var first, rest := queue[0], queue[1..];
    batch := [first];
    while |batch| < limit && rest != [] && rest[0].kind == first.kind
      invariant 1 <= |batch| <= limit && queue == batch + rest
      invariant forall n :: n in batch ==> n.kind == first.kind
      decreases |rest|
    {
      batch, rest := batch + [rest[0]], rest[1..];
    }
    assert |rest| > 0 ==> rest[0] == queue[|batch|];
  }

  /** Collects `count` needs from `start`, wrapping at the end. */
  method Window(retained: seq<NetworkNeed>, start: nat, count: nat) returns (batch: seq<NetworkNeed>)
    requires retained != [] && count == RotationCount(|retained|)
    ensures batch == RecoveryBatch(retained, start)
  {
    batch := [];
    for offset := 0 to count
      invariant |batch| == offset
      invariant forall o :: 0 <= o < offset ==> batch[o] == retained[(start + o) % |retained|]
    {
      batch := batch + [retained[(start + offset) % |retained|]];
    }
  }

  /** Appends the announced needs that are new to `backlog`. */
  method Queue(backlog: seq<NetworkNeed>, retained: seq<NetworkNeed>, recent: set<Hash>, nodes: seq<NetworkNeed>)
    returns (queue: seq<NetworkNeed>)
    ensures queue == Enqueued(backlog, retained, recent, nodes)
  {
    queue := backlog;
    var i := 0;
    while i < |nodes|
      invariant i <= |nodes|
      invariant Enqueued(queue, retained, recent, nodes[i..]) == Enqueued(backlog, retained, recent, nodes)
    {
      assert nodes[i..][1..] == nodes[i + 1..];
      if nodes[i].hash in recent || nodes[i] in retained || nodes[i] in queue {
      } else {
        queue := queue + [nodes[i]];
      }
      i := i + 1;
    }
  }

  /**
   * Routes the nodes of one packet through the engine, stopping at the first
   * malformed, zero or invalid node. Useful credit and attachment are separate.
   */
  method FeedTreeNodes(engine: Engine, kind: TreeKind, peer: PeerId, nodes: seq<WireNode>)
    returns (after: Engine, fed: PacketFeed)
    ensures IsNodesFed(FeedNodes(engine, kind, nodes), after, fed, peer)
    ensures fed.nodesSeen <= |nodes| && fed.malformed <= 1
  {
    hide *;
    after, fed := engine, EMPTY_FEED;
    var i := 0;
    ghost var spec := FeedNodes(engine, kind, nodes);
    assert nodes[0..] == nodes;
    NothingFed(spec, peer);
    while i < |nodes|
      invariant i <= |nodes| && fed.nodesSeen == i && fed.malformed == 0
      invariant FedSoFar(spec, FeedNodes(after, kind, nodes[i..]), fed, peer)
    {
      var node := nodes[i];
      FeedStep(after, kind, nodes, i);
      ghost var before := fed;
      fed := fed.(nodesSeen := fed.nodesSeen + 1);
      if node.decoded.None? || node.decoded.value == 0 {
        NodesDone(spec, after, before, fed.(malformed := 1), peer);
        fed := fed.(malformed := 1);
        return;
      }
      var answer := after.Now().networkApply;
      after := after.Ticked();
      if answer.invalid {
        NodesDone(spec, after, before, fed.(malformed := 1), peer);
        fed := fed.(malformed := 1);
        return;
      }
      OneMoreNode(spec, FeedNodes(after, kind, nodes[i + 1..]), before, fed, answer, kind, node, peer);
      fed := Credit(fed, answer, peer).(resolved := fed.resolved + Resolved(answer, kind, node));
      i := i + 1;
    }
    assert nodes[i..] == [];
    NoMoreNodes(after, kind);
    NodesDone(spec, after, fed, fed, peer);
  }

  ghost predicate IsNodesFed(spec: NodesFed, after: Engine, fed: PacketFeed, peer: PeerId) {
    && after == spec.after && fed.resolved == spec.resolved && fed.attached == spec.attached
    && fed.usefulCounts == Credited(peer, spec.credit) && (fed.useful <==> spec.credit > 0)
  }

  /** What was fed and what is still to feed make up the whole. */
  ghost predicate FedSoFar(spec: NodesFed, rest: NodesFed, fed: PacketFeed, peer: PeerId) {
    && spec.after == rest.after && spec.resolved == fed.resolved + rest.resolved
    && (spec.attached <==> fed.attached || rest.attached) && spec.credit >= rest.credit
    && fed.usefulCounts == Credited(peer, spec.credit - rest.credit) && (fed.useful <==> spec.credit > rest.credit)
  }

  lemma NothingFed(spec: NodesFed, peer: PeerId)
    ensures FedSoFar(spec, spec, EMPTY_FEED, peer) && EMPTY_FEED.nodesSeen == 0 && EMPTY_FEED.malformed == 0
  {
  }

  lemma NoMoreNodes(engine: Engine, kind: TreeKind)
    ensures FeedNodes(engine, kind, []) == NodesFed(engine, [], false, 0)
  {
  }

  lemma NodesDone(spec: NodesFed, after: Engine, fed: PacketFeed, fed': PacketFeed, peer: PeerId)
    requires FedSoFar(spec, NodesFed(after, [], false, 0), fed, peer) && fed' == fed.(malformed := fed'.malformed, nodesSeen := fed'.nodesSeen)
    ensures IsNodesFed(spec, after, fed', peer)
  {
    assert fed.resolved + [] == fed.resolved;
  }

  lemma OneMoreNode(spec: NodesFed, rest: NodesFed, before: PacketFeed, fed: PacketFeed, answer: NetworkApply, kind: TreeKind,
                    node: WireNode, peer: PeerId)
    requires node.decoded.Some? && fed == before.(nodesSeen := fed.nodesSeen)
    requires FedSoFar(spec, NodesFed(rest.after, Resolved(answer, kind, node) + rest.resolved, answer.attachment.Applied? || rest.attached,
                                     rest.credit + if answer.useful then 1 else 0), before, peer)
    ensures FedSoFar(spec, rest, Credit(fed, answer, peer).(resolved := fed.resolved + Resolved(answer, kind, node)), peer)
    ensures Credit(fed, answer, peer).nodesSeen == fed.nodesSeen && Credit(fed, answer, peer).malformed == fed.malformed
  {
    assert fed.resolved + (Resolved(answer, kind, node) + rest.resolved) == fed.resolved + Resolved(answer, kind, node) + rest.resolved;
  }

  /** The engine and the feed are what the packets come to. */
  ghost predicate IsFed(spec: Fed, engine: Option<Engine>, fed: PacketFeed) {
    && engine == Some(spec.after) && fed.resolved == spec.resolved && fed.attached == spec.attached
    && fed.usefulCounts == spec.counts && (fed.useful <==> spec.counts != map[])
  }

  /** One more node of the packet: what the specification says it adds. */
  lemma FeedStep(engine: Engine, kind: TreeKind, nodes: seq<WireNode>, i: nat)
    requires i < |nodes|
    ensures var node, answer, all := nodes[i], engine.Now().networkApply, FeedNodes(engine, kind, nodes[i..]);
            if node.decoded.None? || node.decoded.value == 0 then all == NodesFed(engine, [], false, 0)
            else if answer.invalid then all == NodesFed(engine.Ticked(), [], false, 0)
            else
              var rest := FeedNodes(engine.Ticked(), kind, nodes[i + 1..]);
              all == NodesFed(rest.after, Resolved(answer, kind, node) + rest.resolved, answer.attachment.Applied? || rest.attached,
                              rest.credit + if answer.useful then 1 else 0)
  {
    assert nodes[i..][0] == nodes[i] && nodes[i..][1..] == nodes[i + 1..];
  }

  function Credit(fed: PacketFeed, answer: NetworkApply, peer: PeerId): PacketFeed {
    var count := if peer in fed.usefulCounts then fed.usefulCounts[peer] else 0;
    fed.(attached := fed.attached || answer.attachment.Applied?,
         useful := fed.useful || answer.useful,
         usefulCounts := if answer.useful then fed.usefulCounts[peer := count + 1] else fed.usefulCounts)
  }

  method FeedPacket(engine: Engine, packet: Packet) returns (after: Engine, fed: PacketFeed)
    ensures IsFed(FeedOne(engine, packet), Some(after), fed)
  {
    hide FeedNodes;
    match packet.kind {
      case Base => after, fed := engine, EMPTY_FEED;
      case StateNodes => after, fed := FeedTreeNodes(engine, StateTree, packet.peer, packet.nodes);
      case TransactionNodes => after, fed := FeedTreeNodes(engine, TransactionTree, packet.peer, packet.nodes);
    }
    assert fed.useful ==> packet.peer in fed.usefulCounts;
  }

  /** Feeding adds nothing to the engine's transcript. */
  lemma FeedingIsSilent(before: Engine, packets: seq<Packet>, engine: Option<Engine>, fed: PacketFeed)
    requires IsFed(FeedAll(before, packets), engine, fed)
    ensures engine.Some? && Voice(engine) == Voice(Some(before))
  {
    hide FeedAll;
  }

  lemma FedNoPacket(engine: Engine)
    ensures IsFed(FeedAll(engine, []), Some(engine), EMPTY_FEED)
  {
  }

  /** One more packet. */
  lemma OneMorePacket(engine: Engine, packets: seq<Packet>, packet: Packet, middle: Engine, fed: PacketFeed, after: Engine, one: PacketFeed)
    requires IsFed(FeedAll(engine, packets), Some(middle), fed) && IsFed(FeedOne(middle, packet), Some(after), one)
    ensures IsFed(FeedAll(engine, packets + [packet]), Some(after), MergeFeeds(fed, one))
  {
    hide FeedOne, MaxScores;
    assert (packets + [packet])[..|packets|] == packets;
    NoScores(fed.usefulCounts, one.usefulCounts);
  }

  class SessionPlan {
    var engine: Option<Engine>
    // mailbox
    var packets: seq<Packet>
    var packetCount: nat
    var packetBytes: nat
    const maxPackets: nat
    const maxBytes: nat
    // frontier, reads and persistence
    var frontier: F.Frontier
    var work: W.Work
    // lanes
    var usefulPeerScores: map<PeerId, nat>
    var networkLanes: seq<NetworkLane>
    // lifecycle
    var timeouts: nat
    var progressSinceTimeout: bool
    const maxTimeouts: nat
    var cancelled: bool
    var runs: nat

    /** What held at each engine advance. */
    ghost var guards: seq<Guard>
    /** The transcripts of engines released or cancelled before. */
    ghost var past: Transcript
    /** Set by cancel and terminalize, with the lengths of the logs at that moment. */
    ghost var closed: bool
    ghost var readsAtClose: nat
    ghost var writesAtClose: nat

    /** What the passes of a turn work on. */
    ghost function Sight(): View
      reads this
    {
      View(engine, packets, frontier, usefulPeerScores, networkLanes, progressSinceTimeout)
    }

    ghost predicate Valid()
      reads this
    {
      && MailboxOk(packets, packetCount, packetBytes, maxPackets, maxBytes)
      && (forall g :: g in guards ==> g == QUIET)
      && Agreed(past, engine, |guards|, work, frontier)
      && (timeouts > maxTimeouts ==> cancelled)
      && (work.persistence != Idle && !work.releasedEarly ==> engine.Some?)
      && (closed ==> cancelled && ClosedOk(work, frontier, readsAtClose, writesAtClose))
    }

    constructor (maxPackets: nat, maxBytes: nat, maxTimeouts: nat, pendingReadsCap: nat)
      ensures Valid()
      ensures this.maxPackets == maxPackets && this.maxBytes == maxBytes && this.maxTimeouts == maxTimeouts
      ensures engine == None && packets == [] && !cancelled && !closed && guards == []
      ensures frontier == F.NewFrontier() && work == W.NewWork(pendingReadsCap)
    {
      hide W.WellFormed, F.WellFormed, F.NewFrontier, Agreed;
      NothingSaid(W.NewWork(pendingReadsCap), F.NewFrontier());
      engine := None;
      packets, packetCount, packetBytes := [], 0, 0;
      this.maxPackets, this.maxBytes := maxPackets, maxBytes;
      frontier, work := F.NewFrontier(), W.NewWork(pendingReadsCap);
      usefulPeerScores, networkLanes := map[], [];
      timeouts, progressSinceTimeout, cancelled, runs := 0, false, false, 0;
      this.maxTimeouts := maxTimeouts;
      guards, past, closed, readsAtClose, writesAtClose := [], SILENCE, false, 0, 0;
    }

    // ----- network frontier -----

    /**
     * Queues announced needs, skipping those recently sent, retained or already
     * queued, and reports how many were kept. The incremental-write deferral is
     * the same queueing.
     */
    method EnqueueNetworkFrontier(nodes: seq<NetworkNeed>) returns (queued: nat)
      requires frontier.backlog == []
      modifies this`frontier
      ensures frontier == F.Announced(old(frontier), nodes)
      ensures queued == |frontier.backlog|
    {
      var queue := Queue(frontier.backlog, frontier.retained, frontier.recent, nodes);
      queued := |queue|;
      ghost var spec := F.Announced(frontier, nodes);
      frontier := frontier.(backlog := queue, pending := HashesOf(frontier.retained) + HashesOf(queue),
                            announcement := |nodes|, said := frontier.said + nodes, gone := spec.gone);
    }

    /** Moves as much of the backlog as the retained window has room for. */
    method DispatchNetworkBacklog() returns (sent: seq<NetworkNeed>)
      modifies this`frontier
      ensures |sent| == Min(MAX_RETAINED_NETWORK_FRONTIER - |old(frontier).retained|, |old(frontier).backlog|)
      ensures sent == old(frontier).backlog[..|sent|]
      ensures frontier == F.Dispatched(old(frontier), |sent|)
    {
      F.WindowHolds(frontier);
      hide F.WellFormed, F.Dispatched;
      var rest;
      sent, rest := PopFront(frontier.backlog, MAX_RETAINED_NETWORK_FRONTIER - |frontier.retained|);
      F.DispatchedParts(frontier, sent, rest);
      frontier := frontier.(retained := frontier.retained + sent, unemitted := frontier.unemitted + sent,
                            backlog := rest, cursor := Normalized(frontier.cursor, |frontier.retained + sent|));
    }

    /** Removes exact needs from every queue; equal hashes elsewhere stay. */
    method RetireNetworkResolutions(resolutions: seq<NetworkNeed>)
      modifies this`frontier
      ensures frontier == F.Retired(old(frontier), resolutions)
    {
      frontier := F.Retired(frontier, resolutions);
    }

    /**
     * Removes the next normal request batch: a FIFO prefix of one tree kind, as
     * long as the limit and the kind allow. No need in it was emitted since the
     * recent-node set was last cleared.
     */
    method TakeNextNormalNetworkBatch(maxNodes: nat) returns (batch: seq<NetworkNeed>)
      requires Valid()
      modifies this`frontier
      ensures Valid()
      ensures |batch| <= |old(frontier).unemitted| && batch == old(frontier).unemitted[..|batch|]
      ensures frontier == F.Taken(old(frontier), |batch|)
      ensures frontier.unemitted == old(frontier).unemitted[|batch|..]
      ensures frontier.recent == old(frontier).recent + HashesOf(batch)
      ensures |batch| <= maxNodes && (cancelled ==> batch == [])
      ensures forall n :: n in batch ==> n.kind == batch[0].kind && n !in old(frontier).emitted
      ensures !cancelled && maxNodes > |batch| && frontier.unemitted != [] ==>
                batch != [] && frontier.unemitted[0].kind != batch[0].kind
    {
      if cancelled || maxNodes == 0 || frontier.unemitted == [] {
        F.TakeNothing(frontier);
        return [];
      }
      batch := PopOneKind(frontier.unemitted, maxNodes);
      F.TakeIsFresh(frontier, |batch|);
      frontier := F.Taken(frontier, |batch|);
    }

    method ClearRecentNodes()
      requires Valid()
      modifies this`frontier
      ensures Valid() && frontier == F.RecentCleared(old(frontier))
    {
      frontier := F.RecentCleared(frontier);
    }

    /** The next bounded retry window of the retained frontier. */
    method NextTimeoutRecoveryBatch() returns (batch: seq<NetworkNeed>)
      requires Valid()
      modifies this`frontier
      ensures Valid()
      ensures cancelled ==> batch == [] && frontier == old(frontier)
      ensures !cancelled ==>
                batch == RecoveryBatch(frontier.retained, old(frontier).cursor) && frontier == F.Rotated(old(frontier))
    {
      var len := |frontier.retained|;
      if cancelled || len == 0 {
        return [];
      }
      F.CursorInRange(frontier);
      var start := frontier.cursor % len;
      batch := Window(frontier.retained, start, Min(len, MAX_TIMEOUT_REPROBES));
      frontier := F.Rotated(frontier);
    }

    // ----- mailbox and packets -----

    /** Accepts a packet if it fits both budgets; otherwise nothing changes. */
    method PushPacket(packet: Packet) returns (accepted: bool)
      requires Valid()
      modifies this`packets, this`packetCount, this`packetBytes
      ensures Valid()
      ensures accepted <==> TotalPackets(old(packets)) + packet.packetCount <= maxPackets
                            && TotalBytes(old(packets)) + packet.byteCount <= maxBytes
      ensures packets == if accepted then old(packets) + [packet] else old(packets)
    {
      hide W.WellFormed, F.WellFormed;
      if packetCount + packet.packetCount > maxPackets || packetBytes + packet.byteCount > maxBytes {
        return false;
      }
      packetCount := packetCount + packet.packetCount;
      packetBytes := packetBytes + packet.byteCount;
      TotalsAppend(packets, packet);
      packets := packets + [packet];
      accepted := true;
    }

    /** Feeds up to four queued packets to the engine, oldest first. */
    method FeedPackets() returns (fed: PacketFeed)
      requires MailboxOk(packets, packetCount, packetBytes, maxPackets, maxBytes)
      modifies this`engine, this`packets, this`packetCount, this`packetBytes
      ensures MailboxOk(packets, packetCount, packetBytes, maxPackets, maxBytes)
      ensures engine.Some? == old(engine).Some? && Voice(engine) == Voice(old(engine))
      ensures old(engine).None? ==> packets == old(packets) && fed == EMPTY_FEED
      ensures old(engine).Some? ==>
                var meal := old(packets)[..Min(MAX_PACKETS_FED_PER_TURN, |old(packets)|)];
                packets == old(packets)[|meal|..] && IsFed(FeedAll(old(engine).value, meal), engine, fed)
    {
      hide FeedAll, FeedOne, IsFed, MergeFeeds;
      fed := EMPTY_FEED;
      if engine.None? {
        return;
      }
      var i := 0;
      FedNoPacket(engine.value);
      assert old(packets)[..0] == [];
      while i < MAX_PACKETS_FED_PER_TURN && packets != []
        invariant i <= MAX_PACKETS_FED_PER_TURN && i <= |old(packets)|
        invariant engine.Some? && packets == old(packets)[i..]
        invariant MailboxOk(packets, packetCount, packetBytes, maxPackets, maxBytes)
        invariant IsFed(FeedAll(old(engine).value, old(packets)[..i]), engine, fed)
        decreases |packets|
      {
        var packet := packets[0];
        packets := packets[1..];
        packetCount := packetCount - packet.packetCount;
        packetBytes := packetBytes - packet.byteCount;
        var after, one := FeedPacket(engine.value, packet);
        ghost var upTo := old(packets)[..i + 1];
        assert upTo == old(packets)[..i] + [packet];
        OneMorePacket(old(engine).value, old(packets)[..i], packet, engine.value, fed, after, one);
        engine := Some(after);
        fed := MergeFeeds(fed, one);
        i := i + 1;
      }
      assert i == Min(MAX_PACKETS_FED_PER_TURN, |old(packets)|);
      FeedingIsSilent(old(engine).value, old(packets)[..i], engine, fed);
    }

    /** Keeps the best score seen for each useful peer. */
    method NoteUsefulPeers(counts: map<PeerId, nat>)
      modifies this`usefulPeerScores
      ensures usefulPeerScores == MaxScores(old(usefulPeerScores), counts)
    {
      usefulPeerScores := MaxScores(usefulPeerScores, counts);
    }

    /** Credits a verified header reply to its responder. */
    method NoteUsefulPeer(peer: PeerId, count: nat)
      requires Valid()
      modifies this`usefulPeerScores
      ensures Valid() && usefulPeerScores == MaxScores(old(usefulPeerScores), map[peer := count])
    {
      hide W.WellFormed, F.WellFormed, MailboxOk, MaxScores;
      NoteUsefulPeers(map[peer := count]);
    }

    /**
     * Once the mailbox is empty the scored peers become reply lanes. The first
     * lane of an idle plan starts a new frontier epoch and a fresh scan.
     * `sample` stands for the random peer selection.
     */
    method OpenReplyLanes(sample: map<PeerId, nat> -> seq<PeerId>)
      modifies this`usefulPeerScores, this`networkLanes, this`frontier, this`engine
      ensures Sight() == Opened(old(Sight()), sample) && Voice(engine) == Voice(old(engine))
    {
      hide F.WellFormed, F.EpochReset;
      if packets != [] || usefulPeerScores == map[] {
        return;
      }
      var peers := sample(usefulPeerScores);
      usefulPeerScores := map[];
      var wasEmpty := networkLanes == [];
      networkLanes := networkLanes + ReplyLanes(peers);
      if wasEmpty && networkLanes != [] && engine.Some? {
        frontier := F.EpochReset(frontier);
        engine := Some(engine.value.Ticked());
      }
    }

    // ----- engine turns -----

    /**
     * One engine turn. Its precondition is the guard every caller must reach:
     * no ordinary read in flight or waiting, no network need waiting, not
     * cancelled and no write or fence pending.
     */
    method AdvanceEngine(attached: bool)
      returns (outcome: StepOutcome, ready: bool, writes: seq<PersistNode>, sequence: Option<nat>)
      requires engine.Some? && !cancelled
      requires work.pending == map[] && work.backlog == [] && frontier.backlog == [] && work.persistence == Idle
      requires Agreed(past, engine, |guards|, work, frontier)
      modifies this`engine, this`runs, this`guards
      ensures runs == old(runs) + 1 && guards == old(guards) + [QUIET]
      ensures engine.Some? && Pass(outcome, writes, sequence, engine.value) == PassOf(old(engine).value)
      ensures Owing(past, engine, |guards|, work, frontier, outcome, writes)
      ensures ready <==> attached || (old(engine).value.Stepped().Now().runnable
                                      && old(engine).value.Stepped().Now().branchSteps > old(engine).value.Now().branchSteps)
    {
      hide W.WellFormed, F.WellFormed, Agreed, Owing;
      Advanced(past, engine.value, |guards|, work, frontier);
      var e := engine.value;
      var before := e.Now().branchSteps;
      outcome := e.Now().step;
      e := e.Stepped();
      ready := attached || (e.Now().runnable && e.Now().branchSteps > before);
      writes := [];
      if outcome != Complete {
        writes := e.Now().persistable;
        e := e.Drained();
      }
      sequence := e.Now().ledgerSequence;
      guards := guards + [Guard(|work.pending|, |work.backlog|, |frontier.backlog|, cancelled, work.persistence == Idle)];
      engine := Some(e);
      runs := runs + 1;
    }

    /** What the engine announced along with drained nodes waits whole and in order. */
    method DeferEffects(outcome: StepOutcome, ghost writes: seq<PersistNode>)
      requires work.pending == map[] && work.backlog == [] && frontier.backlog == []
      requires Owing(past, engine, |guards|, work, frontier, outcome, writes)
      modifies this`work, this`frontier
      ensures Owing(past, engine, |guards|, work, frontier, Ready, writes)
      ensures W.OnlyReads(old(work), work) && work.seen == old(work).seen && work.pending == map[]
      ensures work.backlog == (if outcome.NeedsReads? then outcome.needs else [])
      ensures frontier == (if outcome.NeedsNetwork? then F.Announced(old(frontier), outcome.nodes) else old(frontier))
    {
      hide W.WellFormed, F.WellFormed, Owing, ReadHashes;
      assert frontier.said + [] == frontier.said && work.announced + multiset{} == work.announced;
      if outcome.NeedsReads? {
        var deferred;
        work, deferred := W.DeferAnnounced(work, outcome.needs);
      }
      if outcome.NeedsNetwork? {
        var queued := EnqueueNetworkFrontier(outcome.nodes);
      }
      PaidEffects(past, engine, |guards|, old(work), old(frontier), outcome, writes, work, frontier);
    }

    /**
     * Persists nodes accepted so far while acquisition continues. Whatever the
     * engine announced in the same turn waits behind the write; without a ledger
     * sequence the turn is invalid and the drained nodes are lost.
     */
    method PersistIncremental(outcome: StepOutcome, writes: seq<PersistNode>, sequence: Option<nat>,
                              ctx: TurnContext, ids: IdCounter) returns (turn: PlanTurn)
      requires work.pending == map[] && work.backlog == [] && frontier.backlog == [] && work.persistence == Idle
      requires writes != [] && ids.Valid() && work.seen <= ids.mints
      requires Owing(past, engine, |guards|, work, frontier, outcome, writes)
      modifies this`work, this`frontier, ids
      ensures ids.Valid() && work.seen <= ids.mints && work.pending == map[]
      ensures Agreed(past, engine, |guards|, work, frontier)
      ensures TurnOk(old(work), work, old(frontier), frontier, turn, ctx)
      ensures work.backlog == (if outcome.NeedsReads? then outcome.needs else [])
      ensures frontier == (if outcome.NeedsNetwork? then F.Announced(old(frontier), outcome.nodes) else old(frontier))
      ensures NonZero(sequence).None? ==>
                turn == InvalidPlan && work.persistence == Idle && work.batches == old(work).batches
                && work.lost == old(work).lost + writes
      ensures NonZero(sequence).Some? ==>
                && turn.Persist? && turn.batch.fence == None && turn.batch.nodes == writes
                && turn.batch.ledgerSequence == sequence.value && turn.batch.storeGeneration == ctx.storeGeneration
                && work.persistence == IncrementalWritePending(turn.batch.operation)
                && work.batches == old(work).batches + [turn.batch]
    {
      hide W.WellFormed, F.WellFormed, Agreed, Owing, TurnOk, F.Announced;
      DeferEffects(outcome, writes);
      ghost var w := work;
      if NonZero(sequence).None? {
        TurnLosing(old(work), work, writes, old(frontier), frontier, ctx);
        work := W.NodesLost(work, writes);
        PaidNodes(past, engine, |guards|, w, frontier, writes, work);
        return InvalidPlan;
      }
      var op := W.MintOperation(ids, ctx.session, Write);
      var batch := WriteBatch(op, None, ctx.storeGeneration, sequence.value, writes);
      TurnPersisting(old(work), work, batch, ids.mints, old(frontier), frontier, ctx);
      work := W.IncrementalStarted(work, batch, ids.mints);
      PaidNodes(past, engine, |guards|, w, frontier, writes, work);
      turn := Persist(batch);
    }

    /** The tree is complete: the remaining nodes leave in the only fenced batch. */
    method CompleteTree(ctx: TurnContext, ids: IdCounter) returns (turn: PlanTurn)
      requires engine.Some? && work.persistence == Idle && ids.Valid() && work.seen <= ids.mints
      requires Agreed(past, engine, |guards|, work, frontier)
      modifies this`engine, this`work, ids
      ensures engine.Some? && ids.Valid() && work.seen <= ids.mints
      ensures Agreed(past, engine, |guards|, work, frontier)
      ensures work.pending == old(work).pending && work.backlog == old(work).backlog
      ensures old(work).pending == map[] ==> TurnOk(old(work), work, frontier, frontier, turn, ctx)
      ensures NonZero(old(engine).value.Now().persistenceSequence).None? ==>
                turn == InvalidPlan && work == old(work) && engine == old(engine)
      ensures NonZero(old(engine).value.Now().persistenceSequence).Some? ==>
                && turn.Persist? && turn.batch.fence.Some? && engine == Some(old(engine).value.Drained())
                && turn.batch.nodes == old(engine).value.Now().persistable
                && turn.batch.ledgerSequence == old(engine).value.Now().persistenceSequence.value
                && turn.batch.storeGeneration == ctx.storeGeneration
                && work.persistence == FinalWritePending(turn.batch.operation, turn.batch.fence.value)
                && work.batches == old(work).batches + [turn.batch]
    {
      hide W.Conserved, W.Accountable, W.Ordered, F.WellFormed, Agreed;
      var sequence := NonZero(engine.value.Now().persistenceSequence);
      if sequence.None? {
        return InvalidPlan;
      }
      var nodes := engine.value.Now().persistable;
      engine := Some(engine.value.Drained());
      var op := W.MintOperation(ids, ctx.session, Write);
      ghost var middle := ids.mints;
      var fence := W.MintOperation(ids, ctx.session, DurabilityFence);
      var batch := WriteBatch(op, Some(fence), ctx.storeGeneration, sequence.value, nodes);
      work := W.FinalStarted(work, batch, middle, ids.mints);
      DrainedAgrees(past, old(engine).value, |guards|, old(work), frontier, work);
      turn := Persist(batch);
    }

    ghost predicate Runnable()
      reads this
    {
      && Valid() && !cancelled && work.persistence == Idle && work.pending == map[] && work.backlog == []
      && (frontier.backlog == [] || |frontier.retained| >= MAX_RETAINED_NETWORK_FRONTIER)
    }

    /** New reads: the first of them go in flight, the overflow waits. */
    method ActOnReads(needs: ReadBatch, ctx: TurnContext, ids: IdCounter) returns (turn: PlanTurn)
      requires work.pending == map[] && work.backlog == [] && ids.Valid() && work.seen <= ids.mints
      requires Owing(past, engine, |guards|, work, frontier, NeedsReads(needs), [])
      modifies this`work, ids
      ensures ids.Valid() && work.seen <= ids.mints && work.persistence == old(work).persistence
      ensures Agreed(past, engine, |guards|, work, frontier)
      ensures TurnOk(old(work), work, frontier, frontier, turn, ctx)
      ensures RoundStarted(turn, needs, work, ctx)
    {
      hide W.WellFormed, F.WellFormed, TurnOk, Agreed, Owing, Dispatched, ReadHashes;
      var requests;
      ghost var before := work;
      work, requests := W.AdmitAnnounced(work, needs, ctx, ids);
      W.RoundInTable(requests, needs, work.pending, ctx);
      NoReads();
      assert needs[..0] == [] && (work.pending.Keys == {} ==> work.pending == map[]);
      TurnReads(before, work, frontier, requests, needs, ctx);
      assert frontier.said + [] == frontier.said && work.drained + [] == work.drained;
      Paid(past, engine, |guards|, before, frontier, NeedsReads(needs), [], work, frontier);
      turn := ReadsOrContinue(requests);
    }

    /** New network needs: queued, then dispatched as far as the window allows. */
    method ActOnNetwork(nodes: seq<NetworkNeed>, ghost ctx: TurnContext) returns (turn: PlanTurn)
      requires work.pending == map[] && frontier.backlog == []
      requires Owing(past, engine, |guards|, work, frontier, NeedsNetwork(nodes), [])
      modifies this`frontier
      ensures Agreed(past, engine, |guards|, work, frontier)
      ensures TurnOk(work, work, old(frontier), frontier, turn, ctx)
      ensures WindowSent(turn, F.Announced(old(frontier), nodes), frontier)
    {
      hide W.WellFormed, F.WellFormed, TurnOk, Agreed, Owing;
      var queued := EnqueueNetworkFrontier(nodes);
      ghost var queue := frontier;
      var sent := DispatchNetworkBacklog();
      TurnNetwork(work, old(frontier), queue, |sent|, ctx);
      assert work.drained + [] == work.drained && work.announced + multiset{} == work.announced;
      Paid(past, engine, |guards|, work, old(frontier), NeedsNetwork(nodes), [], work, frontier);
      turn := NetworkOrContinue(sent);
    }

    /** Turns an engine outcome that comes with no pending write into a work command. */
    method ActOnOutcome(outcome: StepOutcome, ready: bool, ctx: TurnContext, ids: IdCounter)
      returns (turn: PlanTurn, again: bool)
      requires work.persistence == Idle && work.pending == map[] && work.backlog == [] && frontier.backlog == []
      requires engine.Some? && ids.Valid() && work.seen <= ids.mints
      requires Owing(past, engine, |guards|, work, frontier, outcome, [])
      modifies this`engine, this`work, this`frontier, ids
      ensures engine.Some? && ids.Valid() && work.seen <= ids.mints
      ensures Agreed(past, engine, |guards|, work, frontier)
      ensures TurnOk(old(work), work, old(frontier), frontier, turn, ctx)
      ensures again <==> outcome == Ready && ready
      ensures engine == if outcome.Complete? && NonZero(old(engine).value.Now().persistenceSequence).Some?
                        then Some(old(engine).value.Drained()) else old(engine)
      ensures outcome == Ready ==> turn == Continue && work == old(work) && frontier == old(frontier)
      ensures outcome.NeedsReads? ==> RoundStarted(turn, outcome.needs, work, ctx) && frontier == old(frontier)
      ensures outcome.NeedsNetwork? ==> WindowSent(turn, F.Announced(old(frontier), outcome.nodes), frontier)
      ensures outcome.Complete? ==>
                if NonZero(old(engine).value.Now().persistenceSequence).None? then turn == InvalidPlan
                else turn.Persist? && turn.batch.fence.Some? && turn.batch.nodes == old(engine).value.Now().persistable
      ensures outcome.Invalid? ==> turn == InvalidPlan
      ensures outcome.Complete? || outcome.Invalid? ==> frontier == old(frontier)
    {
      hide W.WellFormed, F.WellFormed, TurnOk, Agreed, Owing, RoundStarted, WindowSent;
      again := false;
      match outcome
      case Ready =>
        again := ready;
        turn := Continue;
        OwesNothing(past, engine, |guards|, work, frontier, Ready, []);
        TurnIdle(work, frontier, ctx);
      case NeedsReads(needs) =>
        turn := ActOnReads(needs, ctx, ids);
      case NeedsNetwork(nodes) =>
        turn := ActOnNetwork(nodes, ctx);
      case Complete =>
        OwesNothing(past, engine, |guards|, work, frontier, Complete, []);
        turn := CompleteTree(ctx, ids);
      case Invalid =>
        turn := InvalidPlan;
        OwesNothing(past, engine, |guards|, work, frontier, Invalid, []);
        TurnInvalid(work, frontier, ctx);
    }

    /** A full window: attached packets may only retire needs and free slots. */
    method FreeSlots(fed: PacketFeed, ghost ctx: TurnContext) returns (turn: PlanTurn)
      requires work.pending == map[]
      modifies this`frontier, this`progressSinceTimeout
      ensures TurnOk(work, work, old(frontier), frontier, turn, ctx)
      ensures WindowSent(turn, F.Retired(old(frontier), fed.resolved), frontier) && frontier.said == old(frontier).said
      ensures progressSinceTimeout == (old(progressSinceTimeout) || fed.useful)
    {
      hide W.WellFormed, F.WellFormed, TurnOk, F.Retired, F.Dispatched;
      RetireNetworkResolutions(fed.resolved);
      progressSinceTimeout := progressSinceTimeout || fed.useful;
      ghost var queue := frontier;
      var sent := DispatchNetworkBacklog();
      TurnNetwork(work, old(frontier), queue, |sent|, ctx);
      turn := NetworkOrContinue(sent);
    }

    /**
     * Advances the engine once, retires what the packets resolved and acts on
     * the outcome. Nodes drained with the step go first, whatever the step was.
     */
    method AdvanceAndAct(fed: PacketFeed, ctx: TurnContext, ids: IdCounter) returns (turn: PlanTurn, again: bool)
      requires engine.Some? && !cancelled && ids.Valid() && work.seen <= ids.mints
      requires work.pending == map[] && work.backlog == [] && frontier.backlog == [] && work.persistence == Idle
      requires Agreed(past, engine, |guards|, work, frontier)
      modifies this`engine, this`frontier, this`work, this`progressSinceTimeout, this`runs, this`guards, ids
      ensures engine.Some? && ids.Valid() && work.seen <= ids.mints
      ensures Agreed(past, engine, |guards|, work, frontier) && guards == old(guards) + [QUIET]
      ensures TurnOk(old(work), work, old(frontier), frontier, turn, ctx)
      ensures again ==> turn == Continue && work == old(work) && frontier.backlog == []
      ensures again <==> Continues(old(engine).value, fed.attached)
      ensures progressSinceTimeout == (old(progressSinceTimeout) || fed.useful)
      ensures engine == Some(EngineAfter(PassOf(old(engine).value)))
      ensures Answered(PassOf(old(engine).value), F.Retired(old(frontier), fed.resolved), work, frontier, turn, ctx)
    {
      hide W.WellFormed, F.WellFormed, TurnOk, Agreed, Owing, PassOf, RoundStarted, WindowSent, F.Retired, F.Announced;
      CompleteDrainsLater(engine.value);
      var outcome, ready, writes, sequence := AdvanceEngine(fed.attached);
      RetireNetworkResolutions(fed.resolved);
      RetiredOwes(past, engine, |guards|, work, old(frontier), frontier, outcome, writes);
      progressSinceTimeout := progressSinceTimeout || fed.useful;
      ghost var f := frontier;
      again := false;
      if writes != [] {
        turn := PersistIncremental(outcome, writes, sequence, ctx, ids);
      } else {
        turn, again := ActOnOutcome(outcome, ready, ctx, ids);
      }
      TurnAfter(old(work), work, old(frontier), f, frontier, turn, ctx);
    }

    /** Feeds packets and credits their senders. */
    method Nourish() returns (fed: PacketFeed)
      requires MailboxOk(packets, packetCount, packetBytes, maxPackets, maxBytes)
      modifies this`engine, this`packets, this`packetCount, this`packetBytes, this`usefulPeerScores
      ensures MailboxOk(packets, packetCount, packetBytes, maxPackets, maxBytes)
      ensures Sight() == Nourished(old(Sight())) && Voice(engine) == Voice(old(engine))
      ensures fed.resolved == ResolvedBy(old(Sight())) && fed.attached == AttachedBy(old(Sight())) && fed.useful == UsefulBy(old(Sight()))
    {
      hide W.WellFormed, F.WellFormed, MailboxOk, FeedAll, MaxScores;
      fed := FeedPackets();
      NoScores(usefulPeerScores, fed.usefulCounts);
      NoteUsefulPeers(fed.usefulCounts);
    }

    /** Feeds packets and opens lanes; the frontier is kept or starts a new epoch. */
    method Intake(sample: map<PeerId, nat> -> seq<PeerId>) returns (fed: PacketFeed)
      requires Valid() && !closed
      modifies this`engine, this`packets, this`packetCount, this`packetBytes, this`frontier,
               this`usefulPeerScores, this`networkLanes
      ensures Valid() && engine.Some? == old(engine).Some?
      ensures Sight() == Intaken(old(Sight()), sample)
      ensures fed.resolved == ResolvedBy(old(Sight())) && fed.attached == AttachedBy(old(Sight())) && fed.useful == UsefulBy(old(Sight()))
    {
      hide W.WellFormed, F.WellFormed, MailboxOk, F.EpochReset, Agreed, ClosedOk, Opened, Nourished, ResolvedBy, AttachedBy, UsefulBy;
      NourishedKeeps(Sight());
      fed := Nourish();
      OpenedKeeps(Sight(), sample);
      OpenReplyLanes(sample);
      SameRecord(past, old(engine), engine, |guards|, work, work, old(frontier), frontier);
    }

    /** After the packets: free slots of a full window, or advance. */
    method PassOnce(fed: PacketFeed, ctx: TurnContext, ids: IdCounter) returns (turn: PlanTurn, again: bool)
      requires Runnable() && ids.Valid() && work.seen <= ids.mints
      modifies this`engine, this`frontier, this`work, this`progressSinceTimeout, this`runs, this`guards, ids
      ensures Valid() && ids.Valid() && work.seen <= ids.mints
      ensures TurnOk(old(work), work, old(frontier), frontier, turn, ctx)
      ensures again ==> Runnable() && frontier.backlog == [] && turn == Continue && engine.Some? && work == old(work)
      ensures guards == old(guards) || guards == old(guards) + [QUIET]
      ensures old(frontier).backlog == [] && old(engine).Some? ==> guards == old(guards) + [QUIET]
      ensures ActedOn(old(Sight()), Sight(), fed.resolved, fed.attached, fed.useful, work, turn, again, ctx)
    {
      hide W.WellFormed, F.WellFormed, TurnOk, MailboxOk, Agreed, Answered, PassOf, F.Retired, WindowSent, EngineAfter, Continues;
      again := false;
      if frontier.backlog != [] && |frontier.retained| >= MAX_RETAINED_NETWORK_FRONTIER {
        turn := FreeSlots(fed, ctx);
        SameRecord(past, engine, engine, |guards|, work, work, old(frontier), frontier);
      } else if engine.None? {
        turn := Continue;
        TurnIdle(work, frontier, ctx);
      } else {
        turn, again := AdvanceAndAct(fed, ctx, ids);
      }
    }

    /** One pass of the turn loop: feed, open lanes, then either free slots or advance. */
    method RunOnce(ctx: TurnContext, ids: IdCounter, sample: map<PeerId, nat> -> seq<PeerId>)
      returns (turn: PlanTurn, again: bool)
      requires Runnable() && ids.Valid() && work.seen <= ids.mints
      modifies this`engine, this`packets, this`packetCount, this`packetBytes, this`frontier, this`work,
               this`usefulPeerScores, this`networkLanes, this`progressSinceTimeout, this`runs, this`guards, ids
      ensures Valid() && ids.Valid() && work.seen <= ids.mints
      ensures TurnOk(old(work), work, old(frontier), frontier, turn, ctx)
      ensures again ==> Runnable() && frontier.backlog == [] && turn == Continue && engine.Some? && work == old(work)
      ensures guards == old(guards) || guards == old(guards) + [QUIET]
      ensures old(frontier).backlog == [] && old(engine).Some? ==> guards == old(guards) + [QUIET]
      ensures Passed(old(Sight()), Sight(), work, turn, again, ctx, sample)
    {
      hide W.WellFormed, F.WellFormed, TurnOk, MailboxOk, F.EpochReset, Agreed, ActedOn, Nourished, Opened, ResolvedBy, AttachedBy, UsefulBy;
      OpenedKeeps(Nourished(Sight()), sample);
      NourishedKeeps(Sight());
      var fed := Intake(sample);
      ghost var f := frontier;
      turn, again := PassOnce(fed, ctx, ids);
      TurnAfter(old(work), work, old(frontier), f, frontier, turn, ctx);
    }

    /**
     * One bounded work turn. A cancelled plan, a pending write or fence and an
     * unfinished read round all yield nothing; then the read backlog, the
     * network backlog and finally the engine get their turn. `passes` are the
     * views before, between and after the passes of the loop.
     */
    method RunTurn(ctx: TurnContext, ids: IdCounter, sample: map<PeerId, nat> -> seq<PeerId>)
      returns (turn: PlanTurn, ghost passes: seq<View>)
      requires Valid() && ids.Valid() && work.seen <= ids.mints
      modifies this`engine, this`packets, this`packetCount, this`packetBytes, this`frontier, this`work,
               this`usefulPeerScores, this`networkLanes, this`progressSinceTimeout, this`runs, this`guards, ids
      ensures Valid() && ids.Valid() && work.seen <= ids.mints
      ensures cancelled || old(work).persistence != Idle || old(work).pending != map[] ==>
                turn == Continue && work == old(work) && Sight() == old(Sight()) && guards == old(guards)
      ensures !cancelled && old(work).persistence == Idle && old(work).pending == map[] ==>
                TurnOk(old(work), work, old(frontier), frontier, turn, ctx)
      ensures |guards| <= |old(guards)| + MAX_TURNS_PER_EVENT
      ensures !cancelled && old(work).persistence == Idle && old(work).pending == map[] ==>
                && (old(work).backlog != [] ==>
                      RoundStarted(turn, old(work).backlog, work, ctx) && Sight() == old(Sight()) && guards == old(guards))
                && (old(work).backlog == [] && old(frontier).backlog != [] && |old(frontier).retained| < MAX_RETAINED_NETWORK_FRONTIER ==>
                      WindowSent(turn, old(frontier), frontier) && Sight() == old(Sight()).(frontier := frontier)
                      && work == old(work) && guards == old(guards))
                && (old(work).backlog == [] && Full(old(frontier)) && old(packets) == [] ==>
                      turn == Continue && Sight() == old(Sight()) && work == old(work) && guards == old(guards))
                && (old(work).backlog == [] && old(frontier).backlog == [] && old(engine).Some? ==> |guards| > |old(guards)|)
      ensures !cancelled && old(work).persistence == Idle && old(work).pending == map[] && old(work).backlog == []
              && (old(frontier).backlog == [] || (Full(old(frontier)) && old(packets) != [])) ==>
                Looped(passes, old(Sight()), Sight(), old(work), work, turn, ctx, sample)
    {
      hide W.WellFormed, F.WellFormed, TurnOk, MailboxOk, Agreed, RoundStarted, WindowSent, ClosedOk, F.Dispatched, Looped;
      passes := [Sight()];
      if cancelled || work.persistence != Idle || work.pending != map[] {
        turn := Continue;
        return;
      }
      if work.backlog != [] {
        turn := DrainReads(ctx, ids);
        return;
      }
      TurnIdle(work, frontier, ctx);
      if frontier.backlog != [] {
        var sent := DispatchWaiting(ctx);
        if sent != [] || packets == [] {
          turn := NetworkOrContinue(sent);
          return;
        }
      }
      turn, passes := Work(ctx, ids, sample);
    }

    /** A waiting read round goes in flight, oldest first, up to the cap. */
    method DrainReads(ctx: TurnContext, ids: IdCounter) returns (turn: PlanTurn)
      requires Valid() && work.pending == map[] && work.backlog != [] && ids.Valid() && work.seen <= ids.mints
      modifies this`work, ids
      ensures Valid() && ids.Valid() && work.seen <= ids.mints && TurnOk(old(work), work, frontier, frontier, turn, ctx)
      ensures RoundStarted(turn, old(work).backlog, work, ctx)
    {
      hide W.WellFormed, F.WellFormed, TurnOk, MailboxOk, Dispatched;
      var requests;
      ghost var before := work;
      work, requests := W.DrainBacklog(work, ctx, ids);
      TurnReads(before, work, frontier, requests, before.backlog, ctx);
      W.RoundInTable(requests, before.backlog, work.pending, ctx);
      assert requests == [] ==> work.pending.Keys == {};
      turn := ReadsOrContinue(requests);
    }

    /** The waiting needs the window has room for. */
    method DispatchWaiting(ghost ctx: TurnContext) returns (sent: seq<NetworkNeed>)
      requires Valid() && work.pending == map[] && frontier.backlog != []
      modifies this`frontier
      ensures Valid() && TurnOk(work, work, old(frontier), frontier, NetworkOrContinue(sent), ctx)
      ensures WindowSent(NetworkOrContinue(sent), old(frontier), frontier)
      ensures sent == [] <==> |old(frontier).retained| >= MAX_RETAINED_NETWORK_FRONTIER
      ensures sent == [] ==> frontier == old(frontier)
    {
      hide W.WellFormed, F.WellFormed, TurnOk, MailboxOk;
      sent := DispatchNetworkBacklog();
      TurnNetwork(work, old(frontier), old(frontier), |sent|, ctx);
      if sent == [] {
        F.DispatchNothing(old(frontier));
      }
    }

    /** The bounded loop of feeding and advancing. */
    method Work(ctx: TurnContext, ids: IdCounter, sample: map<PeerId, nat> -> seq<PeerId>)
      returns (turn: PlanTurn, ghost passes: seq<View>)
      requires Runnable() && ids.Valid() && work.seen <= ids.mints
      modifies this`engine, this`packets, this`packetCount, this`packetBytes, this`frontier, this`work,
               this`usefulPeerScores, this`networkLanes, this`progressSinceTimeout, this`runs, this`guards, ids
      ensures Valid() && ids.Valid() && work.seen <= ids.mints
      ensures TurnOk(old(work), work, old(frontier), frontier, turn, ctx)
      ensures |guards| <= |old(guards)| + MAX_TURNS_PER_EVENT
      ensures old(frontier).backlog == [] && old(engine).Some? ==> |guards| > |old(guards)|
      ensures Looped(passes, old(Sight()), Sight(), old(work), work, turn, ctx, sample)
    {
      hide W.WellFormed, F.WellFormed, TurnOk, MailboxOk, Agreed, Passed, GoneOn, Looped;
      TurnIdle(work, frontier, ctx);
      var turns := 0;
      var again := true;
      turn, passes := Continue, [Sight()];
      StartLoop(Sight(), work, ctx, sample);
      while again && turns < MAX_TURNS_PER_EVENT
        invariant turns <= MAX_TURNS_PER_EVENT && |guards| <= |old(guards)| + turns
        invariant Valid() && ids.Valid() && work.seen <= ids.mints && !cancelled
        invariant again ==> Runnable() && turn == Continue && work == old(work)
        invariant TurnOk(old(work), work, old(frontier), frontier, turn, ctx)
        invariant turns == 0 ==> again && Sight() == old(Sight()) && guards == old(guards)
        invariant turns > 0 && old(frontier).backlog == [] && old(engine).Some? ==> |guards| > |old(guards)|
        invariant |passes| == turns + 1 && passes[0] == old(Sight()) && passes[turns] == Sight()
        invariant if again then GoneOn(passes, old(work), ctx, sample)
                  else turns > 0 && GoneOn(passes[..turns], old(work), ctx, sample)
                       && Passed(passes[turns - 1], passes[turns], work, turn, false, ctx, sample)
        decreases MAX_TURNS_PER_EVENT - turns
      {
        ghost var w, f, v := work, frontier, Sight();
        turn, again := RunOnce(ctx, ids, sample);
        TurnsCompose(old(work), w, work, old(frontier), f, frontier, turn, ctx);
        turns := turns + 1;
        if again {
          GoneOnStep(passes, Sight(), w, ctx, sample);
        }
        passes := passes + [Sight()];
        assert passes[..turns] == passes[..turns];
      }
      EndLoop(passes, Sight(), old(work), work, turn, again, ctx, sample);
    }

    // ----- completions -----

    /** An ordinary completion: keyed by hash, it retires no network need. */
    method OnOrdinaryRead(op: OperationRef) returns (verdict: ReadVerdict)
      requires Valid() && engine.Some? && op.kind == Read
      modifies this`engine, this`work, this`progressSinceTimeout
      ensures Valid() && engine.Some?
      ensures verdict == ReadConsumed <==> op in old(work).pending.Values
      ensures verdict == ReadStale ==> work == old(work) && engine == old(engine)
      ensures verdict == ReadConsumed ==>
                exists h :: h in old(work).pending && old(work).pending[h] == op && work == W.ReadApplied(old(work), h)
      ensures closed ==> verdict == ReadStale
    {
      hide W.WellFormed, F.WellFormed, MailboxOk, W.ReadApplied;
      if op !in work.pending.Values {
        return ReadStale;
      }
      var h :| h in work.pending && work.pending[h] == op;
      var answer := engine.value.Now().readApply;
      work := W.ReadApplied(work, h);
      assert old(work).pending[h] == op && work == W.ReadApplied(old(work), h);
      engine := Some(engine.value.Ticked());
      progressSinceTimeout := progressSinceTimeout || (answer.Applied? && answer.attachedEdges >= 1);
      verdict := ReadConsumed;
    }

    /** A recovery completion: bound to one exact need, which it retires if it attached. */
    method OnRecoveryRead(op: OperationRef) returns (verdict: ReadVerdict)
      requires Valid() && engine.Some? && op.kind == RecoveryRead
      modifies this`engine, this`work, this`frontier, this`progressSinceTimeout
      ensures Valid() && engine.Some?
      ensures verdict == ReadConsumed <==> op in old(work).recovery
      ensures verdict == ReadStale ==> work == old(work) && frontier == old(frontier) && engine == old(engine)
      ensures verdict == ReadConsumed ==>
                && work == W.RecoveryApplied(old(work), op)
                && frontier == (if old(engine).value.Now().readApply.Applied?
                                then F.Retired(old(frontier), [old(work).recovery[op]]) else old(frontier))
      ensures closed ==> verdict == ReadStale
    {
      hide W.WellFormed, F.WellFormed, MailboxOk, W.RecoveryApplied, F.Retired;
      if op !in work.recovery {
        return ReadStale;
      }
      var need, answer := work.recovery[op], engine.value.Now().readApply;
      work := W.RecoveryApplied(work, op);
      if answer.Applied? {
        frontier := F.Retired(frontier, [need]);
      }
      engine := Some(engine.value.Ticked());
      progressSinceTimeout := progressSinceTimeout || (answer.Applied? && answer.attachedEdges >= 1);
      verdict := ReadConsumed;
    }

    /** Applies a read completion; only the exact operation in flight is acted on. */
    method OnRead(op: OperationRef) returns (verdict: ReadVerdict)
      requires Valid()
      modifies this`engine, this`work, this`frontier, this`progressSinceTimeout
      ensures Valid() && engine.Some? == old(engine).Some?
      ensures verdict == ReadConsumed <==>
                old(engine).Some? && ((op.kind == Read && op in old(work).pending.Values)
                                      || (op.kind == RecoveryRead && op in old(work).recovery))
      ensures verdict == ReadStale ==> work == old(work) && frontier == old(frontier) && engine == old(engine)
      ensures verdict == ReadConsumed && op.kind == Read ==>
                exists h :: h in old(work).pending && old(work).pending[h] == op && work == W.ReadApplied(old(work), h)
      ensures verdict == ReadConsumed && op.kind == RecoveryRead ==>
                && work == W.RecoveryApplied(old(work), op)
                && frontier == (if old(engine).value.Now().readApply.Applied?
                                then F.Retired(old(frontier), [old(work).recovery[op]]) else old(frontier))
      ensures op.kind == Read ==> frontier == old(frontier)
      ensures closed ==> verdict == ReadStale
    {
      hide W.WellFormed, F.WellFormed, MailboxOk;
      if engine.None? {
        verdict := ReadStale;
      } else if op.kind == Read {
        verdict := OnOrdinaryRead(op);
      } else if op.kind == RecoveryRead {
        verdict := OnRecoveryRead(op);
      } else {
        verdict := ReadStale;
      }
    }

    /** Applies a write completion to the exact write in flight. */
    method OnWrite(op: OperationRef, outcome: WriteOutcome) returns (verdict: WriteVerdict)
      requires Valid()
      modifies this`engine, this`work
      ensures Valid() && engine.Some? == old(engine).Some?
      ensures verdict == StaleWrite <==>
                || outcome == WriteStale || op.kind != Write
                || !(old(work).persistence.IncrementalWritePending? || old(work).persistence.FinalWritePending?)
                || W.WriteOperation(old(work).persistence) != op
      ensures verdict == StaleWrite ==> work == old(work) && engine == old(engine)
      ensures verdict != StaleWrite ==> work == W.WriteSettledWork(old(work), outcome, old(engine).Some?)
      ensures verdict != StaleWrite ==>
                engine == if outcome == WriteAccepted && old(engine).Some? then Some(old(engine).value.Accepted()) else old(engine)
      ensures verdict != StaleWrite ==>
                work.persistence == match outcome
                                    case WriteAccepted => if old(work).persistence.FinalWritePending?
                                                          then FencePending(old(work).persistence.fence) else Idle
                                    case WriteFailed => PlanModel.Persistence.Failed(WriteFailure)
                                    case _ => Idle
      ensures verdict == IncrementalAccepted <==>
                verdict != StaleWrite && outcome == WriteAccepted && old(work).persistence.IncrementalWritePending?
      ensures verdict == FinalAccepted <==>
                verdict != StaleWrite && outcome == WriteAccepted && old(work).persistence.FinalWritePending?
      ensures closed ==> verdict == StaleWrite
    {
      hide W.WellFormed, F.WellFormed, MailboxOk;
      var p := work.persistence;
      if op.kind != Write || !(p.IncrementalWritePending? || p.FinalWritePending?)
         || !W.WriteOperation(p).IsExpectedFor(op) || outcome == WriteStale
      {
        return StaleWrite;
      }
      work := W.WriteSettledWork(work, outcome, engine.Some?);
      match outcome
      case WriteAccepted =>
        if engine.Some? {
          engine := Some(engine.value.Accepted());
        }
        verdict := if p.FinalWritePending? then FinalAccepted else IncrementalAccepted;
      case WriteFailed =>
        verdict := WriteFailedVerdict;
      case WriteCancelled =>
        verdict := StoreRotated;
    }

    /** Applies a fence completion to the exact fence in flight. */
    method OnDurability(op: OperationRef, outcome: DurabilityOutcome) returns (verdict: FenceVerdict)
      requires Valid()
      modifies this`work
      ensures Valid()
      ensures verdict == StaleFence <==>
                || outcome == FenceStale || op.kind != DurabilityFence
                || !old(work).persistence.FencePending? || old(work).persistence.fenceOperation != op
      ensures verdict == StaleFence ==> work == old(work)
      ensures verdict != StaleFence ==> work == W.FenceSettledWork(old(work), outcome)
      ensures verdict != StaleFence ==>
                work.persistence == if outcome == FencePassed then Durable else PlanModel.Persistence.Failed(DurabilityFenceFailed)
      ensures verdict == DurableVerdict <==> old(work).persistence.FencePending? && work.persistence == Durable
      ensures closed ==> verdict == StaleFence
    {
      hide W.WellFormed, F.WellFormed, MailboxOk;
      var p := work.persistence;
      if op.kind != DurabilityFence || !p.FencePending? || !p.fenceOperation.IsExpectedFor(op) || outcome == FenceStale {
        return StaleFence;
      }
      work := W.FenceSettledWork(work, outcome);
      verdict := if outcome == FencePassed then DurableVerdict else FenceFailedVerdict;
    }

    // ----- timeouts -----

    /** Only a no-progress interval consumes budget; exceeding it cancels without clearing. */
    method OnTimeout(noProgress: bool) returns (verdict: TimeoutVerdict)
      requires Valid()
      modifies this`timeouts, this`cancelled
      ensures Valid()
      ensures old(cancelled) ==> verdict == TimeoutFail && cancelled && timeouts == old(timeouts)
      ensures !old(cancelled) && !noProgress ==> verdict == TimeoutContinue && !cancelled && timeouts == old(timeouts)
      ensures !old(cancelled) && noProgress ==>
                && timeouts == Min(old(timeouts) + 1, Max(old(timeouts), U32_MAX))
                && (verdict == TimeoutFail <==> timeouts > maxTimeouts) && (cancelled <==> timeouts > maxTimeouts)
    {
      hide W.WellFormed, F.WellFormed, MailboxOk;
      if cancelled {
        return TimeoutFail;
      }
      if !noProgress {
        return TimeoutContinue;
      }
      if timeouts < U32_MAX {
        timeouts := timeouts + 1;
      }
      if timeouts > maxTimeouts {
        cancelled := true;
        verdict := TimeoutFail;
      } else {
        verdict := TimeoutContinue;
      }
    }

    /** A timeout scan clears the recent set and queues its lanes; a first lane rescans. */
    method BeginTimeoutScan(existing: seq<PeerId>, added: seq<PeerId>)
      requires Valid()
      modifies this`frontier, this`networkLanes, this`engine
      ensures Valid() && frontier == F.RecentCleared(old(frontier)) && engine.Some? == old(engine).Some?
      ensures networkLanes == old(networkLanes) + [TimeoutLane(existing)]
                              + seq(|added|, i requires 0 <= i < |added| => AddedLane(added[i]))
      ensures old(networkLanes) != [] ==> engine == old(engine)
    {
      hide W.WellFormed, F.WellFormed, MailboxOk;
      frontier := F.RecentCleared(frontier);
      var wasEmpty := networkLanes == [];
      networkLanes := networkLanes + [TimeoutLane(existing)]
                      + seq(|added|, i requires 0 <= i < |added| => AddedLane(added[i]));
      if wasEmpty && engine.Some? {
        engine := Some(engine.value.Ticked());
      }
    }

    /** The front lane is done: its unrequested tail is discarded, the next lane rescans. */
    method FinishNetworkLane()
      requires Valid()
      modifies this`frontier, this`networkLanes, this`engine
      ensures Valid() && engine.Some? == old(engine).Some?
      ensures old(networkLanes) == [] ==> networkLanes == [] && frontier == old(frontier)
      ensures old(networkLanes) != [] ==>
                networkLanes == old(networkLanes)[1..] && frontier == F.TailDiscarded(old(frontier))
    {
      hide W.WellFormed, F.WellFormed, MailboxOk, F.TailDiscarded;
      if networkLanes != [] {
        networkLanes := networkLanes[1..];
        frontier := F.TailDiscarded(frontier);
        if engine.Some? {
          engine := Some(engine.value.Ticked());
        }
      }
      if networkLanes != [] && engine.Some? {
        engine := Some(engine.value.Ticked());
      }
    }

    /**
     * Re-reads retained needs locally. A need already under recovery, a repeated
     * hash and a full table are skipped. Each new request counts twice against
     * the cap, once as pending and once as requested.
     */
    method ReprobeNetworkBatch(batch: seq<NetworkNeed>, ctx: TurnContext, ids: IdCounter)
      returns (requests: seq<ReadRequest>)
      requires Valid() && ids.Valid() && work.seen <= ids.mints
      modifies this`work, ids
      ensures Valid() && ids.Valid() && work.seen <= ids.mints
      ensures cancelled || old(work).persistence != Idle || engine.None? ==> requests == [] && work == old(work)
      ensures engine.Some? && NonZero(engine.value.Now().ledgerSequence).None? ==> requests == [] && work == old(work)
      ensures W.Reprobed(old(work), work, requests, batch)
      ensures !cancelled && old(work).persistence == Idle && engine.Some?
              && NonZero(engine.value.Now().ledgerSequence).Some? && work.seen < FRESH_IDS ==>
                W.Probed(old(work), work, requests, W.Eligible(old(work).recovery.Values, batch))
    {
      hide W.WellFormed, F.WellFormed, MailboxOk, W.Reprobed, W.Probed, W.Eligible, Agreed, ClosedOk;
      requests := [];
      W.ReprobedNothing(work, batch);
      if cancelled || work.persistence != Idle || engine.None? {
        return;
      }
      var sequence := NonZero(engine.value.Now().ledgerSequence);
      if sequence.None? {
        return;
      }
      work, requests := W.Reprobe(work, batch, sequence.value, ctx, ids);
      W.ReprobedKeeps(old(work), work, requests, batch);
      SameRecord(past, engine, engine, |guards|, old(work), work, frontier, frontier);
    }

    // ----- lifecycle -----

    /** Installs the seeded engine; a live or cancelled plan keeps what it has. */
    method InstallEngine(seeded: Engine) returns (installed: bool)
      requires Valid()
      modifies this`engine
      ensures Valid() && (installed <==> !cancelled && old(engine).None?)
      ensures engine == if installed then Some(seeded.Seeded()) else old(engine)
    {
      if cancelled || engine.Some? {
        return false;
      }
      engine := Some(seeded.Seeded());
      installed := true;
    }

    method NoteProgress()
      requires Valid()
      modifies this`progressSinceTimeout
      ensures Valid() && progressSinceTimeout
    {
      progressSinceTimeout := true;
    }

    method TakeNoProgressInterval() returns (quiet: bool)
      requires Valid()
      modifies this`progressSinceTimeout
      ensures Valid() && quiet == !old(progressSinceTimeout) && !progressSinceTimeout
    {
      quiet := !progressSinceTimeout;
      progressSinceTimeout := false;
    }

    /** Suspends read identities only: late completions become stale, all else is kept. */
    method SuspendForDormancy()
      requires Valid()
      modifies this`engine, this`work
      ensures Valid() && engine.Some? == old(engine).Some? && work == W.Suspended(old(work))
      ensures work.pending == map[] && work.recovery == map[] && work.backlog == old(work).backlog
      ensures work.persistence == old(work).persistence
    {
      hide W.WellFormed, F.WellFormed, MailboxOk;
      if engine.Some? {
        engine := Some(engine.value.Ticked());
      }
      work := W.Suspended(work);
    }

    /** Drops queued packets, peer scores and lanes. */
    method ClearIntake()
      requires Valid()
      modifies this`packets, this`packetCount, this`packetBytes, this`usefulPeerScores, this`networkLanes
      ensures Valid() && packets == [] && networkLanes == [] && usefulPeerScores == map[]
    {
      hide W.WellFormed, F.WellFormed, Agreed, MailboxOk, ClosedOk;
      EmptyMailbox(maxPackets, maxBytes);
      packets, packetCount, packetBytes := [], 0, 0;
      usefulPeerScores, networkLanes := map[], [];
    }

    /** Revokes all work, empties the frontier and closes the plan. */
    method CloseWork()
      requires Valid()
      modifies this`frontier, this`work, this`cancelled, this`closed, this`readsAtClose, this`writesAtClose
      ensures Valid() && closed && cancelled
      ensures old(closed) ==> readsAtClose == old(readsAtClose) && writesAtClose == old(writesAtClose)
      ensures work == W.CancelledWork(old(work)) && frontier == F.Closed(old(frontier))
    {
      hide W.WellFormed, F.WellFormed, W.CancelledWork, W.CancelState, F.Closed, LiveOps, Agreed, MailboxOk, ClosedOk;
      ClosingOk(work, frontier);
      if closed {
        ClosedLengths(work, frontier, readsAtClose, writesAtClose);
      }
      SameRecord(past, engine, engine, |guards|, work, W.CancelledWork(work), frontier, F.Closed(frontier));
      closed, readsAtClose, writesAtClose := true, |work.readLog|, |work.writeLog|;
      cancelled := true;
      work, frontier := W.CancelledWork(work), F.Closed(frontier);
    }

    /** Clears every queued and in-flight resource but the engine, and closes the plan. */
    method TerminalizeRetainingEngine()
      requires Valid()
      modifies this`packets, this`packetCount, this`packetBytes, this`frontier, this`work,
               this`usefulPeerScores, this`networkLanes, this`cancelled, this`closed, this`readsAtClose, this`writesAtClose
      ensures Valid() && closed && cancelled
      ensures old(closed) ==> readsAtClose == old(readsAtClose) && writesAtClose == old(writesAtClose)
      ensures packets == [] && networkLanes == [] && usefulPeerScores == map[]
      ensures work == W.CancelledWork(old(work)) && frontier == F.Closed(old(frontier))
    {
      hide W.WellFormed, F.WellFormed, W.CancelledWork, W.CancelState, F.Closed, SessionPlan.Valid;
      ClearIntake();
      CloseWork();
    }

    /** The same, without the engine. */
    method Cancel()
      requires Valid()
      modifies this`engine, this`packets, this`packetCount, this`packetBytes, this`frontier, this`work,
               this`usefulPeerScores, this`networkLanes, this`cancelled, this`closed, this`readsAtClose, this`writesAtClose,
               this`past
      ensures Valid() && closed && cancelled && engine == None
      ensures old(closed) ==> readsAtClose == old(readsAtClose) && writesAtClose == old(writesAtClose)
      ensures packets == [] && networkLanes == [] && usefulPeerScores == map[]
      ensures work == W.CancelledWork(old(work)) && frontier == F.Closed(old(frontier))
    {
      hide W.WellFormed, F.WellFormed, MailboxOk, W.CancelledWork, W.CancelState, LiveOps, F.Closed, F.EpochReset, Agreed, Joined;
      TerminalizeRetainingEngine();
      ReleasedAgrees(past, engine, |guards|, work, frontier);
      past := Joined(past, Voice(engine));
      engine := None;
    }

    method ReleaseRetainedEngine()
      requires Valid()
      modifies this`engine, this`work, this`past
      ensures Valid() && engine == None && work == W.Released(old(work))
    {
      hide W.WellFormed, F.WellFormed, MailboxOk;
      ReleasedAgrees(past, engine, |guards|, work, frontier);
      past := Joined(past, Voice(engine));
      engine := None;
      work := W.Released(work);
    }
  }
}
