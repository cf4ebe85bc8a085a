/**
 * The values a session plan handles, the tree engine it owns, and the
 * specification of its frontier queues and read tables.
 */
module PlanModel {
  import opened Arith
  import opened Identity

  const MAX_TURNS_PER_EVENT: nat := 4
  const MAX_PACKETS_FED_PER_TURN: nat := 4
  const MAX_RETAINED_NETWORK_FRONTIER: nat := 6 * 128
  const MAX_TIMEOUT_REPROBES: nat := 12
  const U32_MAX: nat := 0xffff_ffff

  type NodeId = nat
  type PeerId = nat

  datatype TreeKind = StateTree | TransactionTree

  datatype ReadNeed = ReadNeed(hash: Hash, ledgerSeq: nat, nodeId: NodeId, branch: nat)

  datatype NetworkNeed = NetworkNeed(nodeId: NodeId, hash: Hash, kind: TreeKind)

  predicate DistinctHashes(needs: seq<ReadNeed>) {
    forall i, j :: 0 <= i < j < |needs| ==> needs[i].hash != needs[j].hash
  }

  /** The engine port promises unique missing nodes in one announcement. */
  type ReadBatch = needs: seq<ReadNeed> | DistinctHashes(needs) witness []

  datatype StepOutcome =
    | Ready
    | NeedsReads(needs: ReadBatch)
    | NeedsNetwork(nodes: seq<NetworkNeed>)
    | Complete
    | Invalid

  datatype ReadApply =
    | Applied(attachedEdges: nat, missingEdges: nat)
    | Requeued | Cancelled | StalePlan | HashMismatch | UnknownRead

  datatype NetworkApply = NetworkApply(attachment: ReadApply, useful: bool, invalid: bool)

  datatype PersistNode = PersistNode(key: Hash, data: nat)

  /** Everything an engine may say at one moment of its life. */
  datatype EngineAnswer = EngineAnswer(
    step: StepOutcome,
    persistable: seq<PersistNode>,
    readApply: ReadApply,
    networkApply: NetworkApply,
    runnable: bool,
    branchSteps: nat,
    ledgerSequence: Option<nat>,
    persistenceSequence: Option<nat>)

  /**
   * What passed between an engine and its plan: advances made, reads, needs and
   * nodes the engine gave out, and acceptances it was told of.
   */
  datatype Transcript = Transcript(
    steps: nat, wanted: multiset<Hash>, needs: seq<NetworkNeed>, nodes: seq<PersistNode>, accepted: nat)

  const SILENCE := Transcript(0, multiset{}, [], [], 0)

  ghost function Joined(a: Transcript, b: Transcript): Transcript {
    Transcript(a.steps + b.steps, a.wanted + b.wanted, a.needs + b.needs, a.nodes + b.nodes, a.accepted + b.accepted)
  }

  lemma JoinedSilence(a: Transcript)
    ensures Joined(a, SILENCE) == a
  {
    assert a.wanted + multiset{} == a.wanted && a.needs + [] == a.needs && a.nodes + [] == a.nodes;
  }

  function ReadsOf(step: StepOutcome): multiset<Hash> {
    if step.NeedsReads? then multiset(ReadHashes(step.needs)) else multiset{}
  }

  function NeedsOf(step: StepOutcome): seq<NetworkNeed> {
    if step.NeedsNetwork? then step.nodes else []
  }

  /**
   * The uniquely owned tree engine, as an adversary: `answer` is an arbitrary
   * function of the number of calls that changed the engine so far. Queries do
   * not advance the clock, mutating calls do. The engine keeps the transcript
   * itself: advancing, draining and accepting are the only calls that extend it.
   */
  datatype Engine = Engine(answer: nat -> EngineAnswer, clock: nat, ghost heard: Transcript)
  {
    function Now(): EngineAnswer { answer(clock) }

    function Ticked(): Engine { this.(clock := clock + 1) }

    /** After `advance` has returned `Now().step`. */
    function Stepped(): Engine {
      Ticked().(heard := heard.(steps := heard.steps + 1, wanted := heard.wanted + ReadsOf(Now().step),
                                needs := heard.needs + NeedsOf(Now().step)))
    }

    /** After `take_persistable_nodes` has returned `Now().persistable`. */
    function Drained(): Engine { Ticked().(heard := heard.(nodes := heard.nodes + Now().persistable)) }

    /** After `on_persistence_accepted`. */
    function Accepted(): Engine { Ticked().(heard := heard.(accepted := heard.accepted + 1)) }

    /** A newly installed engine has not spoken to this plan. */
    function Seeded(): Engine { this.(heard := SILENCE) }
  }

  /** What one advance yields: the step, the nodes drained with it and the ledger sequence known after. */
  datatype Pass = Pass(outcome: StepOutcome, writes: seq<PersistNode>, sequence: Option<nat>, after: Engine)

  /** A completed step leaves the drain to the final batch. */
  function PassOf(e: Engine): Pass {
    var outcome, stepped := e.Now().step, e.Stepped();
    if outcome == Complete then Pass(outcome, [], stepped.Now().ledgerSequence, stepped)
    else Pass(outcome, stepped.Now().persistable, stepped.Drained().Now().ledgerSequence, stepped.Drained())
  }

  /** A nonzero ledger sequence, if the engine has one. */
  function NonZero(sequence: Option<nat>): Option<nat> {
    if sequence.Some? && sequence.value != 0 then sequence else None
  }

  // ----- Packets ------------------------------------------------------------

  datatype PacketKind = Base | StateNodes | TransactionNodes

  /** One wire node: its decoded hash (None when malformed) and its node id, if any. */
  datatype WireNode = WireNode(decoded: Option<Hash>, nodeId: Option<NodeId>)

  datatype Packet = Packet(
    packetCount: nat, byteCount: nat, peer: PeerId, kind: PacketKind, nodes: seq<WireNode>)

  function TotalPackets(packets: seq<Packet>): nat {
    if packets == [] then 0 else packets[0].packetCount + TotalPackets(packets[1..])
  }

  function TotalBytes(packets: seq<Packet>): nat {
    if packets == [] then 0 else packets[0].byteCount + TotalBytes(packets[1..])
  }

  lemma TotalsAppend(packets: seq<Packet>, p: Packet)
    ensures TotalPackets(packets + [p]) == TotalPackets(packets) + p.packetCount
    ensures TotalBytes(packets + [p]) == TotalBytes(packets) + p.byteCount
  {
    if packets != [] {
      assert (packets + [p])[1..] == packets[1..] + [p];
      TotalsAppend(packets[1..], p);
    }
  }

  datatype PacketFeed = PacketFeed(
    attached: bool, useful: bool, nodesSeen: nat, malformed: nat,
    usefulCounts: map<PeerId, nat>, resolved: seq<NetworkNeed>)

  const EMPTY_FEED := PacketFeed(false, false, 0, 0, map[], [])

  function Min(a: int, b: int): int { if a < b then a else b }

  /** Pointwise maximum of two score tables. */
  function MaxScores(a: map<PeerId, nat>, b: map<PeerId, nat>): (r: map<PeerId, nat>)
    ensures forall p :: p in r <==> p in a || p in b
    ensures forall p :: p in a ==> a[p] <= r[p] && (p !in b ==> r[p] == a[p])
    ensures forall p :: p in b ==> b[p] <= r[p] && (p !in a ==> r[p] == b[p])
    ensures forall p :: p in a && p in b ==> r[p] == a[p] || r[p] == b[p]
  {
    map p | p in a.Keys + b.Keys ::
      if p in a && p in b then Max(a[p], b[p]) else if p in a then a[p] else b[p]
  }

  function MergeFeeds(a: PacketFeed, b: PacketFeed): PacketFeed {
    PacketFeed(a.attached || b.attached, a.useful || b.useful,
               a.nodesSeen + b.nodesSeen, a.malformed + b.malformed,
               MaxScores(a.usefulCounts, b.usefulCounts), a.resolved + b.resolved)
  }

  // ----- Operations and persistence -----------------------------------------

  datatype ReadPriority = ConsensusPriority | HistoryPriority

  datatype TurnContext = TurnContext(
    session: SessionRef, storeGeneration: nat, priority: ReadPriority)

  datatype ReadRequest = ReadRequest(
    operation: OperationRef, key: Hash, ledgerSequence: nat,
    storeGeneration: nat, priority: ReadPriority)

  datatype WriteBatch = WriteBatch(
    operation: OperationRef, fence: Option<OperationRef>,
    storeGeneration: nat, ledgerSequence: nat, nodes: seq<PersistNode>)

  datatype FailureReason = WriteFailure | DurabilityFenceFailed

  datatype Persistence =
    | Idle
    | IncrementalWritePending(operation: OperationRef)
    | FinalWritePending(write: OperationRef, fence: OperationRef)
    | FencePending(fenceOperation: OperationRef)
    | Durable
    | Failed(reason: FailureReason)

  datatype WriteOutcome = WriteAccepted | WriteFailed | WriteStale | WriteCancelled
  datatype DurabilityOutcome = FencePassed | FenceFailed | FenceStale

  datatype PlanTurn =
    | Continue
    | Reads(requests: seq<ReadRequest>)
    | Network(needs: seq<NetworkNeed>)
    | Persist(batch: WriteBatch)
    | InvalidPlan

  datatype ReadVerdict = ReadConsumed | ReadStale
  datatype WriteVerdict = IncrementalAccepted | FinalAccepted | WriteFailedVerdict | StoreRotated | StaleWrite
  datatype FenceVerdict = DurableVerdict | FenceFailedVerdict | StaleFence
  datatype TimeoutVerdict = TimeoutContinue | TimeoutFail

  datatype NetworkLane = ReplyLane(peer: PeerId) | AddedLane(added: PeerId) | TimeoutLane(peers: seq<PeerId>)

  /** One write or fence completion that the plan acted on. */
  datatype Settlement = WriteSettled(operation: OperationRef, write: WriteOutcome)
                      | FenceSettled(operation: OperationRef, fence: DurabilityOutcome)

  function Last<T>(s: seq<T>): T
    requires s != []
  {
    s[|s| - 1]
  }

  // ----- Sequences without repetitions ---------------------------------------

  predicate Distinct<T(==)>(s: seq<T>) {
    forall i, j :: 0 <= i < j < |s| ==> s[i] != s[j]
  }

  function HashesOf(needs: seq<NetworkNeed>): set<Hash> {
    set n | n in needs :: n.hash
  }

  function ReadHashes(needs: seq<ReadNeed>): set<Hash> {
    set n | n in needs :: n.hash
  }

  /** Order-preserving removal of every need in `gone`. */
  function Without(s: seq<NetworkNeed>, gone: seq<NetworkNeed>): (r: seq<NetworkNeed>)
    ensures |r| <= |s|
    ensures forall n :: n in r <==> n in s && n !in gone
    ensures Distinct(s) ==> Distinct(r)
  {
    if s == [] then []
    else if Last(s) in gone then Without(s[..|s| - 1], gone)
    else Without(s[..|s| - 1], gone) + [Last(s)]
  }

  /** What announcing `nodes` adds to a backlog: unseen, unretained, unqueued needs, in order. */
  function Enqueued(backlog: seq<NetworkNeed>, retained: seq<NetworkNeed>,
                    recent: set<Hash>, nodes: seq<NetworkNeed>): (r: seq<NetworkNeed>)
    ensures |backlog| <= |r| <= |backlog| + |nodes| && r[..|backlog|] == backlog
    ensures forall n :: n in r <==> n in backlog || (n in nodes && n.hash !in recent && n !in retained)
    ensures Distinct(backlog) ==> Distinct(r)
    decreases |nodes|
  {
    if nodes == [] then backlog
    else
      var n := nodes[0];
      assert forall m :: m in nodes <==> m == n || m in nodes[1..];
      Enqueued(if n.hash in recent || n in retained || n in backlog then backlog else backlog + [n],
               retained, recent, nodes[1..])
  }

  // ----- Frontier -------------------------------------------------------------

  predicate CursorOk(cursor: nat, len: nat) {
    if len == 0 then cursor == 0 else cursor < len
  }

  /** The cross-queue consistency of the network frontier. */
  ghost predicate FrontierOk(retained: seq<NetworkNeed>, unemitted: seq<NetworkNeed>,
                             backlog: seq<NetworkNeed>, pending: set<Hash>, cursor: nat)
  {
    && Distinct(retained) && Distinct(backlog) && Distinct(unemitted)
    && (forall n :: n in backlog ==> n !in retained)
    && (forall n :: n in unemitted ==> n in retained)
    && |retained| <= MAX_RETAINED_NETWORK_FRONTIER
    && pending == HashesOf(retained) + HashesOf(backlog)
    && CursorOk(cursor, |retained|)
  }

  /** Needs placed in normal peer batches since the recent-node set was last cleared. */
  ghost predicate EmissionOk(emitted: seq<NetworkNeed>, recent: set<Hash>,
                             unemitted: seq<NetworkNeed>, backlog: seq<NetworkNeed>)
  {
    && Distinct(emitted)
    && forall n :: n in emitted ==> n.hash in recent && n !in unemitted && n !in backlog
  }

  // ----- Ordinary reads --------------------------------------------------------

  /**
   * Conservation of announced reads: every announcement is in flight, waiting,
   * applied, or was dropped by a suspension or cancellation - exactly one of these.
   */
  ghost predicate ReadsOk(pending: map<Hash, OperationRef>, backlog: seq<ReadNeed>, cap: nat,
                          announced: multiset<Hash>, applied: multiset<Hash>, dropped: multiset<Hash>)
  {
    && |pending| <= cap
    && DistinctHashes(backlog)
    && pending.Keys !! ReadHashes(backlog)
    && announced == multiset(pending.Keys) + multiset(ReadHashes(backlog)) + applied + dropped
  }

  /** How many of the reads acted on were ordinary ones. */
  function OrdinaryReads(log: seq<OperationRef>): nat {
    if log == [] then 0 else OrdinaryReads(log[..|log| - 1]) + if Last(log).kind == Read then 1 else 0
  }

  /** Each announced read that was applied was acted on by an ordinary read of its own. */
  ghost predicate AppliedOk(applied: multiset<Hash>, readLog: seq<OperationRef>) {
    |applied| == OrdinaryReads(readLog)
  }

  lemma OneMoreRead(log: seq<OperationRef>, op: OperationRef)
    ensures OrdinaryReads(log + [op]) == OrdinaryReads(log) + if op.kind == Read then 1 else 0
  {
    assert (log + [op])[..|log|] == log;
  }

  // ----- Operation identities ---------------------------------------------------

  ghost predicate Injective(pending: map<Hash, OperationRef>) {
    forall g, h :: g in pending && h in pending && g != h ==> pending[g] != pending[h]
  }

  function PersistenceOps(p: Persistence): set<OperationRef> {
    match p
    case IncrementalWritePending(op) => {op}
    case FinalWritePending(w, f) => {w, f}
    case FencePending(f) => {f}
    case _ => {}
  }

  function SettledOps(log: seq<Settlement>): set<OperationRef> {
    set s | s in log :: s.operation
  }

  /** The operations the plan would still act on. */
  function LiveOps(pending: map<Hash, OperationRef>, recovery: map<OperationRef, NetworkNeed>,
                   p: Persistence): set<OperationRef>
  {
    pending.Values + recovery.Keys + PersistenceOps(p)
  }

  ghost predicate KindsOk(pending: map<Hash, OperationRef>, recovery: map<OperationRef, NetworkNeed>,
                          p: Persistence)
  {
    && (forall h :: h in pending ==> pending[h].kind == Read)
    && (forall op :: op in recovery ==> op.kind == RecoveryRead)
    && match p
       case IncrementalWritePending(op) => op.kind == Write
       case FinalWritePending(w, f) => w.kind == Write && f.kind == DurabilityFence
       case FencePending(f) => f.kind == DurabilityFence
       case _ => true
  }

  /** No write or fence operation is acted on twice. */
  ghost predicate DistinctSettlements(log: seq<Settlement>) {
    forall i, j :: 0 <= i < j < |log| ==> log[i].operation != log[j].operation
  }

  /**
   * The fate of every minted operation: live, acted on once, or revoked, and
   * nothing else. Identities are only distinct before the counter wraps.
   */
  ghost predicate FatesOk(seen: nat, minted: set<OperationRef>, live: set<OperationRef>,
                          settled: set<OperationRef>, revoked: set<OperationRef>)
  {
    && (forall op :: op in minted ==> op.operationId <= seen)
    && minted == live + settled + revoked
    && live !! settled && live !! revoked && settled !! revoked
  }

  ghost predicate OpsOk(seen: nat, minted: set<OperationRef>, pending: map<Hash, OperationRef>,
                        recovery: map<OperationRef, NetworkNeed>, p: Persistence,
                        readLog: seq<OperationRef>, writeLog: seq<Settlement>, revoked: set<OperationRef>)
  {
    && KindsOk(pending, recovery, p)
    && (seen < FRESH_IDS ==>
          && FatesOk(seen, minted, LiveOps(pending, recovery, p), AllSettled(readLog, writeLog), revoked)
          && Injective(pending) && Distinct(readLog) && DistinctSettlements(writeLog)
          && (p.FinalWritePending? ==> p.write != p.fence))
  }

  function AllSettled(readLog: seq<OperationRef>, writeLog: seq<Settlement>): set<OperationRef> {
    (set op | op in readLog) + SettledOps(writeLog)
  }

  // ----- Persistence -------------------------------------------------------------

  function Flatten(batches: seq<WriteBatch>): seq<PersistNode> {
    if batches == [] then [] else Flatten(batches[..|batches| - 1]) + Last(batches).nodes
  }

  function AcceptedWrites(log: seq<Settlement>): nat {
    if log == [] then 0
    else AcceptedWrites(log[..|log| - 1])
         + (if Last(log).WriteSettled? && Last(log).write == WriteAccepted then 1 else 0)
  }

  lemma LogAppend(log: seq<Settlement>, s: Settlement)
    ensures SettledOps(log + [s]) == SettledOps(log) + {s.operation}
    ensures AcceptedWrites(log + [s])
         == AcceptedWrites(log) + (if s.WriteSettled? && s.write == WriteAccepted then 1 else 0)
  {
    assert (log + [s])[..|log|] == log;
    assert s in log + [s];
    forall t | t in log ensures t in log + [s] {}
  }

  lemma FlattenAppend(batches: seq<WriteBatch>, b: WriteBatch)
    ensures Flatten(batches + [b]) == Flatten(batches) + b.nodes
  {
    assert (batches + [b])[..|batches|] == batches;
  }

  /** Which batch and which settlements each persistence state stands for. */
  ghost predicate PersistenceOk(p: Persistence, batches: seq<WriteBatch>, log: seq<Settlement>)
  {
    match p
    case IncrementalWritePending(op) =>
      batches != [] && Last(batches).operation == op && Last(batches).fence == None
    case FinalWritePending(w, f) =>
      batches != [] && Last(batches).operation == w && Last(batches).fence == Some(f)
    case FencePending(f) =>
      && batches != [] && Last(batches).fence == Some(f)
      && log != [] && Last(log) == WriteSettled(Last(batches).operation, WriteAccepted)
    case Durable =>
      && batches != [] && Last(batches).fence.Some?
      && |log| >= 2
      && log[|log| - 2] == WriteSettled(Last(batches).operation, WriteAccepted)
      && log[|log| - 1] == FenceSettled(Last(batches).fence.value, FencePassed)
    case _ => true
  }

  /** Drained nodes go to batches in order unless a turn found no ledger sequence for them. */
  ghost predicate DrainOk(batches: seq<WriteBatch>, drained: seq<PersistNode>, lost: seq<PersistNode>) {
    && multiset(drained) == multiset(Flatten(batches)) + multiset(lost)
    && (lost == [] ==> Flatten(batches) == drained)
  }

  /** Persistence intent, drained nodes and engine notifications, together. */
  ghost predicate WritesOk(p: Persistence, batches: seq<WriteBatch>, log: seq<Settlement>,
                           drained: seq<PersistNode>, lost: seq<PersistNode>, told: nat, releasedEarly: bool)
  {
    && PersistenceOk(p, batches, log)
    && DrainOk(batches, drained, lost)
    && told <= AcceptedWrites(log)
    && (!releasedEarly ==> told == AcceptedWrites(log))
  }

  /** One recovery read at most is in flight for an exact need. */
  ghost predicate RecoveryOk(recovery: map<OperationRef, NetworkNeed>) {
    forall a, b :: a in recovery && b in recovery && a != b ==> recovery[a] != recovery[b]
  }

  /** The first needs of a round went in flight, each under its own request. */
  ghost predicate Dispatched(requests: seq<ReadRequest>, needs: seq<ReadNeed>,
                             pending: map<Hash, OperationRef>, ctx: TurnContext)
  {
    && |requests| <= |needs|
    && pending.Keys == ReadHashes(needs[..|requests|])
    && forall i :: 0 <= i < |requests| ==>
         && needs[i].hash in pending
         && requests[i] == ReadRequest(pending[needs[i].hash], needs[i].hash, needs[i].ledgerSeq,
                                       ctx.storeGeneration, ctx.priority)
  }

  ghost predicate MailboxOk(packets: seq<Packet>, count: nat, bytes: nat, maxPackets: nat, maxBytes: nat) {
    && count == TotalPackets(packets) && count <= maxPackets
    && bytes == TotalBytes(packets) && bytes <= maxBytes
  }

  /** What was true when the engine was advanced. */
  datatype Guard = Guard(inFlight: nat, readBacklog: nat, networkBacklog: nat, cancelled: bool, idle: bool)

  const QUIET := Guard(0, 0, 0, false, true)

  // ----- Retry rotation -------------------------------------------------------------

  function RotationCount(len: nat): nat { Min(len, MAX_TIMEOUT_REPROBES) }

  /** One recovery batch: a window of the retained frontier, wrapping at its end. */
  function RecoveryBatch(retained: seq<NetworkNeed>, cursor: nat): (batch: seq<NetworkNeed>)
    ensures |batch| == RotationCount(|retained|)
  {
    if retained == [] then []
    else seq(RotationCount(|retained|), o requires 0 <= o => retained[(cursor + o) % |retained|])
  }

  function CursorAfter(cursor: nat, len: nat, rounds: nat): nat
    requires len > 0
  {
    if rounds == 0 then cursor % len
    else (CursorAfter(cursor, len, rounds - 1) + RotationCount(len)) % len
  }

  lemma {:induction false} CursorClosedForm(cursor: nat, len: nat, rounds: nat)
    requires len > 0
    ensures CursorAfter(cursor, len, rounds) == (cursor + rounds * RotationCount(len)) % len
    decreases rounds
  {
    var w := RotationCount(len);
    if rounds == 0 {
      assert rounds * w == 0;
    } else {
      CursorClosedForm(cursor, len, rounds - 1);
      var before := (rounds - 1) * w;
      assert rounds * w == before + w by { MulStep(rounds, w); }
      ModShift(cursor + before, w, len);
    }
  }

  /**
   * Fairness: on an unchanged frontier every need is retried within the next
   * ceil(n / 12) recovery batches, whatever the cursor.
   */
  lemma {:induction false} RotationCoversFrontier(retained: seq<NetworkNeed>, cursor: nat, i: nat)
    requires i < |retained|
    ensures exists r: nat ::
              && r < (|retained| + MAX_TIMEOUT_REPROBES - 1) / MAX_TIMEOUT_REPROBES
              && retained[i] in RecoveryBatch(retained, CursorAfter(cursor, |retained|, r))
  {
    // i lies d places after the cursor, so window number d / w reaches it
    var n, w := |retained|, RotationCount(|retained|);
    var c := cursor % n;
    var d := if i >= c then i - c else i + n - c;
    var r, o := WindowOf(n, d);
    var start := CursorAfter(cursor, n, r);
    CursorClosedForm(cursor, n, r);
    WindowHits(cursor, n, r * w, o, i);
    assert RecoveryBatch(retained, start)[o] == retained[i];
  }

  lemma WindowOf(n: nat, d: nat) returns (r: nat, o: nat)
    requires d < n
    ensures d == r * RotationCount(n) + o && o < RotationCount(n)
    ensures r < (n + MAX_TIMEOUT_REPROBES - 1) / MAX_TIMEOUT_REPROBES
  {
    if n <= MAX_TIMEOUT_REPROBES {
      r, o := 0, d;
    } else {
      r, o := d / MAX_TIMEOUT_REPROBES, d % MAX_TIMEOUT_REPROBES;
    }
  }

  /** `x + o` places after the cursor, taken in two steps, is `i`. */
  lemma WindowHits(cursor: nat, n: nat, x: nat, o: nat, i: nat)
    requires i < n && x + o < n
    requires x + o == if i >= cursor % n then i - cursor % n else i + n - cursor % n
    ensures ((cursor + x) % n + o) % n == i
  {
    ModShift(cursor + x, o, n);
    ModShift(cursor, x + o, n);
    ModOnce(cursor % n, x + o, n);
  }

  /** One recovery batch of a duplicate-free frontier never repeats a need. */
  lemma {:induction false} RotationNeverRepeats(retained: seq<NetworkNeed>, cursor: nat)
    requires Distinct(retained)
    ensures Distinct(RecoveryBatch(retained, cursor))
  {
    var batch, n := RecoveryBatch(retained, cursor), |retained|;
    forall i, j | 0 <= i < j < |batch| ensures batch[i] != batch[j] {
      ModShift(cursor, i, n);
      ModShift(cursor, j, n);
      ModOnce(cursor % n, i, n);
      ModOnce(cursor % n, j, n);
      assert batch[i] == retained[(cursor + i) % n] && batch[j] == retained[(cursor + j) % n];
    }
  }
}
