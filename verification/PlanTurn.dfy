/**
 * What one work turn of a plan may do and must do: by its result, against what
 * the engine said, and against what the packets of each pass carried.
 */
module PlanTurns {
  import opened Arith
  import opened Identity
  import opened PlanModel
  import opened PlanFeeds
  import opened PlanLemmas
  import F = Frontiers
  import W = Works

  /**
   * What one work turn of an unblocked plan may do, by its result: reads go in
   * flight as a fresh round, a network result is the newest part of the
   * unemitted queue, a batch is the one the plan now waits for. Nodes drained
   * meanwhile are the batch, or are lost with an invalid turn. No completion
   * log, no recovery read, no emission record and no read given up moves.
   */
  ghost predicate TurnOk(w: W.WorkState, w': W.WorkState, f: F.FrontierState, f': F.FrontierState,
                         turn: PlanTurn, ctx: TurnContext)
  {
    && SameLogs(w, w', f, f') && NodesMoved(w, w', turn)
    && match turn
       case Reads(requests) => requests != [] && InFlight(requests, w'.pending, ctx) && NoWrite(w, w')
       case Network(sent) =>
         && sent != [] && |sent| <= |f'.unemitted| && f'.unemitted[|f'.unemitted| - |sent|..] == sent
         && w'.pending == map[] && NoWrite(w, w')
       case Persist(batch) =>
         && w'.batches == w.batches + [batch]
         && batch.ledgerSequence != 0 && batch.storeGeneration == ctx.storeGeneration
         && w'.persistence == (if batch.fence.Some? then FinalWritePending(batch.operation, batch.fence.value)
                               else IncrementalWritePending(batch.operation))
       case _ => w'.pending == map[] && NoWrite(w, w')
  }

  ghost predicate SameLogs(w: W.WorkState, w': W.WorkState, f: F.FrontierState, f': F.FrontierState) {
    && w'.readLog == w.readLog && w'.writeLog == w.writeLog && w'.revoked == w.revoked
    && w'.recovery == w.recovery && w'.releasedEarly == w.releasedEarly && w'.told == w.told
    && w'.applied == w.applied && w'.dropped == w.dropped
    && f'.recent == f.recent && f'.emitted == f.emitted
  }

  /** What became of nodes drained in a turn, by its result. */
  ghost predicate NodesMoved(w: W.WorkState, w': W.WorkState, turn: PlanTurn) {
    match turn
    case Persist(batch) => w'.drained == w.drained + batch.nodes && w'.lost == w.lost
    case InvalidPlan => w.lost <= w'.lost && w'.drained == w.drained + w'.lost[|w.lost|..]
    case _ => w'.drained == w.drained && w'.lost == w.lost
  }

  ghost predicate NoWrite(w: W.WorkState, w': W.WorkState) {
    w'.persistence == w.persistence && w'.batches == w.batches
  }

  ghost predicate InFlight(requests: seq<ReadRequest>, pending: map<Hash, OperationRef>, ctx: TurnContext) {
    && pending.Keys == (set r | r in requests :: r.key)
    && forall r :: r in requests ==>
         && r.key in pending && pending[r.key] == r.operation
         && r.storeGeneration == ctx.storeGeneration && r.priority == ctx.priority
  }

  lemma RoundInFlight(requests: seq<ReadRequest>, needs: seq<ReadNeed>, pending: map<Hash, OperationRef>, ctx: TurnContext)
    requires Dispatched(requests, needs, pending, ctx)
    ensures InFlight(requests, pending, ctx)
  {
    var k := |requests|;
    forall h ensures h in ReadHashes(needs[..k]) <==> h in (set r | r in requests :: r.key) {
      if h in ReadHashes(needs[..k]) {
        var n :| n in needs[..k] && n.hash == h;
        var i :| 0 <= i < k && needs[..k][i] == n;
        assert requests[i].key == h && requests[i] in requests;
      }
      if r :| r in requests && r.key == h {
        var i :| 0 <= i < k && requests[i] == r;
        assert needs[..k][i].hash == h && needs[..k][i] in needs[..k];
      }
    }
  }

  lemma TurnIdle(w: W.WorkState, f: F.FrontierState, ctx: TurnContext)
    requires w.pending == map[]
    ensures TurnOk(w, w, f, f, Continue, ctx)
  {
  }

  lemma TurnInvalid(w: W.WorkState, f: F.FrontierState, ctx: TurnContext)
    requires w.pending == map[]
    ensures TurnOk(w, w, f, f, InvalidPlan, ctx)
  {
    assert w.drained + w.lost[|w.lost|..] == w.drained;
  }

  /** Feeding, resetting and retiring before the pass keep the records. */
  lemma TurnAfter(w: W.WorkState, w': W.WorkState, f0: F.FrontierState, f: F.FrontierState, f': F.FrontierState,
                  turn: PlanTurn, ctx: TurnContext)
    requires TurnOk(w, w', f, f', turn, ctx) && f.recent == f0.recent && f.emitted == f0.emitted
    ensures TurnOk(w, w', f0, f', turn, ctx)
  {
  }

  function ReadsOrContinue(requests: seq<ReadRequest>): PlanTurn {
    if requests == [] then Continue else Reads(requests)
  }

  function NetworkOrContinue(sent: seq<NetworkNeed>): PlanTurn {
    if sent == [] then Continue else Network(sent)
  }

  /** A round of reads started from an empty pending table. */
  lemma TurnReads(w: W.Work, w': W.Work, f: F.FrontierState, requests: seq<ReadRequest>, needs: seq<ReadNeed>, ctx: TurnContext)
    requires W.OnlyReads(w, w') && Dispatched(requests, needs, w'.pending, ctx)
    ensures TurnOk(w, w', f, f, ReadsOrContinue(requests), ctx)
  {
    hide W.WellFormed;
    RoundInFlight(requests, needs, w'.pending, ctx);
  }

  /** Needs moved into the window, after any queueing and retiring that kept the records. */
  lemma TurnNetwork(w: W.WorkState, f0: F.FrontierState, f: F.Frontier, k: nat, ctx: TurnContext)
    requires w.pending == map[] && f.recent == f0.recent && f.emitted == f0.emitted
    requires k <= |f.backlog| && |f.retained| + k <= MAX_RETAINED_NETWORK_FRONTIER
    ensures TurnOk(w, w, f0, F.Dispatched(f, k), NetworkOrContinue(f.backlog[..k]), ctx)
  {
    hide F.WellFormed;
    var f', sent := F.Dispatched(f, k), f.backlog[..k];
    assert f'.unemitted == f.unemitted + sent;
    assert f'.unemitted[|f.unemitted|..] == sent;
  }

  /** Reads and needs were put off and the drained nodes left in a batch of their own. */
  lemma TurnPersisting(w: W.Work, mid: W.Work, batch: WriteBatch, seen: nat, f: F.FrontierState, f': F.FrontierState, ctx: TurnContext)
    requires W.OnlyReads(w, mid) && mid.persistence == Idle && batch.fence == None
    requires batch.operation.kind == Write && W.Newest(mid, batch.operation, seen)
    requires batch.ledgerSequence != 0 && batch.storeGeneration == ctx.storeGeneration
    requires f'.recent == f.recent && f'.emitted == f.emitted
    ensures TurnOk(w, W.IncrementalStarted(mid, batch, seen), f, f', Persist(batch), ctx)
  {
    hide W.WellFormed;
  }

  /** They were put off, but the drained nodes are lost. */
  lemma TurnLosing(w: W.Work, mid: W.Work, writes: seq<PersistNode>, f: F.FrontierState, f': F.FrontierState, ctx: TurnContext)
    requires W.OnlyReads(w, mid) && mid.pending == map[] && f'.recent == f.recent && f'.emitted == f.emitted
    ensures TurnOk(w, W.NodesLost(mid, writes), f, f', InvalidPlan, ctx)
  {
    hide W.WellFormed;
    assert (w.lost + writes)[|w.lost|..] == writes;
  }

  /** A pass that changed nothing lasting, followed by a pass, is that pass. */
  lemma TurnsCompose(w0: W.WorkState, w1: W.WorkState, w2: W.WorkState, f0: F.FrontierState, f1: F.FrontierState,
                     f2: F.FrontierState, turn: PlanTurn, ctx: TurnContext)
    requires TurnOk(w0, w1, f0, f1, Continue, ctx) && TurnOk(w1, w2, f1, f2, turn, ctx)
    ensures TurnOk(w0, w2, f0, f2, turn, ctx)
  {
  }

  // ----- what the engine said against what the plan did ------------------------------------

  ghost function Voice(engine: Option<Engine>): Transcript {
    if engine.Some? then engine.value.heard else SILENCE
  }

  /**
   * The plan's record is the engines' own transcript, short of one step it has
   * not acted on yet: `outcome` and the nodes drained with it.
   */
  ghost predicate Owing(past: Transcript, engine: Option<Engine>, steps: nat, w: W.WorkState, f: F.FrontierState,
                        outcome: StepOutcome, writes: seq<PersistNode>)
  {
    Joined(past, Voice(engine)) ==
    Transcript(steps, w.announced + ReadsOf(outcome), f.said + NeedsOf(outcome), w.drained + writes, w.told)
  }

  /** Every advance, read, need, node and acceptance of the engines is in the plan's record, and nothing else. */
  ghost predicate Agreed(past: Transcript, engine: Option<Engine>, steps: nat, w: W.WorkState, f: F.FrontierState) {
    Joined(past, Voice(engine)) == Transcript(steps, w.announced, f.said, w.drained, w.told)
  }

  lemma OwesNothing(past: Transcript, engine: Option<Engine>, steps: nat, w: W.WorkState, f: F.FrontierState,
                    outcome: StepOutcome, writes: seq<PersistNode>)
    requires ReadsOf(outcome) == multiset{} && NeedsOf(outcome) == [] && writes == []
    ensures Owing(past, engine, steps, w, f, outcome, writes) <==> Agreed(past, engine, steps, w, f)
  {
    assert f.said + [] == f.said && w.drained + [] == w.drained && w.announced + multiset{} == w.announced;
  }

  /** Acting on all of a step pays for it. */
  lemma Paid(past: Transcript, engine: Option<Engine>, steps: nat, w: W.WorkState, f: F.FrontierState,
             outcome: StepOutcome, writes: seq<PersistNode>, w': W.WorkState, f': F.FrontierState)
    requires Owing(past, engine, steps, w, f, outcome, writes)
    requires w'.announced == w.announced + ReadsOf(outcome) && f'.said == f.said + NeedsOf(outcome)
    requires w'.drained == w.drained + writes && w'.told == w.told
    ensures Agreed(past, engine, steps, w', f')
  {
  }

  /** Placing the reads and needs of a step leaves only its nodes to pay for. */
  lemma PaidEffects(past: Transcript, engine: Option<Engine>, steps: nat, w: W.WorkState, f: F.FrontierState,
                    outcome: StepOutcome, writes: seq<PersistNode>, w': W.WorkState, f': F.FrontierState)
    requires Owing(past, engine, steps, w, f, outcome, writes)
    requires w'.announced == w.announced + ReadsOf(outcome) && f'.said == f.said + NeedsOf(outcome)
    requires w'.drained == w.drained && w'.told == w.told
    ensures Owing(past, engine, steps, w', f', Ready, writes)
  {
    assert f'.said + [] == f'.said && w'.announced + multiset{} == w'.announced;
  }

  lemma PaidNodes(past: Transcript, engine: Option<Engine>, steps: nat, w: W.WorkState, f: F.FrontierState,
                  writes: seq<PersistNode>, w': W.WorkState)
    requires Owing(past, engine, steps, w, f, Ready, writes)
    requires w'.announced == w.announced && w'.drained == w.drained + writes && w'.told == w.told
    ensures Agreed(past, engine, steps, w', f)
  {
    assert f.said + [] == f.said && w.announced + multiset{} == w.announced;
  }

  /** One advance leaves the plan owing exactly what the engine said. */
  lemma Advanced(past: Transcript, e: Engine, steps: nat, w: W.WorkState, f: F.FrontierState)
    requires Agreed(past, Some(e), steps, w, f)
    ensures Owing(past, Some(PassOf(e).after), steps + 1, w, f, PassOf(e).outcome, PassOf(e).writes)
  {
    var said, nodes := NeedsOf(e.Now().step), PassOf(e).writes;
    assert past.needs + (e.heard.needs + said) == (past.needs + e.heard.needs) + said;
    assert past.nodes + (e.heard.nodes + nodes) == (past.nodes + e.heard.nodes) + nodes;
    assert e.heard.nodes + [] == e.heard.nodes;
    assert past.wanted + (e.heard.wanted + ReadsOf(e.Now().step)) == (past.wanted + e.heard.wanted) + ReadsOf(e.Now().step);
  }

  lemma DrainedAgrees(past: Transcript, e: Engine, steps: nat, w: W.WorkState, f: F.FrontierState, w': W.WorkState)
    requires Agreed(past, Some(e), steps, w, f)
    requires w'.announced == w.announced && w'.drained == w.drained + e.Now().persistable && w'.told == w.told
    ensures Agreed(past, Some(e.Drained()), steps, w', f)
  {
    var nodes := e.Now().persistable;
    assert past.nodes + (e.heard.nodes + nodes) == (past.nodes + e.heard.nodes) + nodes;
  }

  lemma RetiredOwes(past: Transcript, engine: Option<Engine>, steps: nat, w: W.WorkState, f: F.FrontierState,
                    f': F.FrontierState, outcome: StepOutcome, writes: seq<PersistNode>)
    requires Owing(past, engine, steps, w, f, outcome, writes) && f'.said == f.said
    ensures Owing(past, engine, steps, w, f', outcome, writes)
  {
  }

  /** A round of reads from an empty table: the first go in flight, one request each, the rest waits in order. */
  ghost predicate RoundStarted(turn: PlanTurn, needs: seq<ReadNeed>, w: W.WorkState, ctx: TurnContext) {
    var k := Min(w.cap, |needs|);
    && w.backlog == needs[k..]
    && (if k == 0 then turn == Continue && w.pending == map[]
        else turn.Reads? && |turn.requests| == k && Dispatched(turn.requests, needs, w.pending, ctx))
  }

  /** As much of the backlog as the window has room for was sent. */
  ghost predicate WindowSent(turn: PlanTurn, f: F.Frontier, f': F.FrontierState) {
    var k := Min(MAX_RETAINED_NETWORK_FRONTIER - |f.retained|, |f.backlog|);
    turn == NetworkOrContinue(f.backlog[..k]) && f' == F.Dispatched(f, k)
  }

  /**
   * What a pass of the engine must come to: drained nodes leave at once and what
   * was announced with them waits whole; a lone outcome is acted on. An invalid
   * step is reported exactly when nothing was drained with it or no ledger
   * sequence is known for what was.
   */
  ghost predicate Answered(p: Pass, f: F.Frontier, w': W.WorkState, f': F.FrontierState, turn: PlanTurn, ctx: TurnContext)
    requires f.backlog == []
  {
    if p.writes != [] then
      && w'.backlog == (if p.outcome.NeedsReads? then p.outcome.needs else []) && w'.pending == map[]
      && f' == (if p.outcome.NeedsNetwork? then F.Announced(f, p.outcome.nodes) else f)
      && (if p.sequence == None || p.sequence == Some(0) then turn == InvalidPlan
          else turn.Persist? && turn.batch.nodes == p.writes && turn.batch.fence == None
               && turn.batch.ledgerSequence == p.sequence.value)
    else
      match p.outcome
      case Ready => turn == Continue && f' == f
      case NeedsReads(needs) => RoundStarted(turn, needs, w', ctx) && f' == f
      case NeedsNetwork(nodes) => WindowSent(turn, F.Announced(f, nodes), f')
      case Complete =>
        f' == f
        && if p.after.Now().persistenceSequence == None || p.after.Now().persistenceSequence == Some(0) then turn == InvalidPlan
           else turn.Persist? && turn.batch.fence.Some? && turn.batch.nodes == p.after.Now().persistable
      case Invalid => turn == InvalidPlan && f' == f
  }

  /** Where a pass leaves the engine: a completed one is drained once more, for the final batch. */
  function EngineAfter(p: Pass): Engine {
    if p.outcome.Complete? && NonZero(p.after.Now().persistenceSequence).Some? then p.after.Drained() else p.after
  }

  lemma CompleteDrainsLater(e: Engine)
    ensures PassOf(e).outcome.Complete? ==> PassOf(e).writes == []
  {
  }

  // ----- passes over views ------------------------------------------------------------------

  /** What a pass of the turn loop works on, apart from the outstanding work. */
  datatype View = View(
    engine: Option<Engine>,
    packets: seq<Packet>,
    frontier: F.Frontier,
    scores: map<PeerId, nat>,
    lanes: seq<NetworkLane>,
    progress: bool)

  /** The packets one pass feeds: the oldest four. */
  function Meal(v: View): seq<Packet> { v.packets[..Min(MAX_PACKETS_FED_PER_TURN, |v.packets|)] }

  function FedBy(v: View): Fed
    requires v.engine.Some?
  {
    FeedAll(v.engine.value, Meal(v))
  }

  function ResolvedBy(v: View): seq<NetworkNeed> { if v.engine.Some? then FedBy(v).resolved else [] }
  function AttachedBy(v: View): bool { v.engine.Some? && FedBy(v).attached }
  function UsefulBy(v: View): bool { v.engine.Some? && FedBy(v).counts != map[] }

  /** After the packets are fed and their senders credited. */
  function Nourished(v: View): View {
    if v.engine.None? then v
    else v.(engine := Some(FedBy(v).after), packets := v.packets[|Meal(v)|..], scores := MaxScores(v.scores, FedBy(v).counts))
  }

  lemma NourishedKeeps(v: View)
    ensures var u := Nourished(v); u.frontier == v.frontier && u.progress == v.progress && u.engine.Some? == v.engine.Some?
    ensures v.engine.None? ==> ResolvedBy(v) == [] && !AttachedBy(v) && !UsefulBy(v)
  {
    hide FeedAll;
  }

  function ReplyLanes(peers: seq<PeerId>): seq<NetworkLane> {
    seq(|peers|, i requires 0 <= i < |peers| => ReplyLane(peers[i]))
  }

  /** With the mailbox empty the credited peers become lanes; the first lane starts a new epoch. */
  function Opened(v: View, sample: map<PeerId, nat> -> seq<PeerId>): View {
    if v.packets != [] || v.scores == map[] then v
    else
      var lanes := v.lanes + ReplyLanes(sample(v.scores));
      var scanned := v.(scores := map[], lanes := lanes);
      if v.lanes == [] && lanes != [] && v.engine.Some?
      then scanned.(frontier := F.EpochReset(v.frontier), engine := Some(v.engine.value.Ticked())) else scanned
  }

  lemma OpenedKeeps(v: View, sample: map<PeerId, nat> -> seq<PeerId>)
    ensures var u := Opened(v, sample);
            && u.packets == v.packets && u.progress == v.progress && u.engine.Some? == v.engine.Some?
            && (u.frontier == v.frontier || u.frontier == F.EpochReset(v.frontier)) && u.frontier.said == v.frontier.said
            && u.frontier.recent == v.frontier.recent && u.frontier.emitted == v.frontier.emitted
  {
    hide F.WellFormed, F.EpochReset;
  }

  function Intaken(v: View, sample: map<PeerId, nat> -> seq<PeerId>): View { Opened(Nourished(v), sample) }

  predicate Full(f: F.FrontierState) { f.backlog != [] && |f.retained| >= MAX_RETAINED_NETWORK_FRONTIER }

  /** The pass made headway without anything to show: something attached, or the engine has runnable branches left. */
  predicate Continues(e: Engine, attached: bool) {
    && PassOf(e).outcome == Ready && PassOf(e).writes == []
    && (attached || (e.Stepped().Now().runnable && e.Stepped().Now().branchSteps > e.Now().branchSteps))
  }

  /** A pass from the view after the intake, given what the packets came to. */
  ghost predicate ActedOn(u: View, v': View, resolved: seq<NetworkNeed>, attached: bool, useful: bool,
                          w': W.WorkState, turn: PlanTurn, again: bool, ctx: TurnContext)
  {
    && v'.packets == u.packets && v'.scores == u.scores && v'.lanes == u.lanes
    && if Full(u.frontier) then
         && v'.engine == u.engine && v'.progress == (u.progress || useful) && !again
         && WindowSent(turn, F.Retired(u.frontier, resolved), v'.frontier)
       else if u.engine.None? then v' == u && turn == Continue && !again
       else
         && u.frontier.backlog == []
         && v'.engine == Some(EngineAfter(PassOf(u.engine.value))) && v'.progress == (u.progress || useful)
         && Answered(PassOf(u.engine.value), F.Retired(u.frontier, resolved), w', v'.frontier, turn, ctx)
         && (again <==> Continues(u.engine.value, attached))
  }

  ghost predicate Passed(v: View, v': View, w': W.WorkState, turn: PlanTurn, again: bool, ctx: TurnContext,
                         sample: map<PeerId, nat> -> seq<PeerId>)
  {
    ActedOn(Intaken(v, sample), v', ResolvedBy(v), AttachedBy(v), UsefulBy(v), w', turn, again, ctx)
  }

  /** A whole turn: passes that go on, then one that does not, or the bound. */
  ghost predicate Passes(vs: seq<View>, w: W.WorkState, w': W.WorkState, turn: PlanTurn, ctx: TurnContext,
                         sample: map<PeerId, nat> -> seq<PeerId>)
  {
    && 2 <= |vs| <= MAX_TURNS_PER_EVENT + 1
    && GoneOn(vs[..|vs| - 1], w, ctx, sample)
    && (|| Passed(vs[|vs| - 2], vs[|vs| - 1], w', turn, false, ctx, sample)
        || (|vs| == MAX_TURNS_PER_EVENT + 1 && turn == Continue && Passed(vs[|vs| - 2], vs[|vs| - 1], w', Continue, true, ctx, sample)))
  }

  ghost predicate GoneOn(vs: seq<View>, w: W.WorkState, ctx: TurnContext, sample: map<PeerId, nat> -> seq<PeerId>) {
    forall i :: 0 <= i < |vs| - 1 ==> Passed(vs[i], vs[i + 1], w, Continue, true, ctx, sample)
  }

  lemma GoneOnStep(vs: seq<View>, v: View, w: W.WorkState, ctx: TurnContext, sample: map<PeerId, nat> -> seq<PeerId>)
    requires vs != [] && GoneOn(vs, w, ctx, sample) && Passed(vs[|vs| - 1], v, w, Continue, true, ctx, sample)
    ensures GoneOn(vs + [v], w, ctx, sample)
  {
    hide Passed;
  }

  /** The loop of a turn, from view to view. */
  ghost predicate Looped(vs: seq<View>, v: View, v': View, w: W.WorkState, w': W.WorkState, turn: PlanTurn, ctx: TurnContext,
                         sample: map<PeerId, nat> -> seq<PeerId>)
  {
    && Passes(vs, w, w', turn, ctx, sample) && vs[0] == v && vs[|vs| - 1] == v'
    && PacketsEaten(vs) && ProgressNoted(vs) && NamedNeedsGone(vs, sample) && AttachedGoesOn(vs, sample)
  }

  lemma StartLoop(v: View, w: W.WorkState, ctx: TurnContext, sample: map<PeerId, nat> -> seq<PeerId>)
    ensures GoneOn([v], w, ctx, sample)
  {
  }

  lemma EndLoop(vs: seq<View>, v': View, w: W.WorkState, w': W.WorkState, turn: PlanTurn, again: bool, ctx: TurnContext,
                sample: map<PeerId, nat> -> seq<PeerId>)
    requires 2 <= |vs| <= MAX_TURNS_PER_EVENT + 1 && vs[|vs| - 1] == v'
    requires if again then |vs| == MAX_TURNS_PER_EVENT + 1 && turn == Continue && w' == w && GoneOn(vs, w, ctx, sample)
             else GoneOn(vs[..|vs| - 1], w, ctx, sample) && Passed(vs[|vs| - 2], vs[|vs| - 1], w', turn, false, ctx, sample)
    ensures Looped(vs, vs[0], v', w, w', turn, ctx, sample)
  {
    GoneOnPrefix(vs, w, ctx, sample);
    hide Passed, GoneOn, PacketsEaten, ProgressNoted, NamedNeedsGone, AttachedGoesOn;
    TurnLaws(vs, w, w', turn, ctx, sample);
  }

  lemma GoneOnPrefix(vs: seq<View>, w: W.WorkState, ctx: TurnContext, sample: map<PeerId, nat> -> seq<PeerId>)
    requires |vs| >= 2
    ensures GoneOn(vs, w, ctx, sample) ==> GoneOn(vs[..|vs| - 1], w, ctx, sample) && Passed(vs[|vs| - 2], vs[|vs| - 1], w, Continue, true, ctx, sample)
  {
    hide Passed;
    if GoneOn(vs, w, ctx, sample) {
      var m := |vs| - 2;
      assert Passed(vs[m], vs[m + 1], w, Continue, true, ctx, sample);
    }
  }

  // ----- what passes mean for the wire --------------------------------------------------------

  /** A reached, attached node of the fed packets names the need. */
  ghost predicate NamedBy(v: View, n: NetworkNeed) {
    v.engine.Some? && exists i :: PacketNames(v.engine.value, Meal(v), i, n)
  }

  ghost predicate AttachedNode(v: View) { v.engine.Some? && exists i :: PacketAttaches(v.engine.value, Meal(v), i) }
  ghost predicate UsefulNode(v: View) { v.engine.Some? && exists i :: PacketServes(v.engine.value, Meal(v), i) }

  lemma FedExactly(v: View, n: NetworkNeed)
    ensures (n in ResolvedBy(v) <==> NamedBy(v, n)) && (AttachedBy(v) <==> AttachedNode(v)) && (UsefulBy(v) <==> UsefulNode(v))
  {
    hide PacketNames, PacketAttaches, PacketServes, FeedAll;
    if v.engine.Some? {
      FeedAllExactly(v.engine.value, Meal(v), n);
    }
  }

  /** The engine's own step of this pass announces the need. */
  predicate AnnouncedIn(v: View, n: NetworkNeed, sample: map<PeerId, nat> -> seq<PeerId>) {
    var u := Intaken(v, sample);
    u.engine.Some? && PassOf(u.engine.value).outcome.NeedsNetwork? && n in PassOf(u.engine.value).outcome.nodes
  }

  predicate Absent(f: F.FrontierState, n: NetworkNeed) { n !in f.retained && n !in f.unemitted && n !in f.backlog }

  lemma DispatchAbsent(f: F.Frontier, k: nat, n: NetworkNeed)
    requires k <= |f.backlog| && |f.retained| + k <= MAX_RETAINED_NETWORK_FRONTIER && Absent(f, n)
    ensures Absent(F.Dispatched(f, k), n)
  {
    hide F.WellFormed, F.Dispatched;
    assert forall x :: x in f.backlog[..k] ==> x in f.backlog;
    assert forall x :: x in f.backlog[k..] ==> x in f.backlog;
  }

  /** A need out of the queues after retirement comes back only if the pass announces it. */
  lemma AnsweredAbsent(p: Pass, f: F.Frontier, w': W.WorkState, f': F.FrontierState, turn: PlanTurn, ctx: TurnContext, n: NetworkNeed)
    requires f.backlog == [] && Answered(p, f, w', f', turn, ctx) && Absent(f, n)
    ensures Absent(f', n) || (p.outcome.NeedsNetwork? && n in p.outcome.nodes)
  {
    hide F.WellFormed, F.Dispatched, F.Announced, RoundStarted;
    if p.outcome.NeedsNetwork? && p.writes == [] && n !in p.outcome.nodes {
      var g := F.Announced(f, p.outcome.nodes);
      F.WindowHolds(g);
      DispatchAbsent(g, Min(MAX_RETAINED_NETWORK_FRONTIER - |g.retained|, |g.backlog|), n);
    }
  }

  lemma RetiredAbsent(f: F.Frontier, resolved: seq<NetworkNeed>, n: NetworkNeed)
    requires n in resolved || Absent(f, n)
    ensures Absent(F.Retired(f, resolved), n)
  {
    hide F.WellFormed, F.Retired, InOrder;
  }

  lemma IntakenFrontier(v: View, sample: map<PeerId, nat> -> seq<PeerId>, n: NetworkNeed)
    ensures Absent(v.frontier, n) ==> Absent(Intaken(v, sample).frontier, n)
    ensures Intaken(v, sample).progress == v.progress
    ensures Intaken(v, sample).packets == if v.engine.Some? then v.packets[|Meal(v)|..] else v.packets
    ensures Intaken(v, sample).engine.Some? == v.engine.Some?
  {
    hide F.WellFormed, FeedAll;
  }

  lemma PassAbsent(v: View, v': View, w': W.WorkState, turn: PlanTurn, again: bool, ctx: TurnContext,
                   sample: map<PeerId, nat> -> seq<PeerId>, n: NetworkNeed)
    requires Passed(v, v', w', turn, again, ctx, sample) && (NamedBy(v, n) || Absent(v.frontier, n))
    ensures Absent(v'.frontier, n) || AnnouncedIn(v, n, sample)
  {
    FedExactly(v, n);
    IntakenFrontier(v, sample, n);
    hide F.WellFormed, F.Retired, F.Dispatched, Answered, NamedBy, ResolvedBy, AttachedBy, UsefulBy, Intaken, PassOf, Continues, Absent;
    var u := Intaken(v, sample);
    var f := F.Retired(u.frontier, ResolvedBy(v));
    if n in ResolvedBy(v) || Absent(u.frontier, n) {
      RetiredAbsent(u.frontier, ResolvedBy(v), n);
    }
    if Full(u.frontier) {
      F.WindowHolds(f);
      DispatchAbsent(f, Min(MAX_RETAINED_NETWORK_FRONTIER - |f.retained|, |f.backlog|), n);
    } else if u.engine.Some? {
      AnsweredAbsent(PassOf(u.engine.value), f, w', v'.frontier, turn, ctx, n);
    } else {
      NoEngineNoNames(v, n);
    }
  }

  lemma NoEngineNoNames(v: View, n: NetworkNeed)
    requires v.engine.None?
    ensures !NamedBy(v, n)
  {
  }

  /** What each pass of a turn does with its packets. */
  ghost predicate PacketsEaten(vs: seq<View>) {
    forall i :: 0 <= i < |vs| - 1 ==>
      vs[i + 1].packets == if vs[i].engine.Some? then vs[i].packets[Min(MAX_PACKETS_FED_PER_TURN, |vs[i].packets|)..] else vs[i].packets
  }

  /** Progress is noted exactly if some node of some pass was useful. */
  ghost predicate ProgressNoted(vs: seq<View>)
    requires vs != []
  {
    vs[|vs| - 1].progress <==> vs[0].progress || exists i :: 0 <= i < |vs| - 1 && UsefulNode(vs[i])
  }

  /** A need that an attached node named is in no queue at the end, unless this turn announced it since. */
  ghost predicate NamedNeedsGone(vs: seq<View>, sample: map<PeerId, nat> -> seq<PeerId>)
    requires vs != []
  {
    forall i, n :: 0 <= i < |vs| - 1 && NamedBy(vs[i], n) ==>
      Absent(vs[|vs| - 1].frontier, n) || exists j :: i <= j < |vs| - 1 && AnnouncedIn(vs[j], n, sample)
  }

  /** The engine was ready with nothing to persist although a node had just attached: another pass follows, up to the bound. */
  ghost predicate AttachedGoesOn(vs: seq<View>, sample: map<PeerId, nat> -> seq<PeerId>) {
    forall i :: 0 <= i < |vs| - 1 && AttachedNode(vs[i]) && ReadyIn(vs[i], sample) ==> i + 2 < |vs| || |vs| == MAX_TURNS_PER_EVENT + 1
  }

  ghost predicate ReadyIn(v: View, sample: map<PeerId, nat> -> seq<PeerId>) {
    var u := Intaken(v, sample);
    u.engine.Some? && !Full(u.frontier) && PassOf(u.engine.value).outcome == Ready && PassOf(u.engine.value).writes == []
  }

  /** One pass, for all four. */
  lemma PassLaws(v: View, v': View, w': W.WorkState, turn: PlanTurn, again: bool, ctx: TurnContext,
                 sample: map<PeerId, nat> -> seq<PeerId>)
    requires Passed(v, v', w', turn, again, ctx, sample)
    ensures v'.packets == if v.engine.Some? then v.packets[Min(MAX_PACKETS_FED_PER_TURN, |v.packets|)..] else v.packets
    ensures v'.progress <==> v.progress || UsefulNode(v)
    ensures AttachedNode(v) && ReadyIn(v, sample) ==> again
  {
    var any := NetworkNeed(0, 0, StateTree);
    FedExactly(v, any);
    IntakenFrontier(v, sample, any);
    hide F.WellFormed, F.Retired, F.Dispatched, Answered, ResolvedBy, AttachedBy, UsefulBy, Intaken, PassOf, AttachedNode, WindowSent;
  }

  lemma PassesAt(vs: seq<View>, w: W.WorkState, w': W.WorkState, turn: PlanTurn, ctx: TurnContext,
                 sample: map<PeerId, nat> -> seq<PeerId>, i: nat) returns (x: W.WorkState, t: PlanTurn, again: bool)
    requires Passes(vs, w, w', turn, ctx, sample) && i < |vs| - 1
    ensures Passed(vs[i], vs[i + 1], x, t, again, ctx, sample)
    ensures again ==> i + 2 < |vs| || |vs| == MAX_TURNS_PER_EVENT + 1
  {
    hide Passed;
    if i < |vs| - 2 {
      var early := vs[..|vs| - 1];
      assert early[i] == vs[i] && early[i + 1] == vs[i + 1];
      x, t, again := w, Continue, true;
    } else if Passed(vs[i], vs[i + 1], w', turn, false, ctx, sample) {
      x, t, again := w', turn, false;
    } else {
      x, t, again := w', Continue, true;
    }
  }

  lemma {:induction false} NamedStaysGone(vs: seq<View>, w: W.WorkState, w': W.WorkState, turn: PlanTurn, ctx: TurnContext,
                       sample: map<PeerId, nat> -> seq<PeerId>, i: nat, m: nat, n: NetworkNeed)
    requires Passes(vs, w, w', turn, ctx, sample) && i < m <= |vs| - 1 && NamedBy(vs[i], n)
    ensures Absent(vs[m].frontier, n) || exists j :: i <= j < m && AnnouncedIn(vs[j], n, sample)
    decreases m
  {
    hide Passes, Passed, NamedBy, AnnouncedIn, Absent;
    if i + 1 < m {
      NamedStaysGone(vs, w, w', turn, ctx, sample, i, m - 1, n);
    }
    var x, t, again := PassesAt(vs, w, w', turn, ctx, sample, m - 1);
    if i + 1 == m || Absent(vs[m - 1].frontier, n) {
      PassAbsent(vs[m - 1], vs[m], x, t, again, ctx, sample, n);
    }
  }

  lemma {:induction false} ProgressSoFar(vs: seq<View>, w: W.WorkState, w': W.WorkState, turn: PlanTurn, ctx: TurnContext,
                      sample: map<PeerId, nat> -> seq<PeerId>, m: nat)
    requires Passes(vs, w, w', turn, ctx, sample) && m <= |vs| - 1
    ensures vs[m].progress <==> vs[0].progress || exists i :: 0 <= i < m && UsefulNode(vs[i])
  {
    hide Passes, Passed, UsefulNode;
    if m > 0 {
      ProgressSoFar(vs, w, w', turn, ctx, sample, m - 1);
      var x, t, again := PassesAt(vs, w, w', turn, ctx, sample, m - 1);
      PassLaws(vs[m - 1], vs[m], x, t, again, ctx, sample);
    }
  }

  /** The four laws hold of every turn. */
  lemma TurnLaws(vs: seq<View>, w: W.WorkState, w': W.WorkState, turn: PlanTurn, ctx: TurnContext,
                 sample: map<PeerId, nat> -> seq<PeerId>)
    requires Passes(vs, w, w', turn, ctx, sample)
    ensures |vs| >= 2 && PacketsEaten(vs) && ProgressNoted(vs) && NamedNeedsGone(vs, sample) && AttachedGoesOn(vs, sample)
  {
    hide *;
    LongEnough(vs, w, w', turn, ctx, sample);
    PassByPass(vs, w, w', turn, ctx, sample);
    ProgressInAll(vs, w, w', turn, ctx, sample);
    NamedInAll(vs, w, w', turn, ctx, sample);
  }

  lemma PassByPass(vs: seq<View>, w: W.WorkState, w': W.WorkState, turn: PlanTurn, ctx: TurnContext,
                   sample: map<PeerId, nat> -> seq<PeerId>)
    requires Passes(vs, w, w', turn, ctx, sample)
    ensures PacketsEaten(vs) && AttachedGoesOn(vs, sample)
  {
    hide Passes, Passed, AttachedNode, ReadyIn;
    forall i | 0 <= i < |vs| - 1
      ensures vs[i + 1].packets == if vs[i].engine.Some? then vs[i].packets[Min(MAX_PACKETS_FED_PER_TURN, |vs[i].packets|)..] else vs[i].packets
      ensures AttachedNode(vs[i]) && ReadyIn(vs[i], sample) ==> i + 2 < |vs| || |vs| == MAX_TURNS_PER_EVENT + 1
    {
      var x, t, again := PassesAt(vs, w, w', turn, ctx, sample, i);
      PassLaws(vs[i], vs[i + 1], x, t, again, ctx, sample);
    }
  }

  lemma ProgressInAll(vs: seq<View>, w: W.WorkState, w': W.WorkState, turn: PlanTurn, ctx: TurnContext,
                      sample: map<PeerId, nat> -> seq<PeerId>)
    requires Passes(vs, w, w', turn, ctx, sample) && |vs| >= 2
    ensures ProgressNoted(vs)
  {
    hide Passes, UsefulNode;
    ProgressSoFar(vs, w, w', turn, ctx, sample, |vs| - 1);
  }

  lemma NamedInAll(vs: seq<View>, w: W.WorkState, w': W.WorkState, turn: PlanTurn, ctx: TurnContext,
                   sample: map<PeerId, nat> -> seq<PeerId>)
    requires Passes(vs, w, w', turn, ctx, sample) && |vs| >= 2
    ensures NamedNeedsGone(vs, sample)
  {
    hide Passes, NamedBy, AnnouncedIn, Absent;
    forall i, n | 0 <= i < |vs| - 1 && NamedBy(vs[i], n)
      ensures Absent(vs[|vs| - 1].frontier, n) || exists j :: i <= j < |vs| - 1 && AnnouncedIn(vs[j], n, sample)
    {
      NamedStaysGone(vs, w, w', turn, ctx, sample, i, |vs| - 1, n);
    }
  }

  lemma LongEnough(vs: seq<View>, w: W.WorkState, w': W.WorkState, turn: PlanTurn, ctx: TurnContext,
                   sample: map<PeerId, nat> -> seq<PeerId>)
    requires Passes(vs, w, w', turn, ctx, sample)
    ensures |vs| >= 2
  {
  }

  /** Nothing was said and nothing recorded. */
  lemma SameRecord(past: Transcript, e: Option<Engine>, e': Option<Engine>, steps: nat, w: W.WorkState, w': W.WorkState,
                   f: F.FrontierState, f': F.FrontierState)
    requires Agreed(past, e, steps, w, f) && Voice(e) == Voice(e') && f'.said == f.said
    requires w'.announced == w.announced && w'.drained == w.drained && w'.told == w.told
    ensures Agreed(past, e', steps, w', f')
  {
  }

  lemma NothingSaid(w: W.WorkState, f: F.FrontierState)
    requires w.announced == multiset{} && w.drained == [] && w.told == 0 && f.said == []
    ensures Agreed(SILENCE, None, 0, w, f)
  {
    hide Joined;
    JoinedSilence(SILENCE);
  }

  /** A closed plan has nothing live or queued and its logs stand still. */
  ghost predicate ClosedOk(w: W.WorkState, f: F.FrontierState, readsDone: nat, writesDone: nat) {
    && w.persistence == Idle && w.pending == map[] && w.recovery == map[] && w.backlog == []
    && f.retained == [] && f.backlog == [] && f.unemitted == []
    && |w.readLog| == readsDone && |w.writeLog| == writesDone
  }

  lemma ClosingOk(w: W.Work, f: F.Frontier)
    ensures ClosedOk(W.CancelledWork(w), F.Closed(f), |w.readLog|, |w.writeLog|)
    ensures W.CancelledWork(w).persistence == Idle
    ensures W.CancelledWork(w).announced == w.announced && W.CancelledWork(w).drained == w.drained
    ensures W.CancelledWork(w).told == w.told && F.Closed(f).said == f.said
  {
    hide W.WellFormed, F.WellFormed, W.CancelledWork, F.Closed, LiveOps;
  }

  /** Closing again changes none of the recorded lengths. */
  lemma ClosedLengths(w: W.WorkState, f: F.FrontierState, readsDone: nat, writesDone: nat)
    requires ClosedOk(w, f, readsDone, writesDone)
    ensures |w.readLog| == readsDone && |w.writeLog| == writesDone
  {
  }

  lemma EmptyMailbox(maxPackets: nat, maxBytes: nat)
    ensures MailboxOk([], 0, 0, maxPackets, maxBytes)
  {
  }

  lemma ReleasedAgrees(past: Transcript, engine: Option<Engine>, steps: nat, w: W.WorkState, f: F.FrontierState)
    requires Agreed(past, engine, steps, w, f)
    ensures Agreed(Joined(past, Voice(engine)), None, steps, w, f)
  {
    hide Joined;
    JoinedSilence(Joined(past, Voice(engine)));
  }
}
