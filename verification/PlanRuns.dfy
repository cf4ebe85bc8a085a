/**
 * Every run of a plan: any sequence of calls, in any order, with any engine,
 * any completions and any other sessions minting from the same counter.
 */
module PlanRuns {
  import Arith
  import opened Identity
  import opened PlanModel
  import opened PlanLemmas
  import opened PlanTurns
  import opened SessionPlans
  import F = Frontiers
  import W = Works

  datatype Call =
    | Drive(drive: DriveCall)
    | Complete(completion: Completion)
    | Request(request: RequestCall)
    | Live(life: LifeCall)
    /** Another session mints from the shared counter. */
    | MintElsewhere

  datatype DriveCall =
    | PushPacket(packet: Packet)
    | InstallEngine(seeded: Engine)
    | RunTurn(ctx: TurnContext, sample: map<PeerId, nat> -> seq<PeerId>)
    | OnTimeout(noProgress: bool)
    | NoteUsefulPeer(peer: PeerId, count: nat)
    | NoteProgress
    | TakeNoProgressInterval

  datatype Completion =
    | OnRead(readOp: OperationRef)
    | OnWrite(writeOp: OperationRef, write: WriteOutcome)
    | OnDurability(fenceOp: OperationRef, fence: DurabilityOutcome)

  datatype RequestCall =
    | TakeNormalBatch(maxNodes: nat)
    | NextRecoveryBatch
    | Reprobe(batch: seq<NetworkNeed>, reprobeCtx: TurnContext)
    | BeginTimeoutScan(existing: seq<PeerId>, added: seq<PeerId>)
    | FinishNetworkLane
    | ClearRecentNodes

  datatype LifeCall = Suspend | Cancel | Terminalize | ReleaseEngine

  /** What a call hands back, where it matters to a run. */
  datatype CallResult = NoResult | Turned(turn: PlanTurn) | Took(batch: seq<NetworkNeed>)

  /** Logs only grow, nothing revoked comes back, and the plan stays closed once it was. */
  twostate predicate Forward(plan: SessionPlan)
    reads plan
  {
    && old(plan.work).readLog <= plan.work.readLog && old(plan.work).writeLog <= plan.work.writeLog
    && old(plan.work).revoked <= plan.work.revoked
    && (old(plan.closed) ==> plan.closed && plan.readsAtClose == old(plan.readsAtClose)
                             && plan.writesAtClose == old(plan.writesAtClose))
  }

  /** The calls that give reads up. */
  predicate Drops(call: Call) { call.Live? && call.life != ReleaseEngine }

  predicate Closes(call: Call) { call == Live(Cancel) || call == Live(Terminalize) }

  /** The calls that forget what was sent. */
  predicate Clears(call: Call) {
    Closes(call) || (call.Request? && (call.request.ClearRecentNodes? || call.request.BeginTimeoutScan?))
  }

  predicate Fits(call: Call, result: CallResult) {
    && (result.Turned? <==> call.Drive? && call.drive.RunTurn?)
    && (result.Took? <==> call.Request? && call.request.TakeNormalBatch?)
  }

  /** Every node drained from here to there is in a batch, in order. */
  ghost predicate NodesKept(w: W.WorkState, w': W.WorkState) {
    && w'.lost == w.lost && w.batches <= w'.batches && w.drained <= w'.drained
    && Flatten(w'.batches[|w.batches|..]) == w'.drained[|w.drained|..]
  }

  /** No read was given up; the fence of a write that failed is all that may have been revoked. */
  ghost predicate ReadsKept(w: W.WorkState, w': W.WorkState) {
    w'.dropped == w.dropped && forall op :: op in w'.revoked && op !in w.revoked ==> op.kind == DurabilityFence
  }

  /** Which call may give up reads, lose nodes or take an engine from under a write. */
  ghost predicate Accounted(w: W.WorkState, w': W.WorkState, call: Call, result: CallResult) {
    && (!Drops(call) ==> ReadsKept(w, w'))
    && (result != Turned(InvalidPlan) ==> NodesKept(w, w'))
    && (call != Live(ReleaseEngine) ==> w'.releasedEarly == w.releasedEarly)
  }

  /** A batch taken is new since the last clear, and remembered until the next. */
  ghost predicate Emits(f: F.FrontierState, f': F.FrontierState, call: Call, result: CallResult) {
    && (!Clears(call) ==> f.emitted <= f'.emitted)
    && (result.Took? ==> Distinct(result.batch) && forall n :: n in result.batch ==> n !in f.emitted && n in f'.emitted)
  }

  lemma NothingDrained(w: W.WorkState, w': W.WorkState)
    requires w'.lost == w.lost && w'.batches == w.batches && w'.drained == w.drained
    ensures NodesKept(w, w')
  {
  }

  lemma TurnKeepsNodes(w: W.WorkState, w': W.WorkState, f: F.FrontierState, f': F.FrontierState, turn: PlanTurn, ctx: TurnContext)
    requires TurnOk(w, w', f, f', turn, ctx) && turn != InvalidPlan
    ensures NodesKept(w, w')
  {
    if turn.Persist? {
      FlattenAppend([], turn.batch);
      assert w'.batches[|w.batches|..] == [] + [turn.batch] && Flatten([]) == [];
      assert w'.drained[|w.drained|..] == turn.batch.nodes;
    } else {
      NothingDrained(w, w');
    }
  }

  lemma {:induction false} FlattenJoin(a: seq<WriteBatch>, b: seq<WriteBatch>)
    ensures Flatten(a + b) == Flatten(a) + Flatten(b)
  {
    if b == [] {
      assert a + b == a;
    } else {
      assert (a + b)[..|a + b| - 1] == a + b[..|b| - 1];
      FlattenJoin(a, b[..|b| - 1]);
    }
  }

  lemma NodesKeptTwice(a: W.WorkState, b: W.WorkState, c: W.WorkState)
    requires NodesKept(a, b) && NodesKept(b, c)
    ensures NodesKept(a, c)
  {
    assert c.batches[|a.batches|..] == b.batches[|a.batches|..] + c.batches[|b.batches|..];
    FlattenJoin(b.batches[|a.batches|..], c.batches[|b.batches|..]);
    assert c.drained[|a.drained|..] == b.drained[|a.drained|..] + c.drained[|b.drained|..];
  }

  method StepDrive(plan: SessionPlan, ids: IdCounter, call: DriveCall) returns (result: CallResult)
    requires plan.Valid() && ids.Valid() && plan.work.seen <= ids.mints
    modifies plan, ids
    ensures plan.Valid() && ids.Valid() && plan.work.seen <= ids.mints
    ensures Forward(plan) && Accounted(old(plan.work), plan.work, Drive(call), result) && Fits(Drive(call), result)
    ensures Emits(old(plan.frontier), plan.frontier, Drive(call), result)
  {
    hide W.WellFormed, F.WellFormed, SessionPlan.Valid, MaxScores, NodesKept;
    result := NoResult;
    NothingDrained(plan.work, plan.work);
    match call
    case PushPacket(packet) => var _ := plan.PushPacket(packet);
    case InstallEngine(seeded) => var _ := plan.InstallEngine(seeded);
    case RunTurn(ctx, sample) => result := RunTurnForward(plan, ids, ctx, sample);
    case OnTimeout(noProgress) => var _ := plan.OnTimeout(noProgress);
    case NoteUsefulPeer(peer, count) => plan.NoteUsefulPeer(peer, count);
    case NoteProgress => plan.NoteProgress();
    case TakeNoProgressInterval => var _ := plan.TakeNoProgressInterval();
  }

  lemma FenceOfWrite(w: W.Work)
    ensures w.persistence.FinalWritePending? ==> w.persistence.fence.kind == DurabilityFence
  {
  }

  method StepRead(plan: SessionPlan, op: OperationRef)
    requires plan.Valid()
    modifies plan
    ensures plan.Valid() && Forward(plan) && plan.work.seen == old(plan.work).seen
    ensures Accounted(old(plan.work), plan.work, Call.Complete(OnRead(op)), NoResult)
    ensures plan.frontier.emitted == old(plan.frontier).emitted
  {
    hide W.WellFormed, F.WellFormed, SessionPlan.Valid, NodesKept, F.Retired, W.ReadApplied, W.RecoveryApplied;
    var _ := plan.OnRead(op);
    NothingDrained(old(plan.work), plan.work);
  }

  method StepCompletion(plan: SessionPlan, ids: IdCounter, call: Completion)
    requires plan.Valid() && ids.Valid() && plan.work.seen <= ids.mints
    modifies plan, ids
    ensures plan.Valid() && ids.Valid() && plan.work.seen <= ids.mints
    ensures Forward(plan) && Accounted(old(plan.work), plan.work, Call.Complete(call), NoResult)
    ensures Emits(old(plan.frontier), plan.frontier, Call.Complete(call), NoResult)
  {
    hide W.WellFormed, F.WellFormed, SessionPlan.Valid, MaxScores, NodesKept;
    match call {
      case OnRead(op) => StepRead(plan, op);
      case OnWrite(op, outcome) =>
        FenceOfWrite(plan.work);
        var _ := plan.OnWrite(op, outcome);
      case OnDurability(op, outcome) => var _ := plan.OnDurability(op, outcome);
    }
    if !call.OnRead? {
      NothingDrained(old(plan.work), plan.work);
    }
  }

  method StepRequest(plan: SessionPlan, ids: IdCounter, call: RequestCall) returns (result: CallResult)
    requires plan.Valid() && ids.Valid() && plan.work.seen <= ids.mints
    modifies plan, ids
    ensures plan.Valid() && ids.Valid() && plan.work.seen <= ids.mints
    ensures Forward(plan) && Accounted(old(plan.work), plan.work, Request(call), result) && Fits(Request(call), result)
    ensures Emits(old(plan.frontier), plan.frontier, Request(call), result)
  {
    hide W.WellFormed, F.WellFormed, SessionPlan.Valid, MaxScores, NodesKept;
    result := NoResult;
    match call {
      case TakeNormalBatch(maxNodes) =>
        ghost var f := plan.frontier;
        var batch := plan.TakeNextNormalNetworkBatch(maxNodes);
        TakenOnce(f, |batch|);
        result := Took(batch);
      case NextRecoveryBatch => var _ := plan.NextTimeoutRecoveryBatch();
      case Reprobe(batch, ctx) => var _ := plan.ReprobeNetworkBatch(batch, ctx, ids);
      case BeginTimeoutScan(existing, added) => plan.BeginTimeoutScan(existing, added);
      case FinishNetworkLane => plan.FinishNetworkLane();
      case ClearRecentNodes => plan.ClearRecentNodes();
    }
    NothingDrained(old(plan.work), plan.work);
  }

  lemma TakenOnce(f: F.Frontier, k: nat)
    requires k <= |f.unemitted|
    ensures Distinct(f.unemitted[..k]) && forall n :: n in f.unemitted[..k] ==> n !in f.emitted && n in F.Taken(f, k).emitted
  {
    F.TakeIsFresh(f, k);
  }

  /** What the life calls make of the work: no log moves and nothing revoked comes back. */
  lemma LifeAccounted(w: W.Work, call: LifeCall)
    ensures var w' := (match call case Suspend => W.Suspended(w) case ReleaseEngine => W.Released(w) case _ => W.CancelledWork(w));
            && Accounted(w, w', Live(call), NoResult)
            && w'.readLog == w.readLog && w'.writeLog == w.writeLog && w.revoked <= w'.revoked && w'.seen == w.seen
  {
    hide *;
    SuspendAccounted(w);
    ReleaseAccounted(w);
    CloseAccounted(w, call);
  }

  lemma SuspendAccounted(w: W.Work)
    ensures var w' := W.Suspended(w);
            && Accounted(w, w', Live(Suspend), NoResult)
            && w'.readLog == w.readLog && w'.writeLog == w.writeLog && w.revoked <= w'.revoked && w'.seen == w.seen
  {
    hide W.WellFormed, NodesKept;
    NothingDrained(w, W.Suspended(w));
  }

  lemma ReleaseAccounted(w: W.Work)
    ensures var w' := W.Released(w);
            && Accounted(w, w', Live(ReleaseEngine), NoResult)
            && w'.readLog == w.readLog && w'.writeLog == w.writeLog && w.revoked <= w'.revoked && w'.seen == w.seen
  {
    hide W.WellFormed, NodesKept;
    NothingDrained(w, W.Released(w));
  }

  lemma CloseAccounted(w: W.Work, call: LifeCall)
    ensures var w' := W.CancelledWork(w);
            && (call == Cancel || call == Terminalize ==> Accounted(w, w', Live(call), NoResult))
            && w'.readLog == w.readLog && w'.writeLog == w.writeLog && w.revoked <= w'.revoked && w'.seen == w.seen
  {
    hide W.WellFormed, NodesKept, LiveOps;
    NothingDrained(w, W.CancelledWork(w));
  }

  method StepLife(plan: SessionPlan, ids: IdCounter, call: LifeCall)
    requires plan.Valid() && ids.Valid() && plan.work.seen <= ids.mints
    modifies plan, ids
    ensures plan.Valid() && ids.Valid() && plan.work.seen <= ids.mints
    ensures Forward(plan) && Accounted(old(plan.work), plan.work, Live(call), NoResult)
    ensures Emits(old(plan.frontier), plan.frontier, Live(call), NoResult)
    ensures Closes(Live(call)) ==> plan.closed
  {
    hide W.WellFormed, F.WellFormed, SessionPlan.Valid, MaxScores, Accounted, W.Suspended, W.SuspendState, W.CancelledWork,
         W.CancelState, W.Released;
    LifeAccounted(plan.work, call);
    match call
    case Suspend => plan.SuspendForDormancy();
    case Cancel => plan.Cancel();
    case Terminalize => plan.TerminalizeRetainingEngine();
    case ReleaseEngine => plan.ReleaseRetainedEngine();
  }

  /** One call of a run, and its result. */
  method Step(plan: SessionPlan, ids: IdCounter, call: Call) returns (result: CallResult)
    requires plan.Valid() && ids.Valid() && plan.work.seen <= ids.mints
    modifies plan, ids
    ensures plan.Valid() && ids.Valid() && plan.work.seen <= ids.mints && (Closes(call) ==> plan.closed)
    ensures Forward(plan) && Accounted(old(plan.work), plan.work, call, result) && Fits(call, result)
    ensures Emits(old(plan.frontier), plan.frontier, call, result)
  {
    hide W.WellFormed, F.WellFormed, SessionPlan.Valid, MaxScores, NodesKept;
    result := NoResult;
    NothingDrained(plan.work, plan.work);
    match call
    case Drive(drive) => result := StepDrive(plan, ids, drive);
    case Complete(completion) => StepCompletion(plan, ids, completion);
    case Request(request) => result := StepRequest(plan, ids, request);
    case Live(life) => StepLife(plan, ids, life);
    case MintElsewhere => var _ := ids.NextId();
  }

  method RunTurnForward(plan: SessionPlan, ids: IdCounter, ctx: TurnContext, sample: map<PeerId, nat> -> seq<PeerId>)
    returns (result: CallResult)
    requires plan.Valid() && ids.Valid() && plan.work.seen <= ids.mints
    modifies plan, ids
    ensures plan.Valid() && ids.Valid() && plan.work.seen <= ids.mints
    ensures Forward(plan) && Accounted(old(plan.work), plan.work, Drive(RunTurn(ctx, sample)), result) && result.Turned?
    ensures plan.frontier.emitted == old(plan.frontier).emitted
  {
    hide W.WellFormed, F.WellFormed, MailboxOk, NodesKept;
    ghost var w, f := plan.work, plan.frontier;
    NothingDrained(w, w);
    var turn, _ := plan.RunTurn(ctx, ids, sample);
    if turn != InvalidPlan && plan.work != w {
      TurnKeepsNodes(w, plan.work, f, plan.frontier, turn, ctx);
    }
    result := Turned(turn);
  }

  /** Every read, write and fence operation has exactly one fate; each is acted on at most once. */
  ghost predicate OneFateEach(w: W.WorkState) {
    w.seen < FRESH_IDS ==>
      && w.minted == LiveOps(w.pending, w.recovery, w.persistence) + AllSettled(w.readLog, w.writeLog) + w.revoked
      && LiveOps(w.pending, w.recovery, w.persistence) !! AllSettled(w.readLog, w.writeLog)
      && AllSettled(w.readLog, w.writeLog) !! w.revoked
      && LiveOps(w.pending, w.recovery, w.persistence) !! w.revoked
      && Distinct(w.readLog) && DistinctSettlements(w.writeLog)
  }

  /** Durable means: the last batch was fenced, its write was accepted, then its fence passed. */
  ghost predicate DurableEarned(w: W.WorkState) {
    w.persistence == Durable ==>
      && w.batches != [] && Last(w.batches).fence.Some? && |w.writeLog| >= 2
      && w.writeLog[|w.writeLog| - 2] == WriteSettled(Last(w.batches).operation, WriteAccepted)
      && w.writeLog[|w.writeLog| - 1] == FenceSettled(Last(w.batches).fence.value, FencePassed)
  }

  /**
   * Whatever the calls, engine and completions: every operation keeps one fate,
   * none is acted on after the plan closed, and none that a suspension or
   * cancellation revoked is ever acted on. What the engines' own transcripts say
   * is accounted for: every read they announced is in flight, waiting, applied
   * by an ordinary read, or given up, and only a suspension, cancellation or
   * terminalization gives reads up; every need is queued or known to be gone;
   * every node they gave out is in the batches or lost, all of them in order if
   * no turn was invalid; unless one was released under a write, they were told
   * of exactly the accepted batches; and every advance was made from a quiet
   * plan. The peer batches taken between two clears share no need and repeat
   * none, the queues stay consistent and durability was earned.
   */
  method Run(plan: SessionPlan, ids: IdCounter, calls: seq<Call>) returns (results: seq<CallResult>)
    requires plan.Valid() && ids.Valid() && plan.work.seen <= ids.mints
    modifies plan, ids
    ensures plan.Valid() && ids.Valid()
    ensures (exists c :: c in calls && Closes(c)) ==> plan.closed
    ensures old(plan.closed) ==>
              plan.closed && |plan.work.readLog| == old(|plan.work.readLog|)
              && |plan.work.writeLog| == old(|plan.work.writeLog|)
    ensures OneFateEach(plan.work) && DurableEarned(plan.work)
    ensures plan.work.seen < FRESH_IDS ==> old(plan.work).revoked !! AllSettled(plan.work.readLog, plan.work.writeLog)
    ensures var w := plan.work;
            && |w.pending| <= w.cap && w.pending.Keys !! ReadHashes(w.backlog) && DistinctHashes(w.backlog)
            && w.announced == multiset(w.pending.Keys) + multiset(ReadHashes(w.backlog)) + w.applied + w.dropped
            && |w.applied| == OrdinaryReads(w.readLog)
    ensures (forall c :: c in calls ==> !Drops(c)) ==> ReadsKept(old(plan.work), plan.work)
    ensures var f := plan.frontier;
            && FrontierOk(f.retained, f.unemitted, f.backlog, f.pending, f.cursor)
            && |f.backlog| <= f.announcement && Distinct(f.emitted)
            && F.NeedsKept(f)
    ensures |results| == |calls| && forall i :: 0 <= i < |calls| ==> Fits(calls[i], results[i])
    ensures BatchesApart(calls, results)
    ensures forall g :: g in plan.guards ==> g == QUIET
    ensures Joined(plan.past, Voice(plan.engine)) ==
            Transcript(|plan.guards|, plan.work.announced, plan.frontier.said, plan.work.drained, plan.work.told)
    ensures Turned(InvalidPlan) !in results ==> NodesKept(old(plan.work), plan.work)
    ensures var w := plan.work;
            && (w.lost == [] ==> Flatten(w.batches) == w.drained)
            && multiset(w.drained) == multiset(Flatten(w.batches)) + multiset(w.lost)
            && (!w.releasedEarly ==> w.told == AcceptedWrites(w.writeLog))
    ensures Live(ReleaseEngine) !in calls ==> plan.work.releasedEarly == old(plan.work).releasedEarly
  {
    results := Steps(plan, ids, calls);
    WorkFacts(plan.work);
    FrontierFacts(plan.frontier);
  }

  /** All calls, in order. */
  method Steps(plan: SessionPlan, ids: IdCounter, calls: seq<Call>) returns (results: seq<CallResult>)
    requires plan.Valid() && ids.Valid() && plan.work.seen <= ids.mints
    modifies plan, ids
    ensures plan.Valid() && ids.Valid() && Forward(plan)
    ensures |results| == |calls| && forall i :: 0 <= i < |calls| ==> Fits(calls[i], results[i])
    ensures AccountedFor(old(plan.work), plan.work, calls, results) && BatchesApart(calls, results)
    ensures (exists c :: c in calls && Closes(c)) ==> plan.closed
  {
    hide W.WellFormed, F.WellFormed, SessionPlan.Valid, NodesKept, Accounted, AccountedFor, BatchesApart, StillEmitted, Emits;
    results := [];
    NoCalls(plan.work);
    NoBatches(plan.frontier);
    while |results| < |calls|
      invariant |results| <= |calls| && plan.Valid() && ids.Valid() && plan.work.seen <= ids.mints && Forward(plan)
      invariant forall i :: 0 <= i < |results| ==> Fits(calls[i], results[i])
      invariant AccountedFor(old(plan.work), plan.work, calls[..|results|], results)
      invariant BatchesApart(calls[..|results|], results) && StillEmitted(plan.frontier, calls[..|results|], results)
      invariant (exists c :: c in calls[..|results|] && Closes(c)) ==> plan.closed
    {
      ghost var w, f := plan.work, plan.frontier;
      var i := |results|;
      var result := Step(plan, ids, calls[i]);
      OneMoreCall(old(plan.work), w, plan.work, calls[..i], results, calls[i], result);
      OneMoreBatch(f, plan.frontier, calls[..i], results, calls[i], result);
      assert calls[..i + 1] == calls[..i] + [calls[i]];
      results := results + [result];
    }
    assert calls[..|calls|] == calls;
  }

  lemma NoCalls(w: W.WorkState)
    ensures AccountedFor(w, w, [], [])
  {
    NothingDrained(w, w);
  }

  /** The same over several calls and their results. */
  ghost predicate AccountedFor(w: W.WorkState, w': W.WorkState, calls: seq<Call>, results: seq<CallResult>) {
    && ((forall c :: c in calls ==> !Drops(c)) ==> ReadsKept(w, w'))
    && (Turned(InvalidPlan) !in results ==> NodesKept(w, w'))
    && (Live(ReleaseEngine) !in calls ==> w'.releasedEarly == w.releasedEarly)
  }

  lemma OneMoreCall(a: W.WorkState, b: W.WorkState, c: W.WorkState, calls: seq<Call>, results: seq<CallResult>,
                    call: Call, result: CallResult)
    requires AccountedFor(a, b, calls, results) && Accounted(b, c, call, result)
    ensures AccountedFor(a, c, calls + [call], results + [result])
  {
    hide NodesKept;
    var more, all := calls + [call], results + [result];
    assert call in more && result in all;
    assert forall x :: x in calls ==> x in more;
    assert forall x :: x in results ==> x in all;
    if Turned(InvalidPlan) !in all {
      NodesKeptTwice(a, b, c);
    }
  }

  ghost predicate NoClear(calls: seq<Call>, i: nat, j: nat)
    requires j <= |calls|
  {
    forall k :: i < k < j ==> !Clears(calls[k])
  }

  /** Two peer batches taken with no clear in between share nothing, and neither repeats a need. */
  ghost predicate BatchesApart(calls: seq<Call>, results: seq<CallResult>) {
    && |results| == |calls|
    && (forall i :: 0 <= i < |calls| && results[i].Took? ==> Distinct(results[i].batch))
    && (forall i, j :: 0 <= i < j < |calls| && results[i].Took? && results[j].Took? && NoClear(calls, i, j) ==>
          forall n :: n in results[i].batch ==> n !in results[j].batch)
  }

  /** What was taken and not forgotten since is remembered. */
  ghost predicate StillEmitted(f: F.FrontierState, calls: seq<Call>, results: seq<CallResult>) {
    && |results| == |calls|
    && forall i :: 0 <= i < |calls| && results[i].Took? && NoClear(calls, i, |calls|) ==>
         forall n :: n in results[i].batch ==> n in f.emitted
  }

  lemma NoBatches(f: F.FrontierState)
    ensures BatchesApart([], []) && StillEmitted(f, [], [])
  {
  }

  lemma ClearlessPrefix(calls: seq<Call>, call: Call, i: nat, j: nat)
    requires j <= |calls|
    ensures NoClear(calls + [call], i, j) <==> NoClear(calls, i, j)
    ensures i < |calls| && NoClear(calls + [call], i, |calls| + 1) ==> NoClear(calls, i, |calls|) && !Clears(call)
  {
    var more := calls + [call];
    assert more[|calls|] == call;
    assert forall k :: 0 <= k < |calls| ==> more[k] == calls[k];
  }

  lemma OneMoreBatch(f: F.FrontierState, f': F.FrontierState, calls: seq<Call>, results: seq<CallResult>,
                     call: Call, result: CallResult)
    requires BatchesApart(calls, results) && StillEmitted(f, calls, results) && Emits(f, f', call, result)
    ensures BatchesApart(calls + [call], results + [result]) && StillEmitted(f', calls + [call], results + [result])
  {
    forall i, j | 0 <= i && 0 <= j <= |calls|
      ensures NoClear(calls + [call], i, j) <==> NoClear(calls, i, j)
      ensures i < |calls| && NoClear(calls + [call], i, |calls| + 1) ==> NoClear(calls, i, |calls|) && !Clears(call)
    {
      ClearlessPrefix(calls, call, i, j);
    }
    hide NoClear, Clears;
    var more := results + [result];
    forall i | 0 <= i <= |calls| && more[i].Took? && NoClear(calls + [call], i, |calls| + 1)
      ensures forall n :: n in more[i].batch ==> n in f'.emitted
    {
      if i < |calls| {
        assert NoClear(calls, i, |calls|) && f.emitted <= f'.emitted && more[i] == results[i];
      }
    }
  }

  lemma WorkFacts(w: W.Work)
    ensures OneFateEach(w) && DurableEarned(w)
    ensures |w.pending| <= w.cap && w.pending.Keys !! ReadHashes(w.backlog) && DistinctHashes(w.backlog)
    ensures w.announced == multiset(w.pending.Keys) + multiset(ReadHashes(w.backlog)) + w.applied + w.dropped
    ensures w.lost == [] ==> Flatten(w.batches) == w.drained
    ensures multiset(w.drained) == multiset(Flatten(w.batches)) + multiset(w.lost)
    ensures |w.applied| == OrdinaryReads(w.readLog)
    ensures !w.releasedEarly ==> w.told == AcceptedWrites(w.writeLog)
  {
  }

  lemma FrontierFacts(f: F.Frontier)
    ensures FrontierOk(f.retained, f.unemitted, f.backlog, f.pending, f.cursor)
    ensures |f.backlog| <= f.announcement && Distinct(f.emitted)
    ensures F.NeedsKept(f)
  {
  }

  // ----- two consequences on whole objects --------------------------------------------------

  /** A timeout failure cancels without clearing: the read in flight is still consumed. */
  method TimedOutPlanStillReads(plan: SessionPlan, op: OperationRef) returns (timeout: TimeoutVerdict, verdict: ReadVerdict)
    requires plan.Valid() && !plan.cancelled && plan.timeouts == plan.maxTimeouts < U32_MAX
    requires plan.engine.Some? && op.kind == Read && op in plan.work.pending.Values
    modifies plan
    ensures timeout == TimeoutFail && plan.cancelled && verdict == ReadConsumed
    ensures plan.Valid() && plan.work.readLog == old(plan.work).readLog + [op]
  {
    hide W.WellFormed, F.WellFormed, SessionPlan.Valid;
    timeout := plan.OnTimeout(true);
    verdict := plan.OnRead(op);
  }

  /** With nothing in between, batches of any positive size return the whole unemitted queue, each need once and in order. */
  method TakeAll(plan: SessionPlan, maxNodes: nat) returns (all: seq<NetworkNeed>)
    requires plan.Valid() && !plan.cancelled && maxNodes > 0
    modifies plan
    ensures plan.Valid() && all == old(plan.frontier).unemitted && plan.frontier.unemitted == [] && Distinct(all)
    ensures plan.frontier.recent == old(plan.frontier).recent + HashesOf(all)
  {
    hide W.WellFormed, F.WellFormed, SessionPlan.Valid, HashesOf;
    all := [];
    TakenWhole(plan.frontier);
    while plan.frontier.unemitted != []
      invariant plan.Valid() && !plan.cancelled && old(plan.frontier).unemitted == all + plan.frontier.unemitted
      invariant plan.frontier.recent == old(plan.frontier).recent + HashesOf(all)
      decreases |plan.frontier.unemitted|
    {
      ghost var queue, recent := plan.frontier.unemitted, plan.frontier.recent;
      var batch := plan.TakeNextNormalNetworkBatch(maxNodes);
      assert queue == batch + queue[|batch|..];
      assert batch != [];
      HashesAppend(all, batch);
      all := all + batch;
    }
  }

  lemma TakenWhole(f: F.Frontier)
    ensures Distinct(f.unemitted) && f.recent + HashesOf([]) == f.recent
  {
  }

  /** As many recovery batches as it takes twelve to cover the frontier return every retained need. */
  method RotateThrough(plan: SessionPlan) returns (all: seq<NetworkNeed>)
    requires plan.Valid() && !plan.cancelled
    modifies plan
    ensures plan.Valid() && plan.frontier.retained == old(plan.frontier).retained
    ensures forall n :: n in plan.frontier.retained ==> n in all
  {
    hide W.WellFormed, F.WellFormed, SessionPlan.Valid;
    all := [];
    ghost var needs, start := plan.frontier.retained, plan.frontier.cursor;
    if plan.frontier.retained == [] {
      return;
    }
    F.CursorInRange(plan.frontier);
    var rounds := (|plan.frontier.retained| + MAX_TIMEOUT_REPROBES - 1) / MAX_TIMEOUT_REPROBES;
    for r := 0 to rounds
      invariant plan.Valid() && !plan.cancelled && plan.frontier.retained == needs
      invariant plan.frontier.cursor == CursorAfter(start, |needs|, r)
      invariant forall q :: 0 <= q < r ==>
                  forall n :: n in RecoveryBatch(needs, CursorAfter(start, |needs|, q)) ==> n in all
    {
      var batch := plan.NextTimeoutRecoveryBatch();
      CursorInLap(start, |needs|, r);
      all := all + batch;
    }
    forall n | n in needs ensures n in all {
      var i :| 0 <= i < |needs| && needs[i] == n;
      RotationCoversFrontier(needs, start, i);
    }
  }

  lemma CursorInLap(start: nat, n: nat, r: nat)
    requires n > 0
    ensures CursorAfter(CursorAfter(start, n, r), n, 1) == CursorAfter(start, n, r + 1)
  {
    Arith.DivModUnique(CursorAfter(start, n, r), 0, n, CursorAfter(start, n, r));
  }
}
