/**
 * The work a plan has outstanding: ordinary and recovery reads, the read
 * backlog and the write/fence machine, with the record of what became of every
 * operation and every announced read. The invariant is the type.
 */
module Works {
  import opened Identity
  import opened PlanModel
  import opened PlanLemmas

  datatype WorkState = WorkState(
    pending: map<Hash, OperationRef>,
    recovery: map<OperationRef, NetworkNeed>,
    backlog: seq<ReadNeed>,
    persistence: Persistence,
    cap: nat,
    /** Mints of the shared counter the plan knows about. */
    ghost seen: nat,
    ghost minted: set<OperationRef>,
    /** Reads, and writes or fences, acted on - in order. */
    ghost readLog: seq<OperationRef>,
    ghost writeLog: seq<Settlement>,
    /** Operations taken back by a suspension, a cancellation or a failed write. */
    ghost revoked: set<OperationRef>,
    /** Ordinary reads announced, applied, or dropped while in flight or waiting. */
    ghost announced: multiset<Hash>,
    ghost applied: multiset<Hash>,
    ghost dropped: multiset<Hash>,
    ghost batches: seq<WriteBatch>,
    ghost drained: seq<PersistNode>,
    ghost lost: seq<PersistNode>,
    /** Acceptances the engine was told of, and whether it was released under a write. */
    ghost told: nat,
    ghost releasedEarly: bool)

  ghost predicate Conserved(w: WorkState) {
    ReadsOk(w.pending, w.backlog, w.cap, w.announced, w.applied, w.dropped)
  }

  ghost predicate Accountable(w: WorkState) {
    && OpsOk(w.seen, w.minted, w.pending, w.recovery, w.persistence, w.readLog, w.writeLog, w.revoked)
    && RecoveryOk(w.recovery)
  }

  ghost predicate Ordered(w: WorkState) {
    WritesOk(w.persistence, w.batches, w.writeLog, w.drained, w.lost, w.told, w.releasedEarly)
  }

  ghost function Live(w: WorkState): set<OperationRef> { LiveOps(w.pending, w.recovery, w.persistence) }

  ghost function Settled(w: WorkState): set<OperationRef> { AllSettled(w.readLog, w.writeLog) }

  ghost predicate WellFormed(w: WorkState) {
    Conserved(w) && Accountable(w) && Ordered(w) && AppliedOk(w.applied, w.readLog)
  }

  ghost function Blank(cap: nat): WorkState {
    WorkState(map[], map[], [], Idle, cap, 0, {}, [], [], {}, multiset{}, multiset{}, multiset{},
              [], [], [], 0, false)
  }

  lemma BlankOk(cap: nat)
    ensures WellFormed(Blank(cap))
  {
    var none: map<Hash, OperationRef> := map[];
    assert none.Keys == {} && |none| == 0 && ReadHashes([]) == {};
    EmptyLive(Idle);
    assert AllSettled([], []) == {};
  }

  type Work = w: WorkState | WellFormed(w) ghost witness (BlankOk(0); Blank(0))

  function NewWork(cap: nat): (r: Work)
    ensures r == Blank(cap)
  {
    BlankOk(cap);
    WorkState(map[], map[], [], Idle, cap, 0, {}, [], [], {}, multiset{}, multiset{}, multiset{},
              [], [], [], 0, false)
  }

  /** The operation is the counter's newest, given the count after it was minted. */
  ghost predicate Newest(w: WorkState, op: OperationRef, seen: nat) {
    && w.seen <= seen
    && (seen < FRESH_IDS ==> w.seen < op.operationId <= seen)
  }

  /** Mints one operation identity: two ids of the shared counter. */
  method MintOperation(ids: IdCounter, session: SessionRef, kind: OperationKind) returns (op: OperationRef)
    requires ids.Valid()
    modifies ids
    ensures ids.Valid() && ids.mints == old(ids.mints) + 2
    ensures op.session == session && op.kind == kind
    ensures ids.mints < FRESH_IDS ==> old(ids.mints) < op.operationId <= ids.mints
  {
    var id := ids.NextId();
    var generation := ids.NextId();
    op := OperationRef(session, kind, id, generation);
  }

  // ----- reads ---------------------------------------------------------------------

  /** A read operation goes in flight; `h` joins the pending table. */
  lemma ReadAccountable(w: WorkState, h: Hash, op: OperationRef, seen: nat)
    requires Accountable(w) && h !in w.pending && op.kind == Read && Newest(w, op, seen)
    ensures Accountable(w.(pending := w.pending[h := op], seen := seen, minted := w.minted + {op}))
  {
    if seen < FRESH_IDS {
      MintKeeps(w.seen, seen, w.minted, Live(w), Settled(w), w.revoked, op);
      ValuesUpdate(w.pending, h, op);
      assert LiveOps(w.pending[h := op], w.recovery, w.persistence) == Live(w) + {op};
      forall g | g in w.pending ensures w.pending[g] != op {
        assert w.pending[g] in w.pending.Values;
      }
    }
  }

  lemma FrontConserved(w: WorkState, op: OperationRef)
    requires Conserved(w) && w.backlog != [] && |w.pending| < w.cap
    ensures w.backlog[0].hash !in w.pending
    ensures Conserved(w.(pending := w.pending[w.backlog[0].hash := op], backlog := w.backlog[1..]))
  {
    hide ReadHashes, DistinctHashes;
    var h, keys, tail := w.backlog[0].hash, w.pending.Keys, ReadHashes(w.backlog[1..]);
    FrontHashes(w.backlog);
    assert w.pending[h := op].Keys == keys + {h};
    assert |w.pending[h := op]| == |w.pending| + 1;
    MoveBetween(keys, tail, h);
  }

  lemma InFlightConserved(w: WorkState, h: Hash, op: OperationRef)
    requires Conserved(w) && h !in w.pending && h !in ReadHashes(w.backlog) && |w.pending| < w.cap
    ensures Conserved(w.(pending := w.pending[h := op], announced := w.announced + multiset{h}))
  {
    hide ReadHashes, DistinctHashes;
    assert w.pending[h := op].Keys == w.pending.Keys + {h};
    MultisetOfUnion(w.pending.Keys, {h});
  }

  lemma WaitingConserved(w: WorkState, need: ReadNeed)
    requires Conserved(w) && need.hash !in w.pending && need.hash !in ReadHashes(w.backlog)
    ensures Conserved(w.(backlog := w.backlog + [need], announced := w.announced + multiset{need.hash}))
  {
    hide ReadHashes, DistinctHashes;
    HashesPush(w.backlog, need);
    MultisetOfUnion(ReadHashes(w.backlog), {need.hash});
  }

  /** The oldest waiting read goes in flight. */
  function AdmittedFront(w: Work, op: OperationRef, ghost seen: nat): (r: Work)
    requires w.backlog != [] && |w.pending| < w.cap
    requires op.kind == Read && Newest(w, op, seen)
    ensures w.backlog[0].hash !in w.pending
    ensures r == w.(pending := w.pending[w.backlog[0].hash := op], backlog := w.backlog[1..],
                    seen := seen, minted := w.minted + {op})
  {
    hide ReadsOk, OpsOk, WritesOk, RecoveryOk, AppliedOk;
    FrontConserved(w, op);
    ReadAccountable(w, w.backlog[0].hash, op, seen);
    w.(pending := w.pending[w.backlog[0].hash := op], backlog := w.backlog[1..], seen := seen,
       minted := w.minted + {op})
  }

  /** A newly announced read goes straight in flight. */
  function AnnouncedInFlight(w: Work, h: Hash, op: OperationRef, ghost seen: nat): (r: Work)
    requires h !in w.pending && h !in ReadHashes(w.backlog) && |w.pending| < w.cap
    requires op.kind == Read && Newest(w, op, seen)
    ensures r == w.(pending := w.pending[h := op], seen := seen, minted := w.minted + {op},
                    announced := w.announced + multiset{h})
  {
    hide ReadsOk, OpsOk, WritesOk, RecoveryOk, AppliedOk;
    InFlightConserved(w, h, op);
    ReadAccountable(w, h, op, seen);
    w.(pending := w.pending[h := op], seen := seen, minted := w.minted + {op},
       announced := w.announced + multiset{h})
  }

  /** A newly announced read waits behind the backlog. */
  function AnnouncedWaiting(w: Work, need: ReadNeed): (r: Work)
    requires need.hash !in w.pending && need.hash !in ReadHashes(w.backlog)
    ensures r == w.(backlog := w.backlog + [need], announced := w.announced + multiset{need.hash})
  {
    hide ReadsOk, OpsOk, WritesOk, RecoveryOk, AppliedOk;
    WaitingConserved(w, need);
    w.(backlog := w.backlog + [need], announced := w.announced + multiset{need.hash})
  }

  // ----- rounds of reads -------------------------------------------------------------

  /** `w'` differs from `w` only in its ordinary reads. */
  ghost predicate OnlyReads(w: Work, w': Work) {
    w' == w.(pending := w'.pending, backlog := w'.backlog, seen := w'.seen, minted := w'.minted,
             announced := w'.announced)
  }

  lemma DispatchedStep(requests: seq<ReadRequest>, needs: seq<ReadNeed>, pending: map<Hash, OperationRef>,
                       ctx: TurnContext, op: OperationRef)
    requires Dispatched(requests, needs, pending, ctx) && |requests| < |needs|
    requires needs[|requests|].hash !in pending
    ensures var need := needs[|requests|];
            Dispatched(requests + [ReadRequest(op, need.hash, need.ledgerSeq, ctx.storeGeneration, ctx.priority)],
                       needs, pending[need.hash := op], ctx)
  {
    hide ReadHashes;
    var k, need := |requests|, needs[|requests|];
    PrefixHashes(needs, k);
    forall i | 0 <= i < k ensures needs[i].hash != need.hash {
      assert needs[i].hash in pending;
    }
  }

  /** The oldest waiting reads went in flight, one request each. */
  ghost predicate Draining(w: Work, r: Work, requests: seq<ReadRequest>, ctx: TurnContext) {
    && OnlyReads(w, r) && r.announced == w.announced
    && |requests| <= |w.backlog| && r.backlog == w.backlog[|requests|..]
    && Dispatched(requests, w.backlog, r.pending, ctx)
    && |r.pending| == |requests| <= w.cap
  }

  lemma DrainingStart(w: Work, ctx: TurnContext)
    requires w.pending == map[]
    ensures Draining(w, w, [], ctx)
  {
    hide WellFormed;
    assert w.backlog[..0] == [] && ReadHashes([]) == {};
  }

  lemma DrainingStep(w: Work, r: Work, requests: seq<ReadRequest>, ctx: TurnContext, op: OperationRef, seen: nat)
    requires Draining(w, r, requests, ctx) && r.backlog != [] && |r.pending| < r.cap
    requires op.kind == Read && Newest(r, op, seen)
    ensures var need := r.backlog[0];
            Draining(w, AdmittedFront(r, op, seen),
                     requests + [ReadRequest(op, need.hash, need.ledgerSeq, ctx.storeGeneration, ctx.priority)], ctx)
  {
    hide WellFormed, Dispatched;
    ghost var next := AdmittedFront(r, op, seen);
    assert r.backlog[0] == w.backlog[|requests|];
    DispatchedStep(requests, w.backlog, r.pending, ctx, op);
  }

  /** Drains the waiting reads into flight, oldest first, up to the cap. */
  method DrainBacklog(w: Work, ctx: TurnContext, ids: IdCounter) returns (r: Work, requests: seq<ReadRequest>)
    requires w.pending == map[] && ids.Valid() && w.seen <= ids.mints
    modifies ids
    ensures ids.Valid() && r.seen <= ids.mints && OnlyReads(w, r) && r.announced == w.announced
    ensures |requests| == Min(w.cap, |w.backlog|)
    ensures Dispatched(requests, w.backlog, r.pending, ctx) && r.backlog == w.backlog[|requests|..]
  {
    hide WellFormed, Dispatched, AdmittedFront;
    r, requests := w, [];
    DrainingStart(w, ctx);
    while r.backlog != [] && |r.pending| < r.cap
      invariant ids.Valid() && r.seen <= ids.mints && Draining(w, r, requests, ctx)
      decreases |r.backlog|
    {
      var need := r.backlog[0];
      var op := MintOperation(ids, ctx.session, Read);
      DrainingStep(w, r, requests, ctx, op, ids.mints);
      r := AdmittedFront(r, op, ids.mints);
      requests := requests + [ReadRequest(op, need.hash, need.ledgerSeq, ctx.storeGeneration, ctx.priority)];
    }
  }

  /** `i` announced needs were placed: the first in flight, the rest - once the cap is reached - waiting. */
  ghost predicate Admitting(w: Work, r: Work, requests: seq<ReadRequest>, needs: seq<ReadNeed>, i: nat, ctx: TurnContext) {
    && OnlyReads(w, r)
    && |requests| <= i <= |needs| && r.backlog == needs[|requests|..i]
    && Dispatched(requests, needs, r.pending, ctx)
    && |r.pending| == |requests| <= w.cap
    && (|requests| < i ==> |requests| == w.cap)
  }

  lemma AdmittingStart(w: Work, needs: ReadBatch, ctx: TurnContext)
    requires w.pending == map[] && w.backlog == []
    ensures Admitting(w, w, [], needs, 0, ctx)
  {
    hide WellFormed;
    assert needs[..0] == [] && ReadHashes([]) == {};
  }

  lemma AdmittingNew(w: Work, r: Work, requests: seq<ReadRequest>, needs: ReadBatch, i: nat, ctx: TurnContext)
    requires Admitting(w, r, requests, needs, i, ctx) && i < |needs|
    ensures needs[i].hash !in r.pending && needs[i].hash !in ReadHashes(r.backlog)
  {
    hide WellFormed;
    NotYetAdmitted(needs, |requests|, i);
  }

  lemma AdmittingWaits(w: Work, r: Work, requests: seq<ReadRequest>, needs: ReadBatch, i: nat, ctx: TurnContext)
    requires Admitting(w, r, requests, needs, i, ctx) && i < |needs| && |r.pending| >= r.cap
    requires needs[i].hash !in r.pending && needs[i].hash !in ReadHashes(r.backlog)
    ensures Admitting(w, AnnouncedWaiting(r, needs[i]), requests, needs, i + 1, ctx)
  {
    hide WellFormed, Dispatched;
  }

  lemma AdmittingFlies(w: Work, r: Work, requests: seq<ReadRequest>, needs: ReadBatch, i: nat, ctx: TurnContext,
                       op: OperationRef, seen: nat)
    requires Admitting(w, r, requests, needs, i, ctx) && i < |needs| && |r.pending| < r.cap
    requires needs[i].hash !in r.pending && needs[i].hash !in ReadHashes(r.backlog)
    requires op.kind == Read && Newest(r, op, seen)
    ensures Admitting(w, AnnouncedInFlight(r, needs[i].hash, op, seen),
                      requests + [ReadRequest(op, needs[i].hash, needs[i].ledgerSeq, ctx.storeGeneration, ctx.priority)],
                      needs, i + 1, ctx)
  {
    hide WellFormed, Dispatched;
    DispatchedStep(requests, needs, r.pending, ctx, op);
  }

  /** A round placed from an empty table is announced whole. */
  lemma RoundAnnounced(w: Work, r: Work, needs: ReadBatch, k: nat)
    requires OnlyReads(w, r) && w.pending == map[] && w.backlog == [] && k <= |needs|
    requires r.pending.Keys == ReadHashes(needs[..k]) && r.backlog == needs[k..]
    ensures r.announced == w.announced + multiset(ReadHashes(needs))
  {
    hide ReadHashes, DistinctHashes, Accountable, Ordered;
    HashesSplit(needs, k);
    NoReads();
    assert Conserved(w) && Conserved(r) && w.pending.Keys == {};
    MultisetOfUnion(r.pending.Keys, ReadHashes(r.backlog));
  }

  /** A new announcement: the first needs go in flight, the overflow waits. */
  method AdmitAnnounced(w: Work, needs: ReadBatch, ctx: TurnContext, ids: IdCounter)
    returns (r: Work, requests: seq<ReadRequest>)
    requires w.pending == map[] && w.backlog == [] && ids.Valid() && w.seen <= ids.mints
    modifies ids
    ensures ids.Valid() && r.seen <= ids.mints && OnlyReads(w, r)
    ensures |requests| == Min(w.cap, |needs|)
    ensures Dispatched(requests, needs, r.pending, ctx) && r.backlog == needs[|requests|..]
    ensures r.announced == w.announced + multiset(ReadHashes(needs))
  {
    hide WellFormed, Dispatched, AnnouncedInFlight, AnnouncedWaiting;
    r, requests := w, [];
    AdmittingStart(w, needs, ctx);
    var i := 0;
    while i < |needs|
      invariant i <= |needs| && ids.Valid() && r.seen <= ids.mints
      invariant Admitting(w, r, requests, needs, i, ctx)
    {
      var need := needs[i];
      AdmittingNew(w, r, requests, needs, i, ctx);
      if need.hash in r.pending {
      } else if |r.pending| >= r.cap {
        AdmittingWaits(w, r, requests, needs, i, ctx);
        r := AnnouncedWaiting(r, need);
      } else {
        var op := MintOperation(ids, ctx.session, Read);
        AdmittingFlies(w, r, requests, needs, i, ctx, op, ids.mints);
        r := AnnouncedInFlight(r, need.hash, op, ids.mints);
        requests := requests + [ReadRequest(op, need.hash, need.ledgerSeq, ctx.storeGeneration, ctx.priority)];
      }
      i := i + 1;
    }
    RoundInTable(requests, needs, r.pending, ctx);
    RoundAnnounced(w, r, needs, |requests|);
  }

  lemma RoundInTable(requests: seq<ReadRequest>, needs: seq<ReadNeed>, pending: map<Hash, OperationRef>, ctx: TurnContext)
    requires Dispatched(requests, needs, pending, ctx)
    ensures |requests| <= |needs| && pending.Keys == ReadHashes(needs[..|requests|])
  {
  }

  /** Distinct announcements never find themselves already admitted. */
  lemma NotYetAdmitted(needs: seq<ReadNeed>, k: nat, i: nat)
    requires DistinctHashes(needs) && k <= i < |needs|
    ensures needs[i].hash !in ReadHashes(needs[..k]) && needs[i].hash !in ReadHashes(needs[k..i])
  {
  }

  /** The announcement waits as a whole while a write settles. */
  method DeferAnnounced(w: Work, needs: ReadBatch) returns (r: Work, deferred: nat)
    requires w.pending == map[] && w.backlog == []
    ensures OnlyReads(w, r) && r.seen == w.seen && r.minted == w.minted
    ensures r.pending == map[] && r.backlog == needs && deferred == |needs|
    ensures r.announced == w.announced + multiset(ReadHashes(needs))
  {
    hide WellFormed, AnnouncedWaiting;
    r, deferred := w, 0;
    var i := 0;
    while i < |needs|
      invariant deferred == i <= |needs| && OnlyReads(w, r) && r.seen == w.seen && r.minted == w.minted
      invariant r.pending == map[] && r.backlog == needs[..i]
    {
      NotYetAdmitted(needs, 0, i);
      assert needs[0..i] == needs[..i];
      if needs[i].hash in r.pending || needs[i].hash in ReadHashes(r.backlog) {
      } else {
        r := AnnouncedWaiting(r, needs[i]);
        deferred := deferred + 1;
      }
      i := i + 1;
    }
    assert needs[..0] == [] && ReadHashes([]) == {} && r.pending.Keys == {};
    RoundAnnounced(w, r, needs, 0);
  }

  /** A retained need is re-read locally, under its own operation. */
  function RecoveryStarted(w: Work, need: NetworkNeed, op: OperationRef, ghost seen: nat): (r: Work)
    requires op.kind == RecoveryRead && Newest(w, op, seen)
    requires forall o :: o in w.recovery ==> w.recovery[o] != need
    ensures r == w.(recovery := w.recovery[op := need], seen := seen, minted := w.minted + {op})
  {
    hide ReadsOk, OpsOk, WritesOk, RecoveryOk, AppliedOk;
    RecoveryAccountable(w, need, op, seen);
    w.(recovery := w.recovery[op := need], seen := seen, minted := w.minted + {op})
  }

  lemma RecoveryAccountable(w: WorkState, need: NetworkNeed, op: OperationRef, seen: nat)
    requires Accountable(w) && op.kind == RecoveryRead && Newest(w, op, seen)
    requires forall o :: o in w.recovery ==> w.recovery[o] != need
    ensures Accountable(w.(recovery := w.recovery[op := need], seen := seen, minted := w.minted + {op}))
  {
    if seen < FRESH_IDS {
      MintKeeps(w.seen, seen, w.minted, Live(w), Settled(w), w.revoked, op);
      assert LiveOps(w.pending, w.recovery[op := need], w.persistence) == Live(w) + {op};
    }
  }

  /** Recovery reads added one per request, each for an exact need of the batch and its own hash. */
  ghost predicate Reprobed(w: Work, w': Work, requests: seq<ReadRequest>, batch: seq<NetworkNeed>) {
    && w' == w.(recovery := w'.recovery, seen := w'.seen, minted := w'.minted)
    && (forall o :: o in w.recovery && o.operationId <= w.seen < FRESH_IDS && w'.seen < FRESH_IDS
          ==> o in w'.recovery && w'.recovery[o] == w.recovery[o])
    && (w'.seen < FRESH_IDS ==> forall r :: r in requests ==>
          r.operation in w'.recovery && w'.recovery[r.operation].hash == r.key && w'.recovery[r.operation] in batch)
    && (forall i, j :: 0 <= i < j < |requests| ==> requests[i].key != requests[j].key)
  }

  lemma ReprobedKeeps(w: Work, w': Work, requests: seq<ReadRequest>, batch: seq<NetworkNeed>)
    requires Reprobed(w, w', requests, batch)
    ensures w' == w.(recovery := w'.recovery, seen := w'.seen, minted := w'.minted)
  {
  }

  lemma NewestIsNew(w: Work, op: OperationRef, seen: nat)
    requires Newest(w, op, seen)
    ensures seen < FRESH_IDS ==> op !in w.minted && op !in w.recovery
  {
  }

  lemma ReprobedNothing(w: Work, batch: seq<NetworkNeed>)
    ensures Reprobed(w, w, [], batch)
  {
    hide WellFormed;
  }

  /** One more recovery read keeps the earlier ones and its own request. */
  lemma ReprobedStep(w: Work, w': Work, requests: seq<ReadRequest>, batch: seq<NetworkNeed>,
                     need: NetworkNeed, request: ReadRequest, seen: nat)
    requires Reprobed(w, w', requests, batch) && need in batch && request.key == need.hash
    requires request.operation.kind == RecoveryRead && Newest(w', request.operation, seen) && w.seen <= w'.seen
    requires forall o :: o in w'.recovery ==> w'.recovery[o] != need
    requires forall r :: r in requests ==> r.key != need.hash
    requires seen < FRESH_IDS ==> request.operation !in w'.recovery
    ensures Reprobed(w, RecoveryStarted(w', need, request.operation, seen), requests + [request], batch)
  {
    hide WellFormed;
  }

  /** The needs of a batch a re-read could serve: not under recovery yet, and the first of their hash. */
  function Eligible(held: set<NetworkNeed>, batch: seq<NetworkNeed>): (e: seq<NetworkNeed>)
    ensures |e| <= |batch|
  {
    if batch == [] then []
    else
      var before, n := Eligible(held, batch[..|batch| - 1]), Last(batch);
      if n in held || (exists q :: q in before && q.hash == n.hash) then before else before + [n]
  }

  /** How many re-reads fit: each counts twice against what the cap leaves. */
  function Room(w: WorkState): nat {
    var load := |w.pending| + |w.recovery|;
    if load < w.cap then (w.cap - load + 1) / 2 else 0
  }

  /** The first eligible needs, as many as fit, are under recovery, one request each and in order. */
  ghost predicate Probed(w: WorkState, w': WorkState, requests: seq<ReadRequest>, e: seq<NetworkNeed>) {
    && |requests| == Min(|e|, Room(w))
    && |w'.recovery| == |w.recovery| + |requests|
    && (forall j :: 0 <= j < |requests| ==>
          requests[j].key == e[j].hash && requests[j].operation in w'.recovery && w'.recovery[requests[j].operation] == e[j])
    && (forall n :: n in w'.recovery.Values <==> n in w.recovery.Values || n in e[..|requests|])
  }

  /** Exactly the needs that are held, repeat a hash or no longer fit are skipped. */
  lemma ProbedSkips(w: Work, w': Work, requests: seq<ReadRequest>, batch: seq<NetworkNeed>, i: nat)
    requires i < |batch| && w'.pending == w.pending && w'.cap == w.cap
    requires Probed(w, w', requests, Eligible(w.recovery.Values, batch[..i]))
    ensures var e, e' := Eligible(w.recovery.Values, batch[..i]), Eligible(w.recovery.Values, batch[..i + 1]);
            if batch[i] in w'.recovery.Values || (exists q :: q in requests && q.key == batch[i].hash)
               || |w'.pending| + |w'.recovery| + |requests| >= w'.cap
            then Probed(w, w', requests, e')
            else |requests| == |e| < Room(w) && e' == e + [batch[i]]
  {
    hide WellFormed;
    var e, e', n := Eligible(w.recovery.Values, batch[..i]), Eligible(w.recovery.Values, batch[..i + 1]), batch[i];
    assert batch[..i + 1][..i] == batch[..i] && Last(batch[..i + 1]) == n;
    var k := |requests|;
    if k < Room(w) {
      assert e[..k] == e;
      assert (exists q :: q in requests && q.key == n.hash) <==> (exists q :: q in e && q.hash == n.hash) by {
        if q :| q in requests && q.key == n.hash {
          var j :| 0 <= j < k && requests[j] == q;
          assert e[j] in e;
        }
        if q :| q in e && q.hash == n.hash {
          var j :| 0 <= j < k && e[j] == q;
          assert requests[j] in requests;
        }
      }
      if n in w'.recovery.Values && n !in w.recovery.Values {
        assert n in e;
      }
    } else {
      assert e'[..k] == e[..k];
    }
  }

  lemma ProbedAdds(w: Work, w': Work, r: Work, requests: seq<ReadRequest>, request: ReadRequest,
                   e: seq<NetworkNeed>, need: NetworkNeed)
    requires Probed(w, w', requests, e) && |requests| == |e| < Room(w)
    requires request.operation !in w'.recovery && r.recovery == w'.recovery[request.operation := need]
    requires request.key == need.hash
    ensures Probed(w, r, requests + [request], e + [need])
  {
    hide WellFormed;
    assert e[..|requests|] == e && (e + [need])[..|requests| + 1] == e + [need];
    assert need in r.recovery.Values by { assert r.recovery[request.operation] == need; }
    forall n | n in w'.recovery.Values ensures n in r.recovery.Values {
      var o :| o in w'.recovery && w'.recovery[o] == n;
      assert o in r.recovery && r.recovery[o] == n;
    }
  }

  lemma ProbedNothing(w: Work)
    ensures Probed(w, w, [], [])
  {
    hide WellFormed;
  }

  /**
   * Re-reads needs of a batch locally: exactly the first eligible ones, as many
   * as fit. Each new request counts twice against the cap, once as pending and
   * once as requested.
   */
  method Reprobe(w: Work, batch: seq<NetworkNeed>, sequence: nat, ctx: TurnContext, ids: IdCounter)
    returns (r: Work, requests: seq<ReadRequest>)
    requires ids.Valid() && w.seen <= ids.mints
    modifies ids
    ensures ids.Valid() && w.seen <= r.seen <= ids.mints && Reprobed(w, r, requests, batch)
    ensures r.seen < FRESH_IDS ==> Probed(w, r, requests, Eligible(w.recovery.Values, batch))
  {
    hide WellFormed, Reprobed, RecoveryStarted, Probed, Eligible, Room;
    r, requests := w, [];
    ReprobedNothing(w, batch);
    EligibleNothing(w.recovery.Values, batch);
    ProbedNothing(w);
    var i := 0;
    while i < |batch|
      invariant i <= |batch| && ids.Valid() && w.seen <= r.seen <= ids.mints
      invariant Reprobed(w, r, requests, batch)
      invariant r == w.(recovery := r.recovery, seen := r.seen, minted := r.minted)
      invariant r.seen < FRESH_IDS ==> Probed(w, r, requests, Eligible(w.recovery.Values, batch[..i]))
    {
      var need := batch[i];
      if r.seen < FRESH_IDS {
        ProbedSkips(w, r, requests, batch, i);
      }
      if need in r.recovery.Values
         || (exists q :: q in requests && q.key == need.hash)
         || |r.pending| + |r.recovery| + |requests| >= r.cap
      {
      } else {
        var op := MintOperation(ids, ctx.session, RecoveryRead);
        var request := ReadRequest(op, need.hash, sequence, ctx.storeGeneration, ctx.priority);
        NewestIsNew(r, op, ids.mints);
        assert forall o :: o in r.recovery ==> r.recovery[o] in r.recovery.Values;
        ReprobedStep(w, r, requests, batch, need, request, ids.mints);
        ghost var before := r;
        r := RecoveryStarted(r, need, op, ids.mints);
        if r.seen < FRESH_IDS {
          ProbedAdds(w, before, r, requests, request, Eligible(w.recovery.Values, batch[..i]), need);
        }
        requests := requests + [request];
      }
      i := i + 1;
    }
    assert batch[..|batch|] == batch;
  }

  lemma EligibleNothing(held: set<NetworkNeed>, batch: seq<NetworkNeed>)
    ensures Eligible(held, batch[..0]) == []
  {
  }

  function ReadApplied(w: Work, h: Hash): (r: Work)
    requires h in w.pending
    ensures r == w.(pending := w.pending - {h}, applied := w.applied + multiset{h},
                    readLog := w.readLog + [w.pending[h]])
  {
    hide ReadsOk, OpsOk, WritesOk, RecoveryOk, AppliedOk;
    AppliedConserved(w, h);
    AppliedAccountable(w, h);
    AppliedCounted(w, h);
    w.(pending := w.pending - {h}, applied := w.applied + multiset{h}, readLog := w.readLog + [w.pending[h]])
  }

  lemma AppliedConserved(w: WorkState, h: Hash)
    requires Conserved(w) && h in w.pending
    ensures Conserved(w.(pending := w.pending - {h}, applied := w.applied + multiset{h}))
  {
    hide ReadHashes, DistinctHashes;
    var rest := w.pending - {h};
    assert rest.Keys == w.pending.Keys - {h} && w.pending.Keys == rest.Keys + {h};
    MultisetOfUnion(rest.Keys, {h});
    assert |rest| == |rest.Keys| && |w.pending| == |w.pending.Keys|;
  }

  lemma AppliedCounted(w: WorkState, h: Hash)
    requires Accountable(w) && h in w.pending && AppliedOk(w.applied, w.readLog)
    ensures AppliedOk(w.applied + multiset{h}, w.readLog + [w.pending[h]])
  {
    OneMoreRead(w.readLog, w.pending[h]);
  }

  /** One live read is acted on; `kept` stays live. */
  lemma ReadSettles(w: WorkState, op: OperationRef, kept: set<OperationRef>)
    requires Accountable(w) && w.seen < FRESH_IDS && op in Live(w) && kept == Live(w) - {op}
    ensures FatesOk(w.seen, w.minted, kept, AllSettled(w.readLog + [op], w.writeLog), w.revoked)
    ensures Distinct(w.readLog + [op])
  {
    assert Live(w) == kept + {op} + {} && w.revoked + {} == w.revoked;
    SettleFates(w.seen, w.minted, kept, {}, Settled(w), w.revoked, op);
    SettleReadLog(w.readLog, w.writeLog, op, Live(w));
  }

  lemma AppliedAccountable(w: WorkState, h: Hash)
    requires Accountable(w) && h in w.pending
    ensures Accountable(w.(pending := w.pending - {h}, readLog := w.readLog + [w.pending[h]]))
  {
    if w.seen < FRESH_IDS {
      var op := w.pending[h];
      ValuesRemove(w.pending, h);
      KindsDisjoint(w.pending, w.recovery, w.persistence, op);
      ReadSettles(w, op, LiveOps(w.pending - {h}, w.recovery, w.persistence));
    }
  }

  function RecoveryApplied(w: Work, op: OperationRef): (r: Work)
    requires op in w.recovery
    ensures r == w.(recovery := w.recovery - {op}, readLog := w.readLog + [op])
  {
    hide ReadsOk, OpsOk, WritesOk, RecoveryOk, AppliedOk;
    RecoveredAccountable(w, op);
    RecoveredCounted(w, op);
    w.(recovery := w.recovery - {op}, readLog := w.readLog + [op])
  }

  lemma RecoveredAccountable(w: WorkState, op: OperationRef)
    requires Accountable(w) && op in w.recovery
    ensures Accountable(w.(recovery := w.recovery - {op}, readLog := w.readLog + [op]))
  {
    if w.seen < FRESH_IDS {
      KindsDisjoint(w.pending, w.recovery, w.persistence, op);
      ReadSettles(w, op, LiveOps(w.pending, w.recovery - {op}, w.persistence));
    }
  }

  lemma RecoveredCounted(w: WorkState, op: OperationRef)
    requires Accountable(w) && op in w.recovery && AppliedOk(w.applied, w.readLog)
    ensures AppliedOk(w.applied, w.readLog + [op])
  {
    OneMoreRead(w.readLog, op);
  }

  /** Suspension: reads in flight are revoked, the backlog and any write survive. */
  function Suspended(w: Work): (r: Work)
    ensures r == SuspendState(w)
    ensures r == w.(pending := map[], recovery := map[], revoked := w.revoked + w.pending.Values + w.recovery.Keys,
                    dropped := w.dropped + multiset(w.pending.Keys))
  {
    hide ReadsOk, OpsOk, WritesOk, RecoveryOk, AppliedOk;
    SuspendConserved(w);
    SuspendAccountable(w);
    SuspendState(w)
  }

  function SuspendState(w: WorkState): WorkState {
    w.(pending := map[], recovery := map[], revoked := w.revoked + w.pending.Values + w.recovery.Keys,
       dropped := w.dropped + multiset(w.pending.Keys))
  }

  lemma SuspendConserved(w: WorkState)
    requires Conserved(w)
    ensures Conserved(SuspendState(w))
  {
    hide ReadHashes, DistinctHashes;
    var none: map<Hash, OperationRef> := map[];
    assert none.Keys == {} && |none| == 0;
  }

  lemma SuspendAccountable(w: WorkState)
    requires Accountable(w)
    ensures Accountable(SuspendState(w))
  {
    var p, gone := w.persistence, w.pending.Values + w.recovery.Keys;
    EmptyLive(p);
    forall op | op in PersistenceOps(p) ensures op !in w.pending.Values && op !in w.recovery.Keys {
      KindsDisjoint(w.pending, w.recovery, p, op);
    }
    if w.seen < FRESH_IDS {
      assert SuspendState(w).revoked == w.revoked + gone;
      RevokeFates(w.seen, w.minted, PersistenceOps(p), gone, Settled(w), w.revoked);
    }
  }

  /** Cancellation: everything live is revoked and the write machine forgets its intent. */
  function CancelledWork(w: Work): (r: Work)
    ensures r == CancelState(w)
  {
    hide ReadsOk, OpsOk, WritesOk, RecoveryOk, AppliedOk;
    CancelConserved(w);
    CancelAccountable(w);
    CancelOrdered(w);
    CancelState(w)
  }

  /** What a cancellation gives up is exactly what was in flight or waiting, and every live operation is revoked. */
  lemma CancelGivesUpAll(w: Work)
    ensures CancelledWork(w) == w.(pending := map[], recovery := map[], backlog := [], persistence := Idle,
                                   revoked := w.revoked + w.pending.Values + w.recovery.Keys + PersistenceOps(w.persistence),
                                   dropped := w.dropped + multiset(w.pending.Keys) + multiset(ReadHashes(w.backlog)))
  {
    hide WellFormed;
    assert w.revoked + LiveOps(w.pending, w.recovery, w.persistence) ==
           w.revoked + w.pending.Values + w.recovery.Keys + PersistenceOps(w.persistence);
  }

  function CancelState(w: WorkState): WorkState {
    w.(pending := map[], recovery := map[], backlog := [], persistence := Idle,
       revoked := w.revoked + LiveOps(w.pending, w.recovery, w.persistence),
       dropped := w.dropped + multiset(w.pending.Keys) + multiset(ReadHashes(w.backlog)))
  }

  lemma CancelConserved(w: WorkState)
    requires Conserved(w)
    ensures Conserved(CancelState(w))
  {
    hide ReadHashes, DistinctHashes;
    NoReads();
    var none: map<Hash, OperationRef> := map[];
    assert none.Keys == {} && |none| == 0;
  }

  lemma CancelAccountable(w: WorkState)
    requires Accountable(w)
    ensures Accountable(CancelState(w))
  {
    EmptyLive(Idle);
    if w.seen < FRESH_IDS {
      assert Live(w) + {} == Live(w);
      RevokeFates(w.seen, w.minted, {}, Live(w), Settled(w), w.revoked);
    }
  }

  lemma CancelOrdered(w: WorkState)
    requires Ordered(w)
    ensures Ordered(CancelState(w))
  {
  }

  // ----- writes ----------------------------------------------------------------------

  /** An accepted-node batch leaves while acquisition continues. */
  function IncrementalStarted(w: Work, batch: WriteBatch, ghost seen: nat): (r: Work)
    requires w.persistence == Idle && batch.fence == None
    requires batch.operation.kind == Write && Newest(w, batch.operation, seen)
    ensures r == w.(persistence := IncrementalWritePending(batch.operation), seen := seen,
                    minted := w.minted + {batch.operation},
                    batches := w.batches + [batch], drained := w.drained + batch.nodes)
  {
    hide ReadsOk, OpsOk, WritesOk, RecoveryOk, AppliedOk;
    IncrementalAccountable(w, batch.operation, seen);
    IncrementalOrdered(w, batch);
    w.(persistence := IncrementalWritePending(batch.operation), seen := seen,
       minted := w.minted + {batch.operation},
       batches := w.batches + [batch], drained := w.drained + batch.nodes)
  }

  lemma IncrementalAccountable(w: WorkState, op: OperationRef, seen: nat)
    requires Accountable(w) && w.persistence == Idle && op.kind == Write && Newest(w, op, seen)
    ensures Accountable(w.(persistence := IncrementalWritePending(op), seen := seen, minted := w.minted + {op}))
  {
    if seen < FRESH_IDS {
      MintKeeps(w.seen, seen, w.minted, Live(w), Settled(w), w.revoked, op);
      assert LiveOps(w.pending, w.recovery, IncrementalWritePending(op)) == Live(w) + {op};
    }
  }

  lemma IncrementalOrdered(w: WorkState, batch: WriteBatch)
    requires Ordered(w) && w.persistence == Idle && batch.fence == None
    ensures Ordered(w.(persistence := IncrementalWritePending(batch.operation),
                       batches := w.batches + [batch], drained := w.drained + batch.nodes))
  {
    FlattenAppend(w.batches, batch);
  }

  /** The final batch leaves with its fence. */
  function FinalStarted(w: Work, batch: WriteBatch, ghost middle: nat, ghost seen: nat): (r: Work)
    requires w.persistence == Idle && batch.fence.Some?
    requires batch.operation.kind == Write && Newest(w, batch.operation, middle)
    requires batch.fence.value.kind == DurabilityFence && middle <= seen
    requires seen < FRESH_IDS ==> middle < batch.fence.value.operationId <= seen
    ensures r == FinalState(w, batch, seen)
  {
    hide ReadsOk, OpsOk, WritesOk, RecoveryOk, AppliedOk;
    FinalAccountable(w, batch, middle, seen);
    FinalOrdered(w, batch, seen);
    FinalState(w, batch, seen)
  }

  function FinalState(w: WorkState, batch: WriteBatch, ghost seen: nat): WorkState
    requires batch.fence.Some?
  {
    w.(persistence := FinalWritePending(batch.operation, batch.fence.value), seen := seen,
       minted := w.minted + {batch.operation} + {batch.fence.value},
       batches := w.batches + [batch], drained := w.drained + batch.nodes)
  }

  lemma FinalAccountable(w: WorkState, batch: WriteBatch, middle: nat, seen: nat)
    requires Accountable(w) && w.persistence == Idle && batch.fence.Some?
    requires batch.operation.kind == Write && Newest(w, batch.operation, middle)
    requires batch.fence.value.kind == DurabilityFence && middle <= seen
    requires seen < FRESH_IDS ==> middle < batch.fence.value.operationId <= seen
    ensures Accountable(FinalState(w, batch, seen))
  {
    var op, fence := batch.operation, batch.fence.value;
    IncrementalAccountable(w, op, middle);
    var half := w.(persistence := IncrementalWritePending(op), seen := middle, minted := w.minted + {op});
    if seen < FRESH_IDS {
      MintKeeps(middle, seen, half.minted, Live(half), Settled(half), w.revoked, fence);
      assert LiveOps(w.pending, w.recovery, FinalWritePending(op, fence)) == Live(half) + {fence};
    }
  }

  lemma FinalOrdered(w: WorkState, batch: WriteBatch, seen: nat)
    requires Ordered(w) && w.persistence == Idle && batch.fence.Some?
    ensures Ordered(FinalState(w, batch, seen))
  {
    FlattenAppend(w.batches, batch);
  }

  /** Drained nodes without a ledger sequence are lost with the invalid turn. */
  function NodesLost(w: Work, ghost nodes: seq<PersistNode>): (r: Work)
    ensures r == w.(drained := w.drained + nodes, lost := w.lost + nodes)
  {
    hide ReadsOk, OpsOk, WritesOk, RecoveryOk, AppliedOk;
    LostOrdered(w, nodes);
    w.(drained := w.drained + nodes, lost := w.lost + nodes)
  }

  lemma LostOrdered(w: WorkState, nodes: seq<PersistNode>)
    requires Ordered(w)
    ensures Ordered(w.(drained := w.drained + nodes, lost := w.lost + nodes))
  {
  }

  /** What a write outcome other than stale makes of the persistence state. */
  function AfterWrite(p: Persistence, outcome: WriteOutcome): Persistence
    requires p.IncrementalWritePending? || p.FinalWritePending?
  {
    match outcome
    case WriteAccepted => if p.FinalWritePending? then FencePending(p.fence) else Idle
    case WriteFailed => Failed(WriteFailure)
    case _ => Idle
  }

  function WriteOperation(p: Persistence): OperationRef
    requires p.IncrementalWritePending? || p.FinalWritePending?
  {
    if p.FinalWritePending? then p.write else p.operation
  }

  /** The machine after a settlement: `gone` is revoked with it. */
  ghost function SettledState(w: WorkState, p: Persistence, s: Settlement, gone: set<OperationRef>, told: nat): WorkState {
    w.(persistence := p, writeLog := w.writeLog + [s], revoked := w.revoked + gone, told := told)
  }

  ghost function FenceGone(p: Persistence, outcome: WriteOutcome): set<OperationRef> {
    if p.FinalWritePending? && outcome != WriteAccepted then {p.fence} else {}
  }

  function WriteSettledWork(w: Work, outcome: WriteOutcome, ghost rooted: bool): (r: Work)
    requires w.persistence.IncrementalWritePending? || w.persistence.FinalWritePending?
    requires outcome != WriteStale
    requires outcome == WriteAccepted && !w.releasedEarly ==> rooted
    ensures r == SettledState(w, AfterWrite(w.persistence, outcome), WriteSettled(WriteOperation(w.persistence), outcome),
                              FenceGone(w.persistence, outcome), w.told + (if outcome == WriteAccepted && rooted then 1 else 0))
  {
    hide ReadsOk, OpsOk, WritesOk, RecoveryOk, AppliedOk;
    ghost var told := w.told + (if outcome == WriteAccepted && rooted then 1 else 0);
    WriteAccountable(w, outcome, told);
    WriteOrdered(w, outcome, told);
    w.(persistence := AfterWrite(w.persistence, outcome),
       writeLog := w.writeLog + [WriteSettled(WriteOperation(w.persistence), outcome)],
       revoked := w.revoked + FenceGone(w.persistence, outcome), told := told)
  }

  /** A write or fence settles: `p` is the next persistence state, `gone` what it revokes. */
  lemma SettledAccountable(w: WorkState, p: Persistence, s: Settlement, gone: set<OperationRef>, told: nat)
    requires Accountable(w) && s.operation in PersistenceOps(w.persistence)
    requires KindsOk(w.pending, w.recovery, p) && !p.FinalWritePending?
    requires w.seen < FRESH_IDS ==>
               && PersistenceOps(w.persistence) == PersistenceOps(p) + {s.operation} + gone
               && s.operation !in PersistenceOps(p) && s.operation !in gone && PersistenceOps(p) !! gone
    ensures Accountable(SettledState(w, p, s, gone, told))
  {
    if w.seen < FRESH_IDS {
      forall op | op in PersistenceOps(w.persistence) ensures op !in w.pending.Values && op !in w.recovery.Keys {
        KindsDisjoint(w.pending, w.recovery, w.persistence, op);
      }
      var kept := LiveOps(w.pending, w.recovery, p);
      assert Live(w) == kept + {s.operation} + gone;
      SettleFates(w.seen, w.minted, kept, gone, Settled(w), w.revoked, s.operation);
      SettleWriteLog(w.readLog, w.writeLog, s, Live(w));
    }
  }

  lemma WriteAccountable(w: WorkState, outcome: WriteOutcome, told: nat)
    requires Accountable(w) && outcome != WriteStale
    requires w.persistence.IncrementalWritePending? || w.persistence.FinalWritePending?
    ensures Accountable(SettledState(w, AfterWrite(w.persistence, outcome),
                                     WriteSettled(WriteOperation(w.persistence), outcome),
                                     FenceGone(w.persistence, outcome), told))
  {
    SettledAccountable(w, AfterWrite(w.persistence, outcome), WriteSettled(WriteOperation(w.persistence), outcome),
                       FenceGone(w.persistence, outcome), told);
  }

  lemma WriteOrdered(w: WorkState, outcome: WriteOutcome, told: nat)
    requires Ordered(w) && outcome != WriteStale
    requires w.persistence.IncrementalWritePending? || w.persistence.FinalWritePending?
    requires w.told <= told <= w.told + (if outcome == WriteAccepted then 1 else 0)
    requires !w.releasedEarly ==> told == w.told + (if outcome == WriteAccepted then 1 else 0)
    ensures Ordered(SettledState(w, AfterWrite(w.persistence, outcome),
                                 WriteSettled(WriteOperation(w.persistence), outcome),
                                 FenceGone(w.persistence, outcome), told))
  {
    hide DrainOk, AcceptedWrites;
    LogAppend(w.writeLog, WriteSettled(WriteOperation(w.persistence), outcome));
  }

  function AfterFence(outcome: DurabilityOutcome): Persistence {
    if outcome == FencePassed then Durable else Failed(DurabilityFenceFailed)
  }

  function FenceSettledWork(w: Work, outcome: DurabilityOutcome): (r: Work)
    requires w.persistence.FencePending? && outcome != FenceStale
    ensures r == SettledState(w, AfterFence(outcome), FenceSettled(w.persistence.fenceOperation, outcome), {}, w.told)
  {
    hide ReadsOk, OpsOk, WritesOk, RecoveryOk, AppliedOk;
    FenceAccountable(w, outcome);
    FenceOrdered(w, outcome);
    assert w.revoked + {} == w.revoked;
    w.(persistence := AfterFence(outcome),
       writeLog := w.writeLog + [FenceSettled(w.persistence.fenceOperation, outcome)])
  }

  lemma FenceAccountable(w: WorkState, outcome: DurabilityOutcome)
    requires Accountable(w) && w.persistence.FencePending?
    ensures Accountable(SettledState(w, AfterFence(outcome), FenceSettled(w.persistence.fenceOperation, outcome), {}, w.told))
  {
    SettledAccountable(w, AfterFence(outcome), FenceSettled(w.persistence.fenceOperation, outcome), {}, w.told);
  }

  lemma FenceOrdered(w: WorkState, outcome: DurabilityOutcome)
    requires Ordered(w) && w.persistence.FencePending?
    ensures Ordered(SettledState(w, AfterFence(outcome), FenceSettled(w.persistence.fenceOperation, outcome), {}, w.told))
  {
    hide DrainOk, AcceptedWrites;
    var s := FenceSettled(w.persistence.fenceOperation, outcome);
    assert (w.writeLog + [s])[|w.writeLog| - 1] == w.writeLog[|w.writeLog| - 1];
    LogAppend(w.writeLog, s);
  }

  function Released(w: Work): (r: Work)
    ensures r == w.(releasedEarly := w.releasedEarly || w.persistence != Idle)
  {
    w.(releasedEarly := w.releasedEarly || w.persistence != Idle)
  }
}
