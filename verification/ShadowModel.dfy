/** Values of the shadow coordinator: events, mirrored sessions and the observation log. */
module ShadowModel {
  import opened Identity
  import opened Phases

  datatype Reason = Consensus | Generic | History

  datatype FailureReason = WriteFailure | FenceFailure

  datatype CancelReason = OnRotation | OnShutdown | OnInstall | OnExpiry

  datatype SessionPhase =
    | Active | Dormant | Persisting | DurablePending
    | Complete | Failed(failure: FailureReason) | Cancelled(cause: CancelReason)

  datatype Outcome = Durable | FailedWith(failure: FailureReason) | CancelledWith(cause: CancelReason)

  datatype ReadOutcome = Settled(found: bool) | ReadStale | ReadCancelled
  datatype WriteOutcome = WriteAccepted | WriteFailed | WriteStale | WriteCancelled
  datatype FenceOutcome = FencePassed | FenceFailed | FenceStale
  datatype TimerKind = SessionExpiry | OtherTimer

  datatype Event =
    | StartupMode(seed: SyncPhase)
    | Connectivity(usable: bool)
    | TransportConnectivity(usable: bool)
    | QuorumLost
    | QuorumAvailable
    | ViewChange
    | Divergence(target: Target)
    | Blocked
    | Reconciled(lcl: LedgerId)
    | LclInstalled(lcl: LedgerId)
    | PublicationCommitted(lcl: LedgerId, recent: bool)
    | AcquireRequested(target: Target, reason: Reason)
    | ValidationTarget(target: Target)
    | RecoveryTarget(wanted: Option<Target>)
    | ConsensusTarget(target: Target, reason: Reason)
    | PacketAdmitted(session: SessionRef)
    | ReadCompleted(session: SessionRef, kind: OperationKind, read: ReadOutcome)
    | WriteCompleted(session: SessionRef, written: WriteOutcome)
    | DurabilityFenced(session: SessionRef, fenced: FenceOutcome)
    | HandoffAcknowledged(session: SessionRef)
    | HandoffRejected(session: SessionRef)
    | TimerFired(operation: OperationRef, timer: TimerKind)
    | StoreRotated(generation: nat)
    | FetchPackAvailable
    | Heartbeat
    | RegistrySweep
    | ShutdownEvent

  // ----- the observation log ------------------------------------------------------------------

  datatype Kind =
    | Match | PhaseMismatch | OutcomeMismatch | TargetMismatch | PresenceMismatch | DerivedRejected | StaleEvent

  datatype Observation = Observation(
    session: Option<SessionRef>,
    kind: Kind,
    phase: Option<SyncPhase>,
    outcome: Option<Outcome>,
    refPhase: Option<SyncPhase>,
    refOutcome: Option<Outcome>,
    reason: Option<Fact>,
    depth: nat)

  datatype LogState = LogState(
    max: nat,
    buffer: seq<Observation>,
    matches: nat,
    disagreements: nat,
    stale: nat,
    /** What the current call has observed. */
    batch: seq<Observation>,
    /** Every observation ever made, and how many there were at the last drain and at the start of the call. */
    ghost all: seq<Observation>,
    ghost drained: nat,
    ghost base: nat)

  /** The counter an observation belongs to. */
  datatype Tally = Agreed | Disagreed | Stale

  function TallyOf(k: Kind): Tally {
    if k == Match then Agreed else if k == StaleEvent then Stale else Disagreed
  }

  function Count(all: seq<Observation>, t: Tally): nat {
    if all == [] then 0
    else Count(all[..|all| - 1], t) + (if TallyOf(all[|all| - 1].kind) == t then 1 else 0)
  }

  /** Every observation is in exactly one counter. */
  lemma {:induction false} CountsSum(all: seq<Observation>)
    ensures Count(all, Agreed) + Count(all, Disagreed) + Count(all, Stale) == |all|
  {
    if all != [] {
      CountsSum(all[..|all| - 1]);
    }
  }

  /** The places in the log where an observation is of one of the kinds. */
  function Places(all: seq<Observation>, kinds: set<Kind>): set<nat> {
    set i: nat | i < |all| && all[i].kind in kinds
  }

  const AT_ODDS: set<Kind> := {PhaseMismatch, OutcomeMismatch, TargetMismatch, PresenceMismatch, DerivedRejected}

  function KindsOf(t: Tally): set<Kind> {
    match t
    case Agreed => {Match}
    case Stale => {StaleEvent}
    case Disagreed => AT_ODDS
  }

  /** Each counter is the number of observations of its kinds. */
  lemma {:induction false} CountIsPlaces(all: seq<Observation>, t: Tally)
    ensures Count(all, t) == |Places(all, KindsOf(t))|
  {
    if all == [] {
      assert Places(all, KindsOf(t)) == {};
    } else {
      var n := |all| - 1;
      CountIsPlaces(all[..n], t);
      var before, after := Places(all[..n], KindsOf(t)), Places(all, KindsOf(t));
      KindHasTally(all[n].kind, t);
      assert after == before + if all[n].kind in KindsOf(t) then {n} else {};
      assert n !in before;
    }
  }

  lemma KindHasTally(k: Kind, t: Tally)
    ensures k in KindsOf(t) <==> TallyOf(k) == t
  {
  }

  /** The last `max` of a sequence. */
  function Latest(s: seq<Observation>, max: nat): seq<Observation> {
    if |s| <= max then s else s[|s| - max..]
  }

  ghost predicate LogOk(l: LogState) {
    && l.drained <= |l.all| && l.base <= |l.all| && l.batch == l.all[l.base..]
    && l.buffer == Latest(l.all[l.drained..], l.max)
    && l.matches == Count(l.all, Agreed) && l.disagreements == Count(l.all, Disagreed) && l.stale == Count(l.all, Stale)
  }

  type Log = l: LogState | LogOk(l) ghost witness LogState(0, [], 0, 0, 0, [], [], 0, 0)

  function EmptyLog(max: nat): (l: Log)
    ensures l.all == [] && l.max == max
  {
    LogState(max, [], 0, 0, 0, [], [], 0, 0)
  }

  /** The oldest out while the buffer is over its bound. */
  method Trim(s: seq<Observation>, max: nat) returns (r: seq<Observation>)
    ensures r == Latest(s, max)
  {
    r := s;
    while |r| > max
      invariant |r| <= |s| && r == s[|s| - |r|..] && |r| >= |Latest(s, max)|
    {
      r := r[1..];
    }
  }

  lemma LatestOfLatest(s: seq<Observation>, o: Observation, max: nat)
    ensures Latest(Latest(s, max) + [o], max) == Latest(s + [o], max)
  {
  }

  /** The log with one more observation, given its trimmed buffer. */
  function Counted(l: LogState, o: Observation, buffer: seq<Observation>): LogState {
    var kept := l.(buffer := buffer, batch := l.batch + [o], all := l.all + [o]);
    match TallyOf(o.kind)
    case Agreed => kept.(matches := l.matches + 1)
    case Stale => kept.(stale := l.stale + 1)
    case Disagreed => kept.(disagreements := l.disagreements + 1)
  }

  lemma CountedOk(l: LogState, o: Observation, buffer: seq<Observation>)
    requires LogOk(l) && buffer == Latest(l.buffer + [o], l.max)
    ensures LogOk(Counted(l, o, buffer))
  {
    LatestOfLatest(l.all[l.drained..], o, l.max);
    assert l.all[l.drained..] + [o] == (l.all + [o])[l.drained..];
    assert l.all[l.base..] + [o] == (l.all + [o])[l.base..];
    CountOneMore(l.all, o, Agreed);
    CountOneMore(l.all, o, Disagreed);
    CountOneMore(l.all, o, Stale);
    hide Count, Latest;
  }

  method Pushed(l: Log, o: Observation) returns (r: Log)
    ensures r.all == l.all + [o] && Extends(l, r)
  {
    var buffer := Trim(l.buffer + [o], l.max);
    CountedOk(l, o, buffer);
    hide LogOk;
    r := Counted(l, o, buffer);
  }

  lemma CountOneMore(all: seq<Observation>, o: Observation, t: Tally)
    ensures Count(all + [o], t) == Count(all, t) + if TallyOf(o.kind) == t then 1 else 0
  {
    assert (all + [o])[..|all|] == all;
  }

  /** More observations of the same call. */
  ghost predicate Extends(a: LogState, b: LogState) {
    a.all <= b.all && a.max == b.max && a.drained == b.drained && a.base == b.base
  }

  function NewBatch(l: Log): (r: Log)
    ensures r.all == l.all && r.max == l.max && r.drained == l.drained && r.base == |l.all|
  {
    assert l.all[|l.all|..] == [];
    l.(batch := [], base := |l.all|)
  }

  function Drained(l: Log): (r: Log)
    ensures r.all == l.all && r.buffer == [] && r.max == l.max && r.drained == |l.all|
  {
    assert l.all[|l.all|..] == [];
    l.(buffer := [], drained := |l.all|)
  }

  // ----- mirrored sessions ----------------------------------------------------------------------

  datatype Session = Session(
    target: Target,
    phase: SessionPhase,
    reason: Reason,
    queueDepth: nat,
    terminal: Option<Outcome>,
    sweepEligible: bool,
    pendingExpiry: Option<OperationRef>,
    scanning: bool,
    /** Every name this session has had, and the history positions that moved it on. */
    ghost names: set<SessionRef>,
    ghost trail: seq<nat>)

  type Mirror = map<SessionRef, Session>

  predicate Terminal(p: SessionPhase) { p.Complete? || p.Failed? || p.Cancelled? }

  /** What a phase says about the outcome. */
  function OutcomeOf(p: SessionPhase): Option<Outcome> {
    match p
    case Complete => Some(Durable)
    case Failed(f) => Some(FailedWith(f))
    case Cancelled(c) => Some(CancelledWith(c))
    case _ => None
  }

  /** How many of write, fence and handoff a phase has behind it; failures keep what they had. */
  function Stages(p: SessionPhase): nat
    requires !p.Failed? && !p.Cancelled?
  {
    match p
    case Active => 0
    case Dormant => 0
    case Persisting => 1
    case DurablePending => 2
    case Complete => 3
  }

  /** The event that completes a stage of a session known by one of `names`. */
  ghost predicate Completes(e: Event, stage: nat, names: set<SessionRef>) {
    match stage
    case 0 => e.WriteCompleted? && e.written == WriteAccepted && e.session in names
    case 1 => e.DurabilityFenced? && e.fenced == FencePassed && e.session in names
    case _ => e.HandoffAcknowledged? && e.session in names
  }

  ghost predicate TrailOk(s: Session, history: seq<Event>) {
    && (if s.phase.Failed? || s.phase.Cancelled? then |s.trail| <= 2 else |s.trail| == Stages(s.phase))
    && (forall i :: 0 <= i < |s.trail| ==> s.trail[i] < |history| && Completes(history[s.trail[i]], i, s.names))
    && (forall i, j :: 0 <= i < j < |s.trail| ==> s.trail[i] < s.trail[j])
  }

  ghost predicate SessionOk(k: SessionRef, s: Session, history: seq<Event>) {
    && k in s.names && k.targetHash == s.target.hash
    && s.terminal == OutcomeOf(s.phase)
    && TrailOk(s, history)
  }

  ghost predicate MirrorOk(m: Mirror, history: seq<Event>) {
    forall k :: k in m ==> SessionOk(k, m[k], history)
  }

  /** One session over time: fixed once terminal, never back a stage, always the same ledger. */
  ghost predicate Evolves(a: Session, b: Session) {
    && (Terminal(a.phase) ==> a == b)
    && a.target.hash == b.target.hash
    && (Terminal(b.phase) || (!Terminal(a.phase) && Stages(a.phase) <= Stages(b.phase)))
    && a.trail <= b.trail
  }

  /** A mirror over time: a name tracked before and after, and not given out in between, evolves. */
  ghost predicate Steps(before: Mirror, after: Mirror, added: set<SessionRef>) {
    && (forall k :: k in after ==> k in before || k in added)
    && (forall k :: k in before && k in after && k !in added ==> Evolves(before[k], after[k]))
  }

  lemma StepsTrans(a: Mirror, b: Mirror, c: Mirror, x: set<SessionRef>, y: set<SessionRef>)
    requires Steps(a, b, x) && Steps(b, c, y)
    ensures Steps(a, c, x + y)
    ensures y == {} ==> Steps(a, c, x)
    ensures x == {} ==> Steps(a, c, y)
  {
    if y == {} {
      assert x + y == x;
    }
    if x == {} {
      assert x + y == y;
    }
  }

  lemma StepsRefl(m: Mirror)
    ensures Steps(m, m, {})
  {
  }

  /** More history does not unsettle a mirror. */
  lemma HistoryGrows(m: Mirror, history: seq<Event>, e: Event)
    requires MirrorOk(m, history)
    ensures MirrorOk(m, history + [e])
  {
    forall k | k in m ensures SessionOk(k, m[k], history + [e]) {
      assert SessionOk(k, m[k], history);
    }
  }

  lemma SizeOfUpdate(m: Mirror, k: SessionRef, s: Session)
    ensures |m[k := s]| == if k in m then |m| else |m| + 1
  {
    assert m[k := s].Keys == m.Keys + {k};
    assert |m[k := s].Keys| == |m[k := s]| && |m.Keys| == |m|;
    if k in m {
      assert m.Keys + {k} == m.Keys;
    }
  }

  lemma Changed(m: Mirror, history: seq<Event>, k: SessionRef, s: Session)
    requires MirrorOk(m, history) && k in m && SessionOk(k, s, history) && Evolves(m[k], s)
    ensures MirrorOk(m[k := s], history) && Steps(m, m[k := s], {}) && |m[k := s]| == |m|
  {
    SizeOfUpdate(m, k, s);
    EvolvesRefl();
    hide SessionOk, Evolves;
  }

  lemma EvolvesRefl()
    ensures forall s :: Evolves(s, s)
  {
  }

  lemma Added(m: Mirror, history: seq<Event>, k: SessionRef, s: Session)
    requires MirrorOk(m, history) && SessionOk(k, s, history)
    ensures MirrorOk(m[k := s], history) && Steps(m, m[k := s], {k}) && |m[k := s]| <= |m| + 1
  {
    SizeOfUpdate(m, k, s);
    EvolvesRefl();
    hide SessionOk, Evolves;
  }

  lemma Evicted(m: Mirror, history: seq<Event>, k: SessionRef)
    requires MirrorOk(m, history) && k in m
    ensures MirrorOk(m - {k}, history) && Steps(m, m - {k}, {}) && |m - {k}| == |m| - 1
  {
    assert (m - {k}).Keys == m.Keys - {k};
    assert |(m - {k}).Keys| == |m - {k}| && |m.Keys| == |m|;
    EvolvesRefl();
    hide SessionOk, Evolves;
  }

  // ----- the steps of one session -----------------------------------------------------------------

  function NewSession(k: SessionRef, target: Target, reason: Reason): Session {
    Session(target, Active, reason, 0, None, false, None, true, {k}, [])
  }

  /** Ends a session; failures settle the local scan only where the caller says so. */
  function Ended(s: Session, p: SessionPhase, scanning: bool): Session {
    s.(phase := p, terminal := OutcomeOf(p), scanning := scanning)
  }

  lemma EndedOk(k: SessionRef, s: Session, p: SessionPhase, scanning: bool, history: seq<Event>)
    requires SessionOk(k, s, history) && !Terminal(s.phase) && (p.Failed? || p.Cancelled?)
    ensures SessionOk(k, Ended(s, p, scanning), history) && Evolves(s, Ended(s, p, scanning))
  {
  }

  /** The next stage, earned by the last event of the history. */
  function Promoted(s: Session, p: SessionPhase, ghost at: nat): Session {
    s.(phase := p, terminal := OutcomeOf(p), trail := s.trail + [at])
  }

  lemma PromotedOk(k: SessionRef, s: Session, p: SessionPhase, history: seq<Event>)
    requires history != [] && SessionOk(k, s, history[..|history| - 1])
    requires !Terminal(s.phase) && !p.Failed? && !p.Cancelled? && Stages(p) == Stages(s.phase) + 1
    requires Completes(history[|history| - 1], Stages(s.phase), s.names)
    ensures SessionOk(k, Promoted(s, p, |history| - 1), history) && Evolves(s, Promoted(s, p, |history| - 1))
  {
  }

  /** What one event does to the session it names, and how it is reported. */
  datatype Derived = Derived(next: Session, kind: Kind, outcome: Option<Outcome>, shown: bool, own: bool)

  function Ignored(s: Session): Derived { Derived(s, StaleEvent, None, false, false) }

  predicate NamesSession(e: Event) {
    e.PacketAdmitted? || e.ReadCompleted? || e.WriteCompleted? || e.DurabilityFenced?
    || e.HandoffAcknowledged? || e.HandoffRejected? || e.TimerFired?
  }

  function SessionOf(e: Event): SessionRef
    requires NamesSession(e)
  {
    if e.TimerFired? then e.operation.session else e.session
  }

  function OnPacket(s: Session): Derived {
    if s.phase != Active then Ignored(s)
    else Derived(s.(queueDepth := s.queueDepth + 1, scanning := true), Match, None, true, true)
  }

  function OnRead(s: Session, kind: OperationKind, read: ReadOutcome): Derived {
    if s.phase != Active || !read.Settled? then Ignored(s)
    else Derived(s.(scanning := if kind == HeaderRead then read.found else true), Match, None, true, true)
  }

  function OnWrite(s: Session, written: WriteOutcome, ghost at: nat): Derived {
    if Terminal(s.phase) || s.phase == Dormant || written == WriteStale then Ignored(s)
    else if written == WriteAccepted && s.phase == Active
    then Derived(Promoted(s.(scanning := false), Persisting, at), Match, None, true, true)
    else if written == WriteFailed
    then Derived(Ended(s, Failed(WriteFailure), false), Match, Some(FailedWith(WriteFailure)), true, true)
    else if written == WriteCancelled
    then Derived(Ended(s, Cancelled(OnRotation), false), Match, Some(CancelledWith(OnRotation)), true, true)
    else Derived(s, DerivedRejected, None, true, false)
  }

  function OnFence(s: Session, fenced: FenceOutcome, ghost at: nat): Derived {
    if Terminal(s.phase) || s.phase == Dormant || fenced == FenceStale then Ignored(s)
    else if fenced == FencePassed && s.phase == Persisting
    then Derived(Promoted(s, DurablePending, at), Match, None, true, true)
    else if fenced == FenceFailed
    then Derived(Ended(s, Failed(FenceFailure), s.scanning), Match, Some(FailedWith(FenceFailure)), true, true)
    else Derived(s, DerivedRejected, None, true, false)
  }

  function OnAcknowledged(s: Session, ghost at: nat): Derived {
    if s.phase == DurablePending then Derived(Promoted(s, Complete, at), Match, Some(Durable), true, true)
    else if Terminal(s.phase) then Derived(s, StaleEvent, None, true, true)
    else Derived(s, DerivedRejected, None, true, true)
  }

  function OnTimer(s: Session, operation: OperationRef, timer: TimerKind): Derived {
    if timer == SessionExpiry then
      if (s.phase == Active || s.phase == Dormant) && s.pendingExpiry.Some? && s.pendingExpiry.value.IsExpectedFor(operation)
      then Derived(s.(pendingExpiry := None, sweepEligible := true), Match, None, true, true)
      else Ignored(s)
    else if s.phase == Active || s.phase == DurablePending then Derived(s, Match, None, true, true)
    else Ignored(s)
  }

  function OnEvent(s: Session, e: Event, ghost at: nat): Derived
    requires NamesSession(e)
  {
    match e
    case PacketAdmitted(_) => OnPacket(s)
    case ReadCompleted(_, kind, read) => OnRead(s, kind, read)
    case WriteCompleted(_, written) => OnWrite(s, written, at)
    case DurabilityFenced(_, fenced) => OnFence(s, fenced, at)
    case HandoffAcknowledged(_) => OnAcknowledged(s, at)
    case HandoffRejected(_) => Derived(s, if s.phase == DurablePending then Match else StaleEvent, None, true, false)
    case TimerFired(operation, timer) => OnTimer(s, operation, timer)
  }

  lemma UntouchedOk(k: SessionRef, s: Session, t: Session, history: seq<Event>, e: Event)
    requires SessionOk(k, s, history) && t == s.(queueDepth := t.queueDepth, scanning := t.scanning,
                                                 pendingExpiry := t.pendingExpiry, sweepEligible := t.sweepEligible)
    requires t == s || !Terminal(s.phase)
    ensures SessionOk(k, t, history + [e]) && Evolves(s, t)
  {
  }

  lemma StageOk(k: SessionRef, s: Session, p: SessionPhase, e: Event, history: seq<Event>)
    requires SessionOk(k, s, history) && !Terminal(s.phase) && !p.Failed? && !p.Cancelled? && Stages(p) == Stages(s.phase) + 1
    requires Completes(e, Stages(s.phase), s.names)
    ensures SessionOk(k, Promoted(s, p, |history|), history + [e]) && Evolves(s, Promoted(s, p, |history|))
  {
    assert (history + [e])[..|history|] == history;
    PromotedOk(k, s, p, history + [e]);
  }

  lemma FailureOk(k: SessionRef, s: Session, p: SessionPhase, scanning: bool, e: Event, history: seq<Event>)
    requires SessionOk(k, s, history) && !Terminal(s.phase) && (p.Failed? || p.Cancelled?)
    ensures SessionOk(k, Ended(s, p, scanning), history + [e]) && Evolves(s, Ended(s, p, scanning))
  {
    EndedOk(k, s, p, scanning, history);
    UntouchedOk(k, Ended(s, p, scanning), Ended(s, p, scanning), history, e);
  }

  lemma OnWriteOk(k: SessionRef, s: Session, written: WriteOutcome, history: seq<Event>)
    requires SessionOk(k, s, history)
    ensures var t := OnWrite(s, written, |history|).next;
            SessionOk(k, t, history + [WriteCompleted(k, written)]) && Evolves(s, t)
  {
    var e := WriteCompleted(k, written);
    UntouchedOk(k, s, s, history, e);
    if !Terminal(s.phase) {
      FailureOk(k, s, Failed(WriteFailure), false, e, history);
      FailureOk(k, s, Cancelled(OnRotation), false, e, history);
      var quiet := s.(scanning := false);
      if written == WriteAccepted && s.phase == Active {
        assert SessionOk(k, quiet, history);
        StageOk(k, quiet, Persisting, e, history);
      }
    }
  }

  lemma OnFenceOk(k: SessionRef, s: Session, fenced: FenceOutcome, history: seq<Event>)
    requires SessionOk(k, s, history)
    ensures var t := OnFence(s, fenced, |history|).next;
            SessionOk(k, t, history + [DurabilityFenced(k, fenced)]) && Evolves(s, t)
  {
    var e := DurabilityFenced(k, fenced);
    UntouchedOk(k, s, s, history, e);
    if !Terminal(s.phase) {
      FailureOk(k, s, Failed(FenceFailure), s.scanning, e, history);
      if fenced == FencePassed && s.phase == Persisting {
        StageOk(k, s, DurablePending, e, history);
      }
    }
  }

  lemma OnAcknowledgedOk(k: SessionRef, s: Session, history: seq<Event>)
    requires SessionOk(k, s, history)
    ensures var t := OnAcknowledged(s, |history|).next;
            SessionOk(k, t, history + [HandoffAcknowledged(k)]) && Evolves(s, t)
  {
    UntouchedOk(k, s, s, history, HandoffAcknowledged(k));
    if s.phase == DurablePending {
      StageOk(k, s, Complete, HandoffAcknowledged(k), history);
    }
  }

  /** Whatever an event does to its session, the session stays sound and only moves forward. */
  lemma OnEventOk(k: SessionRef, s: Session, e: Event, history: seq<Event>)
    requires NamesSession(e) && SessionOf(e) == k && SessionOk(k, s, history)
    ensures var t := OnEvent(s, e, |history|).next; SessionOk(k, t, history + [e]) && Evolves(s, t)
  {
    hide SessionOk, Evolves, OnWrite, OnFence, OnAcknowledged;
    if e.WriteCompleted? {
      OnWriteOk(k, s, e.written, history);
    } else if e.DurabilityFenced? {
      OnFenceOk(k, s, e.fenced, history);
    } else if e.HandoffAcknowledged? {
      OnAcknowledgedOk(k, s, history);
    } else {
      UntouchedOk(k, s, OnEvent(s, e, |history|).next, history, e);
    }
  }

  /** The same for the mirror that holds it. */
  lemma MirrorStep(m: Mirror, e: Event, history: seq<Event>)
    requires NamesSession(e) && SessionOf(e) in m && MirrorOk(m, history)
    ensures var r := m[SessionOf(e) := OnEvent(m[SessionOf(e)], e, |history|).next];
            MirrorOk(r, history + [e]) && Steps(m, r, {}) && |r| == |m|
  {
    var k := SessionOf(e);
    HistoryGrows(m, history, e);
    OnEventOk(k, m[k], e, history);
    hide SessionOk, Evolves, OnEvent, Steps;
    Changed(m, history + [e], k, OnEvent(m[k], e, |history|).next);
  }

  /** Cancelling a set of live sessions. */
  function CancelAll(m: Mirror, chosen: set<SessionRef>, cause: CancelReason): Mirror {
    map k | k in m :: if k in chosen then Ended(m[k], Cancelled(cause), m[k].scanning) else m[k]
  }

  lemma CancelledOk(m: Mirror, chosen: set<SessionRef>, cause: CancelReason, history: seq<Event>)
    requires MirrorOk(m, history) && forall k :: k in chosen ==> k in m && !Terminal(m[k].phase)
    ensures MirrorOk(CancelAll(m, chosen, cause), history) && Steps(m, CancelAll(m, chosen, cause), {})
    ensures |CancelAll(m, chosen, cause)| == |m|
  {
    var r := CancelAll(m, chosen, cause);
    forall k | k in r ensures SessionOk(k, r[k], history) && Evolves(m[k], r[k]) {
      assert SessionOk(k, m[k], history);
      if k in chosen {
        EndedOk(k, m[k], Cancelled(cause), m[k].scanning, history);
      }
    }
    assert r.Keys == m.Keys;
    assert |r.Keys| == |r| && |m.Keys| == |m|;
  }

  // ----- orders on session references ---------------------------------------------------------------

  predicate Less(a: SessionRef, b: SessionRef) {
    if a.runEpoch != b.runEpoch then a.runEpoch < b.runEpoch
    else if a.sessionId != b.sessionId then a.sessionId < b.sessionId
    else if a.targetHash != b.targetHash then a.targetHash < b.targetHash
    else if a.planEpoch != b.planEpoch then a.planEpoch < b.planEpoch
    else a.storeGeneration < b.storeGeneration
  }

  datatype Order = ByRef | ByRefReversed | ById

  /** The order in which a search meets references: map order, its reverse, or lowest id first. */
  predicate Before(o: Order, a: SessionRef, b: SessionRef) {
    match o
    case ByRef => Less(a, b)
    case ByRefReversed => Less(b, a)
    case ById => a.sessionId < b.sessionId || (a.sessionId == b.sessionId && Less(a, b))
  }

  lemma BeforeIsTotal(o: Order, a: SessionRef, b: SessionRef)
    ensures a == b || Before(o, a, b) || Before(o, b, a)
  {
  }

  lemma BeforeIsTransitive(o: Order, a: SessionRef, b: SessionRef, c: SessionRef)
    requires Before(o, a, b) && Before(o, b, c)
    ensures Before(o, a, c)
  {
  }

  ghost predicate IsFirst(o: Order, keys: set<SessionRef>, k: SessionRef) {
    k in keys && forall x :: x in keys && x != k ==> Before(o, k, x)
  }

  lemma {:induction false} FirstExists(o: Order, keys: set<SessionRef>) returns (k: SessionRef)
    requires keys != {}
    ensures IsFirst(o, keys, k)
    decreases |keys|
  {
    var c :| c in keys;
    var rest := keys - {c};
    if rest == {} {
      assert keys == {c};
      return c;
    }
    var j := FirstExists(o, rest);
    BeforeIsTotal(o, j, c);
    k := if Before(o, j, c) then j else c;
    forall x | x in keys && x != k ensures Before(o, k, x) {
      if x != c && x != j {
        assert x in rest;
        if k == c {
          BeforeIsTransitive(o, c, j, x);
        }
      }
    }
  }

  lemma FirstIsUnique(o: Order, keys: set<SessionRef>, a: SessionRef, b: SessionRef)
    requires IsFirst(o, keys, a) && IsFirst(o, keys, b)
    ensures a == b
  {
  }

  /** The first reference of a set in the given order. */
  ghost function FirstOf(o: Order, keys: set<SessionRef>): (k: SessionRef)
    requires keys != {}
    ensures IsFirst(o, keys, k)
  {
    assert exists k :: IsFirst(o, keys, k) by { var k := FirstExists(o, keys); }
    var k :| IsFirst(o, keys, k);
    k
  }

  method First(o: Order, keys: set<SessionRef>) returns (k: SessionRef)
    requires keys != {}
    ensures k == FirstOf(o, keys) && IsFirst(o, keys, k)
  {
    k :| k in keys;
    var rest := keys - {k};
    while rest != {}
      invariant k in keys && rest <= keys
      invariant forall x :: x in keys && x !in rest && x != k ==> Before(o, k, x)
      decreases |rest|
    {
      var next :| next in rest;
      BeforeIsTotal(o, next, k);
      if Before(o, next, k) {
        forall x | x in keys && x !in rest && x != k ensures Before(o, next, x) {
          BeforeIsTransitive(o, next, k, x);
        }
        k := next;
      }
      rest := rest - {next};
    }
    FirstIsUnique(o, keys, k, FirstOf(o, keys));
  }

  /** A full mirror loses its oldest session. */
  ghost function RoomIn(m: Mirror, max: nat): Mirror
    requires max >= 1
  {
    if |m| < max then m else (assert |m.Keys| == |m|; m - {FirstOf(ByRef, m.Keys)})
  }

  lemma RoomOk(m: Mirror, max: nat, history: seq<Event>)
    requires max >= 1 && |m| <= max && MirrorOk(m, history)
    ensures |RoomIn(m, max)| < max && MirrorOk(RoomIn(m, max), history) && Steps(m, RoomIn(m, max), {})
  {
    hide MirrorOk, Steps;
    StepsRefl(m);
    if |m| >= max {
      assert |m.Keys| == |m|;
      Evicted(m, history, FirstOf(ByRef, m.Keys));
    }
  }

  /** What leaves a full mirror is its oldest name: the lowest id of the oldest run. */
  lemma RoomEvictsOldest(m: Mirror, max: nat, k: SessionRef, x: SessionRef)
    requires max >= 1 && k in m && k !in RoomIn(m, max) && x in m
    ensures |m| >= max && (x in RoomIn(m, max) <==> x != k)
    ensures k.runEpoch < x.runEpoch || (k.runEpoch == x.runEpoch && k.sessionId <= x.sessionId)
  {
  }

  /** Oldest sessions out until one more fits. */
  method MakeRoom(m: Mirror, max: nat) returns (r: Mirror)
    requires max >= 1 && |m| <= max
    ensures r == RoomIn(m, max)
  {
    r := m;
    while |r| >= max
      invariant r == m || (|m| == max && r == RoomIn(m, max) && |r| < max)
      decreases |r|
    {
      assert |r.Keys| == |r|;
      var oldest := First(ByRef, r.Keys);
      assert (r - {oldest}).Keys == r.Keys - {oldest};
      assert |(r - {oldest}).Keys| == |r - {oldest}|;
      r := r - {oldest};
    }
  }

  // ----- what the coordinator asks of a mirror --------------------------------------------------------

  predicate Live(m: Mirror, k: SessionRef, hash: Hash) {
    k in m && !Terminal(m[k].phase) && m[k].target.hash == hash
  }

  /** A session that can still end well for this hash, or already has. */
  predicate Viable(m: Mirror, hash: Hash) {
    exists k :: k in m && !m[k].phase.Failed? && !m[k].phase.Cancelled? && m[k].target.hash == hash
  }

  ghost function LiveOnes(m: Mirror, hash: Hash): set<SessionRef> { set k | k in m && Live(m, k, hash) }

  predicate Reusable(s: Session, target: Target) {
    && !Terminal(s.phase) && s.target.hash == target.hash
    && (s.target == target || (s.target.sequence.None? && target.sequence.Some? && s.queueDepth == 0))
  }

  ghost function ReusableOnes(m: Mirror, target: Target): set<SessionRef> { set k | k in m && Reusable(m[k], target) }

  // ----- terminal sessions over time -------------------------------------------------------------------

  /**
   * A terminal session tracked before and after is changed exactly if its name
   * is in `given`; a given name, if tracked, is live; and no other name is new.
   */
  ghost predicate TerminalsKept(m: Mirror, m': Mirror, given: set<SessionRef>) {
    && (forall k :: k in m' ==> k in m || k in given)
    && (forall k :: k in m && k in m' && Terminal(m[k].phase) ==> (m'[k] != m[k] <==> k in given))
    && (forall k :: k in m' && k in given ==> !Terminal(m'[k].phase))
  }

  /** No live session ends. */
  ghost predicate NoneEnds(m: Mirror, m': Mirror) {
    forall k :: k in m && k in m' && !Terminal(m[k].phase) ==> !Terminal(m'[k].phase)
  }

  lemma KeptTwice(a: Mirror, b: Mirror, c: Mirror, x: set<SessionRef>, y: set<SessionRef>)
    requires TerminalsKept(a, b, x) && TerminalsKept(b, c, y) && NoneEnds(b, c)
    ensures TerminalsKept(a, c, x + y)
  {
  }

  /** Two steps that end no live session, the second of which tracks no new one. */
  lemma NoneEndsTwice(a: Mirror, b: Mirror, c: Mirror)
    requires NoneEnds(a, b) && NoneEnds(b, c) && c.Keys <= b.Keys
    ensures NoneEnds(a, c)
  {
  }

  lemma KeptSame(m: Mirror)
    ensures TerminalsKept(m, m, {}) && NoneEnds(m, m)
  {
  }

  lemma KeptChanged(m: Mirror, k: SessionRef, s: Session)
    requires k in m && (Terminal(m[k].phase) ==> s == m[k])
    ensures TerminalsKept(m, m[k := s], {})
    ensures (!Terminal(m[k].phase) ==> !Terminal(s.phase)) ==> NoneEnds(m, m[k := s])
  {
  }

  /** A full mirror makes room and a live session takes a name, tracked or not. */
  lemma KeptStarted(m: Mirror, max: nat, k: SessionRef, s: Session)
    requires max >= 1 && !Terminal(s.phase)
    ensures TerminalsKept(m, RoomIn(m, max)[k := s], {k}) && NoneEnds(m, RoomIn(m, max)[k := s])
  {
  }

  lemma KeptCancelled(m: Mirror, chosen: set<SessionRef>, cause: CancelReason)
    requires forall k :: k in chosen ==> k in m && !Terminal(m[k].phase)
    ensures TerminalsKept(m, CancelAll(m, chosen, cause), {})
  {
  }

  lemma KeptRenamed(m: Mirror, prior: SessionRef, name: SessionRef, s: Session)
    requires prior in m && !Terminal(m[prior].phase) && name !in m && !Terminal(s.phase)
    ensures TerminalsKept(m, (m - {prior})[name := s], {name})
  {
  }

  /** A syncing stretch keeps its anchor hash. */
  predicate AnchorKept(a: SyncPhase, b: SyncPhase) {
    a.Syncing? && b.Syncing? ==> a.target.hash == b.target.hash
  }
}
