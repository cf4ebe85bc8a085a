/** The shadow coordinator as a state machine on values: what each call makes of its state. */
module ShadowSpec {
  import opened Identity
  import opened Phases
  import opened ShadowModel
  import opened ShadowBook

  /** What one call hands to the next, apart from the log. */
  datatype ShadowState = ShadowState(
    phase: SyncPhase,
    usable: bool,
    latest: Option<Target>,
    anchor: Option<Target>,
    owner: Option<SessionRef>,
    candidate: Option<Target>,
    book: Book)

  ghost function Fresh(runEpoch: nat, max: nat): ShadowState {
    ShadowState(Disconnected, false, None, None, None, None, NewBook(runEpoch, max))
  }

  // ----- what each event does to the phase ----------------------------------------------------------------

  function Applied(p: SyncPhase, fact: Fact): SyncPhase {
    var next := Transition(p, fact);
    if next.Some? then next.value else p
  }

  /** The whole effect of one event on the service phase, before any anchor promotion. */
  function NextPhase(p: SyncPhase, usable: bool, e: Event): SyncPhase {
    match e
    case StartupMode(seed) => seed
    case Connectivity(true) => if p == Disconnected then Connected else p
    case Connectivity(false) => if p == Disconnected then p else Applied(p, PeerCapabilityLost)
    case QuorumLost => Applied(p, ConsensusQuorumLost)
    case QuorumAvailable => Applied(p, ConsensusQuorumAvailable)
    case ViewChange => Applied(p, ConsensusViewChange)
    case Divergence(t) => Applied(p, PreferredLclDivergence(t))
    case Blocked => Applied(p, BlockedWithNoTarget)
    case Reconciled(lcl) => Applied(p, PreferredLclReconciled(lcl))
    case LclInstalled(lcl) => Installed(p, lcl)
    case PublicationCommitted(lcl, recent) => Published(p, lcl, recent)
    case AcquireRequested(t, _) => Demanded(p, usable, t)
    case ConsensusTarget(t, _) => Demanded(p, usable, t)
    case ShutdownEvent => Applied(p, ShutdownRequested)
    case _ => p
  }

  /** Acquisition demand moves the phase only with peers to serve it and no installed ledger to keep. */
  function Demanded(p: SyncPhase, usable: bool, t: Target): SyncPhase {
    if usable && !p.Tracking? && !p.Full? then Applied(p, TargetRequired(t)) else p
  }

  /** Only the anchor itself, or any ledger while merely connected, starts tracking; later ones advance it. */
  function Installed(p: SyncPhase, lcl: LedgerId): SyncPhase {
    match p
    case Syncing(t) => if t.hash == lcl.hash then Tracking(lcl) else p
    case Connected => Tracking(lcl)
    case Tracking(at) => if lcl.sequence > at.sequence then Tracking(lcl) else p
    case Full(at, published) => if lcl.sequence > at.sequence then Full(lcl, published) else p
    case _ => p
  }

  function Published(p: SyncPhase, lcl: LedgerId, recent: bool): SyncPhase {
    match p
    case Tracking(at) => if recent then Full(at, lcl) else p
    case Full(at, published) => if lcl.sequence > published.sequence then Full(at, lcl) else p
    case _ => p
  }

  /** No event but a startup seed moves the anchor of a syncing stretch to another hash. */
  lemma EventsKeepTheAnchor(p: SyncPhase, usable: bool, e: Event)
    requires !e.StartupMode?
    ensures AnchorKept(p, NextPhase(p, usable, e))
  {
  }

  function NextLatest(latest: Option<Target>, e: Event): Option<Target> {
    match e
    case ConsensusTarget(t, _) => Some(t)
    case Reconciled(_) => None
    case LclInstalled(lcl) => if latest.Some? && latest.value.hash == lcl.hash then None else latest
    case _ => latest
  }

  /** An event that names a session moves nothing but the book. */
  lemma SessionEventsAreLocal(p: SyncPhase, usable: bool, latest: Option<Target>, e: Event)
    requires NamesSession(e)
    ensures NextPhase(p, usable, e) == p && NextLatest(latest, e) == latest
  {
  }

  function NextUsable(usable: bool, e: Event): bool {
    if e.Connectivity? || e.TransportConnectivity? then e.usable else usable
  }

  // ----- what each event does to the book -------------------------------------------------------------------

  datatype Demand = Demand(target: Target, reason: Reason, preferred: bool)

  /** What an event asks for; a recovery target that is not the anchor only waits. */
  function DemandOf(anchor: Option<Target>, e: Event): Option<Demand> {
    match e
    case AcquireRequested(t, reason) => Some(Demand(t, reason, false))
    case ValidationTarget(t) => Some(Demand(t, Consensus, false))
    case ConsensusTarget(t, reason) => Some(Demand(t, reason, true))
    case RecoveryTarget(Some(t)) =>
      if anchor.None? || anchor.value.hash == t.hash then Some(Demand(t, Consensus, false)) else None
    case _ => None
  }

  /** What an event that names no session and demands none cancels. */
  ghost function RegisteredBook(b: Book, e: Event): (r: Book)
    ensures Grew(b, r)
  {
    GrewRefl(b);
    hide BookOk, Grew, AllLive, CancelAll;
    match e
    case LclInstalled(lcl) => CancelledBook(b, Superseded(b.mirror, lcl.hash), OnInstall)
    case StoreRotated(g) =>
      GrewTrans(b, Rotated(b, g), CancelledBook(Rotated(b, g), Outdated(b.mirror, g), OnRotation));
      CancelledBook(Rotated(b, g), Outdated(b.mirror, g), OnRotation)
    case RegistrySweep => CancelledBook(b, Sweepable(b.mirror), OnExpiry)
    case ShutdownEvent => CancelledBook(b, Unfinished(b.mirror), OnShutdown)
    case _ => b
  }

  /** The whole effect of one event on the book, before the recovery owner is reconciled. */
  ghost function BookAfter(b: Book, usable: bool, anchor: Option<Target>, e: Event): (r: Book)
    requires b.max >= 1
    ensures Heard(b, r, e)
  {
    hide BookOk, Heard, Grew, Moved, Noted, RegisteredBook, AcquiredBook;
    var noted := Noted(b, e);
    var d := DemandOf(anchor, e);
    if NamesSession(e) then
      if SessionOf(e) in b.mirror then Moved(b, e) else noted
    else if d.Some? then
      if usable then
        var acquired := AcquiredBook(noted, d.value.target, d.value.reason, d.value.preferred);
        HeardThenGrew(b, noted, acquired, e);
        acquired
      else noted
    else
      HeardThenGrew(b, noted, RegisteredBook(noted, e), e);
      RegisteredBook(noted, e)
  }

  // ----- what each event does to the whole state --------------------------------------------------------------

  function NextAnchor(anchor: Option<Target>, e: Event): Option<Target> {
    if e.RecoveryTarget? && anchor.None? then e.wanted else anchor
  }

  function NextCandidate(anchor: Option<Target>, candidate: Option<Target>, e: Event): Option<Target> {
    if !e.RecoveryTarget? then candidate
    else if anchor.Some? && e.wanted.Some? && anchor.value.hash != e.wanted.value.hash then e.wanted
    else None
  }

  ghost function DerivedState(s: ShadowState, e: Event): (r: ShadowState)
    requires s.book.max >= 1
    ensures Heard(s.book, r.book, e)
  {
    hide BookOk, Heard, BookAfter;
    ShadowState(NextPhase(s.phase, s.usable, e), NextUsable(s.usable, e), NextLatest(s.latest, e), NextAnchor(s.anchor, e),
                s.owner, NextCandidate(s.anchor, s.candidate, e), BookAfter(s.book, s.usable, s.anchor, e))
  }

  /** An owner that is gone or done is let go; the waiting candidate becomes the target. */
  function ReleasedState(s: ShadowState): ShadowState {
    if s.owner.Some? && !(s.owner.value in s.book.mirror && !Terminal(s.book.mirror[s.owner.value].phase))
    then s.(owner := None, anchor := s.candidate, candidate := None) else s
  }

  /** The live session with the lowest id for a hash. */
  ghost function OwnerIn(m: Mirror, hash: Hash): Option<SessionRef> {
    if LiveOnes(m, hash) == {} then None else Some(FirstOf(ById, LiveOnes(m, hash)))
  }

  /** No owner, although there is a recovery target, peers to serve it and no live session for it. */
  ghost predicate Ownerless(s: ShadowState) {
    s.owner.None? && s.anchor.Some? && s.usable && LiveOnes(s.book.mirror, s.anchor.value.hash) == {}
  }

  ghost function ReconciledState(s: ShadowState): (r: ShadowState)
    requires s.book.max >= 1
    ensures Grew(s.book, r.book)
  {
    GrewRefl(s.book);
    hide BookOk, Grew, AcquiredBook;
    var kept := ReleasedState(s);
    if kept.owner.Some? || kept.anchor.None? then kept
    else if Ownerless(kept) then
      var b := AcquiredBook(kept.book, kept.anchor.value, Consensus, false);
      kept.(book := b, owner := OwnerIn(b.mirror, kept.anchor.value.hash))
    else kept.(owner := OwnerIn(kept.book.mirror, kept.anchor.value.hash))
  }

  /** The anchor is hopeless and the latest, different target is not. */
  predicate Promotes(s: ShadowState) {
    && s.phase.Syncing? && !Viable(s.book.mirror, s.phase.target.hash)
    && s.latest.Some? && s.latest.value.hash != s.phase.target.hash && Viable(s.book.mirror, s.latest.value.hash)
  }

  function PromotedState(s: ShadowState): ShadowState {
    if Promotes(s) then s.(phase := Syncing(s.latest.value)) else s
  }

  /** A session of the hash can still end well, or has. */
  ghost predicate Hopeful(m: Mirror, hash: Hash) {
    exists k :: k in m && m[k].target.hash == hash
      && (m[k].phase == Active || m[k].phase == Dormant || m[k].phase == Persisting || m[k].phase == DurablePending || m[k].phase == Complete)
  }

  /** The anchor moves, to the latest target, exactly if it has no hope left and that one, of another hash, has. */
  lemma PromotesExactly(s: ShadowState)
    ensures PromotedState(s) ==
            if s.phase.Syncing? && !Hopeful(s.book.mirror, s.phase.target.hash)
               && s.latest.Some? && s.latest.value.hash != s.phase.target.hash && Hopeful(s.book.mirror, s.latest.value.hash)
            then s.(phase := Syncing(s.latest.value)) else s
  {
    hide BookOk;
    forall hash ensures Viable(s.book.mirror, hash) <==> Hopeful(s.book.mirror, hash) {
      ViableIsHopeful(s.book.mirror, hash);
    }
  }

  lemma ViableIsHopeful(m: Mirror, hash: Hash)
    ensures Viable(m, hash) <==> Hopeful(m, hash)
  {
    if Viable(m, hash) {
      var k :| k in m && !m[k].phase.Failed? && !m[k].phase.Cancelled? && m[k].target.hash == hash;
      assert k in m && m[k].target.hash == hash;
    }
    if Hopeful(m, hash) {
      var k :| k in m && m[k].target.hash == hash && (m[k].phase == Active || m[k].phase == Dormant
        || m[k].phase == Persisting || m[k].phase == DurablePending || m[k].phase == Complete);
      assert k in m && !m[k].phase.Failed? && !m[k].phase.Cancelled?;
    }
  }

  /** One event: derived, then the owner reconciled, then a hopeless anchor promoted. */
  ghost function RecordedState(s: ShadowState, e: Event): (r: ShadowState)
    requires s.book.max >= 1
    ensures Heard(s.book, r.book, e)
  {
    hide BookOk, Heard, Grew, DerivedState, ReconciledState;
    var d := DerivedState(s, e);
    SameBound(s.book, d.book, e);
    HeardThenGrew(s.book, d.book, ReconciledState(d).book, e);
    PromotedState(ReconciledState(d))
  }

  lemma SameBound(a: Book, b: Book, e: Event)
    requires Heard(a, b, e)
    ensures a.max == b.max && a.runEpoch == b.runEpoch
  {
  }

  // ----- which names an event mints ------------------------------------------------------------------------------

  /** The name minted for the event's own demand: usable peers and no reusable session. */
  ghost function DemandMints(s: ShadowState, e: Event): set<SessionRef> {
    var d := DemandOf(s.anchor, e);
    if d.Some? && s.usable && ReusableOnes(s.book.mirror, d.value.target) == {}
    then {Named(s.book, d.value.target.hash)} else {}
  }

  /** The name minted for the recovery target, if the event leaves it without an owner and without a live session. */
  ghost function OwnerMints(s: ShadowState, e: Event): set<SessionRef>
    requires s.book.max >= 1
  {
    var left := ReleasedState(DerivedState(s, e));
    if Ownerless(left) then
      {SessionRef(s.book.runEpoch, if DemandMints(s, e) == {} then s.book.nextId else IdAfter(s.book.nextId),
                  left.anchor.value.hash, 1, if e.StoreRotated? then e.generation else s.book.generation)}
    else {}
  }

  ghost function MintedBy(s: ShadowState, e: Event): set<SessionRef>
    requires s.book.max >= 1
  {
    DemandMints(s, e) + OwnerMints(s, e)
  }

  /** The counters after an event: one id further for a mint, and the generation of the last rotation. */
  lemma CountersAfter(s: ShadowState, e: Event)
    requires s.book.max >= 1
    ensures var r := DerivedState(s, e).book;
            && r.runEpoch == s.book.runEpoch && r.nextId == (if DemandMints(s, e) == {} then s.book.nextId else IdAfter(s.book.nextId))
            && r.generation == (if e.StoreRotated? then e.generation else s.book.generation)
            && r.minted == s.book.minted + if DemandMints(s, e) == {} then [] else [Named(s.book, DemandOf(s.anchor, e).value.target.hash)]
  {
    hide BookOk, Heard, Grew, AllLive, OnEvent, IdAfter, AcquiredBook, CancelledBook;
    var d := DemandOf(s.anchor, e);
    if !NamesSession(e) && d.Some? {
      CountersAcquired(Noted(s.book, e), d.value.target, d.value.reason, d.value.preferred);
    }
  }

  lemma MovedKeeps(b: Book, e: Event)
    requires NamesSession(e) && SessionOf(e) in b.mirror
    ensures TerminalsKept(b.mirror, Moved(b, e).mirror, {})
  {
    var k := SessionOf(e);
    Holds(b, k);
    OnEventOk(k, b.mirror[k], e, b.history);
    hide BookOk, Heard, OnEvent, SessionOk, TerminalsKept, NoneEnds;
    KeptChanged(b.mirror, k, OnEvent(b.mirror[k], e, |b.history|).next);
  }

  lemma RegisteredKeeps(b: Book, e: Event)
    ensures TerminalsKept(b.mirror, RegisteredBook(b, e).mirror, {})
  {
    hide BookOk, Grew, CancelAll, TerminalsKept, NoneEnds;
    KeptSame(b.mirror);
    match e
    case LclInstalled(lcl) => KeptCancelled(b.mirror, Superseded(b.mirror, lcl.hash), OnInstall);
    case StoreRotated(g) => KeptCancelled(b.mirror, Outdated(b.mirror, g), OnRotation);
    case RegistrySweep => KeptCancelled(b.mirror, Sweepable(b.mirror), OnExpiry);
    case ShutdownEvent => KeptCancelled(b.mirror, Unfinished(b.mirror), OnShutdown);
    case _ =>
  }

  lemma DerivedKeeps(s: ShadowState, e: Event)
    requires s.book.max >= 1
    ensures TerminalsKept(s.book.mirror, DerivedState(s, e).book.mirror, DemandMints(s, e))
  {
    hide BookOk, Heard, Grew, TerminalsKept, NoneEnds, RegisteredBook, AcquiredBook, Moved;
    var noted, d := Noted(s.book, e), DemandOf(s.anchor, e);
    KeptSame(s.book.mirror);
    if NamesSession(e) {
      if SessionOf(e) in s.book.mirror {
        MovedKeeps(s.book, e);
      }
    } else if d.Some? {
      AcquiredKeeps(noted, d.value.target, d.value.reason, d.value.preferred);
    } else {
      RegisteredKeeps(noted, e);
    }
  }

  lemma ReconciledKeeps(s: ShadowState)
    requires s.book.max >= 1
    ensures var left := ReleasedState(s);
            && NoneEnds(s.book.mirror, ReconciledState(s).book.mirror)
            && TerminalsKept(s.book.mirror, ReconciledState(s).book.mirror,
                             if Ownerless(left) then {Named(left.book, left.anchor.value.hash)} else {})
  {
    hide BookOk, Grew, TerminalsKept, NoneEnds, AcquiredBook, OwnerIn;
    KeptSame(s.book.mirror);
    var left := ReleasedState(s);
    if Ownerless(left) {
      assert ReusableOnes(left.book.mirror, left.anchor.value) <= LiveOnes(left.book.mirror, left.anchor.value.hash);
      AcquiredKeeps(left.book, left.anchor.value, Consensus, false);
    }
  }

  /** An event changes a terminal session, tracked before and after, exactly if it mints its name. */
  lemma RecordedKeeps(s: ShadowState, e: Event)
    requires s.book.max >= 1
    ensures TerminalsKept(s.book.mirror, RecordedState(s, e).book.mirror, MintedBy(s, e))
  {
    hide BookOk, Heard, Grew, TerminalsKept, NoneEnds, DerivedState, ReconciledState, DemandMints, Ownerless;
    var d := DerivedState(s, e);
    SameBound(s.book, d.book, e);
    DerivedKeeps(s, e);
    CountersAfter(s, e);
    ReconciledKeeps(d);
    KeptTwice(s.book.mirror, d.book.mirror, ReconciledState(d).book.mirror, DemandMints(s, e), OwnerMints(s, e));
  }

  /** What the recovery owner mints is recorded. */
  lemma ReconciledMints(s: ShadowState)
    requires s.book.max >= 1
    ensures var left := ReleasedState(s);
            ReconciledState(s).book.minted == s.book.minted + if Ownerless(left) then [Named(left.book, left.anchor.value.hash)] else []
  {
    hide BookOk, Grew, AcquiredBook, OwnerIn;
    var left := ReleasedState(s);
    if Ownerless(left) {
      assert ReusableOnes(left.book.mirror, left.anchor.value) <= LiveOnes(left.book.mirror, left.anchor.value.hash);
      CountersAcquired(left.book, left.anchor.value, Consensus, false);
    }
  }

  /** Every name an event mints is drawn from the counter, and an event mints two at most. */
  lemma MintsAreDrawn(s: ShadowState, e: Event)
    requires s.book.max >= 1
    ensures var r := RecordedState(s, e).book;
            && s.book.minted <= r.minted && |r.minted| <= |s.book.minted| + 2 && r.runEpoch == s.book.runEpoch
            && forall k :: k in MintedBy(s, e) ==> k in r.minted[|s.book.minted|..]
  {
    hide BookOk, Heard, Grew, DerivedState, ReconciledState, Ownerless;
    var d := DerivedState(s, e);
    SameBound(s.book, d.book, e);
    SameBound(s.book, RecordedState(s, e).book, e);
    CountersAfter(s, e);
    ReconciledMints(d);
    var first, all := d.book.minted, ReconciledState(d).book.minted;
    assert all[|s.book.minted|..] == first[|s.book.minted|..] + all[|first|..];
  }

  // ----- what each event does to each session -------------------------------------------------------------------

  /** The session ends cancelled if the condition holds, and is untouched otherwise. */
  ghost predicate CancelledIff(s: Session, s': Session, cond: bool, cause: CancelReason) {
    s' == if cond then s.(phase := Cancelled(cause), terminal := Some(CancelledWith(cause))) else s
  }

  /** A live session that is for the target already, or could still be told its sequence. */
  predicate Serves(s: Session, t: Target) {
    && (s.phase == Active || s.phase == Dormant || s.phase == Persisting || s.phase == DurablePending)
    && (s.target == t || (s.target.hash == t.hash && s.target.sequence.None? && t.sequence.Some? && s.queueDepth == 0))
  }

  ghost predicate FirstServing(m: Mirror, t: Target, k: SessionRef) {
    k in m && Serves(m[k], t) && forall x :: x in m && Serves(m[x], t) && x != k ==> Less(k, x)
  }

  /** Session `k` before and after an event that did not give out its name. */
  ghost predicate SessionAfter(k: SessionRef, s: Session, s': Session, m: Mirror, demand: Option<Demand>, e: Event, at: nat) {
    match e
    case LclInstalled(lcl) =>
      CancelledIff(s, s', s.target.hash == lcl.hash && (s.phase == Active || s.phase == Dormant || s.phase == Persisting), OnInstall)
    case StoreRotated(g) =>
      CancelledIff(s, s', k.storeGeneration < g && (s.phase == Active || s.phase == Dormant || s.phase == Persisting || s.phase == DurablePending), OnRotation)
    case RegistrySweep =>
      CancelledIff(s, s', s.sweepEligible && !s.scanning && (s.phase == Active || s.phase == Dormant), OnExpiry)
    case ShutdownEvent =>
      CancelledIff(s, s', s.phase == Active || s.phase == Dormant || s.phase == Persisting || s.phase == DurablePending, OnShutdown)
    case _ =>
      if NamesSession(e) then s' == if SessionOf(e) == k then OnEvent(s, e, at).next else s
      else if demand.Some? && FirstServing(m, demand.value.target, k) then
        s' == s.(target := demand.value.target,
                 phase := if demand.value.preferred && s.reason == Consensus && s.phase == Dormant then Active else s.phase)
      else s' == s
  }

  /** Every session tracked before and after, but for the names given out, and none lost without a mint. */
  ghost predicate SessionsAfter(m: Mirror, m': Mirror, given: set<SessionRef>, demand: Option<Demand>, e: Event, at: nat) {
    && (forall k :: k in m && k in m' && k !in given ==> SessionAfter(k, m[k], m'[k], m, demand, e, at))
    && (given == {} ==> m'.Keys == m.Keys)
  }

  ghost function Heeded(s: ShadowState, e: Event): Option<Demand> {
    if s.usable then DemandOf(s.anchor, e) else None
  }

  lemma FirstServingIs(m: Mirror, t: Target, k: SessionRef)
    ensures FirstServing(m, t, k) <==> ReusableOnes(m, t) != {} && k == FirstOf(ByRef, ReusableOnes(m, t))
  {
    var serving := ReusableOnes(m, t);
    assert forall x :: x in serving <==> x in m && Serves(m[x], t);
    if FirstServing(m, t, k) {
      assert k in serving && IsFirst(ByRef, serving, k);
      FirstIsUnique(ByRef, serving, k, FirstOf(ByRef, serving));
    }
  }

  /** The name minted for a demand, with the condition written out. */
  lemma DemandMintsExactly(s: ShadowState, e: Event)
    ensures DemandMints(s, e) ==
            if Heeded(s, e).Some? && (forall k :: k in s.book.mirror ==> !Serves(s.book.mirror[k], Heeded(s, e).value.target))
            then {SessionRef(s.book.runEpoch, s.book.nextId, Heeded(s, e).value.target.hash, 1, s.book.generation)} else {}
  {
    hide BookOk;
    if Heeded(s, e).Some? {
      assert forall k :: k in ReusableOnes(s.book.mirror, Heeded(s, e).value.target) <==>
                         k in s.book.mirror && Serves(s.book.mirror[k], Heeded(s, e).value.target);
    }
  }

  lemma AcquiredSessions(b: Book, d: Demand, e: Event)
    requires b.max >= 1 && !NamesSession(e) && !e.LclInstalled? && !e.StoreRotated? && !e.RegistrySweep? && !e.ShutdownEvent?
    ensures SessionsAfter(b.mirror, AcquiredBook(b, d.target, d.reason, d.preferred).mirror, MintsFor(b, d.target), Some(d), e, |b.history|)
  {
    hide BookOk, Grew, Live, IdAfter, OnEvent, AcquiredBook, FirstServing, ReusableOnes;
    AcquiredMirror(b, d.target, d.reason, d.preferred);
    var r := AcquiredBook(b, d.target, d.reason, d.preferred);
    forall k | k in b.mirror && k in r.mirror && k !in MintsFor(b, d.target)
      ensures SessionAfter(k, b.mirror[k], r.mirror[k], b.mirror, Some(d), e, |b.history|)
    {
      FirstServingIs(b.mirror, d.target, k);
    }
  }

  lemma CancelledSessions(b: Book, e: Event)
    requires e.LclInstalled? || e.StoreRotated? || e.RegistrySweep? || e.ShutdownEvent?
    ensures SessionsAfter(b.mirror, RegisteredBook(b, e).mirror, {}, None, e, |b.history|)
  {
    hide *;
    match e
    case LclInstalled(lcl) => InstallSessions(b, lcl);
    case StoreRotated(g) => RotationSessions(b, g);
    case RegistrySweep => SweepSessions(b);
    case ShutdownEvent => ShutdownSessions(b);
    case _ =>
  }

  lemma InstallSessions(b: Book, lcl: LedgerId)
    ensures SessionsAfter(b.mirror, RegisteredBook(b, LclInstalled(lcl)).mirror, {}, None, LclInstalled(lcl), |b.history|)
  {
    hide BookOk, Grew, CancelAll, CancelledIff, AllLive, OnEvent;
    CancelPointwise(b.mirror, Superseded(b.mirror, lcl.hash), OnInstall);
  }

  lemma RotationSessions(b: Book, g: nat)
    ensures SessionsAfter(b.mirror, RegisteredBook(b, StoreRotated(g)).mirror, {}, None, StoreRotated(g), |b.history|)
  {
    hide BookOk, Grew, CancelAll, CancelledIff, AllLive, OnEvent;
    CancelPointwise(b.mirror, Outdated(b.mirror, g), OnRotation);
  }

  lemma SweepSessions(b: Book)
    ensures SessionsAfter(b.mirror, RegisteredBook(b, RegistrySweep).mirror, {}, None, RegistrySweep, |b.history|)
  {
    hide BookOk, Grew, CancelAll, CancelledIff, AllLive, OnEvent;
    CancelPointwise(b.mirror, Sweepable(b.mirror), OnExpiry);
  }

  lemma ShutdownSessions(b: Book)
    ensures SessionsAfter(b.mirror, RegisteredBook(b, ShutdownEvent).mirror, {}, None, ShutdownEvent, |b.history|)
  {
    hide BookOk, Grew, CancelAll, CancelledIff, AllLive, OnEvent;
    CancelPointwise(b.mirror, Unfinished(b.mirror), OnShutdown);
  }

  lemma CancelPointwise(m: Mirror, chosen: set<SessionRef>, cause: CancelReason)
    ensures CancelAll(m, chosen, cause).Keys == m.Keys
    ensures forall k :: k in m ==> CancelledIff(m[k], CancelAll(m, chosen, cause)[k], k in chosen, cause)
  {
  }

  lemma DerivedSessions(s: ShadowState, e: Event)
    requires s.book.max >= 1
    ensures SessionsAfter(s.book.mirror, DerivedState(s, e).book.mirror, DemandMints(s, e), Heeded(s, e), e, |s.book.history|)
  {
    var noted, d := Noted(s.book, e), DemandOf(s.anchor, e);
    hide BookOk, Heard, Grew, RegisteredBook, AcquiredBook, OnEvent, SessionsAfter;
    if NamesSession(e) {
      MovedSessions(s.book, e);
    } else if d.Some? {
      if s.usable {
        AcquiredSessions(noted, d.value, e);
        HistoryIsAside(noted.mirror, AcquiredBook(noted, d.value.target, d.value.reason, d.value.preferred).mirror, MintsFor(noted, d.value.target), d, e, |noted.history|, |s.book.history|);
      } else {
        UntouchedSessions(s.book.mirror, e, |s.book.history|);
      }
    } else if e.LclInstalled? || e.StoreRotated? || e.RegistrySweep? || e.ShutdownEvent? {
      CancelledSessions(noted, e);
      HistoryIsAside(noted.mirror, RegisteredBook(noted, e).mirror, {}, None, e, |noted.history|, |s.book.history|);
    } else {
      UntouchedSessions(s.book.mirror, e, |s.book.history|);
      OthersRegisterNothing(noted, e);
    }
  }

  lemma MovedSessions(b: Book, e: Event)
    requires NamesSession(e)
    ensures SessionsAfter(b.mirror, if SessionOf(e) in b.mirror then Moved(b, e).mirror else b.mirror, {}, None, e, |b.history|)
  {
    hide BookOk, Heard, OnEvent;
  }

  lemma UntouchedSessions(m: Mirror, e: Event, at: nat)
    requires !NamesSession(e) && !e.LclInstalled? && !e.StoreRotated? && !e.RegistrySweep? && !e.ShutdownEvent?
    ensures SessionsAfter(m, m, {}, None, e, at)
  {
    hide OnEvent;
  }

  lemma OthersRegisterNothing(b: Book, e: Event)
    requires !e.LclInstalled? && !e.StoreRotated? && !e.RegistrySweep? && !e.ShutdownEvent?
    ensures RegisteredBook(b, e) == b
  {
  }

  /** The history position only matters to events that name a session. */
  lemma HistoryIsAside(m: Mirror, m': Mirror, given: set<SessionRef>, demand: Option<Demand>, e: Event, a: nat, b: nat)
    requires !NamesSession(e) && SessionsAfter(m, m', given, demand, e, a)
    ensures SessionsAfter(m, m', given, demand, e, b)
  {
    hide OnEvent, FirstServing, CancelledIff;
  }

  /** Reconciling the owner adds at most one session and leaves every other as it is. */
  lemma ReconciledSessions(s: ShadowState)
    requires s.book.max >= 1
    ensures var left, m, m' := ReleasedState(s), s.book.mirror, ReconciledState(s).book.mirror;
            var given := if Ownerless(left) then {Named(left.book, left.anchor.value.hash)} else {};
            && (forall k :: k in m' && k !in given ==> k in m && m'[k] == m[k])
            && (given == {} ==> m' == m)
  {
    hide BookOk, Grew, OwnerIn;
    var left := ReleasedState(s);
    if Ownerless(left) {
      assert ReusableOnes(left.book.mirror, left.anchor.value) <= LiveOnes(left.book.mirror, left.anchor.value.hash);
    }
  }

  /**
   * Every session an event meets, in every state: installs, rotations, sweeps
   * and shutdowns cancel exactly the sessions that qualify, a session's own
   * events move it alone, a demand refines the first session that serves it,
   * and every other session is untouched, up to the names given out and the
   * evictions that make room for them.
   */
  lemma RecordedSessions(s: ShadowState, e: Event)
    requires s.book.max >= 1
    ensures SessionsAfter(s.book.mirror, RecordedState(s, e).book.mirror, MintedBy(s, e), Heeded(s, e), e, |s.book.history|)
  {
    hide BookOk, Heard, Grew, DerivedState, ReconciledState, DemandMints, Ownerless, SessionAfter, Heeded;
    var d := DerivedState(s, e);
    SameBound(s.book, d.book, e);
    DerivedSessions(s, e);
    CountersAfter(s, e);
    ReconciledSessions(d);
  }

  lemma TerminalChangesExactly(s: ShadowState, e: Event, k: SessionRef)
    requires s.book.max >= 1 && k in s.book.mirror && Terminal(s.book.mirror[k].phase) && k in RecordedState(s, e).book.mirror
    ensures RecordedState(s, e).book.mirror[k] != s.book.mirror[k] <==> k in MintedBy(s, e)
  {
    hide BookOk, Heard, RecordedState, MintedBy;
    RecordedKeeps(s, e);
  }

  // ----- whole runs -----------------------------------------------------------------------------------------

  datatype Call =
    | Recorded(event: Event)
    | Started(production: SessionRef)
    | ExpiryArmed(operation: OperationRef)
    | Compared(session: SessionRef, refPhase: Option<SyncPhase>, refOutcome: Option<Outcome>, refHash: Option<Hash>, depth: nat)
    | Drain

  ghost function CallState(s: ShadowState, c: Call): (r: ShadowState)
    requires s.book.max >= 1
    ensures r.book.max == s.book.max
  {
    hide BookOk, RecordedState;
    match c
    case Recorded(e) => RecordedState(s, e)
    case Started(production) => s.(book := AdoptedBook(s.book, production))
    case ExpiryArmed(operation) => s.(book := Armed(s.book, operation))
    case _ => s
  }

  /** The names a call gives to a session: those it mints, or the one it adopts. */
  ghost function Given(s: ShadowState, c: Call): set<SessionRef>
    requires s.book.max >= 1
  {
    match c
    case Recorded(e) => MintedBy(s, e)
    case Started(production) => if Nameless(s.book.mirror, production) then {} else {production}
    case _ => {}
  }

  lemma CallKeeps(s: ShadowState, c: Call)
    requires s.book.max >= 1
    ensures TerminalsKept(s.book.mirror, CallState(s, c).book.mirror, Given(s, c))
  {
    hide BookOk, TerminalsKept, RecordedState, MintedBy, AdoptedBook, Armed, Nameless;
    KeptSame(s.book.mirror);
    match c
    case Recorded(e) => RecordedKeeps(s, e);
    case Started(production) => AdoptedKeeps(s.book, production);
    case ExpiryArmed(operation) => ArmedKeeps(s.book, operation);
    case _ =>
  }

  /** The state after the first `n` calls. */
  ghost function StateAt(s: ShadowState, calls: seq<Call>, n: nat): (r: ShadowState)
    requires s.book.max >= 1 && n <= |calls|
    ensures r.book.max == s.book.max
  {
    if n == 0 then s else CallState(StateAt(s, calls, n - 1), calls[n - 1])
  }

  ghost function MirrorAt(s: ShadowState, calls: seq<Call>, n: nat): Mirror
    requires s.book.max >= 1 && n <= |calls|
  {
    StateAt(s, calls, n).book.mirror
  }

  /** Call `n` gives out the name `k`, and the name is still tracked when it returns. */
  ghost predicate GivenOut(s: ShadowState, calls: seq<Call>, n: nat, k: SessionRef)
    requires s.book.max >= 1 && n < |calls|
  {
    k in Given(StateAt(s, calls, n), calls[n]) && k in MirrorAt(s, calls, n + 1)
  }

  /** Whenever the name is tracked from call `i` on, its session is the one tracked there. */
  ghost predicate UnchangedFrom(s: ShadowState, calls: seq<Call>, i: nat, k: SessionRef)
    requires s.book.max >= 1 && i <= |calls| && k in MirrorAt(s, calls, i)
  {
    forall n :: i <= n <= |calls| && k in MirrorAt(s, calls, n) ==> MirrorAt(s, calls, n)[k] == MirrorAt(s, calls, i)[k]
  }

  ghost predicate NeverGivenFrom(s: ShadowState, calls: seq<Call>, i: nat, k: SessionRef)
    requires s.book.max >= 1 && i <= |calls|
  {
    forall n :: i <= n < |calls| ==> !GivenOut(s, calls, n, k)
  }

  lemma StepKeeps(s: ShadowState, calls: seq<Call>, n: nat)
    requires s.book.max >= 1 && n < |calls|
    ensures TerminalsKept(MirrorAt(s, calls, n), MirrorAt(s, calls, n + 1), Given(StateAt(s, calls, n), calls[n]))
  {
    hide BookOk, TerminalsKept, CallState, Given;
    CallKeeps(StateAt(s, calls, n), calls[n]);
  }

  lemma {:induction false} UntakenStays(s: ShadowState, calls: seq<Call>, i: nat, n: nat, k: SessionRef)
    requires s.book.max >= 1 && i <= n <= |calls|
    requires k in MirrorAt(s, calls, i) && Terminal(MirrorAt(s, calls, i)[k].phase) && NeverGivenFrom(s, calls, i, k)
    ensures k in MirrorAt(s, calls, n) ==> MirrorAt(s, calls, n)[k] == MirrorAt(s, calls, i)[k]
    decreases n
  {
    hide BookOk, StateAt, Given, MirrorAt;
    if i < n {
      UntakenStays(s, calls, i, n - 1, k);
      StepKeeps(s, calls, n - 1);
      assert !GivenOut(s, calls, n - 1, k);
    }
  }

  /**
   * A terminal session stays what it is for the rest of the run, through
   * evictions and later adoptions, exactly if no later call gives its name out.
   */
  lemma TerminalForeverExactly(s: ShadowState, calls: seq<Call>, i: nat, k: SessionRef)
    requires s.book.max >= 1 && i <= |calls| && k in MirrorAt(s, calls, i) && Terminal(MirrorAt(s, calls, i)[k].phase)
    ensures UnchangedFrom(s, calls, i, k) <==> NeverGivenFrom(s, calls, i, k)
  {
    hide BookOk, StateAt, Given, MirrorAt;
    if NeverGivenFrom(s, calls, i, k) {
      forall n | i <= n <= |calls| && k in MirrorAt(s, calls, n)
        ensures MirrorAt(s, calls, n)[k] == MirrorAt(s, calls, i)[k]
      {
        UntakenStays(s, calls, i, n, k);
      }
    }
    if UnchangedFrom(s, calls, i, k) {
      forall n | i <= n < |calls| ensures !GivenOut(s, calls, n, k) {
        StepKeeps(s, calls, n);
      }
    }
  }

  // ----- the same in ids ------------------------------------------------------------------------------------------

  lemma CallDraws(s: ShadowState, c: Call)
    requires s.book.max >= 1
    ensures var r := CallState(s, c).book;
            && s.book.minted <= r.minted && |r.minted| <= |s.book.minted| + 2 && r.runEpoch == s.book.runEpoch
            && forall k :: k in Given(s, c) ==> c == Started(k) || k in r.minted[|s.book.minted|..]
  {
    hide BookOk, RecordedState, MintedBy, AdoptedBook, Nameless, Steps;
    if c.Recorded? {
      MintsAreDrawn(s, c.event);
    }
  }

  lemma {:induction false} DrawsGrow(s: ShadowState, calls: seq<Call>, i: nat, n: nat)
    requires s.book.max >= 1 && i <= n <= |calls|
    ensures var a, b := StateAt(s, calls, i).book, StateAt(s, calls, n).book;
            |a.minted| <= |b.minted| <= |a.minted| + 2 * (n - i) && a.runEpoch == b.runEpoch
    decreases n
  {
    hide BookOk, CallState, Given;
    if i < n {
      DrawsGrow(s, calls, i, n - 1);
      CallDraws(StateAt(s, calls, n - 1), calls[n - 1]);
    }
  }

  /** Before the counter wraps, ids are drawn in ascending order from 1. */
  lemma DrawnAt(b: Book, k: SessionRef, j: nat)
    requires j < |b.minted| <= FRESH_IDS && b.minted[j] == k
    ensures k.runEpoch == b.runEpoch && k.sessionId == j + 1
  {
    assert MintedOk(b.minted, b.runEpoch, b.nextId);
    hide MirrorOk;
  }

  /** No later call can draw the name: it is of another run, or its id was drawn already, or is zero. */
  ghost predicate Behind(b: Book, k: SessionRef) {
    k.runEpoch != b.runEpoch || k.sessionId <= |b.minted| || k in b.minted
  }

  lemma BehindIsNotDrawn(s: ShadowState, calls: seq<Call>, i: nat, n: nat, k: SessionRef)
    requires s.book.max >= 1 && i <= n < |calls| && |StateAt(s, calls, |calls|).book.minted| <= FRESH_IDS
    requires Behind(StateAt(s, calls, i).book, k) && calls[n] != Started(k)
    ensures !GivenOut(s, calls, n, k)
  {
    hide BookOk, CallState, Given, MirrorAt;
    var at, before, after := StateAt(s, calls, i).book, StateAt(s, calls, n).book, StateAt(s, calls, n + 1).book;
    DrawsGrow(s, calls, i, n);
    DrawsGrow(s, calls, i, n + 1);
    DrawsGrow(s, calls, n + 1, |calls|);
    CallDraws(StateAt(s, calls, n), calls[n]);
    if k in after.minted[|before.minted|..] {
      var j :| 0 <= j < |after.minted| - |before.minted| && after.minted[|before.minted|..][j] == k;
      DrawnAt(after, k, |before.minted| + j);
      if k in at.minted {
        var h :| 0 <= h < |at.minted| && at.minted[h] == k;
        DrawnAt(at, k, h);
      }
    }
  }

  /**
   * A terminal session never changes again if, before the counter wraps, its
   * name is behind the counter and no later call adopts it: whatever the
   * states in between, it is enough to know the calls.
   */
  lemma DrawnNamesStayFinal(s: ShadowState, calls: seq<Call>, i: nat, k: SessionRef)
    requires s.book.max >= 1 && i <= |calls| && k in MirrorAt(s, calls, i) && Terminal(MirrorAt(s, calls, i)[k].phase)
    requires |StateAt(s, calls, |calls|).book.minted| <= FRESH_IDS
    requires Behind(StateAt(s, calls, i).book, k) && forall n :: i <= n < |calls| ==> calls[n] != Started(k)
    ensures UnchangedFrom(s, calls, i, k)
  {
    hide BookOk, StateAt, MirrorAt, GivenOut, Behind;
    TerminalForeverExactly(s, calls, i, k);
    forall n | i <= n < |calls| ensures !GivenOut(s, calls, n, k) {
      BehindIsNotDrawn(s, calls, i, n, k);
    }
  }

  /** Every adopted name is of another run or has an id the counter has passed already. */
  ghost predicate NeverAhead(s: ShadowState, calls: seq<Call>)
    requires s.book.max >= 1
  {
    forall n :: 0 <= n < |calls| && calls[n].Started? ==> Behind(StateAt(s, calls, n).book, calls[n].production)
  }

  lemma BehindStays(a: Book, b: Book, k: SessionRef)
    requires Behind(a, k) && a.minted <= b.minted && a.runEpoch == b.runEpoch
    ensures Behind(b, k)
  {
    hide BookOk;
  }

  /** Then the counter is past every tracked name. */
  lemma {:induction false} TrackedAreBehind(s: ShadowState, calls: seq<Call>, n: nat, k: SessionRef)
    requires s.book.max >= 1 && n <= |calls| && s.book.mirror == map[] && NeverAhead(s, calls) && k in MirrorAt(s, calls, n)
    ensures Behind(StateAt(s, calls, n).book, k)
  {
    hide BookOk, CallState, Given;
    if n > 0 {
      var before, after := StateAt(s, calls, n - 1).book, StateAt(s, calls, n).book;
      StepKeeps(s, calls, n - 1);
      CallDraws(StateAt(s, calls, n - 1), calls[n - 1]);
      if k in MirrorAt(s, calls, n - 1) {
        TrackedAreBehind(s, calls, n - 1, k);
        BehindStays(before, after, k);
      } else if calls[n - 1] == Started(k) {
        BehindStays(before, after, k);
      } else {
        assert k in after.minted[|before.minted|..];
      }
    }
  }

  /**
   * In every run whose adopted ids never collide with later minted ones, no
   * terminal session ever changes, but by a later adoption of its own name.
   */
  ghost predicate TerminalsFinal(s: ShadowState, calls: seq<Call>)
    requires s.book.max >= 1
  {
    forall i, k ::
      0 <= i <= |calls| && k in MirrorAt(s, calls, i) && Terminal(MirrorAt(s, calls, i)[k].phase) && Started(k) !in calls[i..] ==>
        UnchangedFrom(s, calls, i, k)
  }

  lemma WithoutCollisionsTerminalsAreFinal(s: ShadowState, calls: seq<Call>)
    requires s.book.max >= 1 && s.book.mirror == map[] && NeverAhead(s, calls)
    requires |StateAt(s, calls, |calls|).book.minted| <= FRESH_IDS
    ensures TerminalsFinal(s, calls)
  {
    hide BookOk, StateAt, MirrorAt, UnchangedFrom, Behind, NeverAhead;
    forall i, k | 0 <= i <= |calls| && k in MirrorAt(s, calls, i) && Terminal(MirrorAt(s, calls, i)[k].phase)
                  && Started(k) !in calls[i..]
      ensures UnchangedFrom(s, calls, i, k)
    {
      TrackedAreBehind(s, calls, i, k);
      forall n | i <= n < |calls| ensures calls[n] != Started(k) {
        assert calls[n] == calls[i..][n - i];
      }
      DrawnNamesStayFinal(s, calls, i, k);
    }
  }

  ghost predicate TerminalsSettled(s: ShadowState, calls: seq<Call>)
    requires s.book.max >= 1
  {
    forall i, k :: 0 <= i <= |calls| && k in MirrorAt(s, calls, i) && Terminal(MirrorAt(s, calls, i)[k].phase) ==>
      (UnchangedFrom(s, calls, i, k) <==> NeverGivenFrom(s, calls, i, k))
  }

  lemma EveryTerminalSettles(s: ShadowState, calls: seq<Call>)
    requires s.book.max >= 1
    ensures TerminalsSettled(s, calls)
  {
    hide BookOk, MirrorAt, UnchangedFrom, NeverGivenFrom;
    forall i, k | 0 <= i <= |calls| && k in MirrorAt(s, calls, i) && Terminal(MirrorAt(s, calls, i)[k].phase)
      ensures UnchangedFrom(s, calls, i, k) <==> NeverGivenFrom(s, calls, i, k)
    {
      TerminalForeverExactly(s, calls, i, k);
    }
  }

  // ----- a run that changes a terminal session ------------------------------------------------------------------

  /** Acquire a ledger, adopt a production name whose id the counter has yet to reach, fail it, acquire again. */
  ghost function CollidingCalls(runEpoch: nat, target: Target, reason: Reason): seq<Call> {
    var p := SessionRef(runEpoch, 2, target.hash, 1, 1);
    [Recorded(Connectivity(true)), Recorded(AcquireRequested(target, reason)), Started(p),
     Recorded(WriteCompleted(p, WriteFailed)), Recorded(AcquireRequested(target, reason))]
  }

  /** Without a recovery target an event does to the book what it derives, and nothing else. */
  lemma NoRecovery(s: ShadowState, e: Event)
    requires s.book.max >= 1 && s.owner.None? && s.anchor.None? && !e.RecoveryTarget?
    ensures var r := RecordedState(s, e);
            && r.owner.None? && r.anchor.None? && r.usable == NextUsable(s.usable, e)
            && r.book == BookAfter(s.book, s.usable, None, e)
  {
    hide BookOk, Heard, Grew, BookAfter, Viable, NextPhase;
  }

  lemma FirstOfOne(o: Order, k: SessionRef)
    ensures FirstOf(o, {k}) == k
  {
  }

  lemma FirstMint(b: Book, target: Target, reason: Reason)
    requires b.max >= 1 && b.mirror == map[]
    ensures AcquiredBook(b, target, reason, false).mirror == map[Named(b, target.hash) := NewSession(Named(b, target.hash), target, reason)]
  {
    hide BookOk, Grew;
    assert ReusableOnes(b.mirror, target) == {};
  }

  lemma OnlyOneAdopted(b: Book, k: SessionRef, p: SessionRef, s: Session)
    requires b.mirror == map[k := s] && p != k && !Terminal(s.phase) && s.target.hash == p.targetHash
    ensures AdoptedBook(b, p).mirror == map[p := s.(names := s.names + {p})]
  {
    hide BookOk, Steps;
    assert LiveOnes(b.mirror, p.targetHash) == {k};
    FirstOfOne(ByRefReversed, k);
  }

  lemma MintedOver(b: Book, p: SessionRef, target: Target, reason: Reason)
    requires b.max >= 1 && p in b.mirror && b.mirror.Keys == {p} && Terminal(b.mirror[p].phase) && Named(b, target.hash) == p
    ensures MintsFor(b, target) == {p}
    ensures var m := AcquiredBook(b, target, reason, false).mirror; p in m && m[p] == NewSession(p, target, reason)
  {
    hide BookOk, Grew, RoomIn;
    assert ReusableOnes(b.mirror, target) == {};
  }

  lemma AcquiresOver(s: ShadowState, p: SessionRef, target: Target, reason: Reason)
    requires s.book.max >= 1 && s.owner.None? && s.anchor.None? && s.usable && Named(s.book, target.hash) == p
    requires p in s.book.mirror && s.book.mirror.Keys == {p} && Terminal(s.book.mirror[p].phase)
    ensures var c := Recorded(AcquireRequested(target, reason));
            && p in Given(s, c) && p in CallState(s, c).book.mirror
            && CallState(s, c).book.mirror[p] == NewSession(p, target, reason)
  {
    hide BookOk, Heard, Grew, AcquiredBook, RecordedState, OwnerMints;
    var e := AcquireRequested(target, reason);
    NoRecovery(s, e);
    MintedOver(Noted(s.book, e), p, target, reason);
    assert p in DemandMints(s, e);
  }

  lemma ReachesFailed(runEpoch: nat, max: nat, target: Target, reason: Reason)
    requires max >= 1
    ensures var s, p := StateAt(Fresh(runEpoch, max), CollidingCalls(runEpoch, target, reason), 4), SessionRef(runEpoch, 2, target.hash, 1, 1);
            && s.owner.None? && s.anchor.None? && s.usable && Named(s.book, target.hash) == p
            && p in s.book.mirror && s.book.mirror.Keys == {p} && s.book.mirror[p].phase == Failed(WriteFailure)
  {
    hide BookOk, Heard, Grew, Steps, AcquiredBook, AdoptedBook, RecordedState;
    var s, calls, p := Fresh(runEpoch, max), CollidingCalls(runEpoch, target, reason), SessionRef(runEpoch, 2, target.hash, 1, 1);
    var first := SessionRef(runEpoch, 1, target.hash, 1, 1);
    var s1 := CallState(s, calls[0]);
    NoRecovery(s, calls[0].event);
    var s2 := CallState(s1, calls[1]);
    NoRecovery(s1, calls[1].event);
    FirstMint(Noted(s1.book, calls[1].event), target, reason);
    CountersAcquired(Noted(s1.book, calls[1].event), target, reason, false);
    var s3 := CallState(s2, calls[2]);
    OnlyOneAdopted(s2.book, first, p, NewSession(first, target, reason));
    NoRecovery(s3, calls[3].event);
    assert StateAt(s, calls, 0) == s;
    assert StateAt(s, calls, 1) == s1;
    assert StateAt(s, calls, 2) == s2;
    assert StateAt(s, calls, 3) == s3;
  }

  /** The run reaches a failed session and, one call later, a new one under the same name. */
  lemma CollisionReplaces(runEpoch: nat, max: nat, target: Target, reason: Reason)
    requires max >= 1
    ensures var s, calls, p := Fresh(runEpoch, max), CollidingCalls(runEpoch, target, reason), SessionRef(runEpoch, 2, target.hash, 1, 1);
            && p in MirrorAt(s, calls, 4) && MirrorAt(s, calls, 4)[p].phase == Failed(WriteFailure)
            && p in MirrorAt(s, calls, 5) && MirrorAt(s, calls, 5)[p] == NewSession(p, target, reason)
            && GivenOut(s, calls, 4, p) && !UnchangedFrom(s, calls, 4, p)
  {
    hide BookOk, Heard, CallState, Given;
    var s, calls, p := Fresh(runEpoch, max), CollidingCalls(runEpoch, target, reason), SessionRef(runEpoch, 2, target.hash, 1, 1);
    ReachesFailed(runEpoch, max, target, reason);
    AcquiresOver(StateAt(s, calls, 4), p, target, reason);
    assert StateAt(s, calls, 5) == CallState(StateAt(s, calls, 4), calls[4]);
  }
}
