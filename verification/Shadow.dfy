/** The shadow coordinator: a read-only mirror driven by the event stream. */
module Shadow {
  import opened Identity
  import opened Phases
  import opened ShadowModel
  import opened ShadowBook
  import opened ShadowSpec

  predicate Demands(e: Event) { e.AcquireRequested? || e.ValidationTarget? || e.RecoveryTarget? || e.ConsensusTarget? }

  predicate Registers(e: Event) {
    e.LclInstalled? || e.StoreRotated? || e.FetchPackAvailable? || e.RegistrySweep? || e.ShutdownEvent?
  }

  /** One observation for each chosen session, in map order, with its own depth unless one is given. */
  ghost function Notes(m: Mirror, chosen: set<SessionRef>, phase: SyncPhase, outcome: Option<Outcome>,
                       reason: Option<Fact>, depth: Option<nat>): seq<Observation>
    requires AllLive(m, chosen)
    decreases |chosen|
  {
    if chosen == {} then [] else
      var k := FirstOf(ByRef, chosen);
      [Observation(Some(k), Match, Some(phase), outcome, None, None, reason, if depth.Some? then depth.value else m[k].queueDepth)]
      + Notes(m, chosen - {k}, phase, outcome, reason, depth)
  }

  /** Notes every chosen session in map order, with its own depth unless one is given. */
  method NoteEach(l: Log, m: Mirror, chosen: set<SessionRef>, phase: SyncPhase, outcome: Option<Outcome>,
                  reason: Option<Fact>, depth: Option<nat>)
    returns (out: Log)
    requires AllLive(m, chosen)
    ensures Extends(l, out) && out.all == l.all + Notes(m, chosen, phase, outcome, reason, depth)
  {
    hide LogOk, Notes, IsFirst;
    out := l;
    var rest := chosen;
    while rest != {}
      invariant rest <= chosen && AllLive(m, rest) && Extends(l, out)
      invariant out.all + Notes(m, rest, phase, outcome, reason, depth) == l.all + Notes(m, chosen, phase, outcome, reason, depth)
      decreases |rest|
    {
      var session := First(ByRef, rest);
      NextNote(out.all, m, rest, phase, outcome, reason, depth);
      rest := rest - {session};
      var shown := if depth.Some? then depth.value else m[session].queueDepth;
      out := Pushed(out, Observation(Some(session), Match, Some(phase), outcome, None, None, reason, shown));
    }
    NoNotes(out.all, m, phase, outcome, reason, depth);
  }

  lemma NextNote(all: seq<Observation>, m: Mirror, rest: set<SessionRef>, phase: SyncPhase, outcome: Option<Outcome>,
                 reason: Option<Fact>, depth: Option<nat>)
    requires AllLive(m, rest) && rest != {}
    ensures var k := FirstOf(ByRef, rest);
            && k in rest && k in m && AllLive(m, rest - {k})
            && all + Notes(m, rest, phase, outcome, reason, depth) ==
               (all + [Observation(Some(k), Match, Some(phase), outcome, None, None, reason, if depth.Some? then depth.value else m[k].queueDepth)])
               + Notes(m, rest - {k}, phase, outcome, reason, depth)
  {
  }

  lemma NoNotes(all: seq<Observation>, m: Mirror, phase: SyncPhase, outcome: Option<Outcome>, reason: Option<Fact>, depth: Option<nat>)
    ensures AllLive(m, {}) && all + Notes(m, {}, phase, outcome, reason, depth) == all
  {
  }

  /** Cancels every chosen session and notes each in map order. */
  method CancelEach(b: Book, l: Log, chosen: set<SessionRef>, cause: CancelReason, phase: SyncPhase,
                    reason: Option<Fact>, depth: Option<nat>)
    returns (r: Book, out: Log)
    requires AllLive(b.mirror, chosen)
    ensures r == CancelledBook(b, chosen, cause)
    ensures Extends(l, out)
    ensures out.all == l.all + Notes(b.mirror, chosen, phase, Some(CancelledWith(cause)), reason, depth)
  {
    hide BookOk, LogOk, Notes, CancelledBook, Grew, AllLive, Extends;
    r := CancelledBook(b, chosen, cause);
    out := NoteEach(l, b.mirror, chosen, phase, Some(CancelledWith(cause)), reason, depth);
  }

  method ClaimFor(b: Book, target: Target, reason: Reason, preferred: bool) returns (r: Book, session: SessionRef)
    requires b.max >= 1
    ensures r == AcquiredBook(b, target, reason, preferred) && session == ClaimedName(b, target)
  {
    hide BookOk, Grew, ClaimedBook, ClaimedName, Woken, Live;
    r, session := Claim(b, target, reason);
    if preferred {
      r := Woken(r, session);
    }
  }

  /** How a production decision compares with a mirrored session: target first, then outcome, then phase. */
  function Verdict(outcome: Option<Outcome>, hash: Hash, phase: SyncPhase,
                   refPhase: Option<SyncPhase>, refOutcome: Option<Outcome>, refHash: Option<Hash>): Kind {
    if refHash.Some? && refHash.value != hash then TargetMismatch
    else if outcome != refOutcome then OutcomeMismatch
    else if refPhase.Some? && refPhase.value != phase then PhaseMismatch
    else Match
  }

  lemma CleanVerdict(outcome: Option<Outcome>, hash: Hash, phase: SyncPhase,
                     refPhase: Option<SyncPhase>, refOutcome: Option<Outcome>, refHash: Option<Hash>)
    ensures Verdict(outcome, hash, phase, refPhase, refOutcome, refHash) == Match <==>
            (refHash.None? || refHash == Some(hash)) && refOutcome == outcome && (refPhase.None? || refPhase == Some(phase))
    ensures Verdict(outcome, hash, phase, refPhase, refOutcome, refHash) != PresenceMismatch
  {
  }

  class ShadowRunner {
    const enabled: bool

    var phase: SyncPhase
    var usable: bool
    var latest: Option<Target>
    var recoveryTarget: Option<Target>
    var owner: Option<SessionRef>
    var candidate: Option<Target>
    var book: Book
    var queueDepth: nat
    var log: Log

    /** Everything but the log and the queue depth shown in it. */
    ghost function Core(): ShadowState
      reads this
    {
      ShadowState(phase, usable, latest, recoveryTarget, owner, candidate, book)
    }

    /** A latched owner belongs to the recovery target by name, even if adoption renamed its session. */
    ghost predicate OwnerNamed()
      reads this
    {
      owner.Some? ==> recoveryTarget.Some? && owner.value.targetHash == recoveryTarget.value.hash
    }

    ghost predicate Valid()
      reads this
    {
      (enabled ==> book.max >= 1) && OwnerNamed()
    }

    /** A latched owner is tracked, not terminal, and acquires the recovery target. */
    ghost predicate Latched()
      reads this
    {
      owner.Some? ==> recoveryTarget.Some? && Live(book.mirror, owner.value, recoveryTarget.value.hash)
    }

    /** The anchor can no longer be improved by the latest target. */
    ghost predicate AnchorSettled()
      reads this
    {
      phase.Syncing? ==>
        || Viable(book.mirror, phase.target.hash)
        || latest.None? || latest.value.hash == phase.target.hash || !Viable(book.mirror, latest.value.hash)
    }

    constructor (enabled: bool, maxMirror: nat, maxBuffered: nat, runEpoch: nat)
      requires enabled ==> maxMirror >= 1
      ensures Valid() && Latched() && phase == Disconnected && book.mirror == map[] && book.history == [] && book.minted == []
      ensures this.enabled == enabled && book.max == maxMirror && book.runEpoch == runEpoch && log.all == [] && log.max == maxBuffered
      ensures Core() == Fresh(runEpoch, maxMirror)
    {
      this.enabled := enabled;
      phase, usable := Disconnected, false;
      latest, recoveryTarget, owner, candidate := None, None, None, None;
      book, queueDepth, log := NewBook(runEpoch, maxMirror), 0, EmptyLog(maxBuffered);
    }

    // ----- small steps --------------------------------------------------------------------------

    method Push(session: Option<SessionRef>, kind: Kind, derived: Option<SyncPhase>, outcome: Option<Outcome>,
                reason: Option<Fact>, depth: nat)
      modifies this`log
      ensures Extends(old(log), log)
      ensures log.all == old(log.all) + [Observation(session, kind, derived, outcome, None, None, reason, depth)]
    {
      log := Pushed(log, Observation(session, kind, derived, outcome, None, None, reason, depth));
    }

    method ApplyFact(fact: Option<Fact>) returns (kind: Kind)
      modifies this`phase
      ensures phase == if fact.Some? then Applied(old(phase), fact.value) else old(phase)
      ensures kind == if fact.Some? && Transition(old(phase), fact.value).None? then DerivedRejected else Match
    {
      kind := Match;
      if fact.Some? {
        var next := Transition(phase, fact.value);
        if next.Some? {
          phase := next.value;
        } else {
          kind := DerivedRejected;
        }
      }
    }

    /** Apply a fact and note the result. */
    method Report(fact: Option<Fact>)
      modifies this`phase, this`log
      ensures phase == (if fact.Some? then Applied(old(phase), fact.value) else old(phase)) && Extends(old(log), log)
      ensures log.all == old(log.all) + [Observation(None,
                if fact.Some? && Transition(old(phase), fact.value).None? then DerivedRejected else Match,
                Some(phase), None, None, None, fact, queueDepth)]
    {
      var kind := ApplyFact(fact);
      Push(None, kind, Some(phase), None, fact, queueDepth);
    }

    method Note(kind: Kind)
      modifies this`log
      ensures Extends(old(log), log) && |log.all| == |old(log.all)| + 1
    {
      Push(None, kind, Some(phase), None, None, queueDepth);
    }

    // ----- demand ---------------------------------------------------------------------------------

    method NoteDemand(session: SessionRef, target: Target, neutral: bool)
      modifies this`phase, this`log
      ensures phase == (if neutral then old(phase) else Demanded(old(phase), true, target)) && Extends(old(log), log)
    {
      hide LogOk;
      var fact, kind := None, Match;
      if !neutral && !phase.Tracking? && !phase.Full? {
        fact := Some(TargetRequired(target));
        kind := ApplyFact(fact);
      }
      Push(Some(session), kind, Some(phase), None, fact, 0);
    }

    /** Reuses, refines or mints the session for a target; with usable peers one is live afterwards. */
    method DeriveAcquire(target: Target, reason: Reason, preferred: bool, neutral: bool)
      requires book.max >= 1
      modifies this`phase, this`book, this`log
      ensures Extends(old(log), log) && phase == if neutral then old(phase) else Demanded(old(phase), usable, target)
      ensures book == if usable then AcquiredBook(old(book), target, reason, preferred) else old(book)
    {
      hide LogOk, BookOk, AcquiredBook;
      if !usable {
        Push(None, DerivedRejected, Some(phase), None, Some(TargetRequired(target)), queueDepth);
        return;
      }
      var claimed, session := ClaimFor(book, target, reason, preferred);
      book := claimed;
      NoteDemand(session, target, neutral);
    }

    method DeriveRecovery(wanted: Option<Target>)
      requires book.max >= 1
      modifies this`phase, this`book, this`log, this`recoveryTarget, this`candidate
      ensures Extends(old(log), log) && phase == old(phase)
      ensures recoveryTarget == NextAnchor(old(recoveryTarget), RecoveryTarget(wanted))
      ensures candidate == NextCandidate(old(recoveryTarget), old(candidate), RecoveryTarget(wanted))
      ensures var d := DemandOf(old(recoveryTarget), RecoveryTarget(wanted));
              book == if d.Some? && usable then AcquiredBook(old(book), d.value.target, Consensus, false) else old(book)
    {
      hide LogOk, BookOk, Extends, AcquiredBook;
      if wanted.None? {
        candidate := None;
        Note(Match);
        return;
      }
      var target := wanted.value;
      if recoveryTarget.Some? && recoveryTarget.value.hash != target.hash {
        candidate := Some(target);
        Push(owner, Match, Some(phase), None, None, queueDepth);
        return;
      }
      if recoveryTarget.None? {
        recoveryTarget := Some(target);
      }
      candidate := None;
      DeriveAcquire(target, Consensus, false, true);
    }

    method DeriveDemand(e: Event)
      requires book.max >= 1 && Demands(e)
      modifies this`phase, this`book, this`log, this`latest, this`recoveryTarget, this`candidate
      ensures Extends(old(log), log)
      ensures phase == NextPhase(old(phase), usable, e) && latest == NextLatest(old(latest), e)
      ensures recoveryTarget == NextAnchor(old(recoveryTarget), e)
      ensures candidate == NextCandidate(old(recoveryTarget), old(candidate), e)
      ensures var d := DemandOf(old(recoveryTarget), e);
              book == if d.Some? && usable then AcquiredBook(old(book), d.value.target, d.value.reason, d.value.preferred) else old(book)
    {
      hide LogOk, BookOk, Extends, AcquiredBook, Applied;
      if e.AcquireRequested? {
        DeriveAcquire(e.target, e.reason, false, false);
      } else if e.ValidationTarget? {
        DeriveAcquire(e.target, Consensus, false, true);
      } else if e.RecoveryTarget? {
        DeriveRecovery(e.wanted);
      } else {
        latest := Some(e.target);
        DeriveAcquire(e.target, e.reason, true, false);
      }
    }

    // ----- the recovery owner -----------------------------------------------------------------------

    /** The live session with the lowest id for a hash. */
    method OwnerFor(hash: Hash) returns (found: Option<SessionRef>)
      ensures found == OwnerIn(book.mirror, hash)
    {
      hide BookOk;
      var live := set k | k in book.mirror && Live(book.mirror, k, hash);
      assert live == LiveOnes(book.mirror, hash);
      if live == {} {
        return None;
      }
      var k := First(ById, live);
      return Some(k);
    }

    /** Lets go of an owner that is gone or done; the waiting candidate becomes the target. */
    method ReleaseOwner()
      requires Valid()
      modifies this`recoveryTarget, this`owner, this`candidate
      ensures Valid() && Latched() && Core() == ReleasedState(old(Core()))
    {
      if owner.Some? {
        if owner.value in book.mirror {
          Holds(book, owner.value);
        }
        hide BookOk;
        if !(owner.value in book.mirror && !Terminal(book.mirror[owner.value].phase)) {
          owner, recoveryTarget, candidate := None, candidate, None;
        }
      }
    }

    /** Keeps, replaces or finds the owner of the recovery target; with usable peers there is one. */
    method ReconcileOwner()
      requires Valid() && enabled
      modifies this`phase, this`book, this`log, this`recoveryTarget, this`owner, this`candidate
      ensures Valid() && Latched() && Extends(old(log), log) && Core() == ReconciledState(old(Core()))
      ensures phase == old(phase)
      ensures usable && recoveryTarget.Some? ==> owner.Some?
      ensures old(owner).Some? && Live(old(book).mirror, old(owner).value, old(owner).value.targetHash) ==> Core() == old(Core())
      ensures owner.Some? && owner != old(owner) ==>
        forall k :: Live(book.mirror, k, recoveryTarget.value.hash) ==> owner.value.sessionId <= k.sessionId
    {
      hide Steps, NewNames, LogOk, BookOk, AcquiredBook, OwnerIn;
      ReleaseOwner();
      if owner.Some? || recoveryTarget.None? {
        return;
      }
      owner := OwnerFor(recoveryTarget.value.hash);
      OwnerFits(book, recoveryTarget.value.hash);
      if owner.None? && usable {
        DeriveAcquire(recoveryTarget.value, Consensus, false, true);
        owner := OwnerFor(recoveryTarget.value.hash);
        OwnerFits(book, recoveryTarget.value.hash);
      }
    }

    /** Moves a hopeless anchor to the latest target, if that one has a session worth waiting for. */
    method PromoteAnchor() returns (promoted: bool)
      modifies this`phase
      ensures AnchorSettled() && Core() == PromotedState(old(Core()))
      ensures promoted ==> old(phase).Syncing? && !Viable(book.mirror, old(phase).target.hash)
                           && latest.Some? && phase == Syncing(latest.value) && Viable(book.mirror, latest.value.hash)
      ensures !promoted ==> phase == old(phase)
    {
      promoted := false;
      if phase.Syncing? && !Viable(book.mirror, phase.target.hash) && latest.Some?
         && latest.value.hash != phase.target.hash && Viable(book.mirror, latest.value.hash) {
        phase := Syncing(latest.value);
        promoted := true;
      }
    }

    // ----- events that name no session ------------------------------------------------------------------

    method DeriveService(e: Event)
      requires !Demands(e) && !Registers(e) && !NamesSession(e)
      modifies this`phase, this`usable, this`latest, this`log
      ensures Extends(old(log), log) && |log.all| == |old(log.all)| + 1
      ensures phase == NextPhase(old(phase), usable, e) && latest == NextLatest(old(latest), e)
      ensures usable == if e.Connectivity? || e.TransportConnectivity? then e.usable else old(usable)
    {
      hide LogOk;
      if e.StartupMode? {
        phase := e.seed;
        Note(Match);
      } else if e.Connectivity? {
        var fact := if e.usable then (if phase == Disconnected then Some(PeerCapabilityAvailable) else None)
                    else (if phase != Disconnected then Some(PeerCapabilityLost) else None);
        usable := e.usable;
        Report(fact);
      } else if e.TransportConnectivity? {
        usable := e.usable;
        Report(None);
      } else if e.Reconciled? {
        latest := None;
        Report(Some(PreferredLclReconciled(e.lcl)));
      } else if e.PublicationCommitted? {
        DerivePublication(e.lcl, e.recent);
      } else if e.Heartbeat? {
        Note(Match);
      } else {
        Report(Some(
          if e.QuorumLost? then ConsensusQuorumLost
          else if e.QuorumAvailable? then ConsensusQuorumAvailable
          else if e.ViewChange? then ConsensusViewChange
          else if e.Divergence? then PreferredLclDivergence(e.target)
          else BlockedWithNoTarget));
      }
    }

    method DerivePublication(published: LedgerId, recent: bool)
      modifies this`phase, this`log
      ensures Extends(old(log), log) && |log.all| == |old(log.all)| + 1 && phase == Published(old(phase), published, recent)
    {
      hide LogOk;
      if phase.Tracking? && recent {
        Report(Some(ChainContiguous(phase.lcl, published)));
      } else if phase.Full? && published.sequence > phase.published.sequence {
        phase := Full(phase.lcl, published);
        Note(Match);
      } else {
        Note(DerivedRejected);
      }
    }

    method InstallPhase(lcl: LedgerId)
      modifies this`phase, this`latest, this`log
      ensures Extends(old(log), log) && phase == Installed(old(phase), lcl) && latest == NextLatest(old(latest), LclInstalled(lcl))
      ensures |log.all| == |old(log.all)| + 1
    {
      hide LogOk;
      if latest.Some? && latest.value.hash == lcl.hash {
        latest := None;
      }
      if (phase.Syncing? && phase.target.hash == lcl.hash) || phase.Connected? {
        Report(Some(TargetInstalledAsLcl(lcl)));
      } else if phase.Tracking? {
        phase := if lcl.sequence > phase.lcl.sequence then Tracking(lcl) else phase;
        Note(Match);
      } else if phase.Full? {
        phase := if lcl.sequence > phase.lcl.sequence then Full(lcl, phase.published) else phase;
        Note(Match);
      } else {
        Note(DerivedRejected);
      }
    }

    method DeriveInstall(lcl: LedgerId)
      modifies this`phase, this`latest, this`book, this`log
      ensures Extends(old(log), log)
      ensures phase == Installed(old(phase), lcl) && latest == NextLatest(old(latest), LclInstalled(lcl))
      ensures book == CancelledBook(old(book), Superseded(old(book).mirror, lcl.hash), OnInstall)
      ensures |log.all| > |old(log.all)| && log.all[|old(log.all)| + 1..] ==
        Notes(old(book).mirror, Superseded(old(book).mirror, lcl.hash), phase, Some(CancelledWith(OnInstall)), None, Some(queueDepth))
    {
      hide LogOk, Notes, BookOk, Grew, AllLive, CancelAll, Superseded;
      InstallPhase(lcl);
      book, log := CancelEach(book, log, Superseded(book.mirror, lcl.hash), OnInstall, phase, None, Some(queueDepth));
    }

    method DeriveRotation(generation: nat)
      modifies this`book, this`log
      ensures Extends(old(log), log)
      ensures book == CancelledBook(Rotated(old(book), generation), Outdated(old(book).mirror, generation), OnRotation)
      ensures Outdated(old(book).mirror, generation) != {} ==>
        log.all == old(log.all) + Notes(old(book).mirror, Outdated(old(book).mirror, generation), phase, Some(CancelledWith(OnRotation)), None, None)
    {
      var rotated := Rotated(book, generation);
      hide LogOk, BookOk, Notes, Grew, AllLive, CancelAll, Outdated;
      var chosen := Outdated(rotated.mirror, generation);
      book, log := CancelEach(rotated, log, chosen, OnRotation, phase, None, None);
      if chosen == {} {
        Note(Match);
      }
    }

    method DeriveShutdown()
      modifies this`phase, this`book, this`log
      ensures Extends(old(log), log)
      ensures phase == Applied(old(phase), ShutdownRequested) && book == CancelledBook(old(book), Unfinished(old(book).mirror), OnShutdown)
      ensures forall k :: k in book.mirror ==> Terminal(book.mirror[k].phase)
      ensures Unfinished(old(book).mirror) != {} ==>
        log.all == old(log.all) + Notes(old(book).mirror, Unfinished(old(book).mirror), phase, Some(CancelledWith(OnShutdown)), Some(ShutdownRequested), None)
    {
      hide LogOk, Notes, BookOk, Grew, AllLive, CancelAll, Unfinished, Terminal;
      var kind := ApplyFact(Some(ShutdownRequested));
      var chosen := Unfinished(book.mirror);
      AllEnded(book.mirror, OnShutdown);
      book, log := CancelEach(book, log, chosen, OnShutdown, phase, Some(ShutdownRequested), None);
      if chosen == {} {
        Push(None, kind, Some(phase), None, Some(ShutdownRequested), queueDepth);
      }
    }

    method DeriveSweep()
      modifies this`book, this`log
      ensures Extends(old(log), log)
      ensures book == CancelledBook(old(book), Sweepable(old(book).mirror), OnExpiry)
      ensures log.all == old(log.all) + Notes(old(book).mirror, Sweepable(old(book).mirror), phase, Some(CancelledWith(OnExpiry)), None, Some(queueDepth))
    {
      hide LogOk, BookOk, Notes, Grew, AllLive, CancelAll, Sweepable;
      book, log := CancelEach(book, log, Sweepable(book.mirror), OnExpiry, phase, None, Some(queueDepth));
    }

    /** Notes every active session, or once when there is none. */
    method DeriveFetchPack()
      modifies this`log
      ensures Extends(old(log), log)
    {
      hide LogOk, BookOk, AllLive, ActiveOnes;
      var active := ActiveOnes(book.mirror);
      if active == {} {
        Note(Match);
      } else {
        log := NoteEach(log, book.mirror, active, phase, None, None, None);
      }
    }

    method DeriveRegistry(e: Event)
      requires Registers(e)
      modifies this`phase, this`latest, this`book, this`log
      ensures Extends(old(log), log) && book == RegisteredBook(old(book), e)
      ensures phase == NextPhase(old(phase), usable, e) && latest == NextLatest(old(latest), e)
    {
      hide Notes, Superseded, Outdated, Sweepable, Unfinished, Grew, LogOk, BookOk, Extends, Applied, CancelledBook, AllLive, Rotated;
      if e.LclInstalled? {
        DeriveInstall(e.lcl);
      } else if e.StoreRotated? {
        DeriveRotation(e.generation);
      } else if e.FetchPackAvailable? {
        DeriveFetchPack();
      } else if e.RegistrySweep? {
        DeriveSweep();
      } else {
        DeriveShutdown();
      }
    }

    // ----- events that name a session ---------------------------------------------------------------------

    method DeriveSession(e: Event)
      requires NamesSession(e)
      modifies this`book, this`queueDepth, this`log
      ensures Extends(old(log), log)
      ensures book == if SessionOf(e) in old(book).mirror then Moved(old(book), e) else Noted(old(book), e)
      ensures |log.all| == |old(log.all)| + 1
      ensures var o, session := log.all[|old(log.all)|], SessionOf(e);
              && o.session == Some(session)
              && o.kind == (if session in old(book).mirror then OnEvent(old(book).mirror[session], e, |old(book).history|).kind else StaleEvent)
    {
      hide Heard, LogOk, BookOk;
      var session := SessionOf(e);
      if session !in book.mirror {
        Push(Some(session), StaleEvent, if e.HandoffRejected? then Some(phase) else None, None, None, queueDepth);
        book := Noted(book, e);
        return;
      }
      var d := OnEvent(book.mirror[session], e, |book.history|);
      book := Moved(book, e);
      if e.PacketAdmitted? && d.kind == Match {
        queueDepth := queueDepth + 1;
      }
      Push(Some(session), d.kind, if d.shown then Some(phase) else None, d.outcome, None, if d.own then d.next.queueDepth else queueDepth);
    }

    // ----- the public interface -----------------------------------------------------------------------------

    method Derive(e: Event)
      requires book.max >= 1 && OwnerNamed()
      modifies this`phase, this`usable, this`latest, this`recoveryTarget, this`candidate, this`book, this`queueDepth, this`log
      ensures OwnerNamed() && Extends(old(log), log) && Core() == DerivedState(old(Core()), e)
    {
      hide LogOk, BookOk, Extends, Applied, AcquiredBook, CancelledBook, AllLive, Rotated, Noted, Moved, OnEvent;
      if NamesSession(e) {
        SessionEventsAreLocal(phase, usable, latest, e);
        hide NextPhase, NextLatest;
        DeriveSession(e);
        return;
      }
      hide NextPhase, NextLatest;
      book := Noted(book, e);
      if Demands(e) {
        DeriveDemand(e);
      } else if Registers(e) {
        DeriveRegistry(e);
      } else {
        DeriveService(e);
      }
    }

    /** What every event ends with: the owner is reconciled, then a hopeless anchor promoted. */
    method Settle()
      requires Valid() && enabled
      modifies this`phase, this`book, this`log, this`recoveryTarget, this`owner, this`candidate
      ensures Valid() && Latched() && AnchorSettled() && Extends(old(log), log)
      ensures Core() == PromotedState(ReconciledState(old(Core())))
      ensures usable && recoveryTarget.Some? ==> owner.Some?
      ensures phase != old(phase) ==>
        && old(phase).Syncing? && !Viable(book.mirror, old(phase).target.hash)
        && latest.Some? && phase == Syncing(latest.value) && Viable(book.mirror, phase.target.hash)
    {
      hide Grew, BookOk, LogOk, Viable, Live, ReconciledState;
      ReconcileOwner();
      var promoted := PromoteAnchor();
      if promoted {
        Note(Match);
      }
    }

    /**
     * One event: the mirror, the latch, the anchor and the log after it. Every
     * run of the shadow is a sequence of such calls and the effects between them.
     */
    method Record(e: Event) returns (out: seq<Observation>)
      requires Valid()
      modifies this
      ensures Valid()
      ensures !enabled ==> out == [] && Core() == old(Core()) && log == old(log)
      ensures enabled ==> Core() == RecordedState(old(Core()), e)
      ensures enabled ==> TerminalsKept(old(book).mirror, book.mirror, MintedBy(old(Core()), e))
      ensures enabled ==>
        SessionsAfter(old(book).mirror, book.mirror, MintedBy(old(Core()), e), Heeded(old(Core()), e), e, |old(book).history|)
      ensures enabled ==> Heard(old(book), book, e) && Latched() && AnchorSettled()
      ensures enabled ==> latest == NextLatest(old(latest), e)
      ensures enabled && phase != NextPhase(old(phase), old(usable), e) ==>
        phase.Syncing? && latest == Some(phase.target) && Viable(book.mirror, phase.target.hash)
      ensures enabled && usable && recoveryTarget.Some? ==> owner.Some?
      ensures old(log.all) <= log.all && log.max == old(log.max) && log.drained == old(log.drained)
      ensures enabled ==> out == log.all[|old(log.all)|..]
      ensures enabled && !e.StartupMode? && old(phase).Syncing? && phase.Syncing? && phase.target.hash != old(phase).target.hash ==>
        !Viable(book.mirror, old(phase).target.hash) && latest == Some(phase.target) && Viable(book.mirror, phase.target.hash)
    {
      hide Grew, Heard, BookOk, LogOk, Viable, Live, ShadowRunner.Latched, ShadowRunner.AnchorSettled, TerminalsKept, MintedBy,
           SessionsAfter, Heeded;
      if !enabled {
        return [];
      }
      RecordedKeeps(Core(), e);
      RecordedSessions(Core(), e);
      log := NewBatch(log);
      SameBound(book, DerivedState(Core(), e).book, e);
      Derive(e);
      if !e.StartupMode? {
        EventsKeepTheAnchor(old(phase), old(usable), e);
      }
      hide NextPhase, NextLatest, BookAfter, ReconciledState;
      Settle();
      BatchIsNew(log);
      out := log.batch;
    }

    /** A production session started: its provisional mirror takes the exact name. */
    method ObserveStarted(production: SessionRef)
      requires Valid()
      modifies this`book
      ensures Valid() && (!enabled ==> book == old(book))
      ensures enabled ==> book == AdoptedBook(old(book), production)
    {
      hide BookOk, Steps;
      if enabled {
        book := Adopt(book, production);
      }
    }

    method ObserveExpiryArmed(operation: OperationRef)
      requires Valid()
      modifies this`book
      ensures Valid() && (!enabled ==> book == old(book))
      ensures enabled ==> book == Armed(old(book), operation)
    {
      hide BookOk;
      if enabled {
        book := Armed(book, operation);
      }
    }

    /** Compares a production decision with the mirror; nothing but the log changes. */
    method CompareReference(session: SessionRef, refPhase: Option<SyncPhase>, refOutcome: Option<Outcome>,
                            refHash: Option<Hash>, depth: nat) returns (out: seq<Observation>)
      modifies this`log
      ensures old(log.all) <= log.all && log.max == old(log.max) && log.drained == old(log.drained)
      ensures !enabled ==> out == [] && log == old(log)
      ensures enabled ==> |out| == 1 && log.all == old(log.all) + out && out[0].session == Some(session)
      ensures enabled && session in book.mirror ==>
        var s := book.mirror[session];
        && out[0].outcome == OutcomeOf(s.phase)
        && (out[0].kind == Match <==>
              && (refHash.None? || refHash == Some(s.target.hash))
              && refOutcome == OutcomeOf(s.phase) && (refPhase.None? || refPhase == Some(phase)))
      ensures enabled && session !in book.mirror ==> out[0].kind == PresenceMismatch
    {
      if !enabled {
        return [];
      }
      var kind, outcome := PresenceMismatch, None;
      hide BookOk, LogOk, OutcomeOf, Verdict, CompletedInOrder;
      if session in book.mirror {
        MirrorFacts(book, session);
        outcome := book.mirror[session].terminal;
        kind := Verdict(outcome, session.targetHash, phase, refPhase, refOutcome, refHash);
        CleanVerdict(outcome, session.targetHash, phase, refPhase, refOutcome, refHash);
      }
      out := PushAlone(Observation(Some(session), kind, Some(phase), outcome, refPhase, refOutcome, None, depth));
    }

    /** A call that makes one observation. */
    method PushAlone(o: Observation) returns (out: seq<Observation>)
      modifies this`log
      ensures out == [o] && log.all == old(log.all) + [o] && log.max == old(log.max) && log.drained == old(log.drained)
    {
      hide LogOk;
      var begun := NewBatch(log);
      log := Pushed(begun, o);
      BatchIsNew(log);
      out := log.batch;
    }

    method DrainObservations() returns (out: seq<Observation>)
      modifies this`log
      ensures log.all == old(log.all) && log.buffer == [] && log.max == old(log.max) && log.drained == |log.all|
      ensures out == Latest(old(log.all)[old(log.drained)..], log.max)
    {
      out := log.buffer;
      log := Drained(log);
    }
  }

  /** The owner of a hash is live, acquires it and has the lowest id; there is one if any session is. */
  lemma OwnerFits(b: Book, hash: Hash)
    ensures var found := OwnerIn(b.mirror, hash);
            && (found.Some? <==> LiveOnes(b.mirror, hash) != {}) && (found.Some? <==> exists k :: Live(b.mirror, k, hash))
            && (found.Some? ==> Live(b.mirror, found.value, hash) && found.value.targetHash == hash)
            && (found.Some? ==> forall k :: Live(b.mirror, k, hash) ==> found.value.sessionId <= k.sessionId)
  {
    assert forall k :: Live(b.mirror, k, hash) ==> k in LiveOnes(b.mirror, hash);
    if LiveOnes(b.mirror, hash) != {} {
      Holds(b, FirstOf(ById, LiveOnes(b.mirror, hash)));
    }
  }

  lemma BatchIsNew(l: Log)
    ensures l.base <= |l.all| && l.batch == l.all[l.base..]
  {
  }

  // ----- whole runs -----------------------------------------------------------------------------------------

  /** A completed session was written, then fenced, then acknowledged, under names it has had. */
  ghost predicate CompletedInOrder(s: Session, history: seq<Event>) {
    s.phase == Complete ==>
      exists w, f, a :: 0 <= w < f < a < |history|
        && Completes(history[w], 0, s.names) && Completes(history[f], 1, s.names) && Completes(history[a], 2, s.names)
  }

  lemma MirrorFacts(b: Book, k: SessionRef)
    requires k in b.mirror
    ensures b.mirror[k].terminal == OutcomeOf(b.mirror[k].phase) && k.targetHash == b.mirror[k].target.hash
    ensures CompletedInOrder(b.mirror[k], b.history)
  {
    Holds(b, k);
    var s := b.mirror[k];
    if s.phase == Complete {
      assert s.trail[0] < s.trail[1] < s.trail[2];
    }
  }

  lemma LogFacts(l: Log)
    ensures l.matches + l.disagreements + l.stale == |l.all|
    ensures l.matches == |Places(l.all, {Match})| && l.stale == |Places(l.all, {StaleEvent})| && l.disagreements == |Places(l.all, AT_ODDS)|
    ensures l.buffer == Latest(l.all[l.drained..], l.max)
  {
    CountsSum(l.all);
    CountIsPlaces(l.all, Agreed);
    CountIsPlaces(l.all, Disagreed);
    CountIsPlaces(l.all, Stale);
  }

  /** Every observation the calls returned, and those returned since the last drain. */
  ghost function Observed(calls: seq<Call>, outs: seq<seq<Observation>>): seq<Observation>
    requires |outs| == |calls|
  {
    if calls == [] then []
    else
      var n := |calls| - 1;
      Observed(calls[..n], outs[..n]) + (if calls[n].Drain? then [] else outs[n])
  }

  ghost function SinceDrain(calls: seq<Call>, outs: seq<seq<Observation>>): seq<Observation>
    requires |outs| == |calls|
  {
    if calls == [] then []
    else
      var n := |calls| - 1;
      if calls[n].Drain? then [] else SinceDrain(calls[..n], outs[..n]) + outs[n]
  }

  /** A drain returns the latest of what was observed since the drain before it. */
  ghost predicate DrainsLatest(calls: seq<Call>, outs: seq<seq<Observation>>, max: nat) {
    && |outs| == |calls|
    && forall n :: 0 <= n < |calls| && calls[n].Drain? ==> outs[n] == Latest(SinceDrain(calls[..n], outs[..n]), max)
  }

  /** The log holds exactly what the calls returned. */
  ghost predicate LogTells(l: LogState, calls: seq<Call>, outs: seq<seq<Observation>>) {
    && |outs| == |calls| && l.drained <= |l.all|
    && l.all == Observed(calls, outs) && l.all[l.drained..] == SinceDrain(calls, outs)
    && DrainsLatest(calls, outs, l.max)
  }

  /** What one call does to the log. */
  ghost predicate Logs(l: LogState, l': LogState, c: Call, out: seq<Observation>) {
    && l'.max == l.max
    && if c.Drain? then l'.all == l.all && l'.drained == |l.all| && l.drained <= |l.all| && out == Latest(l.all[l.drained..], l.max)
       else l'.all == l.all + out && l'.drained == l.drained
  }

  lemma OneMoreOut(l: LogState, l': LogState, calls: seq<Call>, outs: seq<seq<Observation>>, c: Call, out: seq<Observation>)
    requires LogTells(l, calls, outs) && Logs(l, l', c, out)
    ensures LogTells(l', calls + [c], outs + [out])
  {
    var n, more, all := |calls|, calls + [c], outs + [out];
    assert more[..n] == calls && all[..n] == outs && more[n] == c && all[n] == out;
    forall m | 0 <= m < |more| && more[m].Drain? ensures all[m] == Latest(SinceDrain(more[..m], all[..m]), l.max) {
      if m < n {
        assert more[..m] == calls[..m] && all[..m] == outs[..m];
      }
    }
    if c.Drain? {
      assert l'.all[l'.drained..] == [] && l'.all == l.all + [];
    } else {
      assert l'.all[l'.drained..] == l.all[l.drained..] + out;
    }
  }

  /**
   * Every sequence of calls on a fresh runner, `outs` being what each returned:
   * outcomes agree with phases, a Complete session was written, fenced and
   * acknowledged in that order and the mirror keeps its bound. The log is all
   * the calls returned, its buffer the latest of that since the last drain, and
   * so is what a drain returned. The state is the one the calls determine, and
   * on the way a terminal session stayed what it was exactly if no call gave
   * its name out again, as none does while adopted ids collide with no later one.
   */
  method Run(enabled: bool, maxMirror: nat, maxBuffered: nat, runEpoch: nat, calls: seq<Call>)
    returns (r: ShadowRunner, outs: seq<seq<Observation>>)
    requires enabled ==> maxMirror >= 1
    ensures |r.book.mirror| <= maxMirror
    ensures forall k :: k in r.book.mirror ==>
      && r.book.mirror[k].terminal == OutcomeOf(r.book.mirror[k].phase)
      && CompletedInOrder(r.book.mirror[k], r.book.history)
    ensures r.log.matches + r.log.disagreements + r.log.stale == |r.log.all|
    ensures r.log.matches == |Places(r.log.all, {Match})| && r.log.stale == |Places(r.log.all, {StaleEvent})|
    ensures r.log.disagreements == |Places(r.log.all, AT_ODDS)|
    ensures |outs| == |calls| && r.log.all == Observed(calls, outs) && DrainsLatest(calls, outs, maxBuffered)
    ensures r.log.buffer == Latest(SinceDrain(calls, outs), maxBuffered)
    ensures r.book.history == if enabled then Events(calls) else []
    ensures enabled ==> r.Core() == StateAt(Fresh(runEpoch, maxMirror), calls, |calls|)
    ensures enabled ==> TerminalsSettled(Fresh(runEpoch, maxMirror), calls)
    ensures enabled && NeverAhead(Fresh(runEpoch, maxMirror), calls) && |r.book.minted| <= FRESH_IDS ==>
      TerminalsFinal(Fresh(runEpoch, maxMirror), calls)
    ensures !enabled ==> r.Core() == Fresh(runEpoch, maxMirror)
  {
    r, outs := AllCalls(enabled, maxMirror, maxBuffered, runEpoch, calls);
    LogFacts(r.log);
    if enabled {
      EveryTerminalSettles(Fresh(runEpoch, maxMirror), calls);
      if NeverAhead(Fresh(runEpoch, maxMirror), calls) && |r.book.minted| <= FRESH_IDS {
        WithoutCollisionsTerminalsAreFinal(Fresh(runEpoch, maxMirror), calls);
      }
    }
    forall k | k in r.book.mirror
      ensures CompletedInOrder(r.book.mirror[k], r.book.history) && r.book.mirror[k].terminal == OutcomeOf(r.book.mirror[k].phase)
    {
      MirrorFacts(r.book, k);
    }
  }

  /** All calls, in order. */
  method AllCalls(enabled: bool, maxMirror: nat, maxBuffered: nat, runEpoch: nat, calls: seq<Call>)
    returns (r: ShadowRunner, outs: seq<seq<Observation>>)
    requires enabled ==> maxMirror >= 1
    ensures r.Valid() && r.log.max == maxBuffered && r.book.max == maxMirror && LogTells(r.log, calls, outs)
    ensures r.book.history == if enabled then Events(calls) else []
    ensures r.Core() == if enabled then StateAt(Fresh(runEpoch, maxMirror), calls, |calls|) else Fresh(runEpoch, maxMirror)
  {
    hide BookOk, LogOk, Live, Viable, CallState, LogTells, Logs;
    r := new ShadowRunner(enabled, maxMirror, maxBuffered, runEpoch);
    outs := [];
    NothingTold(r.log);
    for i := 0 to |calls|
      invariant r.Valid() && r.enabled == enabled && r.log.max == maxBuffered && r.book.max == maxMirror
      invariant r.book.history == if enabled then Events(calls[..i]) else []
      invariant r.Core() == if enabled then StateAt(Fresh(runEpoch, maxMirror), calls, i) else Fresh(runEpoch, maxMirror)
      invariant |outs| == i && LogTells(r.log, calls[..i], outs)
    {
      assert calls[..i + 1] == calls[..i] + [calls[i]];
      assert calls[..i + 1][..i] == calls[..i] && calls[..i + 1][i] == calls[i];
      ghost var before := r.log;
      var out := Step(r, calls[i]);
      OneMoreOut(before, r.log, calls[..i], outs, calls[i], out);
      outs := outs + [out];
    }
    assert calls[..|calls|] == calls;
  }

  lemma NothingTold(l: Log)
    requires l.all == []
    ensures LogTells(l, [], [])
  {
  }

  ghost function Events(calls: seq<Call>): seq<Event> {
    if calls == [] then []
    else
      var last := calls[|calls| - 1];
      Events(calls[..|calls| - 1]) + (if last.Recorded? then [last.event] else [])
  }

  method Step(r: ShadowRunner, c: Call) returns (out: seq<Observation>)
    requires r.Valid()
    modifies r
    ensures r.Valid() && r.log.max == old(r.log.max) && r.book.max == old(r.book.max)
    ensures r.book.history == if r.enabled && c.Recorded? then old(r.book).history + [c.event] else old(r.book).history
    ensures r.Core() == if r.enabled then CallState(old(r.Core()), c) else old(r.Core())
    ensures Logs(old(r.log), r.log, c, out)
  {
    hide BookOk, Live, Viable, Steps, NewNames, Latest, Count;
    out := [];
    LogDrains(r.log);
    match c
    case Recorded(event) => out := r.Record(event);
    case Started(production) => r.ObserveStarted(production);
    case ExpiryArmed(operation) => r.ObserveExpiryArmed(operation);
    case Compared(session, refPhase, refOutcome, refHash, depth) =>
      out := r.CompareReference(session, refPhase, refOutcome, refHash, depth);
    case Drain => out := r.DrainObservations();
  }

  lemma LogDrains(l: Log)
    ensures l.drained <= |l.all|
  {
  }
}
