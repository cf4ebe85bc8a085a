/** The mirror of sessions with the counter that names them and the events it has seen. */
module ShadowBook {
  import opened Arith
  import opened Identity
  import opened Phases
  import opened ShadowModel

  datatype BookState = BookState(
    runEpoch: nat,
    max: nat,
    generation: nat,
    nextId: nat,
    mirror: Mirror,
    /** Every name minted and every event recorded. */
    ghost minted: seq<SessionRef>,
    ghost history: seq<Event>)

  /** Names come from a 64-bit counter that starts at 1. */
  ghost predicate MintedOk(minted: seq<SessionRef>, runEpoch: nat, nextId: nat) {
    && nextId == NthId(|minted|)
    && forall i :: 0 <= i < |minted| ==> minted[i].runEpoch == runEpoch && minted[i].sessionId == NthId(i)
  }

  ghost predicate BookOk(b: BookState) {
    |b.mirror| <= b.max && MirrorOk(b.mirror, b.history) && MintedOk(b.minted, b.runEpoch, b.nextId)
  }

  type Book = b: BookState | BookOk(b) ghost witness BookState(0, 0, 0, 1, map[], [], [])

  /** The names minted between two points of a run. */
  ghost function NewNames(before: seq<SessionRef>, after: seq<SessionRef>): set<SessionRef> {
    if before <= after then set k | k in after[|before|..] else {}
  }

  lemma NewNamesAppend(a: seq<SessionRef>, b: seq<SessionRef>, c: seq<SessionRef>)
    requires a <= b <= c
    ensures NewNames(a, c) == NewNames(a, b) + NewNames(b, c)
  {
    assert c[|a|..] == b[|a|..] + c[|b|..];
  }

  lemma NoNewNames(a: seq<SessionRef>)
    ensures NewNames(a, a) == {}
  {
  }

  lemma OneNewName(a: seq<SessionRef>, k: SessionRef)
    ensures NewNames(a, a + [k]) == {k}
  {
    assert (a + [k])[|a|..] == [k];
  }

  /** A book over time, while its history stands still. */
  ghost predicate Grew(a: Book, b: Book) {
    && a.runEpoch == b.runEpoch && a.max == b.max && a.history == b.history
    && a.minted <= b.minted && Steps(a.mirror, b.mirror, NewNames(a.minted, b.minted))
  }

  lemma GrewTrans(a: Book, b: Book, c: Book)
    requires Grew(a, b) && Grew(b, c)
    ensures Grew(a, c)
  {
    NewNamesAppend(a.minted, b.minted, c.minted);
    hide BookOk, NewNames, Steps;
    StepsTrans(a.mirror, b.mirror, c.mirror, NewNames(a.minted, b.minted), NewNames(b.minted, c.minted));
  }

  lemma GrewRefl(a: Book)
    ensures Grew(a, a)
  {
    NoNewNames(a.minted);
    StepsRefl(a.mirror);
  }

  /** A new mirror for the same names. */
  lemma Remirrored(b: Book, m: Mirror)
    requires MirrorOk(m, b.history) && |m| <= b.max && Steps(b.mirror, m, {})
    ensures BookOk(b.(mirror := m)) && Grew(b, b.(mirror := m))
  {
    NoNewNames(b.minted);
    hide MirrorOk, Steps, MintedOk, NewNames;
  }

  lemma Holds(b: Book, k: SessionRef)
    requires k in b.mirror
    ensures SessionOk(k, b.mirror[k], b.history)
  {
  }

  /** Changing one session in place. */
  function Replaced(b: Book, k: SessionRef, s: Session): (r: Book)
    requires k in b.mirror && SessionOk(k, s, b.history) && Evolves(b.mirror[k], s)
    ensures Grew(b, r)
  {
    hide MirrorOk, Steps, SessionOk, Evolves, MintedOk;
    Changed(b.mirror, b.history, k, s);
    Remirrored(b, b.mirror[k := s]);
    b.(mirror := b.mirror[k := s])
  }

  function NewBook(runEpoch: nat, max: nat): (b: Book)
    ensures b.mirror == map[] && b.runEpoch == runEpoch && b.max == max && b.minted == [] && b.history == []
  {
    BookState(runEpoch, max, 1, 1, map[], [], [])
  }

  // ----- minting ----------------------------------------------------------------------------------

  /** The name the counter gives out next. */
  function Named(b: BookState, hash: Hash): SessionRef { SessionRef(b.runEpoch, b.nextId, hash, 1, b.generation) }

  function IdAfter(id: nat): nat {
    var wrapped := (id + 1) % U64;
    if wrapped < 1 then 1 else wrapped
  }

  /** A new session under the next name, after the oldest one has made room for it. */
  ghost function StartedState(b: Book, target: Target, reason: Reason): BookState
    requires b.max >= 1
  {
    var name := Named(b, target.hash);
    b.(nextId := IdAfter(b.nextId), minted := b.minted + [name],
       mirror := RoomIn(b.mirror, b.max)[name := NewSession(name, target, reason)])
  }

  lemma NextNameOk(b: Book, hash: Hash)
    ensures MintedOk(b.minted + [Named(b, hash)], b.runEpoch, IdAfter(b.nextId))
  {
    NthIdStep(|b.minted|);
    hide MirrorOk;
  }

  lemma StartedOk(b: Book, target: Target, reason: Reason)
    requires b.max >= 1
    ensures BookOk(StartedState(b, target, reason)) && Grew(b, StartedState(b, target, reason))
  {
    var name := Named(b, target.hash);
    var room := RoomIn(b.mirror, b.max);
    hide MirrorOk, Steps, NthId, MintedOk, SessionOk, RoomIn, NewNames;
    NextNameOk(b, target.hash);
    RoomOk(b.mirror, b.max, b.history);
    NewSessionOk(name, target, reason, b.history);
    Added(room, b.history, name, NewSession(name, target, reason));
    OneNewName(b.minted, name);
    StepsTrans(b.mirror, room, room[name := NewSession(name, target, reason)], {}, {name});
  }

  ghost function StartedBook(b: Book, target: Target, reason: Reason): (r: Book)
    requires b.max >= 1
    ensures Grew(b, r)
  {
    StartedOk(b, target, reason);
    StartedState(b, target, reason)
  }

  lemma StepsWiden(a: Mirror, b: Mirror, x: set<SessionRef>)
    requires Steps(a, b, {})
    ensures Steps(a, b, x)
  {
  }

  // ----- demand ------------------------------------------------------------------------------------

  lemma RetargetOk(k: SessionRef, s: Session, target: Target, history: seq<Event>)
    requires SessionOk(k, s, history) && Reusable(s, target)
    ensures SessionOk(k, s.(target := target), history) && Evolves(s, s.(target := target))
  {
  }

  lemma NewSessionOk(k: SessionRef, target: Target, reason: Reason, history: seq<Event>)
    requires k.targetHash == target.hash
    ensures SessionOk(k, NewSession(k, target, reason), history)
  {
  }

  function Retargeted(b: Book, session: SessionRef, target: Target): (r: Book)
    requires session in b.mirror && Reusable(b.mirror[session], target)
    ensures Grew(b, r) && r == b.(mirror := b.mirror[session := b.mirror[session].(target := target)])
  {
    Holds(b, session);
    RetargetOk(session, b.mirror[session], target, b.history);
    hide BookOk, SessionOk, Evolves, Grew;
    Replaced(b, session, b.mirror[session].(target := target))
  }

  method Start(b: Book, target: Target, reason: Reason) returns (r: Book, session: SessionRef)
    requires b.max >= 1
    ensures r == StartedBook(b, target, reason) && session == Named(b, target.hash)
  {
    StartedOk(b, target, reason);
    hide MirrorOk, MintedOk, Grew;
    session := Named(b, target.hash);
    var room := MakeRoom(b.mirror, b.max);
    r := b.(nextId := IdAfter(b.nextId), minted := b.minted + [session], mirror := room[session := NewSession(session, target, reason)]);
  }

  /** The first live session that already serves the target, or else the next name. */
  ghost function ClaimedName(b: Book, target: Target): SessionRef {
    var serving := ReusableOnes(b.mirror, target);
    if serving != {} then FirstOf(ByRef, serving) else Named(b, target.hash)
  }

  /** That session refined to the target, or a new one. */
  ghost function ClaimedBook(b: Book, target: Target, reason: Reason): (r: Book)
    requires b.max >= 1
    ensures Grew(b, r) && Live(r.mirror, ClaimedName(b, target), target.hash)
  {
    hide BookOk, Grew, RoomIn;
    if ReusableOnes(b.mirror, target) != {} then Retargeted(b, ClaimedName(b, target), target)
    else StartedBook(b, target, reason)
  }

  method Claim(b: Book, target: Target, reason: Reason) returns (r: Book, session: SessionRef)
    requires b.max >= 1
    ensures session == ClaimedName(b, target) && r == ClaimedBook(b, target, reason)
  {
    hide BookOk, Grew;
    var serving := set k | k in b.mirror && Reusable(b.mirror[k], target);
    assert serving == ReusableOnes(b.mirror, target);
    if serving != {} {
      session := First(ByRef, serving);
      r := Retargeted(b, session, target);
    } else {
      r, session := Start(b, target, reason);
    }
  }

  lemma WokenOk(k: SessionRef, s: Session, history: seq<Event>)
    requires SessionOk(k, s, history) && s.phase == Dormant
    ensures SessionOk(k, s.(phase := Active), history) && Evolves(s, s.(phase := Active))
  {
  }

  predicate Sleeping(b: Book, session: SessionRef) {
    session in b.mirror && b.mirror[session].reason == Consensus && b.mirror[session].phase == Dormant
  }

  /** A dormant consensus session wakes when its target becomes the preferred one. */
  function Woken(b: Book, session: SessionRef): (r: Book)
    ensures Grew(b, r)
    ensures r == if Sleeping(b, session) then b.(mirror := b.mirror[session := b.mirror[session].(phase := Active)]) else b
    ensures forall hash :: Live(b.mirror, session, hash) ==> Live(r.mirror, session, hash)
  {
    GrewRefl(b);
    hide Grew;
    if Sleeping(b, session) then
      Holds(b, session);
      WokenOk(session, b.mirror[session], b.history);
      hide BookOk, SessionOk, Evolves;
      Replaced(b, session, b.mirror[session].(phase := Active))
    else b
  }

  /** What a demand does to the book: claim a session and, for the preferred target, wake it. */
  ghost function AcquiredBook(b: Book, target: Target, reason: Reason, preferred: bool): (r: Book)
    requires b.max >= 1
    ensures Grew(b, r) && Live(r.mirror, ClaimedName(b, target), target.hash)
  {
    hide BookOk, Grew, ClaimedBook, ClaimedName, Live;
    var claimed := ClaimedBook(b, target, reason);
    if preferred then GrewTrans(b, claimed, Woken(claimed, ClaimedName(b, target))); Woken(claimed, ClaimedName(b, target))
    else claimed
  }

  /** The name a demand mints: none if a session already serves the target. */
  ghost function MintsFor(b: Book, target: Target): set<SessionRef> {
    if ReusableOnes(b.mirror, target) == {} then {Named(b, target.hash)} else {}
  }

  /** The mirror after a demand: the first serving session refined, or a new one in the room made for it. */
  lemma AcquiredMirror(b: Book, target: Target, reason: Reason, preferred: bool)
    requires b.max >= 1
    ensures var m, r := b.mirror, AcquiredBook(b, target, reason, preferred).mirror;
            if ReusableOnes(m, target) != {} then
              var k := FirstOf(ByRef, ReusableOnes(m, target));
              k in m && r == m[k := m[k].(target := target,
                                          phase := if preferred && m[k].reason == Consensus && m[k].phase == Dormant then Active else m[k].phase)]
            else
              var k := Named(b, target.hash); r == RoomIn(m, b.max)[k := NewSession(k, target, reason)]
  {
    hide BookOk, Grew, RoomIn, Live, IdAfter;
  }

  /** A minted session starts active, for the demanded target, with nothing queued or armed. */
  lemma MintedIsNew(b: Book, target: Target, reason: Reason, preferred: bool, k: SessionRef)
    requires b.max >= 1 && k in MintsFor(b, target)
    ensures var m := AcquiredBook(b, target, reason, preferred).mirror;
            && k in m && k == SessionRef(b.runEpoch, b.nextId, target.hash, 1, b.generation)
            && m[k] == Session(target, Active, reason, 0, None, false, None, true, {k}, [])
  {
    hide BookOk, Grew, RoomIn, Live, IdAfter;
  }

  /** An adoption renames the newest live session of its hash and keeps everything else about it. */
  lemma AdoptsNewest(b: Book, production: SessionRef)
    requires !Nameless(b.mirror, production)
    ensures exists last :: Live(b.mirror, last, production.targetHash)
              && AdoptedBook(b, production).mirror ==
                 (b.mirror - {last})[production := b.mirror[last].(names := b.mirror[last].names + {production})]
              && forall k :: Live(b.mirror, k, production.targetHash) ==>
                   k.runEpoch < last.runEpoch || (k.runEpoch == last.runEpoch && k.sessionId <= last.sessionId)
  {
    hide BookOk, Steps;
    var last := FirstOf(ByRefReversed, LiveOnes(b.mirror, production.targetHash));
    assert Live(b.mirror, last, production.targetHash);
    assert forall k :: Live(b.mirror, k, production.targetHash) ==> k in LiveOnes(b.mirror, production.targetHash);
  }

  lemma CountersAcquired(b: Book, target: Target, reason: Reason, preferred: bool)
    requires b.max >= 1
    ensures var r := AcquiredBook(b, target, reason, preferred);
            && r.runEpoch == b.runEpoch && r.generation == b.generation
            && r.nextId == (if MintsFor(b, target) == {} then b.nextId else IdAfter(b.nextId))
            && r.minted == b.minted + if MintsFor(b, target) == {} then [] else [Named(b, target.hash)]
  {
    hide BookOk, Grew, RoomIn, Live, IdAfter;
  }

  /** A demand changes a terminal session exactly if it mints its name, and ends none. */
  lemma AcquiredKeeps(b: Book, target: Target, reason: Reason, preferred: bool)
    requires b.max >= 1
    ensures TerminalsKept(b.mirror, AcquiredBook(b, target, reason, preferred).mirror, MintsFor(b, target))
    ensures NoneEnds(b.mirror, AcquiredBook(b, target, reason, preferred).mirror)
  {
    hide BookOk, Grew, ClaimedBook, ClaimedName, TerminalsKept, NoneEnds, Live, Woken;
    var claimed := ClaimedBook(b, target, reason);
    var woken := Woken(claimed, ClaimedName(b, target));
    ClaimedKeeps(b, target, reason);
    WokenKeeps(claimed, ClaimedName(b, target));
    KeptTwice(b.mirror, claimed.mirror, woken.mirror, MintsFor(b, target), {});
    assert MintsFor(b, target) + {} == MintsFor(b, target);
    NoneEndsTwice(b.mirror, claimed.mirror, woken.mirror);
  }

  lemma WokenKeeps(b: Book, session: SessionRef)
    ensures TerminalsKept(b.mirror, Woken(b, session).mirror, {}) && NoneEnds(b.mirror, Woken(b, session).mirror)
  {
    hide BookOk, Grew, TerminalsKept, NoneEnds;
    KeptSame(b.mirror);
    if Sleeping(b, session) {
      KeptChanged(b.mirror, session, b.mirror[session].(phase := Active));
    }
  }

  lemma ClaimedKeeps(b: Book, target: Target, reason: Reason)
    requires b.max >= 1
    ensures TerminalsKept(b.mirror, ClaimedBook(b, target, reason).mirror, MintsFor(b, target))
    ensures NoneEnds(b.mirror, ClaimedBook(b, target, reason).mirror)
  {
    hide BookOk, Grew, RoomIn, TerminalsKept, NoneEnds;
    var name := ClaimedName(b, target);
    if ReusableOnes(b.mirror, target) != {} {
      KeptChanged(b.mirror, name, b.mirror[name].(target := target));
    } else {
      KeptStarted(b.mirror, b.max, name, NewSession(name, target, reason));
    }
  }

  // ----- events -------------------------------------------------------------------------------------

  /** The book after an event has entered the history. */
  ghost predicate Heard(a: Book, b: Book, e: Event) {
    && a.runEpoch == b.runEpoch && a.max == b.max && b.history == a.history + [e]
    && a.minted <= b.minted && Steps(a.mirror, b.mirror, NewNames(a.minted, b.minted))
  }

  lemma HeardThenGrew(a: Book, b: Book, c: Book, e: Event)
    requires Heard(a, b, e) && Grew(b, c)
    ensures Heard(a, c, e)
  {
    NewNamesAppend(a.minted, b.minted, c.minted);
    hide BookOk, NewNames, Steps;
    StepsTrans(a.mirror, b.mirror, c.mirror, NewNames(a.minted, b.minted), NewNames(b.minted, c.minted));
  }

  function Noted(b: Book, e: Event): (r: Book)
    ensures Heard(b, r, e) && r == b.(history := b.history + [e])
  {
    HistoryGrows(b.mirror, b.history, e);
    NoNewNames(b.minted);
    StepsRefl(b.mirror);
    b.(history := b.history + [e])
  }

  lemma MovedOk(b: Book, e: Event)
    requires NamesSession(e) && SessionOf(e) in b.mirror
    ensures var r := b.(history := b.history + [e], mirror := b.mirror[SessionOf(e) := OnEvent(b.mirror[SessionOf(e)], e, |b.history|).next]);
            BookOk(r) && Heard(b, r, e)
  {
    MirrorStep(b.mirror, e, b.history);
    NoNewNames(b.minted);
    hide MirrorOk, Steps, MintedOk, OnEvent, NewNames;
  }

  /** An event that names a tracked session changes that session alone. */
  function Moved(b: Book, e: Event): (r: Book)
    requires NamesSession(e) && SessionOf(e) in b.mirror
    ensures Heard(b, r, e)
    ensures r == b.(history := b.history + [e], mirror := b.mirror[SessionOf(e) := OnEvent(b.mirror[SessionOf(e)], e, |b.history|).next])
  {
    MovedOk(b, e);
    hide BookOk, Heard;
    b.(history := b.history + [e], mirror := b.mirror[SessionOf(e) := OnEvent(b.mirror[SessionOf(e)], e, |b.history|).next])
  }

  ghost predicate AllLive(m: Mirror, chosen: set<SessionRef>) {
    forall k :: k in chosen ==> k in m && !Terminal(m[k].phase)
  }

  function Superseded(m: Mirror, hash: Hash): (r: set<SessionRef>)
    ensures AllLive(m, r)
  {
    set k | k in m && m[k].target.hash == hash && (m[k].phase == Active || m[k].phase == Dormant || m[k].phase == Persisting)
  }

  function Outdated(m: Mirror, generation: nat): (r: set<SessionRef>)
    ensures AllLive(m, r)
  {
    set k | k in m && !Terminal(m[k].phase) && k.storeGeneration < generation
  }

  function Unfinished(m: Mirror): (r: set<SessionRef>)
    ensures AllLive(m, r)
  {
    set k | k in m && !Terminal(m[k].phase)
  }

  function Sweepable(m: Mirror): (r: set<SessionRef>)
    ensures AllLive(m, r)
  {
    set k | k in m && m[k].sweepEligible && (m[k].phase == Active || m[k].phase == Dormant) && !m[k].scanning
  }

  function ActiveOnes(m: Mirror): (r: set<SessionRef>)
    ensures AllLive(m, r)
  {
    set k | k in m && m[k].phase == Active
  }

  lemma AllEnded(m: Mirror, cause: CancelReason)
    ensures forall k :: k in CancelAll(m, Unfinished(m), cause) ==> Terminal(CancelAll(m, Unfinished(m), cause)[k].phase)
  {
  }

  /** Cancelling a set of live sessions. */
  function CancelledBook(b: Book, chosen: set<SessionRef>, cause: CancelReason): (r: Book)
    requires AllLive(b.mirror, chosen)
    ensures Grew(b, r) && r == b.(mirror := CancelAll(b.mirror, chosen, cause))
  {
    CancelledOk(b.mirror, chosen, cause, b.history);
    Remirrored(b, CancelAll(b.mirror, chosen, cause));
    b.(mirror := CancelAll(b.mirror, chosen, cause))
  }

  function Rotated(b: Book, generation: nat): (r: Book)
    ensures Grew(b, r) && r.mirror == b.mirror && r.generation == generation
  {
    GrewRefl(b);
    b.(generation := generation)
  }

  // ----- effects ---------------------------------------------------------------------------------------

  /** No session can take a name that is tracked already or whose hash nobody acquires. */
  ghost predicate Nameless(m: Mirror, production: SessionRef) {
    production in m || LiveOnes(m, production.targetHash) == {}
  }

  /** One session under another name; it keeps its state and remembers both names. */
  function RenamedBook(b: Book, provisional: SessionRef, production: SessionRef): BookState
    requires provisional in b.mirror
  {
    var s := b.mirror[provisional];
    b.(mirror := (b.mirror - {provisional})[production := s.(names := s.names + {production})])
  }

  lemma RenamedBookOk(b: Book, provisional: SessionRef, production: SessionRef)
    requires Live(b.mirror, provisional, production.targetHash)
    ensures BookOk(RenamedBook(b, provisional, production))
    ensures Steps(b.mirror, RenamedBook(b, provisional, production).mirror, {production})
  {
    var s := b.mirror[provisional].(names := b.mirror[provisional].names + {production});
    Holds(b, provisional);
    RenamedOk(provisional, b.mirror[provisional], production, b.history);
    hide MirrorOk, Steps, SessionOk, MintedOk;
    Evicted(b.mirror, b.history, provisional);
    Added(b.mirror - {provisional}, b.history, production, s);
    StepsTrans(b.mirror, b.mirror - {provisional}, (b.mirror - {provisional})[production := s], {}, {production});
  }

  /** The last live session of its hash takes the production name; every other one is untouched. */
  ghost function AdoptedBook(b: Book, production: SessionRef): (r: Book)
    ensures Steps(b.mirror, r.mirror, {production})
    ensures r == b.(mirror := r.mirror)
  {
    StepsRefl(b.mirror);
    StepsWiden(b.mirror, b.mirror, {production});
    hide BookOk, Steps;
    if Nameless(b.mirror, production) then b
    else
      var last := FirstOf(ByRefReversed, LiveOnes(b.mirror, production.targetHash));
      RenamedBookOk(b, last, production);
      RenamedBook(b, last, production)
  }

  method Adopt(b: Book, production: SessionRef) returns (r: Book)
    ensures r == AdoptedBook(b, production)
  {
    hide BookOk;
    var live := set k | k in b.mirror && Live(b.mirror, k, production.targetHash);
    assert live == LiveOnes(b.mirror, production.targetHash);
    if production in b.mirror || live == {} {
      return b;
    }
    var last := First(ByRefReversed, live);
    RenamedBookOk(b, last, production);
    r := RenamedBook(b, last, production);
  }

  /** An adoption gives out the production name, to a live session, or changes nothing. */
  lemma AdoptedKeeps(b: Book, production: SessionRef)
    ensures TerminalsKept(b.mirror, AdoptedBook(b, production).mirror, if Nameless(b.mirror, production) then {} else {production})
  {
    hide BookOk, Steps;
    KeptSame(b.mirror);
    if !Nameless(b.mirror, production) {
      var last := FirstOf(ByRefReversed, LiveOnes(b.mirror, production.targetHash));
      KeptRenamed(b.mirror, last, production, b.mirror[last].(names := b.mirror[last].names + {production}));
    }
  }

  lemma RenamedOk(k: SessionRef, s: Session, production: SessionRef, history: seq<Event>)
    requires SessionOk(k, s, history) && s.target.hash == production.targetHash
    ensures SessionOk(production, s.(names := s.names + {production}), history)
  {
  }

  lemma ArmedOk(k: SessionRef, s: Session, operation: OperationRef, history: seq<Event>)
    requires SessionOk(k, s, history) && !Terminal(s.phase)
    ensures var t := s.(pendingExpiry := Some(operation), sweepEligible := false); SessionOk(k, t, history) && Evolves(s, t)
  {
  }

  /** The latest expiry timer of a live session replaces any earlier one. */
  function Armed(b: Book, operation: OperationRef): (r: Book)
    ensures Grew(b, r)
    ensures var k := operation.session;
            r == if k in b.mirror && (b.mirror[k].phase == Active || b.mirror[k].phase == Dormant)
                 then b.(mirror := b.mirror[k := b.mirror[k].(pendingExpiry := Some(operation), sweepEligible := false)])
                 else b
  {
    GrewRefl(b);
    hide Grew;
    var k := operation.session;
    if k in b.mirror && (b.mirror[k].phase == Active || b.mirror[k].phase == Dormant) then
      Holds(b, k);
      ArmedOk(k, b.mirror[k], operation, b.history);
      hide BookOk, SessionOk, Evolves;
      Replaced(b, k, b.mirror[k].(pendingExpiry := Some(operation), sweepEligible := false))
    else b
  }

  lemma ArmedKeeps(b: Book, operation: OperationRef)
    ensures TerminalsKept(b.mirror, Armed(b, operation).mirror, {})
  {
    hide BookOk, Grew;
    KeptSame(b.mirror);
    var k := operation.session;
    if k in b.mirror && !Terminal(b.mirror[k].phase) {
      KeptChanged(b.mirror, k, b.mirror[k].(pendingExpiry := Some(operation), sweepEligible := false));
    }
  }
}
