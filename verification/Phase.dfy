/** The service lifecycle: one table from phase and fact to the next phase. */
module Phases {
  import opened Identity

  datatype Target = Target(hash: Hash, sequence: Option<nat>)

  datatype LedgerId = LedgerId(hash: Hash, sequence: nat)

  datatype SyncPhase =
    | Disconnected
    | Connected
    | Syncing(target: Target)
    | Tracking(lcl: LedgerId)
    | Full(lcl: LedgerId, published: LedgerId)
    | Stopping

  datatype Fact =
    | PeerCapabilityAvailable
    | PeerCapabilityLost
    | ConsensusQuorumLost
    | ConsensusQuorumAvailable
    | TargetRequired(target: Target)
    | TargetInstalledAsLcl(lcl: LedgerId)
    | ChainContiguous(lcl: LedgerId, published: LedgerId)
    | ConsensusViewChange
    | PreferredLclDivergence(target: Target)
    | PreferredLclReconciled(lcl: LedgerId)
    | BlockedWithNoTarget
    | ShutdownRequested

  /** A same-hash fact may supply the sequence an anchor lacks; nothing else moves the anchor. */
  function Refined(current: Target, offered: Target): Target {
    if current.hash == offered.hash && current.sequence.None? && offered.sequence.Some? then offered else current
  }

  function Transition(from: SyncPhase, fact: Fact): Option<SyncPhase> {
    match (from, fact)
    case (Disconnected, PeerCapabilityAvailable) => Some(Connected)
    case (Disconnected, ConsensusQuorumAvailable) => Some(Connected)
    case (Connected, TargetRequired(t)) => Some(Syncing(t))
    case (Connected, PreferredLclDivergence(t)) => Some(Syncing(t))
    case (Connected, TargetInstalledAsLcl(lcl)) => Some(Tracking(lcl))
    case (Syncing(current), TargetRequired(t)) => Some(Syncing(Refined(current, t)))
    case (Syncing(current), PreferredLclDivergence(t)) => Some(Syncing(Refined(current, t)))
    case (Syncing(_), TargetInstalledAsLcl(lcl)) => Some(Tracking(lcl))
    case (Syncing(_), PreferredLclReconciled(lcl)) => Some(Tracking(lcl))
    case (Tracking(_), PreferredLclDivergence(t)) => Some(Syncing(t))
    case (Tracking(_), ConsensusViewChange) => Some(Connected)
    case (Tracking(_), ChainContiguous(lcl, published)) => Some(Full(lcl, published))
    case (Full(_, _), TargetRequired(t)) => Some(Syncing(t))
    case (Full(_, _), PreferredLclDivergence(t)) => Some(Syncing(t))
    case (Full(_, _), ConsensusViewChange) => Some(Connected)
    case (Full(_, _), BlockedWithNoTarget) => Some(Connected)
    case (Stopping, _) => None
    case (_, ShutdownRequested) => Some(Stopping)
    case (Disconnected, _) => None
    case (_, ConsensusQuorumLost) => Some(Disconnected)
    case (_, PeerCapabilityLost) => Some(Disconnected)
    case (_, _) => None
  }

  /** The phase after the first `n` facts, starting disconnected; a rejected fact changes nothing. */
  function PhaseAt(facts: seq<Fact>, n: nat): SyncPhase
    requires n <= |facts|
  {
    if n == 0 then Disconnected
    else
      var before := PhaseAt(facts, n - 1);
      var next := Transition(before, facts[n - 1]);
      if next.Some? then next.value else before
  }

  // ----- what each fact does, by fact ---------------------------------------------------------

  /**
   * Every fact of every run, whatever the phase it meets: losses disconnect,
   * shutdown stops, a view change or a block gives up what is tracked, a target
   * starts a sync or completes the anchor it names, an install tracks, and a
   * contiguous chain publishes. A fact that is none of that changes nothing.
   */
  lemma FactsDecide(facts: seq<Fact>, n: nat)
    requires n < |facts|
    ensures var p, q := PhaseAt(facts, n), PhaseAt(facts, n + 1);
            if p == Stopping then q == Stopping
            else match facts[n]
                 case ShutdownRequested => q == Stopping
                 case PeerCapabilityLost => q == Disconnected
                 case ConsensusQuorumLost => q == Disconnected
                 case PeerCapabilityAvailable => q == if p == Disconnected then Connected else p
                 case ConsensusQuorumAvailable => q == if p == Disconnected then Connected else p
                 case ConsensusViewChange => q == if p.Tracking? || p.Full? then Connected else p
                 case BlockedWithNoTarget => q == if p.Full? then Connected else p
                 case TargetRequired(t) =>
                   q == if p == Connected || p.Full? || CompletesAnchor(p, t) then Syncing(t) else p
                 case PreferredLclDivergence(t) =>
                   q == if p == Connected || p.Tracking? || p.Full? || CompletesAnchor(p, t) then Syncing(t) else p
                 case TargetInstalledAsLcl(lcl) => q == if p == Connected || p.Syncing? then Tracking(lcl) else p
                 case PreferredLclReconciled(lcl) => q == if p.Syncing? then Tracking(lcl) else p
                 case ChainContiguous(lcl, published) => q == if p.Tracking? then Full(lcl, published) else p
  {
  }

  /** The target supplies the sequence the anchor lacks. */
  predicate CompletesAnchor(p: SyncPhase, t: Target) {
    p.Syncing? && p.target.hash == t.hash && p.target.sequence.None? && t.sequence.Some?
  }

  predicate Loses(f: Fact) { f.PeerCapabilityLost? || f.ConsensusQuorumLost? }

  /** Stopping exactly from the first shutdown on. */
  lemma {:induction false} StoppingExactly(facts: seq<Fact>, n: nat)
    requires n <= |facts|
    ensures PhaseAt(facts, n) == Stopping <==> exists i :: 0 <= i < n && facts[i].ShutdownRequested?
  {
    if n > 0 {
      StoppingExactly(facts, n - 1);
      FactsDecide(facts, n - 1);
      hide Transition;
    }
  }

  /** Disconnected exactly if, short of a shutdown, every availability was followed by a loss. */
  lemma {:induction false} DisconnectedExactly(facts: seq<Fact>, n: nat)
    requires n <= |facts|
    ensures PhaseAt(facts, n) == Disconnected <==>
            && (forall i :: 0 <= i < n ==> !facts[i].ShutdownRequested?)
            && (forall i :: 0 <= i < n && Opens(facts[i]) ==> exists j :: i < j < n && Loses(facts[j]))
  {
    if n > 0 {
      DisconnectedExactly(facts, n - 1);
      StoppingExactly(facts, n - 1);
      FactsDecide(facts, n - 1);
      hide Transition, PhaseAt;
      var last := facts[n - 1];
      if Loses(last) {
        assert forall i :: 0 <= i < n && Opens(facts[i]) ==> i < n - 1;
      } else if forall i :: 0 <= i < n && Opens(facts[i]) ==> exists j :: i < j < n && Loses(facts[j]) {
        forall i | 0 <= i < n - 1 && Opens(facts[i]) ensures exists j :: i < j < n - 1 && Loses(facts[j]) {
          var j :| i < j < n && Loses(facts[j]);
          assert j < n - 1;
        }
      }
    }
  }

  /** What ends a Full stretch. */
  predicate LeavesFull(f: Fact) {
    Loses(f) || f.ShutdownRequested? || f.TargetRequired? || f.PreferredLclDivergence? || f.ConsensusViewChange? || f.BlockedWithNoTarget?
  }

  /** A Full phase lasts, with its ledgers, exactly as long as no such fact arrives. */
  lemma {:induction false} FullLastsExactly(facts: seq<Fact>, a: nat, b: nat)
    requires a <= b <= |facts| && PhaseAt(facts, a).Full?
    ensures (forall m :: a <= m <= b ==> PhaseAt(facts, m) == PhaseAt(facts, a)) <==> (forall i :: a <= i < b ==> !LeavesFull(facts[i]))
  {
    if a < b {
      FullLastsExactly(facts, a, b - 1);
      FactsDecide(facts, b - 1);
      hide Transition, PhaseAt;
    }
  }

  predicate Opens(f: Fact) { f.PeerCapabilityAvailable? || f.ConsensusQuorumAvailable? }

  predicate Installs(f: Fact) { f.TargetInstalledAsLcl? || f.PreferredLclReconciled? }

  ghost predicate NeverDisconnected(facts: seq<Fact>, from: nat, to: nat)
    requires to <= |facts|
  {
    forall m :: from <= m <= to ==> PhaseAt(facts, m) != Disconnected
  }

  /** Any live phase was opened by an availability fact in its current connected stretch. */
  lemma {:induction false} OpenedBy(facts: seq<Fact>, n: nat) returns (i: nat)
    requires n <= |facts| && PhaseAt(facts, n) != Disconnected && PhaseAt(facts, n) != Stopping
    ensures i < n && PhaseAt(facts, i) == Disconnected && Opens(facts[i]) && NeverDisconnected(facts, i + 1, n)
  {
    if PhaseAt(facts, n - 1) == Disconnected {
      i := n - 1;
    } else {
      i := OpenedBy(facts, n - 1);
    }
  }

  /** Tracking and Full follow an install or reconcile fact of the same stretch. */
  lemma {:induction false} InstalledBy(facts: seq<Fact>, n: nat) returns (i: nat, j: nat)
    requires n <= |facts| && (PhaseAt(facts, n).Tracking? || PhaseAt(facts, n).Full?)
    ensures i < j < n && PhaseAt(facts, i) == Disconnected && Opens(facts[i]) && Installs(facts[j])
    ensures NeverDisconnected(facts, i + 1, n)
  {
    if PhaseAt(facts, n - 1).Tracking? || PhaseAt(facts, n - 1).Full? {
      i, j := InstalledBy(facts, n - 1);
    } else {
      i := OpenedBy(facts, n - 1);
      j := n - 1;
    }
  }

  /**
   * Reaching Full needs, since the last Disconnected, an availability fact,
   * then an install or reconcile fact, then a contiguity fact.
   */
  lemma {:induction false} FullIsEarned(facts: seq<Fact>, n: nat) returns (i: nat, j: nat, k: nat)
    requires n <= |facts| && PhaseAt(facts, n).Full?
    ensures i < j < k < n && PhaseAt(facts, i) == Disconnected
    ensures Opens(facts[i]) && Installs(facts[j]) && facts[k].ChainContiguous?
    ensures NeverDisconnected(facts, i + 1, n)
  {
    if PhaseAt(facts, n - 1).Full? {
      i, j, k := FullIsEarned(facts, n - 1);
    } else {
      i, j := InstalledBy(facts, n - 1);
      k := n - 1;
    }
  }

  /** While Syncing lasts the anchor hash is constant and a known sequence is never lost. */
  lemma {:induction false} AnchorHolds(facts: seq<Fact>, a: nat, b: nat)
    requires a <= b <= |facts| && forall m :: a <= m <= b ==> PhaseAt(facts, m).Syncing?
    ensures var x, y := PhaseAt(facts, a).target, PhaseAt(facts, b).target;
            x.hash == y.hash && (x.sequence.Some? ==> x == y)
  {
    if a < b {
      AnchorHolds(facts, a, b - 1);
      assert PhaseAt(facts, b - 1).Syncing?;
    }
  }

  /** Nothing leaves Stopping. */
  lemma {:induction false} StoppingAbsorbs(facts: seq<Fact>, a: nat, b: nat)
    requires a <= b <= |facts| && PhaseAt(facts, a) == Stopping
    ensures PhaseAt(facts, b) == Stopping
  {
    if a < b {
      StoppingAbsorbs(facts, a, b - 1);
    }
  }
}
