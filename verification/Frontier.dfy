/**
 * The network frontier of a plan: the needs in the dispatch window (retained),
 * the part of them not yet put in a peer batch (unemitted), the overflow
 * (backlog) and the hashes sent since the last clear (recent). The invariant
 * is the type: no frontier value violates it.
 */
module Frontiers {
  import Arith
  import opened Identity
  import opened PlanModel
  import opened PlanLemmas

  datatype FrontierState = FrontierState(
    backlog: seq<NetworkNeed>,
    pending: set<Hash>,
    retained: seq<NetworkNeed>,
    unemitted: seq<NetworkNeed>,
    cursor: nat,
    recent: set<Hash>,
    /** Needs put in normal peer batches since the recent set was last cleared. */
    ghost emitted: seq<NetworkNeed>,
    /** Size of the last batch the engine announced. */
    ghost announcement: nat,
    /** Every need the engine announced, and those resolved, discarded, reset or just requested since they were. */
    ghost said: seq<NetworkNeed>,
    ghost gone: set<NetworkNeed>)

  /** No announced need is lost: it is queued, or else it is known to be gone since. */
  ghost predicate NeedsKept(f: FrontierState) {
    && (forall n :: n in f.said ==> n in f.retained || n in f.backlog || n in f.gone)
    && (forall n :: n in f.gone ==> n !in f.retained && n !in f.backlog)
  }

  ghost predicate WellFormed(f: FrontierState) {
    && FrontierOk(f.retained, f.unemitted, f.backlog, f.pending, f.cursor)
    && EmissionOk(f.emitted, f.recent, f.unemitted, f.backlog)
    && |f.backlog| <= f.announcement
    && NeedsKept(f)
  }

  ghost const EMPTY := FrontierState([], {}, [], [], 0, {}, [], 0, [], {})

  lemma EmptyOk()
    ensures WellFormed(EMPTY)
  {
  }

  type Frontier = f: FrontierState | WellFormed(f) ghost witness (EmptyOk(); EMPTY)

  function NewFrontier(): (r: Frontier)
    ensures r.backlog == [] && r.retained == [] && r.unemitted == [] && r.recent == {} && r.emitted == []
    ensures r.said == [] && r.gone == {}
  {
    EmptyOk();
    FrontierState([], {}, [], [], 0, {}, [], 0, [], {})
  }

  // ----- the steps on values, and what they keep ----------------------------------------

  function DispatchState(f: FrontierState, k: nat): FrontierState
    requires k <= |f.backlog|
  {
    f.(retained := f.retained + f.backlog[..k], unemitted := f.unemitted + f.backlog[..k],
       backlog := f.backlog[k..], cursor := Normalized(f.cursor, |f.retained| + k))
  }

  lemma DispatchKeeps(f: FrontierState, k: nat)
    requires WellFormed(f) && k <= |f.backlog| && |f.retained| + k <= MAX_RETAINED_NETWORK_FRONTIER
    ensures WellFormed(DispatchState(f, k))
  {
    assert f.backlog == f.backlog[..k] + f.backlog[k..];
    DispatchQueues(f, k);
    hide FrontierOk;
  }

  lemma DispatchQueues(f: FrontierState, k: nat)
    requires FrontierOk(f.retained, f.unemitted, f.backlog, f.pending, f.cursor)
    requires k <= |f.backlog| && |f.retained| + k <= MAX_RETAINED_NETWORK_FRONTIER
    ensures var r := DispatchState(f, k); FrontierOk(r.retained, r.unemitted, r.backlog, r.pending, r.cursor)
  {
    var moved, rest := f.backlog[..k], f.backlog[k..];
    assert f.backlog == moved + rest;
    assert forall n :: n in f.backlog <==> n in moved || n in rest;
    DistinctAppend(f.retained, moved);
    DistinctAppend(f.unemitted, moved);
    HashesAppend(f.retained, moved);
    HashesAppend(moved, rest);
  }

  /** Announced needs sent recently and not in the window are gone already; the rest is queued. */
  function AnnounceState(f: FrontierState, nodes: seq<NetworkNeed>): FrontierState {
    var q := Enqueued(f.backlog, f.retained, f.recent, nodes);
    f.(backlog := q, pending := HashesOf(f.retained) + HashesOf(q), announcement := |nodes|, said := f.said + nodes,
       gone := (set n | n in f.gone && n !in q) + set n | n in nodes && n.hash in f.recent && n !in f.retained)
  }

  lemma AnnounceKeeps(f: FrontierState, nodes: seq<NetworkNeed>)
    requires WellFormed(f) && f.backlog == []
    ensures WellFormed(AnnounceState(f, nodes))
  {
  }

  function RetireState(f: FrontierState, resolved: seq<NetworkNeed>): FrontierState {
    var r, b := Without(f.retained, resolved), Without(f.backlog, resolved);
    f.(retained := r, unemitted := Without(f.unemitted, resolved), backlog := b,
       pending := HashesOf(r) + HashesOf(b), cursor := Normalized(f.cursor, |r|), gone := f.gone + set n | n in resolved)
  }

  lemma RetireKeeps(f: FrontierState, resolved: seq<NetworkNeed>)
    requires WellFormed(f)
    ensures WellFormed(RetireState(f, resolved))
  {
  }

  function TakeState(f: FrontierState, k: nat): FrontierState
    requires k <= |f.unemitted|
  {
    f.(unemitted := f.unemitted[k..], recent := f.recent + HashesOf(f.unemitted[..k]),
       emitted := f.emitted + f.unemitted[..k])
  }

  /** Emitting a prefix of the unemitted queue never repeats an exact need. */
  lemma TakeKeeps(f: FrontierState, k: nat)
    requires WellFormed(f) && k <= |f.unemitted|
    ensures WellFormed(TakeState(f, k))
  {
    var batch, rest := f.unemitted[..k], f.unemitted[k..];
    assert f.unemitted == batch + rest;
    assert forall n :: n in f.unemitted <==> n in batch || n in rest;
    DistinctAppend(f.emitted, batch);
  }

  // ----- the steps on frontiers ----------------------------------------------------------

  /** The backlog moves into the window, `k` needs of it. */
  function Dispatched(f: Frontier, k: nat): (r: Frontier)
    requires k <= |f.backlog| && |f.retained| + k <= MAX_RETAINED_NETWORK_FRONTIER
    ensures r.retained == f.retained + f.backlog[..k] && r.backlog == f.backlog[k..]
    ensures r.unemitted == f.unemitted + f.backlog[..k]
    ensures r.pending == f.pending && r.recent == f.recent && r.emitted == f.emitted
    ensures r.cursor == if r.retained == [] then 0 else f.cursor % |r.retained|
    ensures r.said == f.said && r.gone == f.gone
  {
    DispatchKeeps(f, k);
    hide WellFormed;
    DispatchState(f, k)
  }

  /** The engine announced `nodes` while nothing was waiting. */
  function Announced(f: Frontier, nodes: seq<NetworkNeed>): (r: Frontier)
    requires f.backlog == []
    ensures r.retained == f.retained && r.announcement == |nodes|
    ensures r.unemitted == f.unemitted && r.recent == f.recent && r.emitted == f.emitted
    ensures forall n :: n in r.backlog <==> n in nodes && n.hash !in f.recent && n !in f.retained
    ensures r.said == f.said + nodes
    ensures forall n :: n in r.gone <==> n !in r.backlog && (n in f.gone || (n in nodes && n !in f.retained))
  {
    AnnounceKeeps(f, nodes);
    hide WellFormed;
    AnnounceState(f, nodes)
  }

  /** Exact needs leave all three queues. */
  function Retired(f: Frontier, resolved: seq<NetworkNeed>): (r: Frontier)
    ensures forall n :: n in r.retained <==> n in f.retained && n !in resolved
    ensures forall n :: n in r.backlog <==> n in f.backlog && n !in resolved
    ensures forall n :: n in r.unemitted <==> n in f.unemitted && n !in resolved
    ensures InOrder(r.retained, f.retained) && InOrder(r.backlog, f.backlog) && InOrder(r.unemitted, f.unemitted)
    ensures r.said == f.said && r.gone == f.gone + set n | n in resolved
    ensures |r.backlog| <= |f.backlog| && |r.retained| <= |f.retained|
    ensures r.cursor == if r.retained == [] then 0 else f.cursor % |r.retained|
    ensures r.recent == f.recent && r.emitted == f.emitted
  {
    RetireKeeps(f, resolved);
    WithoutKeepsOrder(f.retained, resolved);
    WithoutKeepsOrder(f.backlog, resolved);
    WithoutKeepsOrder(f.unemitted, resolved);
    hide WellFormed, InOrder;
    RetireState(f, resolved)
  }

  /** A finished lane discards everything not yet requested. */
  function TailDiscarded(f: Frontier): (r: Frontier)
    ensures r.backlog == [] && r.unemitted == [] && |r.retained| <= |f.retained|
    ensures forall n :: n in r.retained <==> n in f.retained && n !in f.unemitted
    ensures r.recent == f.recent && r.emitted == f.emitted && r.said == f.said
    ensures forall n :: n in r.gone <==> n in f.gone || n in f.unemitted || n in f.backlog
  {
    var tail := f.unemitted + f.backlog;
    assert forall n :: n in tail <==> n in f.unemitted || n in f.backlog;
    WithoutAll(f.backlog, tail);
    WithoutAll(f.unemitted, tail);
    Retired(f, tail)
  }

  /** A new epoch empties the queues but remembers what was sent recently. */
  function EpochReset(f: Frontier): (r: Frontier)
    ensures r.backlog == [] && r.retained == [] && r.unemitted == [] && r.pending == {}
    ensures r.recent == f.recent && r.emitted == f.emitted && r.said == f.said
    ensures r.gone == f.gone + (set n | n in f.retained) + (set n | n in f.backlog)
  {
    EmptyOk();
    f.(backlog := [], pending := {}, retained := [], unemitted := [], cursor := 0,
       gone := f.gone + (set n | n in f.retained) + (set n | n in f.backlog))
  }

  /** A closed plan wants nothing any more and forgets what it sent. */
  function Closed(f: Frontier): (r: Frontier)
    ensures r.backlog == [] && r.retained == [] && r.unemitted == [] && r.pending == {} && r.cursor == 0
    ensures r.recent == {} && r.emitted == [] && r.said == f.said && r.gone == EpochReset(f).gone
  {
    EpochReset(f).(recent := {}, emitted := [])
  }

  /** A FIFO prefix of the unemitted needs goes into a peer batch. */
  function Taken(f: Frontier, k: nat): (r: Frontier)
    requires k <= |f.unemitted|
    ensures r.retained == f.retained && r.backlog == f.backlog && r.pending == f.pending && r.cursor == f.cursor
    ensures r.unemitted == f.unemitted[k..] && r.recent == f.recent + HashesOf(f.unemitted[..k])
    ensures r.emitted == f.emitted + f.unemitted[..k] && r.said == f.said && r.gone == f.gone
  {
    TakeKeeps(f, k);
    hide WellFormed;
    TakeState(f, k)
  }

  lemma WindowHolds(f: Frontier)
    ensures |f.retained| <= MAX_RETAINED_NETWORK_FRONTIER
  {
  }

  /** The two parts of a split backlog, put where they belong. */
  lemma DispatchedParts(f: Frontier, sent: seq<NetworkNeed>, rest: seq<NetworkNeed>)
    requires f.backlog == sent + rest && |f.retained| + |sent| <= MAX_RETAINED_NETWORK_FRONTIER
    ensures sent == f.backlog[..|sent|] && rest == f.backlog[|sent|..]
    ensures Dispatched(f, |sent|) == f.(retained := f.retained + sent, unemitted := f.unemitted + sent, backlog := rest,
                                        cursor := Normalized(f.cursor, |f.retained + sent|))
  {
    hide WellFormed;
    assert sent == f.backlog[..|sent|] && rest == f.backlog[|sent|..];
  }

  lemma DispatchNothing(f: Frontier)
    ensures Dispatched(f, 0) == f
  {
    assert f.backlog[..0] == [] && f.backlog[0..] == f.backlog;
    assert f.retained + [] == f.retained && f.unemitted + [] == f.unemitted;
    if f.retained != [] {
      CursorInRange(f);
    }
  }

  lemma TakeNothing(f: Frontier)
    ensures Taken(f, 0) == f
  {
    assert f.unemitted[..0] == [] && f.unemitted[0..] == f.unemitted;
    assert f.recent + HashesOf([]) == f.recent;
  }

  /** A batch taken now was not taken before. */
  lemma TakeIsFresh(f: Frontier, k: nat)
    requires k <= |f.unemitted|
    ensures forall n :: n in f.unemitted[..k] ==> n !in f.emitted
  {
  }

  lemma CursorInRange(f: Frontier)
    ensures f.retained != [] ==> f.cursor < |f.retained| && f.cursor % |f.retained| == f.cursor
  {
    if f.retained != [] {
      Arith.DivModUnique(f.cursor, 0, |f.retained|, f.cursor);
    }
  }

  function RecentCleared(f: Frontier): (r: Frontier)
    ensures r.recent == {} && r.emitted == [] && r.said == f.said && r.gone == f.gone
    ensures r.retained == f.retained && r.unemitted == f.unemitted && r.backlog == f.backlog && r.cursor == f.cursor
  {
    f.(recent := {}, emitted := [])
  }

  function Rotated(f: Frontier): (r: Frontier)
    ensures r.retained == f.retained && r.unemitted == f.unemitted && r.backlog == f.backlog
    ensures r.recent == f.recent && r.emitted == f.emitted && r.said == f.said && r.gone == f.gone
    ensures f.retained != [] ==> r.cursor == CursorAfter(f.cursor, |f.retained|, 1)
  {
    if f.retained == [] then f else f.(cursor := CursorAfter(f.cursor, |f.retained|, 1))
  }

  // ----- what no frontier can violate ------------------------------------------

  /**
   * Between two clears no exact need enters two normal peer batches: a batch
   * taken now shares nothing with what was taken before, whatever retirements,
   * re-announcements, resets or lane finishes happened in between.
   */
  lemma EmissionIsUnique(f: Frontier, k: nat, n: NetworkNeed)
    requires k <= |f.unemitted| && n in f.unemitted[..k]
    ensures n !in f.emitted && n !in Taken(f, k).unemitted && n.hash in Taken(f, k).recent
    ensures forall nodes :: f.backlog == [] ==> n !in Announced(Taken(f, k), nodes).backlog
  {
    var batch, rest := f.unemitted[..k], f.unemitted[k..];
    assert f.unemitted == batch + rest;
    assert n in f.unemitted;
    assert n in Taken(f, k).emitted;
  }
}
