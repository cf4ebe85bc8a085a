/**
 * The lock-free admission gate: two independent 64-bit counters shared by any
 * number of threads, a two-step reservation with rollback, and leases that give
 * their capacity back once. Every atomic operation is a step of its own, and
 * any slot may take the next step at any time.
 */
module AdmissionGate {
  import opened Arith

  type Word = w: nat | w < U64

  datatype Budget = Budget(maxPackets: Word, maxBytes: Word)

  /** The life of one reservation attempt and of the lease it may produce. */
  datatype Slot =
    | Attempt(packets: Word, bytes: Word)
    /** `fetch_update` on the byte counter, having loaded `seen`. */
    | BytesLoaded(packets: Word, bytes: Word, seen: Word)
    | HoldsBytes(packets: Word, bytes: Word)
    | PacketsLoaded(packets: Word, bytes: Word, seen: Word)
    /** The packet budget refused: the bytes must go back. */
    | RollingBack(bytes: Word)
    /** Both reserved, the lease id not yet drawn. */
    | HoldsBoth(packets: Word, bytes: Word)
    | Open(id: Word, packets: Word, bytes: Word)
    | Consumed(id: Word, packets: Word, bytes: Word)
    /** Released by whoever won the lease cell: packets first, then bytes. */
    | Releasing(packets: Word, bytes: Word)
    | ReleasingBytes(bytes: Word)
    | Deferred
    | Released

  datatype Gate = Gate(budget: Budget, packets: Word, bytes: Word, nextId: Word, slots: seq<Slot>)

  datatype Step =
    /** A thread enters `try_reserve`. */
    | Begin(count: Word, size: Word)
    /** The slot performs its next atomic operation; a weak exchange may fail for no reason. */
    | Advance(slot: nat, spurious: bool)
    | Consume(slot: nat)
    | Settle(slot: nat)
    | Discard(slot: nat)

  function New(budget: Budget): Gate {
    Gate(budget, 0, 0, 1, [])
  }

  /** `fetch_sub` and `fetch_add` wrap. */
  function WrapSub(x: Word, y: Word): Word { if x >= y then x - y else x + U64 - y }
  function WrapInc(x: Word): Word { if x + 1 == U64 then 0 else x + 1 }

  /** The closure of `fetch_update`: the sum, unless it overflows or exceeds the budget. */
  predicate Fits(seen: Word, amount: Word, max: Word) { seen + amount < U64 && seen + amount <= max }

  function AdvanceSlot(g: Gate, i: nat, spurious: bool): Gate
    requires i < |g.slots|
  {
    match g.slots[i]
    case Attempt(p, b) =>
      g.(slots := g.slots[i := if b == 0 then HoldsBytes(p, b) else BytesLoaded(p, b, g.bytes)])
    case BytesLoaded(p, b, seen) =>
      if !Fits(seen, b, g.budget.maxBytes) then g.(slots := g.slots[i := Deferred])
      else if spurious || seen != g.bytes then g.(slots := g.slots[i := BytesLoaded(p, b, g.bytes)])
      else g.(bytes := seen + b, slots := g.slots[i := HoldsBytes(p, b)])
    case HoldsBytes(p, b) =>
      g.(slots := g.slots[i := if p == 0 then HoldsBoth(p, b) else PacketsLoaded(p, b, g.packets)])
    case PacketsLoaded(p, b, seen) =>
      if !Fits(seen, p, g.budget.maxPackets) then g.(slots := g.slots[i := RollingBack(b)])
      else if spurious || seen != g.packets then g.(slots := g.slots[i := PacketsLoaded(p, b, g.packets)])
      else g.(packets := seen + p, slots := g.slots[i := HoldsBoth(p, b)])
    case RollingBack(b) =>
      g.(bytes := WrapSub(g.bytes, b), slots := g.slots[i := Deferred])
    case HoldsBoth(p, b) =>
      g.(nextId := WrapInc(g.nextId), slots := g.slots[i := Open(g.nextId, p, b)])
    case Releasing(p, b) =>
      g.(packets := WrapSub(g.packets, p), slots := g.slots[i := ReleasingBytes(b)])
    case ReleasingBytes(b) =>
      g.(bytes := WrapSub(g.bytes, b), slots := g.slots[i := Released])
    case _ => g
  }

  /** One atomic step; a step on a missing slot, or one the lease cell refuses, changes nothing. */
  function Apply(g: Gate, s: Step): Gate {
    match s
    case Begin(count, size) =>
      g.(slots := g.slots + [Attempt(Asked(count), size)])
    case Advance(i, spurious) => if i < |g.slots| then AdvanceSlot(g, i, spurious) else g
    case Consume(i) =>
      if i < |g.slots| && g.slots[i].Open?
      then g.(slots := g.slots[i := Consumed(g.slots[i].id, g.slots[i].packets, g.slots[i].bytes)]) else g
    case Settle(i) =>
      if i < |g.slots| && g.slots[i].Consumed?
      then g.(slots := g.slots[i := Releasing(g.slots[i].packets, g.slots[i].bytes)]) else g
    case Discard(i) =>
      if i < |g.slots| && g.slots[i].Open?
      then g.(slots := g.slots[i := Releasing(g.slots[i].packets, g.slots[i].bytes)]) else g
  }

  /** A run: any interleaving of any number of threads. */
  function Run(g: Gate, steps: seq<Step>): Gate {
    if steps == [] then g else Apply(Run(g, steps[..|steps| - 1]), steps[|steps| - 1])
  }

  // ----- what is held ---------------------------------------------------------------

  function HeldPackets(s: Slot): nat {
    match s
    case HoldsBoth(p, _) => p
    case Open(_, p, _) => p
    case Consumed(_, p, _) => p
    case Releasing(p, _) => p
    case _ => 0
  }

  function HeldBytes(s: Slot): nat {
    match s
    case HoldsBytes(_, b) => b
    case PacketsLoaded(_, b, _) => b
    case RollingBack(b) => b
    case HoldsBoth(_, b) => b
    case Open(_, _, b) => b
    case Consumed(_, _, b) => b
    case Releasing(_, b) => b
    case ReleasingBytes(b) => b
    case _ => 0
  }

  function SumPackets(slots: seq<Slot>): nat {
    if slots == [] then 0 else SumPackets(slots[..|slots| - 1]) + HeldPackets(slots[|slots| - 1])
  }

  function SumBytes(slots: seq<Slot>): nat {
    if slots == [] then 0 else SumBytes(slots[..|slots| - 1]) + HeldBytes(slots[|slots| - 1])
  }

  /** Each counter is exactly what leases and half-finished operations hold, within budget. */
  ghost predicate Balanced(g: Gate) {
    && g.packets == SumPackets(g.slots) && g.packets <= g.budget.maxPackets
    && g.bytes == SumBytes(g.slots) && g.bytes <= g.budget.maxBytes
  }

  lemma {:induction false} SumUpdate(slots: seq<Slot>, i: nat, s: Slot)
    requires i < |slots|
    ensures SumPackets(slots[i := s]) == SumPackets(slots) - HeldPackets(slots[i]) + HeldPackets(s)
    ensures SumBytes(slots[i := s]) == SumBytes(slots) - HeldBytes(slots[i]) + HeldBytes(s)
  {
    var n := |slots| - 1;
    if i == n {
      assert slots[i := s][..n] == slots[..n];
    } else {
      assert slots[i := s][..n] == slots[..n][i := s];
      SumUpdate(slots[..n], i, s);
    }
  }

  lemma {:induction false} HeldWithinSum(slots: seq<Slot>, i: nat)
    requires i < |slots|
    ensures HeldPackets(slots[i]) <= SumPackets(slots) && HeldBytes(slots[i]) <= SumBytes(slots)
  {
    if i < |slots| - 1 {
      HeldWithinSum(slots[..|slots| - 1], i);
    }
  }

  lemma AdvanceKeepsBalance(g: Gate, i: nat, spurious: bool)
    requires Balanced(g) && i < |g.slots|
    ensures Balanced(AdvanceSlot(g, i, spurious))
  {
    HeldWithinSum(g.slots, i);
    SumUpdate(g.slots, i, AdvanceSlot(g, i, spurious).slots[i]);
    assert g.slots[i := g.slots[i]] == g.slots;
  }

  lemma StepKeepsBalance(g: Gate, s: Step)
    requires Balanced(g)
    ensures Balanced(Apply(g, s)) && Apply(g, s).budget == g.budget
  {
    match s
    case Begin(count, size) =>
      assert Apply(g, s).slots[..|g.slots|] == g.slots;
    case Advance(i, spurious) =>
      if i < |g.slots| { AdvanceKeepsBalance(g, i, spurious); }
    case Consume(i) =>
      if i < |g.slots| { SumUpdate(g.slots, i, Apply(g, s).slots[i]); }
    case Settle(i) =>
      if i < |g.slots| { SumUpdate(g.slots, i, Apply(g, s).slots[i]); }
    case Discard(i) =>
      if i < |g.slots| { SumUpdate(g.slots, i, Apply(g, s).slots[i]); }
  }

  /** In every interleaving the counters are balanced. */
  lemma {:induction false} EveryRunIsBalanced(budget: Budget, steps: seq<Step>)
    ensures Balanced(Run(New(budget), steps)) && Run(New(budget), steps).budget == budget
  {
    if steps != [] {
      var n := |steps| - 1;
      EveryRunIsBalanced(budget, steps[..n]);
      StepKeepsBalance(Run(New(budget), steps[..n]), steps[n]);
    }
  }

  /** The subtractions a slot is about to make never wrap below zero. */
  lemma NoUnderflow(budget: Budget, steps: seq<Step>, i: nat)
    requires i < |Run(New(budget), steps).slots|
    ensures var g := Run(New(budget), steps);
            && (g.slots[i].Releasing? ==> g.slots[i].packets <= g.packets && g.slots[i].bytes <= g.bytes)
            && (g.slots[i].ReleasingBytes? || g.slots[i].RollingBack? ==> g.slots[i].bytes <= g.bytes)
  {
    EveryRunIsBalanced(budget, steps);
    HeldWithinSum(Run(New(budget), steps).slots, i);
  }

  predicate Finished(s: Slot) { s.Deferred? || s.Released? }

  lemma {:induction false} NothingHeld(slots: seq<Slot>)
    requires forall i :: 0 <= i < |slots| ==> Finished(slots[i])
    ensures SumPackets(slots) == 0 && SumBytes(slots) == 0
  {
    if slots != [] {
      NothingHeld(slots[..|slots| - 1]);
    }
  }

  /** Once every attempt is deferred or released, all capacity is back. */
  lemma DrainedGateIsEmpty(budget: Budget, steps: seq<Step>)
    requires forall i :: 0 <= i < |Run(New(budget), steps).slots| ==> Finished(Run(New(budget), steps).slots[i])
    ensures Run(New(budget), steps).packets == 0 && Run(New(budget), steps).bytes == 0
  {
    EveryRunIsBalanced(budget, steps);
    NothingHeld(Run(New(budget), steps).slots);
  }

  // ----- one release per lease ------------------------------------------------------

  /** How far a slot is along its life; a retried exchange stays where it is. */
  function Rank(s: Slot): nat {
    match s
    case Attempt(_, _) => 0
    case BytesLoaded(_, _, _) => 1
    case HoldsBytes(_, _) => 2
    case PacketsLoaded(_, _, _) => 3
    case RollingBack(_) => 4
    case HoldsBoth(_, _) => 4
    case Open(_, _, _) => 5
    case Consumed(_, _, _) => 6
    case Releasing(_, _) => 7
    case ReleasingBytes(_) => 8
    case Deferred => 9
    case Released => 9
  }

  lemma StepMovesForward(g: Gate, s: Step, i: nat)
    requires i < |g.slots|
    ensures i < |Apply(g, s).slots| && Rank(g.slots[i]) <= Rank(Apply(g, s).slots[i])
    ensures Rank(g.slots[i]) == Rank(Apply(g, s).slots[i]) ==>
      HeldPackets(g.slots[i]) == HeldPackets(Apply(g, s).slots[i]) && HeldBytes(g.slots[i]) == HeldBytes(Apply(g, s).slots[i])
    ensures Rank(g.slots[i]) >= 7 ==>
      HeldPackets(Apply(g, s).slots[i]) <= HeldPackets(g.slots[i]) && HeldBytes(Apply(g, s).slots[i]) <= HeldBytes(g.slots[i])
  {
  }

  /** No continuation brings a lease that has started to release back to holding anything more. */
  lemma {:induction false} ReleasedOnce(g: Gate, steps: seq<Step>, i: nat)
    requires i < |g.slots|
    ensures i < |Run(g, steps).slots| && Rank(g.slots[i]) <= Rank(Run(g, steps).slots[i])
    ensures Rank(g.slots[i]) >= 7 ==>
      HeldPackets(Run(g, steps).slots[i]) <= HeldPackets(g.slots[i]) && HeldBytes(Run(g, steps).slots[i]) <= HeldBytes(g.slots[i])
    ensures Finished(g.slots[i]) ==> Finished(Run(g, steps).slots[i])
  {
    if steps != [] {
      var n := |steps| - 1;
      ReleasedOnce(g, steps[..n], i);
      StepMovesForward(Run(g, steps[..n]), steps[n], i);
    }
  }

  predicate Leased(s: Slot) { s.Open? || s.Consumed? }

  // ----- and every release gives back ------------------------------------------------

  /** The step is not one of slot `i`. */
  predicate Elsewhere(s: Step, i: nat) { s.Begin? || s.slot != i }

  lemma {:induction false} OthersLeaveIt(g: Gate, steps: seq<Step>, i: nat)
    requires i < |g.slots| && forall s :: s in steps ==> Elsewhere(s, i)
    ensures i < |Run(g, steps).slots| && Run(g, steps).slots[i] == g.slots[i]
  {
    if steps != [] {
      var n := |steps| - 1;
      assert forall s :: s in steps[..n] ==> s in steps;
      OthersLeaveIt(g, steps[..n], i);
      assert steps[n] in steps;
    }
  }

  /** A lease settled after its packet was consumed, or dropped while open. */
  predicate Ends(s: Slot, release: Step, i: nat) {
    (s.Consumed? && release == Settle(i)) || (s.Open? && release == Discard(i))
  }

  /**
   * In every reachable gate a lease that ends is released by its next two
   * steps, whatever others do before and between them: the first gives back
   * exactly its packets, the second exactly its bytes, and nothing else moves.
   */
  lemma LeaseGivesBack(budget: Budget, before: seq<Step>, release: Step, a: seq<Step>, b: seq<Step>, i: nat, x: bool, y: bool)
    requires i < |Run(New(budget), before).slots| && Ends(Run(New(budget), before).slots[i], release, i)
    requires (forall s :: s in a ==> Elsewhere(s, i)) && (forall s :: s in b ==> Elsewhere(s, i))
    ensures var lease := Run(New(budget), before).slots[i];
            var g1 := Run(New(budget), before + [release] + a);
            var g2 := Run(New(budget), before + [release] + a + [Advance(i, x)]);
            var g3 := Run(New(budget), before + [release] + a + [Advance(i, x)] + b);
            var g4 := Run(New(budget), before + [release] + a + [Advance(i, x)] + b + [Advance(i, y)]);
            && i < |g1.slots| && lease.packets <= g1.packets && i < |g3.slots| && lease.bytes <= g3.bytes
            && g2 == g1.(packets := g1.packets - lease.packets, slots := g1.slots[i := ReleasingBytes(lease.bytes)])
            && g4 == g3.(bytes := g3.bytes - lease.bytes, slots := g3.slots[i := Released])
  {
    hide Run, Apply, Elsewhere;
    var lease := Run(New(budget), before).slots[i];
    ReleaseSteps(Run(New(budget), before), release, i, lease.packets, lease.bytes);
    var s0 := before + [release];
    var s1 := s0 + a;
    var s2 := s1 + [Advance(i, x)];
    var s3 := s2 + b;
    LastStep(New(budget), before, release);
    RunConcat(New(budget), s0, a);
    OthersLeaveIt(Run(New(budget), s0), a, i);
    NoUnderflow(budget, s1, i);
    ReleaseSteps(Run(New(budget), s1), Advance(i, x), i, lease.packets, lease.bytes);
    LastStep(New(budget), s1, Advance(i, x));
    RunConcat(New(budget), s2, b);
    OthersLeaveIt(Run(New(budget), s2), b, i);
    NoUnderflow(budget, s3, i);
    ReleaseSteps(Run(New(budget), s3), Advance(i, y), i, lease.packets, lease.bytes);
    LastStep(New(budget), s3, Advance(i, y));
  }

  lemma ReleaseSteps(g: Gate, s: Step, i: nat, packets: Word, bytes: Word)
    requires i < |g.slots|
    ensures Ends(g.slots[i], s, i) ==> Apply(g, s) == g.(slots := g.slots[i := Releasing(g.slots[i].packets, g.slots[i].bytes)])
    ensures g.slots[i] == Releasing(packets, bytes) && packets <= g.packets && s.Advance? && s.slot == i ==>
      Apply(g, s) == g.(packets := g.packets - packets, slots := g.slots[i := ReleasingBytes(bytes)])
    ensures g.slots[i] == ReleasingBytes(bytes) && bytes <= g.bytes && s.Advance? && s.slot == i ==>
      Apply(g, s) == g.(bytes := g.bytes - bytes, slots := g.slots[i := Released])
  {
  }

  lemma LastStep(g: Gate, steps: seq<Step>, s: Step)
    ensures Run(g, steps + [s]) == Apply(Run(g, steps), s)
  {
    assert (steps + [s])[..|steps|] == steps;
  }

  /**
   * The lease cell decides once: of consuming and dropping an open lease the
   * first wins and the other changes nothing, only a consumed lease settles,
   * and none of the three moves a counter or another slot.
   */
  lemma LeaseCellDecidesOnce(g: Gate, i: nat)
    requires i < |g.slots|
    ensures var s, taken, dropped := g.slots[i], Apply(g, Consume(i)), Apply(g, Discard(i));
            && taken == (if s.Open? then g.(slots := g.slots[i := Consumed(s.id, s.packets, s.bytes)]) else g)
            && (s.Open? ==> dropped != g && Apply(taken, Discard(i)) == taken && Apply(dropped, Consume(i)) == dropped)
            && Apply(taken, Consume(i)) == taken && Apply(dropped, Discard(i)) == dropped
            && (!s.Open? ==> dropped == g) && (!s.Consumed? ==> Apply(g, Settle(i)) == g)
            && (s.Open? ==> Apply(taken, Settle(i)) == dropped)
  {
  }

  /** Ids are drawn in order from 1, so live leases carry distinct ones below the counter. */
  ghost predicate IdsDistinct(slots: seq<Slot>, next: nat) {
    && (forall i :: 0 <= i < |slots| && Leased(slots[i]) ==> 1 <= slots[i].id < next)
    && (forall i, j :: 0 <= i < j < |slots| && Leased(slots[i]) && Leased(slots[j]) ==> slots[i].id != slots[j].id)
  }

  /** Fewer steps than 2^64 - 1 cannot wrap the id counter, so no two live leases share an id. */
  lemma {:induction false} LeaseIdsAreDistinct(budget: Budget, steps: seq<Step>)
    requires |steps| < U64 - 1
    ensures var g := Run(New(budget), steps); IdsDistinct(g.slots, g.nextId) && 1 <= g.nextId <= |steps| + 1
  {
    if steps != [] {
      var n := |steps| - 1;
      LeaseIdsAreDistinct(budget, steps[..n]);
      StepKeepsIds(Run(New(budget), steps[..n]), steps[n]);
    }
  }

  lemma UpdateKeepsIds(slots: seq<Slot>, i: nat, s: Slot, next: nat, later: nat)
    requires i < |slots| && IdsDistinct(slots, next) && 1 <= next <= later
    requires Leased(s) ==> (Leased(slots[i]) && s.id == slots[i].id) || (s.id == next < later)
    ensures IdsDistinct(slots[i := s], later)
  {
  }

  lemma StepKeepsIds(g: Gate, s: Step)
    requires IdsDistinct(g.slots, g.nextId) && 1 <= g.nextId < U64 - 1
    ensures IdsDistinct(Apply(g, s).slots, Apply(g, s).nextId) && g.nextId <= Apply(g, s).nextId <= g.nextId + 1
  {
    hide IdsDistinct;
    var r := Apply(g, s);
    if s.Begin? {
      AppendKeepsIds(g.slots, r.slots[|g.slots|], g.nextId);
    } else if s.slot < |g.slots| {
      UpdateKeepsIds(g.slots, s.slot, r.slots[s.slot], g.nextId, r.nextId);
      assert r.slots == g.slots[s.slot := r.slots[s.slot]];
    }
  }

  lemma AppendKeepsIds(slots: seq<Slot>, s: Slot, next: nat)
    requires IdsDistinct(slots, next) && !Leased(s)
    ensures IdsDistinct(slots + [s], next)
  {
  }

  // ----- admission is exact only when nobody interferes -------------------------------

  /** One attempt run from entry to outcome with no other thread stepping in between. */
  function Solo(g: Gate, count: Word, size: Word): Gate {
    var i := |g.slots|;
    var g0 := Apply(g, Begin(count, size));
    var g1 := AdvanceSlot(g0, i, false);
    var g2 := if g1.slots[i].BytesLoaded? then AdvanceSlot(g1, i, false) else g1;
    if g2.slots[i].Deferred? then g2
    else
      var g3 := AdvanceSlot(g2, i, false);
      var g4 := if g3.slots[i].PacketsLoaded? then AdvanceSlot(g3, i, false) else g3;
      AdvanceSlot(g4, i, false)
  }

  /** No packets asked means one. */
  function Asked(count: Word): Word { if count == 0 then 1 else count }

  /** Undisturbed, an attempt is admitted exactly when both amounts fit the counters; a refusal leaves no trace. */
  lemma SoloIsExact(g: Gate, count: Word, size: Word)
    ensures var p: nat, r := Asked(count), Solo(g, count, size);
            var fits := (size == 0 || Fits(g.bytes, size, g.budget.maxBytes)) && Fits(g.packets, p, g.budget.maxPackets);
            && |r.slots| == |g.slots| + 1 && r.slots[..|g.slots|] == g.slots
            && (fits <==> r.slots[|g.slots|].Open?) && (!fits <==> r.slots[|g.slots|].Deferred?)
            && (fits ==> r.packets == g.packets + p && r.bytes == g.bytes + size)
            && (!fits ==> r.packets == g.packets && r.bytes == g.bytes)
  {
  }

  // ----- what leases hold and what half-finished operations hold -----------------------------

  function LeasedPackets(s: Slot): nat { if Leased(s) then s.packets else 0 }
  function LeasedBytes(s: Slot): nat { if Leased(s) then s.bytes else 0 }

  function SumLeasedPackets(slots: seq<Slot>): nat {
    if slots == [] then 0 else SumLeasedPackets(slots[..|slots| - 1]) + LeasedPackets(slots[|slots| - 1])
  }

  function SumLeasedBytes(slots: seq<Slot>): nat {
    if slots == [] then 0 else SumLeasedBytes(slots[..|slots| - 1]) + LeasedBytes(slots[|slots| - 1])
  }

  /** Held by attempts not yet decided, rollbacks and releases under way. */
  function TransientPackets(s: Slot): nat { if Leased(s) then 0 else HeldPackets(s) }
  function TransientBytes(s: Slot): nat { if Leased(s) then 0 else HeldBytes(s) }

  function SumTransientPackets(slots: seq<Slot>): nat {
    if slots == [] then 0 else SumTransientPackets(slots[..|slots| - 1]) + TransientPackets(slots[|slots| - 1])
  }

  function SumTransientBytes(slots: seq<Slot>): nat {
    if slots == [] then 0 else SumTransientBytes(slots[..|slots| - 1]) + TransientBytes(slots[|slots| - 1])
  }

  lemma {:induction false} HeldIsLeasedOrTransient(slots: seq<Slot>)
    ensures SumPackets(slots) == SumLeasedPackets(slots) + SumTransientPackets(slots)
    ensures SumBytes(slots) == SumLeasedBytes(slots) + SumTransientBytes(slots)
  {
    if slots != [] {
      HeldIsLeasedOrTransient(slots[..|slots| - 1]);
    }
  }

  /** The leases alone leave room for an attempt. */
  predicate LeasesLeaveRoom(g: Gate, count: Word, size: Word) {
    && (size == 0 || SumLeasedBytes(g.slots) + size <= g.budget.maxBytes)
    && SumLeasedPackets(g.slots) + Asked(count) <= g.budget.maxPackets
  }

  /** Half-finished operations take that room away. */
  predicate TransientsInTheWay(g: Gate, count: Word, size: Word) {
    || (size != 0 && SumLeasedBytes(g.slots) + SumTransientBytes(g.slots) + size > g.budget.maxBytes)
    || SumLeasedPackets(g.slots) + SumTransientPackets(g.slots) + Asked(count) > g.budget.maxPackets
  }

  /**
   * In every reachable gate an undisturbed attempt is deferred although the
   * leases leave room if and only if half-finished operations of others stand
   * in the way; otherwise it is admitted exactly when the leases leave room.
   */
  lemma SpuriousExactly(budget: Budget, steps: seq<Step>, count: Word, size: Word)
    ensures var g := Run(New(budget), steps);
            var slot := Solo(g, count, size).slots[|g.slots|];
            && (slot.Deferred? && LeasesLeaveRoom(g, count, size) <==>
                LeasesLeaveRoom(g, count, size) && TransientsInTheWay(g, count, size))
            && (slot.Open? <==> LeasesLeaveRoom(g, count, size) && !TransientsInTheWay(g, count, size))
            && (slot.Open? || slot.Deferred?)
  {
    var g := Run(New(budget), steps);
    EveryRunIsBalanced(budget, steps);
    HeldIsLeasedOrTransient(g.slots);
    SoloIsExact(g, count, size);
    hide Run, Solo, SumBytes, SumPackets, SumLeasedBytes, SumLeasedPackets, SumTransientBytes, SumTransientPackets;
  }

  /** No attempt, rollback or release is under way. */
  predicate Quiescent(g: Gate) {
    forall i :: 0 <= i < |g.slots| ==> Leased(g.slots[i]) || Finished(g.slots[i])
  }

  lemma {:induction false} QuiescentHoldsNothingElse(slots: seq<Slot>)
    requires forall i :: 0 <= i < |slots| ==> Leased(slots[i]) || Finished(slots[i])
    ensures SumTransientPackets(slots) == 0 && SumTransientBytes(slots) == 0
  {
    if slots != [] {
      QuiescentHoldsNothingElse(slots[..|slots| - 1]);
    }
  }

  /** A quiescent gate is exact: admitted if and only if the leases leave room. */
  lemma QuiescentIsExact(budget: Budget, steps: seq<Step>, count: Word, size: Word)
    requires Quiescent(Run(New(budget), steps))
    ensures var g := Run(New(budget), steps);
            Solo(g, count, size).slots[|g.slots|].Open? <==> LeasesLeaveRoom(g, count, size)
  {
    SpuriousExactly(budget, steps, count, size);
    QuiescentHoldsNothingElse(Run(New(budget), steps).slots);
    hide Run, Solo, SumLeasedBytes, SumLeasedPackets, SumTransientBytes, SumTransientPackets;
  }

  // ----- and under interleaving ----------------------------------------------------------------

  /** A slot is refused by the value it last loaded, exactly if that leaves no room for what it asks. */
  lemma RefusedOnLastLoad(g: Gate, step: Step, i: nat)
    requires i < |g.slots|
    ensures var s, t := g.slots[i], Apply(g, step).slots[i];
            Refused(t) && !Refused(s) ==>
              || (s.BytesLoaded? && s.seen + s.bytes > g.budget.maxBytes)
              || (s.PacketsLoaded? && s.seen + s.packets > g.budget.maxPackets)
    ensures var s, t := g.slots[i], Apply(g, step).slots[i];
            step.Advance? && step.slot == i ==>
              && (s.BytesLoaded? ==> (t.Deferred? <==> !Fits(s.seen, s.bytes, g.budget.maxBytes)))
              && (s.PacketsLoaded? ==> (t.RollingBack? <==> !Fits(s.seen, s.packets, g.budget.maxPackets)))
  {
  }

  predicate Refused(s: Slot) { s.RollingBack? || s.Deferred? }

  /** A loaded value was the counter's, at a moment of the run when the attempt was under way. */
  ghost predicate WasLoaded(budget: Budget, steps: seq<Step>, i: nat)
    requires i < |Run(New(budget), steps).slots|
  {
    var s := Run(New(budget), steps).slots[i];
    && (s.BytesLoaded? ==> exists n :: 0 <= n <= |steps| && ReservesBytes(Run(New(budget), steps[..n]), i, s.bytes, s.seen))
    && (s.PacketsLoaded? ==> exists n :: 0 <= n <= |steps| && ReservesPackets(Run(New(budget), steps[..n]), i, s.packets, s.seen))
  }

  /** Slot `i` is about to reserve `amount` bytes while the counter is at `seen`. */
  predicate ReservesBytes(g: Gate, i: nat, amount: Word, seen: Word) {
    i < |g.slots| && (g.slots[i].Attempt? || g.slots[i].BytesLoaded?) && g.slots[i].bytes == amount && g.bytes == seen
  }

  predicate ReservesPackets(g: Gate, i: nat, amount: Word, seen: Word) {
    i < |g.slots| && (g.slots[i].HoldsBytes? || g.slots[i].PacketsLoaded?) && g.slots[i].packets == amount && g.packets == seen
  }

  lemma {:induction false} LoadsAreReal(budget: Budget, steps: seq<Step>, i: nat)
    requires i < |Run(New(budget), steps).slots|
    ensures WasLoaded(budget, steps, i)
  {
    if steps != [] {
      var n := |steps| - 1;
      var g, h := Run(New(budget), steps[..n]), Run(New(budget), steps);
      assert steps[..|steps|] == steps;
      if i < |g.slots| {
        LoadsAreReal(budget, steps[..n], i);
        LoadedHereOrBefore(g, steps[n], i);
        var s := h.slots[i];
        if s.BytesLoaded? && s == g.slots[i] {
          var m :| 0 <= m <= n && ReservesBytes(Run(New(budget), steps[..n][..m]), i, s.bytes, s.seen);
          assert steps[..n][..m] == steps[..m];
        }
        if s.PacketsLoaded? && s == g.slots[i] {
          var m :| 0 <= m <= n && ReservesPackets(Run(New(budget), steps[..n][..m]), i, s.packets, s.seen);
          assert steps[..n][..m] == steps[..m];
        }
      }
    }
  }

  /** Slot `i` is reserving, and what leases and half-finished operations hold leaves no room for it. */
  predicate NoRoomFor(g: Gate, i: nat) {
    && i < |g.slots|
    && var s := g.slots[i];
       || ((s.Attempt? || s.BytesLoaded?)
           && SumLeasedBytes(g.slots) + SumTransientBytes(g.slots) + s.bytes > g.budget.maxBytes)
       || ((s.HoldsBytes? || s.PacketsLoaded?)
           && SumLeasedPackets(g.slots) + SumTransientPackets(g.slots) + s.packets > g.budget.maxPackets)
  }

  /**
   * Under any interleaving a deferral has a reason: at some moment of the
   * attempt, leases and half-finished operations together left no room for it.
   */
  lemma {:induction false} DeferredForLackOfRoom(budget: Budget, steps: seq<Step>, i: nat)
    requires i < |Run(New(budget), steps).slots| && Refused(Run(New(budget), steps).slots[i])
    ensures exists n :: 0 <= n <= |steps| && NoRoomFor(Run(New(budget), steps[..n]), i)
  {
    var n := |steps| - 1;
    var g := Run(New(budget), steps[..n]);
    RefusedNotAtOnce(g, steps[n], i);
    if Refused(g.slots[i]) {
      DeferredForLackOfRoom(budget, steps[..n], i);
      var m :| 0 <= m <= n && NoRoomFor(Run(New(budget), steps[..n][..m]), i);
      assert steps[..n][..m] == steps[..m];
    } else {
      RefusedOnLastLoad(g, steps[n], i);
      LoadsAreReal(budget, steps[..n], i);
      BudgetStays(budget, steps[..n]);
      var s := g.slots[i];
      var m := if s.BytesLoaded? then BytesMoment(budget, steps[..n], i) else PacketsMoment(budget, steps[..n], i);
      assert steps[..n][..m] == steps[..m];
      LoadedMeansHeld(budget, steps[..m], i, s);
    }
  }

  ghost function BytesMoment(budget: Budget, steps: seq<Step>, i: nat): (m: nat)
    requires i < |Run(New(budget), steps).slots| && WasLoaded(budget, steps, i) && Run(New(budget), steps).slots[i].BytesLoaded?
    ensures m <= |steps| && var s := Run(New(budget), steps).slots[i]; ReservesBytes(Run(New(budget), steps[..m]), i, s.bytes, s.seen)
  {
    var s := Run(New(budget), steps).slots[i];
    var m :| 0 <= m <= |steps| && ReservesBytes(Run(New(budget), steps[..m]), i, s.bytes, s.seen);
    m
  }

  ghost function PacketsMoment(budget: Budget, steps: seq<Step>, i: nat): (m: nat)
    requires i < |Run(New(budget), steps).slots| && WasLoaded(budget, steps, i) && Run(New(budget), steps).slots[i].PacketsLoaded?
    ensures m <= |steps| && var s := Run(New(budget), steps).slots[i]; ReservesPackets(Run(New(budget), steps[..m]), i, s.packets, s.seen)
  {
    var s := Run(New(budget), steps).slots[i];
    var m :| 0 <= m <= |steps| && ReservesPackets(Run(New(budget), steps[..m]), i, s.packets, s.seen);
    m
  }

  /** A new slot is not refused yet. */
  lemma RefusedNotAtOnce(g: Gate, step: Step, i: nat)
    requires i < |Apply(g, step).slots| && Refused(Apply(g, step).slots[i])
    ensures i < |g.slots|
  {
  }

  lemma {:induction false} BudgetStays(budget: Budget, steps: seq<Step>)
    ensures Run(New(budget), steps).budget == budget
  {
    if steps != [] {
      BudgetStays(budget, steps[..|steps| - 1]);
    }
  }

  /** At the moment of the load the counter was what leases and half-finished operations held. */
  lemma LoadedMeansHeld(budget: Budget, steps: seq<Step>, i: nat, s: Slot)
    requires s.BytesLoaded? ==> ReservesBytes(Run(New(budget), steps), i, s.bytes, s.seen) && s.seen + s.bytes > budget.maxBytes
    requires s.PacketsLoaded? ==> ReservesPackets(Run(New(budget), steps), i, s.packets, s.seen) && s.seen + s.packets > budget.maxPackets
    requires s.BytesLoaded? || s.PacketsLoaded?
    ensures NoRoomFor(Run(New(budget), steps), i)
  {
    var g := Run(New(budget), steps);
    EveryRunIsBalanced(budget, steps);
    HeldIsLeasedOrTransient(g.slots);
    BudgetStays(budget, steps);
    hide Run, SumBytes, SumPackets, SumLeasedBytes, SumLeasedPackets, SumTransientBytes, SumTransientPackets;
  }

  lemma LoadedHereOrBefore(g: Gate, s: Step, i: nat)
    requires i < |g.slots|
    ensures var h := Apply(g, s);
            && i < |h.slots|
            && (h.slots[i].BytesLoaded? ==> h.slots[i] == g.slots[i] || ReservesBytes(g, i, h.slots[i].bytes, h.slots[i].seen))
            && (h.slots[i].PacketsLoaded? ==> h.slots[i] == g.slots[i] || ReservesPackets(g, i, h.slots[i].packets, h.slots[i].seen))
  {
  }

  /**
   * The other case exists: an attempt is deferred, with nobody in between, by
   * bytes a refused one is about to give back, although no lease is left; when
   * both are done the gate would admit it.
   */
  lemma SpuriousDeferral()
    ensures var g := Run(New(Budget(1, 10)), Contention());
            && g == AFTER_REFUSAL && Balanced(g)
            && Run(New(Budget(1, 10)), LEASE + BYTES_ONLY + LEASE_GONE) == AFTER_DROP
            && Solo(AFTER_DROP, 1, 5).slots[2].Deferred? && LeasesLeaveRoom(AFTER_DROP, 1, 5)
            && Solo(g, 1, 5).slots[3].Open?
  {
    hide Run, Apply;
    var g0 := New(Budget(1, 10));
    FirstLease();
    BytesHeld();
    LeaseDropped();
    RefusedByTransientBytes();
    RunConcat(g0, LEASE, BYTES_ONLY);
    RunConcat(g0, LEASE + BYTES_ONLY, LEASE_GONE);
    RunConcat(g0, LEASE + BYTES_ONLY + LEASE_GONE, REFUSED);
    SoloIsExact(AFTER_REFUSAL, 1, 5);
    SoloIsExact(AFTER_DROP, 1, 5);
    NoLeaseLeft();
  }

  lemma NoLeaseLeft()
    ensures LeasesLeaveRoom(AFTER_DROP, 1, 5)
  {
    var slots := AFTER_DROP.slots;
    assert slots[..1] == [Released] && slots[..1][..0] == [];
    assert SumLeasedBytes(slots[..1]) == 0 && SumLeasedPackets(slots[..1]) == 0;
  }

  const AFTER_LEASE := Gate(Budget(1, 10), 1, 0, 2, [Open(1, 1, 0)])
  const AFTER_BYTES := Gate(Budget(1, 10), 1, 10, 2, [Open(1, 1, 0), RollingBack(10)])
  const AFTER_DROP := Gate(Budget(1, 10), 0, 10, 2, [Released, RollingBack(10)])
  const AFTER_REFUSAL := Gate(Budget(1, 10), 0, 0, 2, [Released, Deferred, Deferred])
  const LEASE := [Begin(1, 0), Advance(0, false), Advance(0, false), Advance(0, false), Advance(0, false)]
  const BYTES_ONLY := [Begin(1, 10), Advance(1, false), Advance(1, false), Advance(1, false), Advance(1, false)]
  const LEASE_GONE := [Discard(0), Advance(0, false), Advance(0, false)]
  const REFUSED := [Begin(1, 5), Advance(2, false), Advance(2, false), Advance(1, false)]

  /**
   * One lease holds the only packet; a second attempt takes all bytes and is
   * refused its packet; the lease goes; a third attempt meets the bytes the
   * second has not yet given back.
   */
  function Contention(): seq<Step> { LEASE + BYTES_ONLY + LEASE_GONE + REFUSED }

  lemma FirstLease()
    ensures Run(New(Budget(1, 10)), LEASE) == AFTER_LEASE
  {
    Five(New(Budget(1, 10)), Begin(1, 0), Advance(0, false), Advance(0, false), Advance(0, false), Advance(0, false));
  }

  lemma BytesHeld()
    ensures Run(AFTER_LEASE, BYTES_ONLY) == AFTER_BYTES
  {
    Five(AFTER_LEASE, Begin(1, 10), Advance(1, false), Advance(1, false), Advance(1, false), Advance(1, false));
  }

  lemma LeaseDropped()
    ensures Run(AFTER_BYTES, LEASE_GONE) == AFTER_DROP
  {
    Three(AFTER_BYTES, Discard(0), Advance(0, false), Advance(0, false));
  }

  lemma RefusedByTransientBytes()
    ensures Run(AFTER_DROP, REFUSED) == AFTER_REFUSAL && Balanced(AFTER_REFUSAL)
  {
    Four(AFTER_DROP, Begin(1, 5), Advance(2, false), Advance(2, false), Advance(1, false));
    NothingHeld(AFTER_REFUSAL.slots);
  }

  lemma Three(g: Gate, a: Step, b: Step, c: Step)
    ensures Run(g, [a, b, c]) == Apply(Apply(Apply(g, a), b), c)
  {
    assert [a, b, c][..2] == [a, b] && [a, b][..1] == [a] && [a][..0] == [];
    assert Run(g, [a]) == Apply(g, a);
  }

  lemma Four(g: Gate, a: Step, b: Step, c: Step, d: Step)
    ensures Run(g, [a, b, c, d]) == Apply(Apply(Apply(Apply(g, a), b), c), d)
  {
    assert [a, b, c, d][..3] == [a, b, c];
    Three(g, a, b, c);
  }

  lemma Five(g: Gate, a: Step, b: Step, c: Step, d: Step, e: Step)
    ensures Run(g, [a, b, c, d, e]) == Apply(Apply(Apply(Apply(Apply(g, a), b), c), d), e)
  {
    assert [a, b, c, d, e][..4] == [a, b, c, d];
    Four(g, a, b, c, d);
  }

  lemma {:induction false} RunConcat(g: Gate, a: seq<Step>, b: seq<Step>)
    ensures Run(g, a + b) == Run(Run(g, a), b)
    decreases |b|
  {
    if b == [] {
      assert a + b == a;
    } else {
      assert (a + b)[..|a + b| - 1] == a + b[..|b| - 1];
      RunConcat(g, a, b[..|b| - 1]);
    }
  }
}
