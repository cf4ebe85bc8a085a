/**
 * Batches of state changes: every batch works on a detached tree under an owner
 * id of its own, and publishes all of its changes or none.
 */
module StateBatches {
  import opened Arith
  import opened Identity

  const TOP: nat := 0xFFFF_FFFF

  type Owner = o: nat | o <= TOP

  type Payload = seq<nat>

  type State = map<Hash, Payload>

  function SaturatingNext(o: Owner): Owner { if o < TOP then o + 1 else TOP }

  // ----- owner ids ------------------------------------------------------------------------

  /** The shared counter after one batch over a root with owner `root`. */
  function CounterAfter(next: Owner, root: Owner): Owner {
    SaturatingNext(Max(next, Max(SaturatingNext(root), 1)))
  }

  /** The id that batch works under. */
  function Allocated(next: Owner, root: Owner): Owner {
    Max(next, Max(SaturatingNext(root), 1))
  }

  /** Batches of any threads, in the order in which they update the counter. */
  function CounterAt(next: Owner, roots: seq<Owner>, n: nat): Owner
    requires n <= |roots|
  {
    if n == 0 then next else CounterAfter(CounterAt(next, roots, n - 1), roots[n - 1])
  }

  function IdAt(next: Owner, roots: seq<Owner>, i: nat): Owner
    requires i < |roots|
  {
    Allocated(CounterAt(next, roots, i), roots[i])
  }

  lemma {:induction false} CounterOnlyGrows(next: Owner, roots: seq<Owner>, i: nat, j: nat)
    requires i < j <= |roots|
    ensures SaturatingNext(IdAt(next, roots, i)) <= CounterAt(next, roots, j)
    decreases j
  {
    if i + 1 < j {
      CounterOnlyGrows(next, roots, i, j - 1);
    }
  }

  /**
   * Whatever the interleaving and the roots, a later batch has a strictly
   * greater id, and every id is above its own root's, exactly short of
   * saturation: two batches share an id only if the counter had reached the top
   * or the root was within one of it, a batch and its root only at the top.
   */
  lemma IdsIncrease(next: Owner, roots: seq<Owner>, i: nat, j: nat)
    requires i < j < |roots|
    ensures IdAt(next, roots, i) < IdAt(next, roots, j) <==> CounterAt(next, roots, i) < TOP && roots[i] < TOP - 1
    ensures IdAt(next, roots, i) == IdAt(next, roots, j) <==> CounterAt(next, roots, i) == TOP || roots[i] >= TOP - 1
    ensures roots[i] < IdAt(next, roots, i) <==> roots[i] < TOP
  {
    CounterOnlyGrows(next, roots, i, j);
  }

  /** The id is the least the counter allows that is not zero and above its root, short of saturation. */
  lemma IdIsLeast(next: Owner, roots: seq<Owner>, i: nat, o: Owner)
    requires i < |roots|
    ensures var id := IdAt(next, roots, i);
            && id >= 1 && id >= CounterAt(next, roots, i) && (id > roots[i] || id == TOP)
            && (o >= 1 && o >= CounterAt(next, roots, i) && (o > roots[i] || o == TOP) ==> id <= o)
  {
  }

  // ----- all or nothing ---------------------------------------------------------------------

  datatype Op = Insert(key: Hash, payload: Payload) | Update(key: Hash, payload: Payload) | Delete(key: Hash)

  datatype Result = Applied(state: State) | Duplicate(key: Hash) | Absent(key: Hash)

  function ApplyOne(s: State, op: Op): Result {
    match op
    case Insert(k, v) => if k in s then Duplicate(k) else Applied(s[k := v])
    case Update(k, v) => if k in s then Applied(s[k := v]) else Absent(k)
    case Delete(k) => if k in s then Applied(s - {k}) else Absent(k)
  }

  /** Reference: the operations one after the other, stopping at the first that fails. */
  function ApplyAll(s: State, ops: seq<Op>): Result
    decreases |ops|
  {
    if ops == [] then Applied(s)
    else
      var r := ApplyOne(s, ops[0]);
      if r.Applied? then ApplyAll(r.state, ops[1..]) else r
  }

  /** One batch of a joined list is the two halves in turn. */
  lemma {:induction false} ApplyConcat(s: State, a: seq<Op>, b: seq<Op>)
    ensures ApplyAll(s, a + b) == (var r := ApplyAll(s, a); if r.Applied? then ApplyAll(r.state, b) else r)
    decreases |a|
  {
    if a == [] {
      assert a + b == b;
    } else {
      assert (a + b)[0] == a[0] && (a + b)[1..] == a[1..] + b;
      var r := ApplyOne(s, a[0]);
      if r.Applied? {
        ApplyConcat(r.state, a[1..], b);
      }
    }
  }

  /** A refused batch names the key of the first operation that does not apply. */
  lemma {:induction false} RefusalIsFirstFailure(s: State, ops: seq<Op>) returns (i: nat)
    requires !ApplyAll(s, ops).Applied?
    ensures i < |ops| && ApplyAll(s, ops[..i]).Applied?
    ensures ApplyOne(ApplyAll(s, ops[..i]).state, ops[i]) == ApplyAll(s, ops)
    decreases |ops|
  {
    var r := ApplyOne(s, ops[0]);
    if r.Applied? {
      var j := RefusalIsFirstFailure(r.state, ops[1..]);
      i := j + 1;
      assert ops[..i][0] == ops[0] && ops[..i][1..] == ops[1..][..j];
    } else {
      i := 0;
    }
  }

  // ----- what a batch means, key by key -----------------------------------------------------

  /** No operation before `n` names the key. */
  predicate Untouched(ops: seq<Op>, n: nat, k: Hash)
    requires n <= |ops|
  {
    forall i :: 0 <= i < n ==> ops[i].key != k
  }

  /** Operation `j` is the last before `n` on its key. */
  predicate LastBefore(ops: seq<Op>, n: nat, j: int)
    requires n <= |ops|
  {
    0 <= j < n && forall i :: j < i < n ==> ops[i].key != ops[j].key
  }

  /** The key is present when operation `n` comes: by the last earlier operation on it, or else from the start. */
  ghost predicate Held(s: State, ops: seq<Op>, n: nat, k: Hash)
    requires n <= |ops|
  {
    (Untouched(ops, n, k) && k in s) || exists j :: LastBefore(ops, n, j) && ops[j].key == k && !ops[j].Delete?
  }

  /** An insertion finds its key absent, an update or deletion finds it present. */
  ghost predicate Fit(s: State, ops: seq<Op>, n: nat)
    requires n < |ops|
  {
    if ops[n].Insert? then !Held(s, ops, n, ops[n].key) else Held(s, ops, n, ops[n].key)
  }

  /** Untouched keys are as before; any other key is as its last operation says. */
  ghost predicate Outcome(s: State, ops: seq<Op>, n: nat, r: State)
    requires n <= |ops|
  {
    && (forall k :: Untouched(ops, n, k) ==> SameAt(s, r, k))
    && (forall j :: LastBefore(ops, n, j) ==> Says(ops[j], r))
  }

  predicate SameAt(s: State, r: State, k: Hash) {
    (k in r <==> k in s) && (k in s ==> k in r && r[k] == s[k])
  }

  /** The state is what an operation leaves at its key. */
  predicate Says(op: Op, r: State) {
    match op
    case Insert(k, v) => k in r && r[k] == v
    case Update(k, v) => k in r && r[k] == v
    case Delete(k) => k !in r
  }

  lemma OneSays(r: State, op: Op)
    requires ApplyOne(r, op).Applied?
    ensures Says(op, ApplyOne(r, op).state)
    ensures forall k :: k != op.key ==> SameAt(r, ApplyOne(r, op).state, k)
  {
  }

  lemma SaysElsewhere(op: Op, r: State, r': State)
    requires Says(op, r) && SameAt(r, r', op.key)
    ensures Says(op, r')
  {
  }

  lemma TouchedHasLast(ops: seq<Op>, n: nat, k: Hash) returns (j: int)
    requires n <= |ops|
    ensures if j < 0 then Untouched(ops, n, k) else LastBefore(ops, n, j) && ops[j].key == k
  {
    j := n - 1;
    while j >= 0 && ops[j].key != k
      invariant -1 <= j < n && forall i :: j < i < n ==> ops[i].key != k
    {
      j := j - 1;
    }
  }

  lemma OneLast(ops: seq<Op>, n: nat, j: int, k: Hash)
    requires n <= |ops| && LastBefore(ops, n, j) && ops[j].key == k
    ensures !Untouched(ops, n, k) && forall i :: LastBefore(ops, n, i) && ops[i].key == k ==> i == j
  {
  }

  lemma HeldIsPresent(s: State, ops: seq<Op>, n: nat, r: State, k: Hash)
    requires n <= |ops| && Outcome(s, ops, n, r)
    ensures Held(s, ops, n, k) <==> k in r
  {
    var j := TouchedHasLast(ops, n, k);
    if j < 0 {
      assert SameAt(s, r, k);
    } else {
      assert Says(ops[j], r);
      OneLast(ops, n, j, k);
    }
  }

  lemma OutcomeStep(s: State, ops: seq<Op>, n: nat, r: State)
    requires n < |ops| && Outcome(s, ops, n, r) && ApplyOne(r, ops[n]).Applied?
    ensures Outcome(s, ops, n + 1, ApplyOne(r, ops[n]).state)
  {
    var r' := ApplyOne(r, ops[n]).state;
    OneSays(r, ops[n]);
    hide ApplyOne, Says;
    forall k | Untouched(ops, n + 1, k) ensures SameAt(s, r', k) {
      assert ops[n].key != k;
      assert Untouched(ops, n, k);
    }
    forall j | LastBefore(ops, n + 1, j) ensures Says(ops[j], r') {
      if j < n {
        assert ops[n].key != ops[j].key;
        assert LastBefore(ops, n, j);
        SaysElsewhere(ops[j], r, r');
      }
    }
  }

  lemma OneOp(s: State, op: Op)
    ensures ApplyAll(s, [op]) == ApplyOne(s, op)
  {
    var r := ApplyOne(s, op);
    if r.Applied? {
      assert [op][1..] == [];
    }
  }

  /** A prefix applies exactly if each of its operations fits, and then means what the last ones say. */
  lemma {:induction false} AppliesExactly(s: State, ops: seq<Op>, n: nat)
    requires n <= |ops|
    ensures ApplyAll(s, ops[..n]).Applied? <==> forall i :: 0 <= i < n ==> Fit(s, ops, i)
    ensures ApplyAll(s, ops[..n]).Applied? ==> Outcome(s, ops, n, ApplyAll(s, ops[..n]).state)
  {
    hide Outcome, Fit, ApplyAll;
    if n > 0 {
      AppliesExactly(s, ops, n - 1);
      StepApplies(s, ops, n - 1);
    } else {
      NoOps(s, ops);
    }
  }

  lemma NoOps(s: State, ops: seq<Op>)
    ensures ApplyAll(s, ops[..0]) == Applied(s) && Outcome(s, ops, 0, s)
  {
  }

  /** One more operation applies exactly if it fits. */
  lemma StepApplies(s: State, ops: seq<Op>, n: nat)
    requires n < |ops|
    requires ApplyAll(s, ops[..n]).Applied? ==> Outcome(s, ops, n, ApplyAll(s, ops[..n]).state)
    ensures ApplyAll(s, ops[..n + 1]).Applied? <==> ApplyAll(s, ops[..n]).Applied? && Fit(s, ops, n)
    ensures ApplyAll(s, ops[..n + 1]).Applied? ==> Outcome(s, ops, n + 1, ApplyAll(s, ops[..n + 1]).state)
  {
    hide Outcome, Held;
    assert ops[..n + 1] == ops[..n] + [ops[n]];
    ApplyConcat(s, ops[..n], [ops[n]]);
    var before := ApplyAll(s, ops[..n]);
    if before.Applied? {
      OneOp(before.state, ops[n]);
      HeldIsPresent(s, ops, n, before.state, ops[n].key);
      hide ApplyAll;
      if ApplyOne(before.state, ops[n]).Applied? {
        OutcomeStep(s, ops, n, before.state);
      }
    }
  }

  /** A refusal is due to the first operation that does not fit, and names its key. */
  lemma RefusalNamesFirstUnfit(s: State, ops: seq<Op>) returns (i: nat)
    requires !ApplyAll(s, ops).Applied?
    ensures i < |ops| && !Fit(s, ops, i) && (forall j :: 0 <= j < i ==> Fit(s, ops, j))
    ensures ApplyAll(s, ops) == if ops[i].Insert? then Duplicate(ops[i].key) else Absent(ops[i].key)
  {
    i := RefusalIsFirstFailure(s, ops);
    AppliesExactly(s, ops, i);
    HeldIsPresent(s, ops, i, ApplyAll(s, ops[..i]).state, ops[i].key);
  }

  lemma MeansWhatItSays(s: State, ops: seq<Op>)
    ensures var r := ApplyAll(s, ops);
            && (r.Applied? <==> forall i :: 0 <= i < |ops| ==> Fit(s, ops, i))
            && (r.Applied? ==> Outcome(s, ops, |ops|, r.state))
            && (!r.Applied? ==>
                  exists i :: 0 <= i < |ops| && !Fit(s, ops, i) && (forall j :: 0 <= j < i ==> Fit(s, ops, j))
                    && r == if ops[i].Insert? then Duplicate(ops[i].key) else Absent(ops[i].key))
  {
    hide Fit, Outcome;
    AppliesExactly(s, ops, |ops|);
    assert ops[..|ops|] == ops;
    if !ApplyAll(s, ops).Applied? {
      var i := RefusalNamesFirstUnfit(s, ops);
    }
  }

  class StateMap {
    var state: State

    constructor (state: State)
      ensures this.state == state
    {
      this.state := state;
    }

    /** Publishes the whole batch, or leaves the state as it was and reports why. */
    method ApplyBatch(ops: seq<Op>) returns (r: Result)
      modifies this
      ensures r == ApplyAll(old(state), ops)
      ensures state == if r.Applied? then r.state else old(state)
      ensures r.Applied? <==> forall i :: 0 <= i < |ops| ==> Fit(old(state), ops, i)
      ensures r.Applied? ==> Outcome(old(state), ops, |ops|, state)
      ensures !r.Applied? ==>
        exists i :: 0 <= i < |ops| && !Fit(old(state), ops, i) && (forall j :: 0 <= j < i ==> Fit(old(state), ops, j))
          && r == if ops[i].Insert? then Duplicate(ops[i].key) else Absent(ops[i].key)
    {
      MeansWhatItSays(state, ops);
      hide Fit, Outcome;
      var tree := state;
      var i := 0;
      while i < |ops|
        invariant i <= |ops| && state == old(state)
        invariant ApplyAll(tree, ops[i..]) == ApplyAll(old(state), ops)
      {
        var one := ApplyOne(tree, ops[i]);
        assert ops[i..][1..] == ops[i + 1..];
        if !one.Applied? {
          return one;
        }
        tree := one.state;
        i := i + 1;
      }
      state := tree;
      r := Applied(tree);
    }
  }
}
