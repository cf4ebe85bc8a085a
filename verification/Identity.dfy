/** Typed identities of the acquisition domain and the counter that mints them. */
module Identity {
  import opened Arith

  datatype Option<+T> = None | Some(value: T)

  /** A 256-bit hash; only its identity and its zero value matter here. */
  type Hash = nat

  /** How many identities a counter yields before the first one comes back. */
  const FRESH_IDS: nat := U64 - 1

  datatype SessionRef = SessionRef(
    runEpoch: nat,
    sessionId: nat,
    targetHash: Hash,
    planEpoch: nat,
    storeGeneration: nat)

  datatype OperationKind =
    | TreeTurn | CpuTurn | Read | HeaderRead | RecoveryRead | Write
    | DurabilityFence | PeerRequest | Timer | AdmissionLease | DurableHandoff

  datatype OperationRef = OperationRef(
    session: SessionRef,
    kind: OperationKind,
    operationId: nat,
    generation: nat)
  {
    /** The exact in-flight operation: every component must agree. */
    predicate IsExpectedFor(expected: OperationRef): (exact: bool)
      ensures exact <==> this == expected
    {
      && session == expected.session
      && kind == expected.kind
      && operationId == expected.operationId
      && generation == expected.generation
    }
  }

  /** The identity yielded by the (n+1)-th mint of a counter that started at 1. */
  function NthId(n: nat): (id: nat)
    ensures 1 <= id < U64
  {
    n % FRESH_IDS + 1
  }

  /** The 64-bit counter: wrapping increment, skipping the reserved value 0. */
  class IdCounter {
    var next: nat
    ghost var mints: nat

    ghost predicate Valid()
      reads this
    {
      next == NthId(mints)
    }

    constructor ()
      ensures Valid() && mints == 0 && next == 1
    {
      next, mints := 1, 0;
    }

    method NextId() returns (id: nat)
      requires Valid()
      modifies this
      ensures Valid() && mints == old(mints) + 1
      ensures id == NthId(old(mints))
    {
      id := next;
      var wrapped := (next + 1) % U64;
      next := if wrapped < 1 then 1 else wrapped;
      NthIdStep(mints);
      mints := mints + 1;
    }
  }

  lemma NthIdStep(n: nat)
    ensures NthId(n + 1) == if (NthId(n) + 1) % U64 < 1 then 1 else (NthId(n) + 1) % U64
  {
    var r := n % FRESH_IDS;
    assert n == n / FRESH_IDS * FRESH_IDS + r;
    if r + 1 < FRESH_IDS {
      RemainderUnique(n + 1, n / FRESH_IDS, r + 1);
    } else {
      RemainderUnique(n + 1, n / FRESH_IDS + 1, 0);
    }
  }

  lemma RemainderUnique(n: nat, q: nat, r: nat)
    requires n == q * FRESH_IDS + r && r < FRESH_IDS
    ensures n % FRESH_IDS == r
  {
  }

  /** Two mints collide exactly when they are a whole number of laps apart. */
  lemma IdsCollideExactly(i: nat, j: nat)
    requires i <= j
    ensures NthId(i) == NthId(j) <==> (j - i) % FRESH_IDS == 0
  {
    var a, b := i % FRESH_IDS, j % FRESH_IDS;
    assert i == i / FRESH_IDS * FRESH_IDS + a;
    assert j == j / FRESH_IDS * FRESH_IDS + b;
    var laps := j / FRESH_IDS - i / FRESH_IDS;
    assert j - i == laps * FRESH_IDS + (b - a);
    if b >= a {
      RemainderUnique(j - i, laps, b - a);
    } else {
      RemainderUnique(j - i, laps - 1, FRESH_IDS + b - a);
    }
  }
}
