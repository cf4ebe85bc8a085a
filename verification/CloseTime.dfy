/** Close-time rounding and the ladder of close-time resolutions. */
module CloseTime {
  import opened Arith

  /** The possible resolutions in seconds, finest first. */
  const LADDER: seq<nat> := [10, 20, 30, 60, 90, 120]
  const TOP_RUNG: nat := 5
  const INCREASE_EVERY: nat := 8

  type Seconds8 = s: nat | s < 256
  type Time32 = t: nat | t < U32

  /** Position of a resolution on the ladder; six when it is not there. */
  function RungOf(resolution: Seconds8): (rung: nat)
    ensures resolution in LADDER <==> rung <= TOP_RUNG
    ensures rung <= TOP_RUNG ==> LADDER[rung] == resolution
  {
    if resolution == 10 then 0 else if resolution == 20 then 1 else if resolution == 30 then 2
    else if resolution == 60 then 3 else if resolution == 90 then 4 else if resolution == 120 then 5 else 6
  }

  /** `get_next_ledger_time_resolution`: coarser at once on disagreement, finer every eighth ledger. */
  function NextResolution(previous: Seconds8, agreed: bool, number: nat): Seconds8 {
    var rung := RungOf(previous);
    if rung > TOP_RUNG then previous
    else if !agreed then LADDER[if rung < TOP_RUNG then rung + 1 else rung]
    else if number % INCREASE_EVERY == 0 then LADDER[if rung > 0 then rung - 1 else rung]
    else previous
  }

  /** The resolution `k` ledgers after one with `start` at sequence `number`, all with one verdict. */
  function After(start: Seconds8, agreed: bool, number: nat, k: nat): Seconds8
    decreases k
  {
    if k == 0 then start
    else NextResolution(After(start, agreed, number, k - 1), agreed, (number + k) % U32)
  }

  /** The resolution `k` ledgers after one with `start` at sequence `number`, each ledger with its own verdict. */
  function Along(start: Seconds8, verdicts: seq<bool>, number: nat, k: nat): Seconds8
    requires k <= |verdicts|
    decreases k
  {
    if k == 0 then start
    else NextResolution(Along(start, verdicts, number, k - 1), verdicts[k - 1], (number + k) % U32)
  }

  /** Where the verdicts of the last ledgers agree, only they and the resolution before them count. */
  lemma {:induction false} AlongEndsAlike(start: Seconds8, verdicts: seq<bool>, number: nat, from: nat, k: nat, verdict: bool)
    requires from <= k <= |verdicts| && forall j :: from <= j < k ==> verdicts[j] == verdict
    ensures Along(start, verdicts, number, k) == After(Along(start, verdicts, number, from), verdict, number + from, k - from)
    decreases k
  {
    hide NextResolution;
    if from < k {
      AlongEndsAlike(start, verdicts, number, from, k - 1, verdict);
    }
  }

  lemma {:induction false} AlongStaysOnLadder(start: Seconds8, verdicts: seq<bool>, number: nat, k: nat)
    requires start in LADDER && k <= |verdicts|
    ensures Along(start, verdicts, number, k) in LADDER
  {
    if k > 0 {
      AlongStaysOnLadder(start, verdicts, number, k - 1);
      OneStep(Along(start, verdicts, number, k - 1), verdicts[k - 1], (number + k) % U32);
    }
  }

  /** Whatever came before, forty agreeing ledgers end at the finest resolution and five disagreeing at the coarsest. */
  lemma RecentVerdictsDecide(start: Seconds8, verdicts: seq<bool>, number: nat, k: nat)
    requires start in LADDER && k <= |verdicts|
    ensures k >= 40 && (forall j :: k - 40 <= j < k ==> verdicts[j]) ==> Along(start, verdicts, number, k) == 10
    ensures k >= 5 && (forall j :: k - 5 <= j < k ==> !verdicts[j]) ==> Along(start, verdicts, number, k) == 120
  {
    hide After, NextResolution, Along;
    if k >= 40 && forall j :: k - 40 <= j < k ==> verdicts[j] {
      AlongStaysOnLadder(start, verdicts, number, k - 40);
      AlongEndsAlike(start, verdicts, number, k - 40, k, true);
      LadderEnds(Along(start, verdicts, number, k - 40), number + (k - 40));
    }
    if k >= 5 && forall j :: k - 5 <= j < k ==> !verdicts[j] {
      AlongStaysOnLadder(start, verdicts, number, k - 5);
      AlongEndsAlike(start, verdicts, number, k - 5, k, false);
      LadderEnds(Along(start, verdicts, number, k - 5), number + (k - 5));
    }
  }

  /** Wrapping the sequence does not disturb the beat of eight. */
  lemma BeatSurvivesWrap(n: nat)
    ensures (n % U32) % 8 == n % 8
  {
    assert n == U32 * (n / U32) + n % U32;
  }

  lemma OneStep(previous: Seconds8, agreed: bool, number: nat)
    requires previous in LADDER
    ensures var rung := RungOf(previous);
            RungOf(NextResolution(previous, agreed, number)) ==
            if !agreed then (if rung < TOP_RUNG then rung + 1 else rung)
            else if number % 8 == 0 && rung > 0 then rung - 1 else rung
    ensures NextResolution(previous, agreed, number) in LADDER
  {
  }

  /** Closed form: agreeing ledgers climb one rung per multiple of eight passed. */
  lemma {:induction false} Agreeing(start: Seconds8, number: nat, k: nat)
    requires start in LADDER
    ensures var steps := (number + k) / 8 - number / 8;
            RungOf(After(start, true, number, k)) == if RungOf(start) >= steps then RungOf(start) - steps else 0
  {
    if k > 0 {
      Agreeing(start, number, k - 1);
      hide RungOf, NextResolution;
      BeatSurvivesWrap(number + k);
      OneStep(After(start, true, number, k - 1), true, (number + k) % U32);
    }
  }

  /** Closed form: disagreeing ledgers fall one rung each. */
  lemma {:induction false} Disagreeing(start: Seconds8, number: nat, k: nat)
    requires start in LADDER
    ensures RungOf(After(start, false, number, k)) == if RungOf(start) + k <= TOP_RUNG then RungOf(start) + k else TOP_RUNG
  {
    if k > 0 {
      Disagreeing(start, number, k - 1);
      hide RungOf, NextResolution;
      OneStep(After(start, false, number, k - 1), false, (number + k) % U32);
    }
  }

  /** Forty agreeing ledgers reach the finest resolution from anywhere, five disagreeing the coarsest. */
  lemma LadderEnds(start: Seconds8, number: nat)
    requires start in LADDER
    ensures After(start, true, number, 40) == 10
    ensures After(start, false, number, 5) == 120
  {
    hide After, NextResolution;
    Agreeing(start, number, 40);
    Disagreeing(start, number, 5);
  }

  /** Neither bound can be lowered, and a resolution off the ladder never moves. */
  lemma LadderBoundsAreTight(odd: Seconds8, agreed: bool, number: nat, k: nat)
    ensures After(120, true, 0, 39) == 20
    ensures After(10, false, number, 4) == 90
    ensures odd !in LADDER ==> After(odd, agreed, number, k) == odd
  {
    hide After, NextResolution;
    Agreeing(120, 0, 39);
    Disagreeing(10, number, 4);
    OffLadder(odd, agreed, number, k);
  }

  lemma {:induction false} OffLadder(odd: Seconds8, agreed: bool, number: nat, k: nat)
    ensures odd !in LADDER ==> After(odd, agreed, number, k) == odd
  {
    if k > 0 {
      OffLadder(odd, agreed, number, k - 1);
    }
  }

  // ----- rounding -----------------------------------------------------------------------

  /** `round_close_time`; `None` when the 32-bit addition overflows. */
  datatype Rounded = Time(t: Time32) | Overflow

  function RoundCloseTime(time: Time32, resolution: Seconds8): Rounded {
    if time == 0 || resolution == 0 then Time(time)
    else
      var shifted := time + resolution / 2;
      if shifted >= U32 then Overflow
      else RemainderFits(shifted, resolution); Time(shifted - shifted % resolution)
  }

  lemma RemainderFits(x: nat, n: nat)
    requires n > 0
    ensures 0 <= x - x % n <= x && x - x % n == n * (x / n)
  {
  }

  /** A time is rounded unless half a step does not fit 32 bits; zero and a zero resolution leave it as it is. */
  lemma RoundsExactlyIf(time: Time32, resolution: Seconds8)
    ensures RoundCloseTime(time, resolution).Overflow? <==> time > 0 && resolution > 0 && time + resolution / 2 >= U32
    ensures time == 0 || resolution == 0 ==> RoundCloseTime(time, resolution) == Time(time)
  {
  }

  /** Without overflow the result is a multiple of the resolution at most half a step away. */
  lemma RoundingIsNearest(time: Time32, resolution: Seconds8)
    requires resolution > 0 && RoundCloseTime(time, resolution).Time?
    ensures var r := RoundCloseTime(time, resolution).t;
            && r % resolution == 0
            && r <= time + resolution / 2 && time < r + resolution - resolution / 2
  {
    var shifted := time + resolution / 2;
    if time > 0 {
      RemainderFits(shifted, resolution);
      DivModUnique(resolution * (shifted / resolution), shifted / resolution, resolution, 0);
    } else {
      DivModUnique(0, 0, resolution, 0);
    }
  }

  lemma MultipleIsFixed(q: nat, resolution: Seconds8)
    requires resolution > 0 && resolution * q + resolution / 2 < U32
    ensures RoundCloseTime(resolution * q, resolution) == Time(resolution * q)
  {
    DivModUnique(resolution * q + resolution / 2, q, resolution, resolution / 2);
  }

  /** A multiple of the resolution rounds to itself; hence rounding twice is rounding once. */
  lemma RoundingIsIdempotent(time: Time32, resolution: Seconds8)
    requires RoundCloseTime(time, resolution).Time?
    requires RoundCloseTime(time, resolution).t + resolution / 2 < U32
    ensures RoundCloseTime(RoundCloseTime(time, resolution).t, resolution) == RoundCloseTime(time, resolution)
  {
    if time > 0 && resolution > 0 {
      RemainderFits(time + resolution / 2, resolution);
      MultipleIsFixed((time + resolution / 2) / resolution, resolution);
    }
  }

  lemma DivMonotone(a: nat, b: nat, n: nat)
    requires a <= b && n > 0
    ensures n * (a / n) <= n * (b / n)
  {
    var p, q := a / n, b / n;
    if p > q {
      Arith.MulAtLeast(p - q, n);
    }
  }

  lemma RoundingIsMonotone(a: Time32, b: Time32, resolution: Seconds8)
    requires a <= b
    requires RoundCloseTime(a, resolution).Time? && RoundCloseTime(b, resolution).Time?
    ensures RoundCloseTime(a, resolution).t <= RoundCloseTime(b, resolution).t
  {
    if a > 0 && resolution > 0 {
      DivMonotone(a + resolution / 2, b + resolution / 2, resolution);
      RemainderFits(a + resolution / 2, resolution);
      RemainderFits(b + resolution / 2, resolution);
    }
  }
}
