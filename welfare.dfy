/** Utility curves, societal fairness and the baseline life-satisfaction
    distribution (WelfareMetrics.cs). */
module WelfareMetrics {

  /** Life satisfaction at or below this value means the respondent is dead. */
  const DeathThreshold: real := -0.9

  /** The ONS distribution of UK life satisfaction over the scores 0..10. */
  const OnsDistributionRaw: seq<real> :=
    [0.0040, 0.0030, 0.0100, 0.0210, 0.0350, 0.0750, 0.1000, 0.2240, 0.3150, 0.1510, 0.0620]

  /** Total probability of the valid scores 2..10 of the ONS distribution. */
  const ValidTotal: real := 0.993

  // ---------------------------------------------------------------------------
  // Sums

  /** s[lo] + ... + s[hi-1], accumulated from the left as the source's loops do. */
  function SumRange(s: seq<real>, lo: nat, hi: nat): real
    requires lo <= hi <= |s|
    decreases hi - lo
  {
    if lo == hi then 0.0 else SumRange(s, lo, hi - 1) + s[hi - 1]
  }

  /** Dividing every summand by the same positive total divides the sum by it. */
  lemma {:induction false} SumRangeScaled(a: seq<real>, b: seq<real>, total: real, lo: nat, hi: nat)
    requires lo <= hi <= |a| == |b| && total != 0.0
    requires forall i :: lo <= i < hi ==> a[i] == b[i] / total
    ensures SumRange(a, lo, hi) == SumRange(b, lo, hi) / total
  {
    if lo < hi {
      SumRangeScaled(a, b, total, lo, hi - 1);
    }
  }

  /** A sum of non-negative summands is non-negative. */
  lemma {:induction false} SumRangeNonNegative(s: seq<real>, lo: nat, hi: nat)
    requires lo <= hi <= |s|
    requires forall i :: lo <= i < hi ==> s[i] >= 0.0
    ensures SumRange(s, lo, hi) >= 0.0
  {
    if lo < hi {
      SumRangeNonNegative(s, lo, hi - 1);
    }
  }

  /** Sums over a range depend only on that range of the sequence. */
  lemma {:induction false} SumRangeFrame(a: seq<real>, b: seq<real>, lo: nat, hi: nat)
    requires lo <= hi <= |a| && hi <= |b|
    requires forall i :: lo <= i < hi ==> a[i] == b[i]
    ensures SumRange(a, lo, hi) == SumRange(b, lo, hi)
  {
    if lo < hi {
      SumRangeFrame(a, b, lo, hi - 1);
    }
  }

  // ---------------------------------------------------------------------------
  // Baseline distribution

  /** The ONS distribution with scores 0 and 1 discarded and the rest renormalised. */
  method GetBaselineDistribution() returns (dist: array<real>)
    ensures fresh(dist) && dist.Length == 11
    ensures dist[0] == 0.0 && dist[1] == 0.0
    ensures ValidTotal == SumRange(OnsDistributionRaw, 2, 11)
    ensures forall i :: 2 <= i < 11 ==> dist[i] == OnsDistributionRaw[i] / ValidTotal
    ensures forall i :: 0 <= i < 11 ==> dist[i] >= 0.0
    ensures SumRange(dist[..], 0, 11) == 1.0
  {
    dist := new real[11];
    var validTotal := ValidMass();

    dist[0] := 0.0;
    dist[1] := 0.0;
    var i := 2;
    while i < 11
      invariant 2 <= i <= 11
      invariant dist[0] == 0.0 && dist[1] == 0.0
      invariant forall j :: 2 <= j < i ==> dist[j] == OnsDistributionRaw[j] / validTotal
    {
      dist[i] := OnsDistributionRaw[i] / validTotal;
      i := i + 1;
    }
    RenormalisedSumsToOne(dist[..]);
  }

  /** The first loop of GetBaselineDistribution: the mass of the valid scores 2..10. */
  method ValidMass() returns (validTotal: real)
    ensures validTotal == SumRange(OnsDistributionRaw, 2, 11) == ValidTotal
  {
    validTotal := 0.0;
    var i := 2;
    while i < 11
      invariant 2 <= i <= 11
      invariant validTotal == SumRange(OnsDistributionRaw, 2, i)
    {
      validTotal := validTotal + OnsDistributionRaw[i];
      i := i + 1;
    }
    ValidTotalIsSum();
  }

  /** Scores 0 and 1 zeroed and the others divided by the valid mass: the
      result is a probability distribution. */
  lemma RenormalisedSumsToOne(d: seq<real>)
    requires |d| == 11 && d[0] == 0.0 && d[1] == 0.0
    requires forall i :: 2 <= i < 11 ==> d[i] == OnsDistributionRaw[i] / ValidTotal
    ensures SumRange(d, 0, 11) == 1.0
  {
    ValidTotalIsSum();
    SumRangeScaled(d, OnsDistributionRaw, ValidTotal, 2, 11);
    SumRangeSplitAfterZeros(d, 11);
  }

  /** The valid scores of the ONS distribution carry 99.3% of its mass. */
  lemma ValidTotalIsSum()
    ensures SumRange(OnsDistributionRaw, 2, 11) == ValidTotal
  {
    var raw := OnsDistributionRaw;
    assert SumRange(raw, 2, 2) == 0.0;
    assert SumRange(raw, 2, 3) == 0.0100;
    assert SumRange(raw, 2, 4) == 0.0310;
    assert SumRange(raw, 2, 5) == 0.0660;
    assert SumRange(raw, 2, 6) == 0.1410;
    assert SumRange(raw, 2, 7) == 0.2410;
    assert SumRange(raw, 2, 8) == 0.4650;
    assert SumRange(raw, 2, 9) == 0.7800;
    assert SumRange(raw, 2, 10) == 0.9310;
  }

  /** Leading zeros in positions 0 and 1 add nothing to the sum. */
  lemma {:induction false} SumRangeSplitAfterZeros(s: seq<real>, hi: nat)
    requires 2 <= hi <= |s| && s[0] == 0.0 && s[1] == 0.0
    ensures SumRange(s, 0, hi) == SumRange(s, 2, hi)
  {
    if hi > 2 {
      SumRangeSplitAfterZeros(s, hi - 1);
    }
  }

  // ---------------------------------------------------------------------------
  // Weighted dice roll

  /** Running probability of the scores 2..i of a distribution. */
  function Cumulative(d: seq<real>, i: nat): real
    requires 2 <= i < |d|
  {
    SumRange(d, 2, i + 1)
  }

  /** Some score at or above 2 has running probability at least r. */
  ghost predicate Reaches(d: seq<real>, r: real)
  {
    exists i :: 2 <= i < |d| && r <= Cumulative(d, i)
  }

  /** A life-satisfaction score drawn from `distribution` by the uniform draw `r`:
      the first score from 2 upward whose running probability reaches r,
      or 10 when none does. */
  method GetWeightedRandomLS(distribution: array<real>, r: real) returns (ls: int)
    ensures Reaches(distribution[..], r) ==>
      2 <= ls < distribution.Length && r <= Cumulative(distribution[..], ls) &&
      forall j :: 2 <= j < ls ==> Cumulative(distribution[..], j) < r
    ensures !Reaches(distribution[..], r) ==> ls == 10
    ensures distribution.Length == 11 ==> 2 <= ls <= 10
  {
    var cumulative := 0.0;
    var i := 2;
    while i < distribution.Length
      invariant 2 <= i
      invariant i <= distribution.Length || distribution.Length < 2
      invariant i <= distribution.Length ==> cumulative == SumRange(distribution[..], 2, i)
      invariant forall j :: 2 <= j < i && j < distribution.Length ==> Cumulative(distribution[..], j) < r
    {
      cumulative := cumulative + distribution[i];
      if r <= cumulative {
        assert r <= Cumulative(distribution[..], i);
        return i;
      }
      i := i + 1;
    }
    forall j | 2 <= j < distribution.Length
      ensures r > Cumulative(distribution[..], j)
    {
    }
    return 10;
  }

  /** On a distribution whose entries from 2 on sum to one, every draw in [0, 1]
      is answered by the running sum, so the fallback is never used. */
  lemma {:induction false} NormalisedAlwaysReaches(d: seq<real>, r: real)
    requires |d| >= 3 && SumRange(d, 2, |d|) == 1.0 && r <= 1.0
    ensures Reaches(d, r)
  {
    assert r <= Cumulative(d, |d| - 1);
  }

  // ---------------------------------------------------------------------------
  // Utility curve

  function Max(a: real, b: real): real { if a >= b then a else b }
  function Min(a: real, b: real): real { if a <= b then a else b }

  /** Mathf.CeilToInt on a real. */
  function Ceil(x: real): int
  {
    if x.Floor as real == x then x.Floor else x.Floor + 1
  }

  /** Mathf.Clamp01. */
  function Clamp01(t: real): real
  {
    if t < 0.0 then 0.0 else if t > 1.0 then 1.0 else t
  }

  /** Mathf.Lerp: interpolation from a to b with the weight clamped to [0, 1]. */
  function Lerp(a: real, b: real, t: real): real
  {
    a + (b - a) * Clamp01(t)
  }

  /** A clamped interpolation lies between its two end points. */
  lemma LerpBetween(a: real, b: real, t: real)
    ensures Min(a, b) <= Lerp(a, b, t) <= Max(a, b)
  {
    var w := Clamp01(t);
    assert 0.0 <= w <= 1.0;
    if a <= b {
      MulNonNegative(b - a, w);
      MulNonNegative(b - a, 1.0 - w);
    } else {
      MulNonNegative(a - b, w);
      MulNonNegative(a - b, 1.0 - w);
    }
  }

  lemma MulNonNegative(x: real, y: real)
    requires x >= 0.0 && y >= 0.0
    ensures x * y >= 0.0
  {
  }

  /** The utility a curve over the checkpoints (Death, 2, 4, 6, 8, 10) gives to
      a life-satisfaction score (GetUtilityForPerson). */
  function Utility(lsScore: real, curve: seq<real>): real
    requires |curve| >= 6
  {
    if lsScore <= DeathThreshold then curve[0]
    else
      var score := Max(lsScore, 2.0);
      var exactIndex := score / 2.0;
      var lower0 := exactIndex.Floor;
      var upper0 := Ceil(exactIndex);
      var lower1 := if lower0 < 1 then 1 else lower0;
      var upper := if upper0 > 5 then 5 else upper0;
      var lower := if lower1 > 5 then 5 else lower1;
      var t := exactIndex - lower as real;
      Lerp(curve[lower], curve[upper], t)
  }

  /** A dead respondent gets the curve's death utility. */
  lemma UtilityOfDeath(lsScore: real, curve: seq<real>)
    requires |curve| >= 6 && lsScore <= DeathThreshold
    ensures Utility(lsScore, curve) == curve[0]
  {
  }

  /** Scores between the death sentinel and 2 are read as 2; scores of 10
      and above give the LS-10 utility. */
  lemma UtilityClampedEnds(lsScore: real, curve: seq<real>)
    requires |curve| >= 6
    ensures DeathThreshold < lsScore <= 2.0 ==> Utility(lsScore, curve) == curve[1]
    ensures 10.0 <= lsScore ==> Utility(lsScore, curve) == curve[5]
  {
    if DeathThreshold < lsScore <= 2.0 {
      assert Max(lsScore, 2.0) == 2.0;
      assert (2.0 / 2.0).Floor == 1;
    }
    if 10.0 <= lsScore {
      var e := lsScore / 2.0;
      assert e >= 5.0;
      assert e.Floor >= 5;
      assert Ceil(e) >= 5;
    }
  }

  /** At the checkpoint LS = 2j the curve value j is returned exactly. */
  lemma UtilityAtCheckpoint(j: int, curve: seq<real>)
    requires |curve| >= 6 && 1 <= j <= 5
    ensures Utility(2.0 * j as real, curve) == curve[j]
  {
    var e := (2.0 * j as real) / 2.0;
    assert e == j as real;
    assert e.Floor == j;
    assert Ceil(e) == j;
  }

  /** Between 2 and 10 the utility is the linear interpolation between the
      checkpoints on either side of the score, and lies between them. */
  lemma UtilityInterpolates(lsScore: real, curve: seq<real>)
    requires |curve| >= 6 && 2.0 <= lsScore <= 10.0
    ensures var e := lsScore / 2.0;
      var lo := e.Floor; var hi := Ceil(e);
      1 <= lo <= hi <= 5 && hi - lo <= 1 &&
      Utility(lsScore, curve) == curve[lo] + (curve[hi] - curve[lo]) * (e - lo as real) &&
      Min(curve[lo], curve[hi]) <= Utility(lsScore, curve) <= Max(curve[lo], curve[hi])
  {
    var e := lsScore / 2.0;
    var lo := e.Floor;
    assert 1.0 <= e <= 5.0;
    assert 1 <= lo <= 5;
    assert 0.0 <= e - lo as real < 1.0;
    LerpBetween(curve[lo], curve[Ceil(e)], e - lo as real);
  }

  /** Smallest and largest of the six checkpoint values. */
  function CurveMin(curve: seq<real>): real
    requires |curve| >= 6
  {
    Min(Min(Min(curve[0], curve[1]), Min(curve[2], curve[3])), Min(curve[4], curve[5]))
  }

  function CurveMax(curve: seq<real>): real
    requires |curve| >= 6
  {
    Max(Max(Max(curve[0], curve[1]), Max(curve[2], curve[3])), Max(curve[4], curve[5]))
  }

  /** The utility never leaves the range of the curve's six values, so only
      indices 0..5 are ever read. */
  lemma UtilityWithinCurve(lsScore: real, curve: seq<real>)
    requires |curve| >= 6
    ensures CurveMin(curve) <= Utility(lsScore, curve) <= CurveMax(curve)
  {
    if lsScore > DeathThreshold {
      var score := Max(lsScore, 2.0);
      var e := score / 2.0;
      var lower0 := e.Floor;
      var upper0 := Ceil(e);
      var lower1 := if lower0 < 1 then 1 else lower0;
      var upper := if upper0 > 5 then 5 else upper0;
      var lower := if lower1 > 5 then 5 else lower1;
      assert 1 <= lower <= 5 && 1 <= upper <= 5;
      LerpBetween(curve[lower], curve[upper], e - lower as real);
    }
  }

  // ---------------------------------------------------------------------------
  // Societal fairness

  /** Arithmetic mean of a non-empty sequence. */
  function Mean(s: seq<real>): real
    requires |s| > 0
  {
    SumRange(s, 0, |s|) / |s| as real
  }

  /** The utility the observer's curve gives to each member of a population. */
  function UtilityProfile(populationLS: seq<real>, curve: seq<real>): (p: seq<real>)
    requires |curve| >= 6
    ensures |p| == |populationLS|
    ensures forall i :: 0 <= i < |p| ==> p[i] == Utility(populationLS[i], curve)
  {
    seq(|populationLS|, i requires 0 <= i < |populationLS| => Utility(populationLS[i], curve))
  }

  /** Mean utility the observer's curve gives to a non-empty population. */
  function MeanUtility(populationLS: seq<real>, curve: seq<real>): real
    requires |curve| >= 6 && |populationLS| > 0
  {
    Mean(UtilityProfile(populationLS, curve))
  }

  /** Societal fairness as the observer with `curve` judges the population
      whose life-satisfaction values are `populationLS` (EvaluateDistribution). */
  method EvaluateDistribution(populationLS: array<real>, curve: array<real>) returns (fairness: real)
    requires populationLS.Length > 0 && curve.Length >= 6
    ensures fairness == MeanUtility(populationLS[..], curve[..])
  {
    ghost var profile := UtilityProfile(populationLS[..], curve[..]);
    var totalUtility := 0.0;
    var i := 0;
    while i < populationLS.Length
      invariant 0 <= i <= populationLS.Length
      invariant totalUtility == SumRange(profile, 0, i)
    {
      totalUtility := totalUtility + Utility(populationLS[i], curve[..]);
      i := i + 1;
    }
    fairness := totalUtility / populationLS.Length as real;
  }

  /** A population entirely at L is judged as L itself. */
  lemma MeanOfUniformPopulation(populationLS: seq<real>, curve: seq<real>, level: real)
    requires |curve| >= 6 && |populationLS| > 0
    requires forall i :: 0 <= i < |populationLS| ==> populationLS[i] == level
    ensures MeanUtility(populationLS, curve) == Utility(level, curve)
  {
    var p := UtilityProfile(populationLS, curve);
    var u := Utility(level, curve);
    MeanBounds(p, u, u);
  }

  /** Fairness lies between the smallest and the largest value of the observer's curve. */
  lemma MeanWithinCurve(populationLS: seq<real>, curve: seq<real>)
    requires |curve| >= 6 && |populationLS| > 0
    ensures CurveMin(curve) <= MeanUtility(populationLS, curve) <= CurveMax(curve)
  {
    var p := UtilityProfile(populationLS, curve);
    var lo, hi := CurveMin(curve), CurveMax(curve);
    forall i | 0 <= i < |p|
      ensures lo <= p[i] <= hi
    {
      UtilityWithinCurve(populationLS[i], curve);
    }
    MeanBounds(p, lo, hi);
  }

  /** The mean of values that all lie in [lo, hi] lies in [lo, hi]. */
  lemma MeanBounds(s: seq<real>, lo: real, hi: real)
    requires |s| > 0
    requires forall i :: 0 <= i < |s| ==> lo <= s[i] <= hi
    ensures lo <= Mean(s) <= hi
  {
    SumRangeBounds(s, 0, |s|, lo, hi);
    DivBounds(SumRange(s, 0, |s|), |s| as real, lo, hi);
  }

  lemma DivBounds(s: real, n: real, lo: real, hi: real)
    requires n > 0.0 && n * lo <= s <= n * hi
    ensures lo <= s / n <= hi
  {
    assert s / n * n == s;
  }

  /** A sum of (hi - lo) values that all lie in [lower, upper] lies in
      [(hi - lo) * lower, (hi - lo) * upper]. */
  lemma {:induction false} SumRangeBounds(s: seq<real>, lo: nat, hi: nat, lower: real, upper: real)
    requires lo <= hi <= |s|
    requires forall i :: lo <= i < hi ==> lower <= s[i] <= upper
    ensures (hi - lo) as real * lower <= SumRange(s, lo, hi) <= (hi - lo) as real * upper
  {
    if lo < hi {
      SumRangeBounds(s, lo, hi - 1, lower, upper);
      assert (hi - lo) as real * lower == (hi - 1 - lo) as real * lower + lower;
      assert (hi - lo) as real * upper == (hi - 1 - lo) as real * upper + upper;
    }
  }

  /** Fairness does not depend on the order of the population. */
  lemma MeanInvariantUnderPermutation(a: seq<real>, b: seq<real>, curve: seq<real>)
    requires |curve| >= 6 && |a| > 0 && multiset(a) == multiset(b)
    ensures |b| == |a| && MeanUtility(a, curve) == MeanUtility(b, curve)
  {
    assert |a| == |multiset(a)| == |multiset(b)| == |b|;
    ProfilePermutation(a, b, curve);
    SumInvariantUnderPermutation(UtilityProfile(a, curve), UtilityProfile(b, curve));
  }

  /** Permuting a population permutes its utility profile. */
  lemma {:induction false} ProfilePermutation(a: seq<real>, b: seq<real>, curve: seq<real>)
    requires |curve| >= 6 && multiset(a) == multiset(b)
    ensures multiset(UtilityProfile(a, curve)) == multiset(UtilityProfile(b, curve))
    decreases |a|
  {
    if |a| == 0 {
      assert |b| == |multiset(b)| == 0;
    } else {
      var j := MatchLast(a, b);
      var a', b1, b2 := a[..|a| - 1], b[..j], b[j + 1..];
      ProfilePermutation(a', b1 + b2, curve);
      var u := [Utility(a[|a| - 1], curve)];
      assert UtilityProfile(a, curve) == UtilityProfile(a', curve) + u;
      assert UtilityProfile(b, curve) == UtilityProfile(b1, curve) + u + UtilityProfile(b2, curve);
      assert UtilityProfile(b1 + b2, curve) == UtilityProfile(b1, curve) + UtilityProfile(b2, curve);
    }
  }

  /** In a permutation of a, some position j holds a's last element, and the
      rest of the two sequences are again permutations of each other. */
  lemma MatchLast<T>(a: seq<T>, b: seq<T>) returns (j: nat)
    requires |a| > 0 && multiset(a) == multiset(b)
    ensures j < |b| && b[j] == a[|a| - 1]
    ensures b == b[..j] + [b[j]] + b[j + 1..]
    ensures multiset(a[..|a| - 1]) == multiset(b[..j] + b[j + 1..])
  {
    var x := a[|a| - 1];
    assert a == a[..|a| - 1] + [x];
    assert x in multiset(b);
    j :| 0 <= j < |b| && b[j] == x;
    assert b == b[..j] + [x] + b[j + 1..];
    calc {
      multiset(a[..|a| - 1]);
      multiset(a) - multiset{x};
      multiset(b) - multiset{x};
      multiset(b[..j] + b[j + 1..]);
    }
  }

  /** A sum does not depend on the order of its summands. */
  lemma {:induction false} SumInvariantUnderPermutation(a: seq<real>, b: seq<real>)
    requires multiset(a) == multiset(b)
    ensures |a| == |b| && SumRange(a, 0, |a|) == SumRange(b, 0, |b|)
    decreases |a|
  {
    assert |a| == |multiset(a)| == |multiset(b)| == |b|;
    if |a| > 0 {
      var j := MatchLast(a, b);
      var a' := a[..|a| - 1];
      SumInvariantUnderPermutation(a', b[..j] + b[j + 1..]);
      SumRangeFrame(a, a', 0, |a'|);
      SumRemoveAt(b, j);
    }
  }

  /** Removing the entry at j removes exactly that entry from the total. */
  lemma {:induction false} SumRemoveAt(b: seq<real>, j: nat)
    requires j < |b|
    ensures SumRange(b, 0, |b|) == SumRange(b[..j] + b[j + 1..], 0, |b| - 1) + b[j]
    decreases |b|
  {
    var b' := b[..j] + b[j + 1..];
    if j == |b| - 1 {
      SumRangeFrame(b, b', 0, |b| - 1);
    } else {
      var c := b[..|b| - 1];
      assert c[..j] + c[j + 1..] == b'[..|b'| - 1];
      SumRemoveAt(c, j);
      SumRangeFrame(b, c, 0, |b| - 1);
      SumRangeFrame(c[..j] + c[j + 1..], b', 0, |b'| - 1);
      assert b'[|b'| - 1] == b[|b| - 1];
    }
  }
}
