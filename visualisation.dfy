/** The display-side logic of the plot (VisualisationManager.cs): what value
    each axis shows, the fixed or data-driven axis ranges, the stacked
    histogram heights, the alive-only extents and the face each respondent
    wears. Rendering itself is not part of this model. */
module Visualisation {
  import opened Axes
  import opened Respondents
  import W = WelfareMetrics
  import S = Simulation
  import P = Policies

  /** Width of a histogram bin in stack mode. */
  const StackBinSize: real := 0.25

  /** float.MaxValue and float.MinValue, the sentinels of an empty extent. */
  const FloatMax: real := 340282346638528859811704183484516925440.0
  const FloatMin: real := -FloatMax

  /** The four face sprites. */
  datatype Face = Green | Yellow | Red | Dead

  /** The left (self) and right (society) halves of a face. */
  datatype FacePair = FacePair(left: Face, right: Face)

  /** A displayed axis range. */
  datatype Range = Range(min: real, max: real)

  // ---------------------------------------------------------------------------
  // Axis values

  /** CalculateAxisValue: the value a respondent with these curves shows on
      an axis, at `ls` against a baseline of `baseLS`, in a population at
      `popLS` against `popBaseLS`. Wealth shows `ls`, as the code does. */
  function CalculateAxisValue(axis: AxisVariable, personal: seq<real>, societal: seq<real>,
                              ls: real, baseLS: real, popLS: seq<real>, popBaseLS: seq<real>): (v: real)
    requires |personal| >= 6 && |societal| >= 6 && |popLS| > 0 && |popBaseLS| > 0
  {
    match axis
    case LifeSatisfaction => ls
    case PersonalUtility => W.Utility(ls, personal)
    case SocietalFairness => W.MeanUtility(popLS, societal)
    case Wealth => ls
    case DeltaPersonalUtility => W.Utility(ls, personal) - W.Utility(baseLS, personal)
    case DeltaSocietalFairness => W.MeanUtility(popLS, societal) - W.MeanUtility(popBaseLS, societal)
    case Stack => 0.0
  }

  /** A delta axis shows the current level of its metric minus the baseline
      level of the same metric, Wealth shows life satisfaction like the LS
      axis, and the Stack axis shows 0. */
  lemma DeltaIsDifferenceOfLevels(personal: seq<real>, societal: seq<real>,
                                  ls: real, baseLS: real, popLS: seq<real>, popBaseLS: seq<real>)
    requires |personal| >= 6 && |societal| >= 6 && |popLS| > 0 && |popBaseLS| > 0
    ensures CalculateAxisValue(DeltaPersonalUtility, personal, societal, ls, baseLS, popLS, popBaseLS) ==
      CalculateAxisValue(PersonalUtility, personal, societal, ls, baseLS, popLS, popBaseLS) -
      CalculateAxisValue(PersonalUtility, personal, societal, baseLS, baseLS, popBaseLS, popBaseLS)
    ensures CalculateAxisValue(DeltaSocietalFairness, personal, societal, ls, baseLS, popLS, popBaseLS) ==
      CalculateAxisValue(AxisVariable.SocietalFairness, personal, societal, ls, baseLS, popLS, popBaseLS) -
      CalculateAxisValue(AxisVariable.SocietalFairness, personal, societal, baseLS, baseLS, popBaseLS, popBaseLS)
    ensures CalculateAxisValue(Wealth, personal, societal, ls, baseLS, popLS, popBaseLS) ==
      CalculateAxisValue(LifeSatisfaction, personal, societal, ls, baseLS, popLS, popBaseLS)
    ensures CalculateAxisValue(Stack, personal, societal, ls, baseLS, popLS, popBaseLS) == 0.0
  {
  }

  /** The baseline position of pass 2 evaluates every axis at the baseline
      itself, so both delta axes are 0 there. */
  lemma BaselineDeltasVanish(personal: seq<real>, societal: seq<real>, baseLS: real, popBaseLS: seq<real>)
    requires |personal| >= 6 && |societal| >= 6 && |popBaseLS| > 0
    ensures CalculateAxisValue(DeltaPersonalUtility, personal, societal, baseLS, baseLS, popBaseLS, popBaseLS) == 0.0
    ensures CalculateAxisValue(DeltaSocietalFairness, personal, societal, baseLS, baseLS, popBaseLS, popBaseLS) == 0.0
  {
  }

  /** With curves inside [0, 1], both utility axes stay inside their fixed
      display range [0, 1] and the delta axes inside [-1, 1], the default
      delta window. */
  lemma UtilityAxesWithinFixedRanges(personal: seq<real>, societal: seq<real>,
                                     ls: real, baseLS: real, popLS: seq<real>, popBaseLS: seq<real>)
    requires |personal| >= 6 && |societal| >= 6 && |popLS| > 0 && |popBaseLS| > 0
    requires forall k :: 0 <= k < 6 ==> 0.0 <= personal[k] <= 1.0 && 0.0 <= societal[k] <= 1.0
    ensures 0.0 <= CalculateAxisValue(PersonalUtility, personal, societal, ls, baseLS, popLS, popBaseLS) <= 1.0
    ensures 0.0 <= CalculateAxisValue(AxisVariable.SocietalFairness, personal, societal, ls, baseLS, popLS, popBaseLS) <= 1.0
    ensures -1.0 <= CalculateAxisValue(DeltaPersonalUtility, personal, societal, ls, baseLS, popLS, popBaseLS) <= 1.0
    ensures -1.0 <= CalculateAxisValue(DeltaSocietalFairness, personal, societal, ls, baseLS, popLS, popBaseLS) <= 1.0
  {
    W.UtilityWithinCurve(ls, personal);
    W.UtilityWithinCurve(baseLS, personal);
    W.MeanWithinCurve(popLS, societal);
    W.MeanWithinCurve(popBaseLS, societal);
    CurveWithinUnit(personal);
    CurveWithinUnit(societal);
  }

  /** A curve whose six checkpoints lie in [0, 1] has its extremes there too. */
  lemma CurveWithinUnit(c: seq<real>)
    requires |c| >= 6 && forall k :: 0 <= k < 6 ==> 0.0 <= c[k] <= 1.0
    ensures 0.0 <= W.CurveMin(c) && W.CurveMax(c) <= 1.0
  {
    assert 0.0 <= c[0] <= 1.0 && 0.0 <= c[1] <= 1.0 && 0.0 <= c[2] <= 1.0;
    assert 0.0 <= c[3] <= 1.0 && 0.0 <= c[4] <= 1.0 && 0.0 <= c[5] <= 1.0;
  }

  /** The values of an axis for the whole population, respondent by respondent. */
  function AxisValues(axis: AxisVariable, personal: seq<seq<real>>, societal: seq<seq<real>>,
                      cur: seq<real>, base: seq<real>): (v: seq<real>)
    requires S.WellFormed(personal) && S.WellFormed(societal)
    requires |personal| == |cur| && |societal| == |cur| && |base| == |cur|
    ensures |v| == |cur|
  {
    AxisPrefix(axis, personal, societal, cur, base, |cur|)
  }

  /** The values of an axis for the first n respondents. */
  function AxisPrefix(axis: AxisVariable, personal: seq<seq<real>>, societal: seq<seq<real>>,
                      cur: seq<real>, base: seq<real>, n: nat): (v: seq<real>)
    requires S.WellFormed(personal) && S.WellFormed(societal)
    requires |personal| == |cur| && |societal| == |cur| && |base| == |cur| && n <= |cur|
    ensures |v| == n
  {
    if n == 0 then []
    else
      AxisPrefix(axis, personal, societal, cur, base, n - 1) +
      [CalculateAxisValue(axis, personal[n - 1], societal[n - 1], cur[n - 1], base[n - 1], cur, base)]
  }

  /** Respondent j's entry among the axis values is the value CalculateAxisValue
      gives for its own curves and life satisfaction in the whole population. */
  lemma {:induction false} AxisValueAt(axis: AxisVariable, personal: seq<seq<real>>, societal: seq<seq<real>>,
                                       cur: seq<real>, base: seq<real>, n: nat, j: nat)
    requires S.WellFormed(personal) && S.WellFormed(societal)
    requires |personal| == |cur| && |societal| == |cur| && |base| == |cur| && j < n <= |cur|
    ensures AxisPrefix(axis, personal, societal, cur, base, n)[j] ==
      CalculateAxisValue(axis, personal[j], societal[j], cur[j], base[j], cur, base)
  {
    if j < n - 1 {
      AxisValueAt(axis, personal, societal, cur, base, n - 1, j);
    }
  }

  // ---------------------------------------------------------------------------
  // Axis ranges

  /** GetFinalRange: the range an axis is drawn with, given the extent of
      the alive data on it. Every declared axis has a fixed or a Stack range;
      the auto-scaling fallback is AutoRange. */
  function GetFinalRange(axis: AxisVariable, min: real, max: real, deltaScaleRange: real): (r: Range)
    ensures (axis == LifeSatisfaction || axis == Wealth) ==> r == Range(0.0, 10.0)
    ensures (axis == PersonalUtility || axis == AxisVariable.SocietalFairness) ==> r == Range(0.0, 1.0)
    ensures (axis == DeltaPersonalUtility || axis == DeltaSocietalFairness) ==>
      r == Range(-deltaScaleRange, deltaScaleRange)
    ensures axis == Stack ==> r.min == 0.0 && r.max >= 5.0 && r.max >= max
  {
    match axis
    case LifeSatisfaction => Range(0.0, 10.0)
    case Wealth => Range(0.0, 10.0)
    case PersonalUtility => Range(0.0, 1.0)
    case SocietalFairness => Range(0.0, 1.0)
    case DeltaPersonalUtility => Range(-deltaScaleRange, deltaScaleRange)
    case DeltaSocietalFairness => Range(-deltaScaleRange, deltaScaleRange)
    case Stack => Range(0.0, W.Max(max, 5.0))
  }

  /** The fixed ranges ignore the data, and the Stack range is [0, 5] until
      some stack holds more than five respondents. */
  lemma FinalRangeIgnoresData(axis: AxisVariable, min: real, max: real, min': real, max': real, d: real)
    requires axis != Stack
    ensures GetFinalRange(axis, min, max, d) == GetFinalRange(axis, min', max', d)
    ensures max <= 5.0 ==> GetFinalRange(Stack, min, max, d) == Range(0.0, 5.0)
    ensures max > 5.0 ==> GetFinalRange(Stack, min, max, d) == Range(0.0, max)
  {
  }

  /** The auto-scaling fallback of GetFinalRange: a small window around 0
      without data (or with both extents 0), otherwise the symmetric window
      5% wider than the larger magnitude. */
  function AutoRange(min: real, max: real): (r: Range)
    ensures r.min == -r.max && r.max > 0.0
  {
    if min == FloatMax || max == FloatMin || (min == 0.0 && max == 0.0) then Range(-0.1, 0.1)
    else
      var absMax := W.Max(P.Abs(min), P.Abs(max)) * 1.05;
      Range(-absMax, absMax)
  }

  /** The fallback window contains the data extent. */
  lemma AutoRangeCoversData(min: real, max: real)
    ensures min != FloatMax && max != FloatMin ==>
      AutoRange(min, max).min <= min && max <= AutoRange(min, max).max
  {
    if !(min == FloatMax || max == FloatMin || (min == 0.0 && max == 0.0)) {
      var m := W.Max(P.Abs(min), P.Abs(max));
      assert m > 0.0;
      assert m * 1.05 >= m;
    }
  }

  // ---------------------------------------------------------------------------
  // Stack mode

  /** Mathf.Round and Mathf.RoundToInt: the nearest integer, halves going to
      the even neighbour. */
  function Round(x: real): (n: int)
    ensures x - 0.5 <= n as real <= x + 0.5
  {
    var f := x.Floor;
    var frac := x - f as real;
    if frac < 0.5 then f
    else if frac > 0.5 then f + 1
    else if f % 2 == 0 then f else f + 1
  }

  /** Rounding an integer gives it back. */
  lemma RoundOfInteger(n: int)
    ensures Round(n as real) == n
  {
  }

  /** The x value snapped to the centre of its bin. */
  function Snap(x: real): real
  {
    Round(x / StackBinSize) as real * StackBinSize
  }

  /** The dictionary key of a snapped value: its value in hundredths. */
  function BinKey(snapped: real): int
  {
    Round(snapped * 100.0)
  }

  /** A snapped value is a multiple of 0.25, so its key is exact and two
      snapped values share a key exactly when they are equal. */
  lemma BinKeyIsExact(x: real, y: real)
    ensures BinKey(Snap(x)) as real == Snap(x) * 100.0
    ensures BinKey(Snap(x)) == BinKey(Snap(y)) <==> Snap(x) == Snap(y)
  {
    var n := Round(x / StackBinSize);
    var m := Round(y / StackBinSize);
    assert Snap(x) * 100.0 == (25 * n) as real;
    assert Snap(y) * 100.0 == (25 * m) as real;
    RoundOfInteger(25 * n);
    RoundOfInteger(25 * m);
  }

  /** Number of the first n keys equal to `key`. */
  function EarlierCount(keys: seq<int>, key: int, n: nat): (k: nat)
    requires n <= |keys|
    ensures k <= n
  {
    if n == 0 then 0 else EarlierCount(keys, key, n - 1) + (if keys[n - 1] == key then 1 else 0)
  }

  /** The height of point i in its stack: how many earlier points share its key. */
  function StackHeight(keys: seq<int>, i: nat): nat
    requires i < |keys|
  {
    EarlierCount(keys, keys[i], i)
  }

  /** Within a bin the heights grow by one per point in index order, so no
      two points of a bin share a height, and the first point of a bin is at 0. */
  lemma {:induction false} StackHeightsIncrease(keys: seq<int>, i: nat, j: nat)
    requires i < j < |keys| && keys[i] == keys[j]
    ensures StackHeight(keys, i) < StackHeight(keys, j)
  {
    EarlierCountGrows(keys, keys[i], i, j);
  }

  /** Between two positions the count of a key grows by at least the
      occurrences at the lower position. */
  lemma {:induction false} EarlierCountGrows(keys: seq<int>, key: int, i: nat, j: nat)
    requires i < j <= |keys| && keys[i] == key
    ensures EarlierCount(keys, key, i) < EarlierCount(keys, key, j)
  {
    if j == i + 1 {
    } else {
      EarlierCountGrows(keys, key, i, j - 1);
    }
  }

  /** The first point in a bin sits at height 0. */
  lemma {:induction false} FirstInBinAtBottom(keys: seq<int>, i: nat)
    requires i < |keys| && forall j :: 0 <= j < i ==> keys[j] != keys[i]
    ensures StackHeight(keys, i) == 0
  {
    NoEarlierOccurrence(keys, keys[i], i);
  }

  lemma {:induction false} NoEarlierOccurrence(keys: seq<int>, key: int, n: nat)
    requires n <= |keys| && forall j :: 0 <= j < n ==> keys[j] != key
    ensures EarlierCount(keys, key, n) == 0
  {
    if n > 0 {
      NoEarlierOccurrence(keys, key, n - 1);
    }
  }

  /** The bin keys of a row of raw x values. */
  function Keys(raw: seq<real>): (keys: seq<int>)
    ensures |keys| == |raw|
  {
    if raw == [] then [] else Keys(raw[..|raw| - 1]) + [BinKey(Snap(raw[|raw| - 1]))]
  }

  /** Point i's key is the key of its snapped raw x value. */
  lemma {:induction false} KeyAt(raw: seq<real>, i: nat)
    requires i < |raw|
    ensures Keys(raw)[i] == BinKey(Snap(raw[i]))
  {
    if i < |raw| - 1 {
      KeyAt(raw[..|raw| - 1], i);
    }
  }

  /** Every raw x value snapped to the stack grid. */
  function SnapAll(raw: seq<real>): (xs: seq<real>)
    ensures |xs| == |raw|
  {
    if raw == [] then [] else SnapAll(raw[..|raw| - 1]) + [Snap(raw[|raw| - 1])]
  }

  /** The first n stack heights of a row of keys. */
  function Heights(keys: seq<int>, n: nat): (ys: seq<real>)
    requires n <= |keys|
    ensures |ys| == n
  {
    if n == 0 then [] else Heights(keys, n - 1) + [StackHeight(keys, n - 1) as real]
  }

  /** The plotted x values: snapped in stack mode, raw otherwise. */
  function PlotX(stack: bool, rawX: seq<real>): (xs: seq<real>)
    ensures |xs| == |rawX|
  {
    if stack then SnapAll(rawX) else rawX
  }

  /** The plotted y values: the stack heights in stack mode, the y axis
      values otherwise. */
  function PlotY(stack: bool, rawX: seq<real>, rawY: seq<real>): (ys: seq<real>)
    requires |rawY| == |rawX|
    ensures |ys| == |rawX|
  {
    if stack then Heights(Keys(rawX), |rawX|) else rawY
  }

  /** Point i is plotted at its snapped x value in stack mode and at its raw
      x value otherwise. */
  lemma {:induction false} PlotXAt(stack: bool, rawX: seq<real>, i: nat)
    requires i < |rawX|
    ensures PlotX(stack, rawX)[i] == if stack then Snap(rawX[i]) else rawX[i]
  {
    if stack {
      SnapAllAt(rawX, i);
    }
  }

  lemma {:induction false} SnapAllAt(raw: seq<real>, i: nat)
    requires i < |raw|
    ensures SnapAll(raw)[i] == Snap(raw[i])
  {
    if i < |raw| - 1 {
      SnapAllAt(raw[..|raw| - 1], i);
    }
  }

  /** Point i is plotted at its stack height in stack mode and at its y axis
      value otherwise. */
  lemma {:induction false} PlotYAt(stack: bool, rawX: seq<real>, rawY: seq<real>, i: nat)
    requires |rawY| == |rawX| && i < |rawX|
    ensures PlotY(stack, rawX, rawY)[i] == if stack then StackHeight(Keys(rawX), i) as real else rawY[i]
  {
    if stack {
      HeightAt(Keys(rawX), |rawX|, i);
    }
  }

  lemma {:induction false} HeightAt(keys: seq<int>, n: nat, i: nat)
    requires i < n <= |keys|
    ensures Heights(keys, n)[i] == StackHeight(keys, i) as real
  {
    if i < n - 1 {
      HeightAt(keys, n - 1, i);
    }
  }

  // ---------------------------------------------------------------------------
  // Alive-only extents

  /** Smallest of the first n values whose respondent is alive, or
      float.MaxValue when none is. */
  function AliveMin(values: seq<real>, cur: seq<real>, n: nat): real
    requires n <= |values| && n <= |cur|
  {
    if n == 0 then FloatMax
    else
      var m := AliveMin(values, cur, n - 1);
      if cur[n - 1] > W.DeathThreshold && values[n - 1] < m then values[n - 1] else m
  }

  /** Largest of the first n values whose respondent is alive, or
      float.MinValue when none is. */
  function AliveMax(values: seq<real>, cur: seq<real>, n: nat): real
    requires n <= |values| && n <= |cur|
  {
    if n == 0 then FloatMin
    else
      var m := AliveMax(values, cur, n - 1);
      if cur[n - 1] > W.DeathThreshold && values[n - 1] > m then values[n - 1] else m
  }

  /** The alive minimum is a lower bound of every alive value, and is either
      one of them or the sentinel; dead respondents never move it. The same
      holds for the maximum the other way round. */
  lemma {:induction false} AliveExtents(values: seq<real>, cur: seq<real>, n: nat)
    requires n <= |values| && n <= |cur|
    ensures forall j :: 0 <= j < n && cur[j] > W.DeathThreshold ==>
      AliveMin(values, cur, n) <= values[j] && values[j] <= AliveMax(values, cur, n)
    ensures AliveMin(values, cur, n) == FloatMax ||
      exists j :: 0 <= j < n && cur[j] > W.DeathThreshold && AliveMin(values, cur, n) == values[j]
    ensures AliveMax(values, cur, n) == FloatMin ||
      exists j :: 0 <= j < n && cur[j] > W.DeathThreshold && AliveMax(values, cur, n) == values[j]
  {
    if n > 0 {
      AliveExtents(values, cur, n - 1);
    }
  }

  /** One more respondent moves the alive extents only if alive and outside them. */
  lemma ExtentStep(values: seq<real>, cur: seq<real>, n: nat)
    requires n < |values| && n < |cur|
    ensures AliveMin(values, cur, n + 1) ==
      if cur[n] > W.DeathThreshold && values[n] < AliveMin(values, cur, n) then values[n] else AliveMin(values, cur, n)
    ensures AliveMax(values, cur, n + 1) ==
      if cur[n] > W.DeathThreshold && values[n] > AliveMax(values, cur, n) then values[n] else AliveMax(values, cur, n)
  {
  }

  /** With nobody alive the extents stay at their sentinels. */
  lemma {:induction false} NoAliveNoExtent(values: seq<real>, cur: seq<real>, n: nat)
    requires n <= |values| && n <= |cur|
    requires forall j :: 0 <= j < n ==> cur[j] <= W.DeathThreshold
    ensures AliveMin(values, cur, n) == FloatMax && AliveMax(values, cur, n) == FloatMin
  {
    if n > 0 {
      NoAliveNoExtent(values, cur, n - 1);
    }
  }

  // ---------------------------------------------------------------------------
  // Faces

  /** The absolute life-satisfaction face: green from 6, red up to 4. */
  function GetAbsoluteSprite(ls: real): (f: Face)
    ensures f != Dead
  {
    if ls >= 6.0 then Green else if ls <= 4.0 then Red else Yellow
  }

  /** The absolute societal face: green from 0.6, red up to 0.4. */
  function GetAbsoluteSocietySprite(uSoc: real): (f: Face)
    ensures f != Dead
  {
    if uSoc >= 0.6 then Green else if uSoc <= 0.4 then Red else Yellow
  }

  /** The relative face: green or red outside a dead zone of 0.001 around no change. */
  function GetRelativeSprite(current: real, baseline: real): (f: Face)
    ensures f != Dead
  {
    var diff := current - baseline;
    if diff > 0.001 then Green else if diff < -0.001 then Red else Yellow
  }

  /** How good a face is: red, yellow, green. */
  function Rank(f: Face): int
  {
    match f
    case Dead => -1
    case Red => 0
    case Yellow => 1
    case Green => 2
  }

  /** The threshold bands of the three sprite helpers, both directions. */
  lemma SpriteBands(ls: real, uSoc: real, current: real, baseline: real)
    ensures GetAbsoluteSprite(ls) == Green <==> ls >= 6.0
    ensures GetAbsoluteSprite(ls) == Red <==> ls <= 4.0
    ensures GetAbsoluteSprite(ls) == Yellow <==> 4.0 < ls < 6.0
    ensures GetAbsoluteSocietySprite(uSoc) == Green <==> uSoc >= 0.6
    ensures GetAbsoluteSocietySprite(uSoc) == Red <==> uSoc <= 0.4
    ensures GetAbsoluteSocietySprite(uSoc) == Yellow <==> 0.4 < uSoc < 0.6
    ensures GetRelativeSprite(current, baseline) == Green <==> current > baseline + 0.001
    ensures GetRelativeSprite(current, baseline) == Red <==> current < baseline - 0.001
    ensures GetRelativeSprite(current, baseline) == Yellow <==> baseline - 0.001 <= current <= baseline + 0.001
  {
  }

  /** A higher value never shows a worse face. */
  lemma SpritesMonotone(a: real, b: real, base: real)
    requires a <= b
    ensures Rank(GetAbsoluteSprite(a)) <= Rank(GetAbsoluteSprite(b))
    ensures Rank(GetAbsoluteSocietySprite(a)) <= Rank(GetAbsoluteSocietySprite(b))
    ensures Rank(GetRelativeSprite(a, base)) <= Rank(GetRelativeSprite(b, base))
  {
  }

  /** Swapping current and baseline swaps green and red. */
  lemma RelativeSpriteAntisymmetric(a: real, b: real)
    ensures GetRelativeSprite(a, b) == Green <==> GetRelativeSprite(b, a) == Red
    ensures GetRelativeSprite(a, b) == Yellow <==> GetRelativeSprite(b, a) == Yellow
  {
  }

  /** Face selection of pass 2 for one respondent at `cLS` (baseline `bLS`)
      in a population at `currentLS` (baseline `baselineLS`). */
  function SelectFaces(cLS: real, bLS: real, personal: seq<real>, societal: seq<real>,
                       currentLS: seq<real>, baselineLS: seq<real>,
                       isComparison: bool, faceMode: FaceMode): (faces: FacePair)
    requires |personal| >= 6 && |societal| >= 6 && |currentLS| > 0 && |baselineLS| > 0
    ensures cLS <= W.DeathThreshold <==> faces.left == Dead
    ensures cLS <= W.DeathThreshold <==> faces.right == Dead
    ensures cLS > W.DeathThreshold && (faceMode == PersonalWellbeing || faceMode == FaceMode.SocietalFairness) ==>
      faces.left == faces.right
  {
    var cUSelf := W.Utility(cLS, personal);
    var cUSoc := W.MeanUtility(currentLS, societal);
    var bUSelf := W.Utility(bLS, personal);
    var bUSoc := W.MeanUtility(baselineLS, societal);
    if cLS <= W.DeathThreshold then FacePair(Dead, Dead)
    else
      var left := if isComparison then GetRelativeSprite(cUSelf, bUSelf) else GetAbsoluteSprite(cLS);
      var right := if isComparison then GetRelativeSprite(cUSoc, bUSoc) else GetAbsoluteSocietySprite(cUSoc);
      if faceMode == PersonalWellbeing then FacePair(left, left)
      else if faceMode == FaceMode.SocietalFairness then FacePair(right, right)
      else FacePair(left, right)
  }

  /** What an alive respondent's halves show in each mode: the self half is
      about their own utility (or LS), the society half about their view of
      the population; Split and Cluster show both. */
  lemma FacesByMode(cLS: real, bLS: real, personal: seq<real>, societal: seq<real>,
                    currentLS: seq<real>, baselineLS: seq<real>, isComparison: bool, faceMode: FaceMode)
    requires |personal| >= 6 && |societal| >= 6 && |currentLS| > 0 && |baselineLS| > 0
    requires cLS > W.DeathThreshold
    ensures var faces := SelectFaces(cLS, bLS, personal, societal, currentLS, baselineLS, isComparison, faceMode);
      var self := if isComparison then GetRelativeSprite(W.Utility(cLS, personal), W.Utility(bLS, personal))
                  else GetAbsoluteSprite(cLS);
      var society := if isComparison
                     then GetRelativeSprite(W.MeanUtility(currentLS, societal), W.MeanUtility(baselineLS, societal))
                     else GetAbsoluteSocietySprite(W.MeanUtility(currentLS, societal));
      (faceMode != FaceMode.SocietalFairness ==> faces.left == self) &&
      (faceMode != PersonalWellbeing ==> faces.right == society)
  {
  }

  /** Comparing the baseline with itself shows every alive respondent
      a yellow face on both sides. */
  lemma UnchangedComparisonIsYellow(ls: real, personal: seq<real>, societal: seq<real>,
                                    pop: seq<real>, faceMode: FaceMode)
    requires |personal| >= 6 && |societal| >= 6 && |pop| > 0 && ls > W.DeathThreshold
    ensures SelectFaces(ls, ls, personal, societal, pop, pop, true, faceMode) == FacePair(Yellow, Yellow)
  {
  }

  // ---------------------------------------------------------------------------
  // The manager

  /** The array `a` is none of the arrays pass 1 reads. */
  ghost predicate Apart(pop: seq<Respondent>, cur: array<real>, base: array<real>, a: array<real>)
  {
    a != cur && a != base &&
    forall i :: 0 <= i < |pop| ==> a != pop[i].personalUtilities && a != pop[i].societalUtilities
  }

  /** How many earlier points the bin counter has recorded under `key`. */
  function Lookup(binCount: map<int, int>, key: int): int
  {
    if key in binCount then binCount[key] else 0
  }

  /** The bin counter has seen exactly the first n keys. */
  ghost predicate CountsBins(binCount: map<int, int>, keys: seq<int>, n: nat)
    requires n <= |keys|
  {
    forall key :: EarlierCount(keys, key, n) == Lookup(binCount, key)
  }

  /** One use of the stack-bin counter: the point with key keys[n] gets the
      current count of its bin as its height, and the count goes up by one. */
  method CountInBin(binCount: map<int, int>, key: int, ghost keys: seq<int>, ghost n: nat)
    returns (height: int, counts: map<int, int>)
    requires n < |keys| && keys[n] == key && CountsBins(binCount, keys, n)
    ensures height == StackHeight(keys, n) && CountsBins(counts, keys, n + 1)
  {
    counts := binCount;
    if key !in counts {
      counts := counts[key := 0];
    }
    height := counts[key];
    counts := counts[key := counts[key] + 1];
    forall k
      ensures EarlierCount(keys, k, n + 1) == Lookup(counts, k)
    {
      assert EarlierCount(keys, k, n) == Lookup(binCount, k);
    }
  }

  /** One iteration of pass 1 for respondent i: its x value (snapped in
      stack mode), its y value (its stack height in stack mode) and the bin
      counter afterwards. */
  method PlotPoint(personal: seq<seq<real>>, societal: seq<seq<real>>, cur: seq<real>, base: seq<real>,
                   xAxis: AxisVariable, yAxis: AxisVariable, i: nat, binCount: map<int, int>,
                   ghost rawX: seq<real>, ghost rawY: seq<real>)
    returns (valX: real, valY: real, counts: map<int, int>)
    requires S.WellFormed(personal) && S.WellFormed(societal)
    requires |personal| == |cur| && |societal| == |cur| && |base| == |cur| && i < |cur|
    requires rawX == AxisValues(xAxis, personal, societal, cur, base)
    requires rawY == AxisValues(yAxis, personal, societal, cur, base)
    requires yAxis == Stack ==> CountsBins(binCount, Keys(rawX), i)
    ensures valX == PlotX(yAxis == Stack, rawX)[i] && valY == PlotY(yAxis == Stack, rawX, rawY)[i]
    ensures yAxis == Stack ==> CountsBins(counts, Keys(rawX), i + 1)
  {
    AxisValueAt(xAxis, personal, societal, cur, base, |cur|, i);
    AxisValueAt(yAxis, personal, societal, cur, base, |cur|, i);
    PlotXAt(yAxis == Stack, rawX, i);
    PlotYAt(yAxis == Stack, rawX, rawY, i);
    KeyAt(rawX, i);
    valX := CalculateAxisValue(xAxis, personal[i], societal[i], cur[i], base[i], cur, base);
    counts := binCount;
    if yAxis == Stack {
      var snappedX := Snap(valX);
      var binKey := BinKey(snappedX);
      var height;
      height, counts := CountInBin(binCount, binKey, Keys(rawX), i);
      valY := height as real;
      valX := snappedX;
    } else {
      valY := CalculateAxisValue(yAxis, personal[i], societal[i], cur[i], base[i], cur, base);
    }
  }

  /** The extent update of pass 1 for one axis: an alive respondent's value
      lowers the minimum or raises the maximum; a dead one's is skipped. */
  method Widen(ghost plot: seq<real>, cur: seq<real>, i: nat, v: real, lo: real, hi: real)
    returns (lo': real, hi': real)
    requires i < |plot| && i < |cur| && v == plot[i]
    requires lo == AliveMin(plot, cur, i) && hi == AliveMax(plot, cur, i)
    ensures lo' == AliveMin(plot, cur, i + 1) && hi' == AliveMax(plot, cur, i + 1)
  {
    ExtentStep(plot, cur, i);
    lo', hi' := lo, hi;
    if cur[i] > W.DeathThreshold {
      if v < lo' { lo' := v; }
      if v > hi' { hi' := v; }
    }
  }

  /** One iteration of pass 1: respondent i's plotted position, the bin
      counter afterwards and the extents with that position taken in. */
  method PlotStep(personal: seq<seq<real>>, societal: seq<seq<real>>, cur: seq<real>, base: seq<real>,
                  xAxis: AxisVariable, yAxis: AxisVariable, i: nat, binCount: map<int, int>,
                  xMin: real, xMax: real, yMin: real, yMax: real)
    returns (valX: real, valY: real, counts: map<int, int>, xMin': real, xMax': real, yMin': real, yMax': real)
    requires S.WellFormed(personal) && S.WellFormed(societal)
    requires |personal| == |cur| && |societal| == |cur| && |base| == |cur| && i < |cur|
    requires var rawX := AxisValues(xAxis, personal, societal, cur, base);
      var plotX := PlotX(yAxis == Stack, rawX);
      var plotY := PlotY(yAxis == Stack, rawX, AxisValues(yAxis, personal, societal, cur, base));
      (yAxis == Stack ==> CountsBins(binCount, Keys(rawX), i)) &&
      xMin == AliveMin(plotX, cur, i) && xMax == AliveMax(plotX, cur, i) &&
      yMin == AliveMin(plotY, cur, i) && yMax == AliveMax(plotY, cur, i)
    ensures var rawX := AxisValues(xAxis, personal, societal, cur, base);
      var plotX := PlotX(yAxis == Stack, rawX);
      var plotY := PlotY(yAxis == Stack, rawX, AxisValues(yAxis, personal, societal, cur, base));
      valX == plotX[i] && valY == plotY[i] &&
      (yAxis == Stack ==> CountsBins(counts, Keys(rawX), i + 1)) &&
      xMin' == AliveMin(plotX, cur, i + 1) && xMax' == AliveMax(plotX, cur, i + 1) &&
      yMin' == AliveMin(plotY, cur, i + 1) && yMax' == AliveMax(plotY, cur, i + 1)
  {
    ghost var rawX := AxisValues(xAxis, personal, societal, cur, base);
    ghost var rawY := AxisValues(yAxis, personal, societal, cur, base);
    valX, valY, counts := PlotPoint(personal, societal, cur, base, xAxis, yAxis, i, binCount, rawX, rawY);
    xMin', xMax' := Widen(PlotX(yAxis == Stack, rawX), cur, i, valX, xMin, xMax);
    yMin', yMax' := Widen(PlotY(yAxis == Stack, rawX, rawY), cur, i, valY, yMin, yMax);
  }

  /** Stores position i of pass 1 in the two caches. */
  method Record(xs: array<real>, ys: array<real>, i: nat, valX: real, valY: real,
                ghost plotX: seq<real>, ghost plotY: seq<real>)
    requires xs != ys && i < xs.Length && i < ys.Length && i < |plotX| && i < |plotY|
    requires valX == plotX[i] && valY == plotY[i]
    requires xs[..i] == plotX[..i] && ys[..i] == plotY[..i]
    modifies xs, ys
    ensures xs[..i + 1] == plotX[..i + 1] && ys[..i + 1] == plotY[..i + 1]
  {
    xs[i] := valX;
    assert xs[..i + 1] == xs[..i] + [valX];
    assert plotX[..i + 1] == plotX[..i] + [valX];
    ys[i] := valY;
    assert ys[..i + 1] == ys[..i] + [valY];
    assert plotY[..i + 1] == plotY[..i] + [valY];
  }

  /** The loop of pass 1 over the population's curves and life-satisfaction
      values: fills `xs` and `ys` with the plotted positions and returns the
      extents of the alive respondents' positions. */
  method PlotPositions(personal: seq<seq<real>>, societal: seq<seq<real>>, cur: seq<real>, base: seq<real>,
                       xAxis: AxisVariable, yAxis: AxisVariable, xs: array<real>, ys: array<real>)
    returns (xMin: real, xMax: real, yMin: real, yMax: real)
    requires S.WellFormed(personal) && S.WellFormed(societal)
    requires |personal| == |cur| && |societal| == |cur| && |base| == |cur|
    requires xs.Length == |cur| && ys.Length == |cur| && xs != ys
    modifies xs, ys
    ensures var rawX := AxisValues(xAxis, personal, societal, cur, base);
      var rawY := AxisValues(yAxis, personal, societal, cur, base);
      var plotX := PlotX(yAxis == Stack, rawX);
      var plotY := PlotY(yAxis == Stack, rawX, rawY);
      xs[..] == plotX && ys[..] == plotY &&
      xMin == AliveMin(plotX, cur, |cur|) && xMax == AliveMax(plotX, cur, |cur|) &&
      yMin == AliveMin(plotY, cur, |cur|) && yMax == AliveMax(plotY, cur, |cur|)
  {
    var count := |cur|;
    ghost var rawX := AxisValues(xAxis, personal, societal, cur, base);
    ghost var rawY := AxisValues(yAxis, personal, societal, cur, base);
    ghost var plotX := PlotX(yAxis == Stack, rawX);
    ghost var plotY := PlotY(yAxis == Stack, rawX, rawY);

    var binCount: map<int, int> := map[];
    xMin, xMax := FloatMax, FloatMin;
    yMin, yMax := FloatMax, FloatMin;

    var i := 0;
    while i < count
      invariant 0 <= i <= count
      invariant xs[..i] == plotX[..i] && ys[..i] == plotY[..i]
      invariant yAxis == Stack ==> CountsBins(binCount, Keys(rawX), i)
      invariant xMin == AliveMin(plotX, cur, i) && xMax == AliveMax(plotX, cur, i)
      invariant yMin == AliveMin(plotY, cur, i) && yMax == AliveMax(plotY, cur, i)
    {
      var valX, valY;
      valX, valY, binCount, xMin, xMax, yMin, yMax :=
        PlotStep(personal, societal, cur, base, xAxis, yAxis, i, binCount, xMin, xMax, yMin, yMax);
      Record(xs, ys, i, valX, valY, plotX, plotY);
      i := i + 1;
    }
    assert xs[..] == xs[..count] && ys[..] == ys[..count];
    assert plotX == plotX[..count] && plotY == plotY[..count];
  }

  class VisualisationManager {
    /** Half-width of the delta axes' fixed window. */
    var deltaScaleRange: real
    /** The plotted positions of pass 1, reused between frames. */
    var cacheXValues: array<real>
    var cacheYValues: array<real>

    ghost predicate Valid()
      reads this
    {
      cacheXValues != cacheYValues && cacheXValues.Length == cacheYValues.Length
    }

    /** A manager with the default delta window and, until the first frame,
        empty caches. */
    constructor ()
      ensures Valid() && deltaScaleRange == 1.0
      ensures cacheXValues.Length == 0 && cacheYValues.Length == 0
    {
      deltaScaleRange := 1.0;
      cacheXValues := new real[0];
      cacheYValues := new real[0];
    }

    /** Pass 1 of UpdateDisplay and the range computation after it: the caches
        hold every respondent's plotted position (snapped x and stack height
        in stack mode), and the ranges are the final ranges of the alive-only
        extents. */
    method UpdateDisplay(population: seq<Respondent>, currentLS: array<real>, baselineLS: array<real>,
                         xAxis: AxisVariable, yAxis: AxisVariable)
      returns (xRange: Range, yRange: Range)
      requires Valid() && S.AllValid(population)
      requires currentLS.Length == |population| && baselineLS.Length == |population|
      requires Apart(population, currentLS, baselineLS, cacheXValues)
      requires Apart(population, currentLS, baselineLS, cacheYValues)
      modifies this, cacheXValues, cacheYValues
      ensures Valid() && deltaScaleRange == old(deltaScaleRange)
      ensures var personal := old(S.PersonalCurves(population));
        var societal := old(S.SocietalCurves(population));
        var cur := old(currentLS[..]);
        var rawX := AxisValues(xAxis, personal, societal, cur, old(baselineLS[..]));
        var rawY := AxisValues(yAxis, personal, societal, cur, old(baselineLS[..]));
        var xs := PlotX(yAxis == Stack, rawX);
        var ys := PlotY(yAxis == Stack, rawX, rawY);
        cacheXValues[..] == xs && cacheYValues[..] == ys &&
        xRange == GetFinalRange(xAxis, AliveMin(xs, cur, |xs|), AliveMax(xs, cur, |xs|), deltaScaleRange) &&
        yRange == GetFinalRange(yAxis, AliveMin(ys, cur, |ys|), AliveMax(ys, cur, |ys|), deltaScaleRange)
    {
      var count := |population|;
      var personal := S.PersonalCurves(population);
      var societal := S.SocietalCurves(population);
      var cur := currentLS[..];
      var base := baselineLS[..];
      S.CurvesWellFormed(population);
      if cacheXValues.Length != count {
        cacheXValues := new real[count];
        cacheYValues := new real[count];
      }
      var xMin, xMax, yMin, yMax := PlotPositions(personal, societal, cur, base, xAxis, yAxis,
                                                  cacheXValues, cacheYValues);
      xRange := GetFinalRange(xAxis, xMin, xMax, deltaScaleRange);
      yRange := GetFinalRange(yAxis, yMin, yMax, deltaScaleRange);
    }
  }
}
