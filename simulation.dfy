/** The simulation controller (SimulationManager.cs): the population, its
    baseline and current life satisfaction, the committed policy, previews
    and the axes the plot shows. */
module Simulation {
  import opened Wrappers
  import opened Axes
  import opened Respondents
  import P = Policies
  import W = WelfareMetrics

  /** A float result that may be NaN (0/0 over an empty population). */
  datatype Number = Finite(value: real) | NaN

  /** What the comparison panel is given: the four utility totals, the number
      of respondents better off and the population size. */
  datatype Comparison = Comparison(
    totalBaseSocial: real,
    totalCurrSocial: real,
    totalBasePersonal: real,
    totalCurrPersonal: real,
    happyCount: nat,
    count: nat)

  // ---------------------------------------------------------------------------
  // Specification functions

  /** The societal curves of a population, as values. */
  function SocietalCurves(pop: seq<Respondent>): (cs: seq<seq<real>>)
    reads set r | r in pop :: r.societalUtilities
    ensures |cs| == |pop| && forall i :: 0 <= i < |pop| ==> cs[i] == pop[i].societalUtilities[..]
  {
    seq(|pop|, i requires 0 <= i < |pop| reads set r | r in pop :: r.societalUtilities => pop[i].societalUtilities[..])
  }

  /** The personal curves of a population, as values. */
  function PersonalCurves(pop: seq<Respondent>): (cs: seq<seq<real>>)
    reads set r | r in pop :: r.personalUtilities
    ensures |cs| == |pop| && forall i :: 0 <= i < |pop| ==> cs[i] == pop[i].personalUtilities[..]
  {
    seq(|pop|, i requires 0 <= i < |pop| reads set r | r in pop :: r.personalUtilities => pop[i].personalUtilities[..])
  }

  /** Every curve has the six checkpoints. */
  predicate WellFormed(curves: seq<seq<real>>)
  {
    forall i :: 0 <= i < |curves| ==> |curves[i]| >= 6
  }

  /** Sum, over the first n observers, of each one's judgement of the whole
      population at `ls`. */
  function SocialTotal(ls: seq<real>, curves: seq<seq<real>>, n: nat): real
    requires WellFormed(curves) && n <= |curves| && (n > 0 ==> |ls| > 0)
  {
    if n == 0 then 0.0 else SocialTotal(ls, curves, n - 1) + W.MeanUtility(ls, curves[n - 1])
  }

  /** Sum, over the first n respondents, of each one's own utility at their
      entry of `ls`. */
  function PersonalTotal(ls: seq<real>, curves: seq<seq<real>>, n: nat): real
    requires WellFormed(curves) && n <= |curves| && n <= |ls|
  {
    if n == 0 then 0.0 else PersonalTotal(ls, curves, n - 1) + W.Utility(ls[n - 1], curves[n - 1])
  }

  /** Respondent i is alive under `target` and judges it better than the
      baseline by more than 0.01. */
  predicate Happy(target: seq<real>, baseline: seq<real>, curves: seq<seq<real>>, i: nat)
    requires WellFormed(curves) && i < |curves| && i < |target| && |baseline| > 0
  {
    target[i] > W.DeathThreshold &&
    W.MeanUtility(target, curves[i]) > W.MeanUtility(baseline, curves[i]) + 0.01
  }

  /** Number of happy respondents among the first n. */
  function HappyCount(target: seq<real>, baseline: seq<real>, curves: seq<seq<real>>, n: nat): (h: nat)
    requires WellFormed(curves) && n <= |curves| && n <= |target| && (n > 0 ==> |baseline| > 0)
    ensures h <= n
  {
    if n == 0 then 0
    else HappyCount(target, baseline, curves, n - 1) + (if Happy(target, baseline, curves, n - 1) then 1 else 0)
  }

  /** The comparison panel's figures for `target` against `baseline`. */
  function Compare(target: seq<real>, baseline: seq<real>,
                   societal: seq<seq<real>>, personal: seq<seq<real>>): (c: Comparison)
    requires WellFormed(societal) && WellFormed(personal) && |personal| == |societal|
    requires |target| == |societal| && |baseline| == |societal|
    ensures c.count == |societal| && c.happyCount <= c.count
  {
    var n := |societal|;
    Comparison(
      SocialTotal(baseline, societal, n),
      SocialTotal(target, societal, n),
      PersonalTotal(baseline, personal, n),
      PersonalTotal(target, personal, n),
      HappyCount(target, baseline, societal, n),
      n)
  }

  /** The happy count is everyone exactly when every respondent is happy. */
  lemma {:induction false} AllHappy(target: seq<real>, baseline: seq<real>, curves: seq<seq<real>>, n: nat)
    requires WellFormed(curves) && n <= |curves| && n <= |target| && (n > 0 ==> |baseline| > 0)
    ensures HappyCount(target, baseline, curves, n) == n <==>
      forall i :: 0 <= i < n ==> Happy(target, baseline, curves, i)
  {
    if n > 0 {
      AllHappy(target, baseline, curves, n - 1);
    }
  }

  /** The happy count is zero exactly when nobody is happy. */
  lemma {:induction false} NoneHappy(target: seq<real>, baseline: seq<real>, curves: seq<seq<real>>, n: nat)
    requires WellFormed(curves) && n <= |curves| && n <= |target| && (n > 0 ==> |baseline| > 0)
    ensures HappyCount(target, baseline, curves, n) == 0 <==>
      forall i :: 0 <= i < n ==> !Happy(target, baseline, curves, i)
  {
    if n > 0 {
      NoneHappy(target, baseline, curves, n - 1);
    }
  }

  /** Nobody is happier with the baseline itself: previewing a policy that
      changes nothing shows zero happy respondents. */
  lemma NobodyHappyWithoutChange(ls: seq<real>, curves: seq<seq<real>>, n: nat)
    requires WellFormed(curves) && n <= |curves| && n <= |ls| && |ls| > 0
    ensures HappyCount(ls, ls, curves, n) == 0
  {
    NoneHappy(ls, ls, curves, n);
  }

  /** Societal fairness of a population at `ls`: the mean, over the
      observers, of their judgements. */
  function Fairness(ls: seq<real>, curves: seq<seq<real>>): real
    requires WellFormed(curves) && |curves| > 0 && |ls| > 0
  {
    SocialTotal(ls, curves, |curves|) / |curves| as real
  }

  /** When every curve stays within [lo, hi], so does every observer's
      judgement, so the societal fairness of a non-empty population does too. */
  lemma FairnessWithinCurveBounds(ls: seq<real>, curves: seq<seq<real>>, lo: real, hi: real)
    requires WellFormed(curves) && |curves| > 0 && |ls| > 0
    requires forall i, k :: 0 <= i < |curves| && 0 <= k < 6 ==> lo <= curves[i][k] <= hi
    ensures lo <= Fairness(ls, curves) <= hi
  {
    AllJudgementsWithin(ls, curves, lo, hi);
    MeanJudgementWithin(ls, curves, lo, hi, |curves|);
  }

  lemma MeanJudgementWithin(ls: seq<real>, curves: seq<seq<real>>, lo: real, hi: real, n: nat)
    requires WellFormed(curves) && n == |curves| && n > 0 && |ls| > 0
    requires JudgementsWithin(ls, curves, n, lo, hi)
    ensures lo <= SocialTotal(ls, curves, n) / n as real <= hi
  {
    SocialTotalBounds(ls, curves, lo, hi, n);
    MeanOfBoundedTotal(SocialTotal(ls, curves, n), n, lo, hi);
  }

  /** A total of n > 0 terms within n*lo and n*hi has its mean within [lo, hi]. */
  lemma MeanOfBoundedTotal(total: real, n: nat, lo: real, hi: real)
    requires n > 0 && n as real * lo <= total <= n as real * hi
    ensures lo <= total / n as real <= hi
  {
    W.DivBounds(total, n as real, lo, hi);
  }

  /** Every observer whose curve stays within [lo, hi] judges within [lo, hi]. */
  lemma AllJudgementsWithin(ls: seq<real>, curves: seq<seq<real>>, lo: real, hi: real)
    requires WellFormed(curves) && |ls| > 0
    requires forall i, k :: 0 <= i < |curves| && 0 <= k < 6 ==> lo <= curves[i][k] <= hi
    ensures JudgementsWithin(ls, curves, |curves|, lo, hi)
  {
    forall i | 0 <= i < |curves|
      ensures lo <= W.MeanUtility(ls, curves[i]) <= hi
    {
      JudgementWithin(ls, curves[i], lo, hi);
    }
  }

  /** The first n observers all judge the population at `ls` within [lo, hi]. */
  ghost predicate JudgementsWithin(ls: seq<real>, curves: seq<seq<real>>, n: nat, lo: real, hi: real)
    requires WellFormed(curves) && n <= |curves| && |ls| > 0
  {
    forall i :: 0 <= i < n ==> lo <= W.MeanUtility(ls, curves[i]) <= hi
  }

  /** The total of n judgements, each in [lo, hi], is within n*lo and n*hi. */
  lemma {:induction false} SocialTotalBounds(ls: seq<real>, curves: seq<seq<real>>, lo: real, hi: real, n: nat)
    requires WellFormed(curves) && n <= |curves| && |ls| > 0
    requires JudgementsWithin(ls, curves, n, lo, hi)
    ensures n as real * lo <= SocialTotal(ls, curves, n) <= n as real * hi
  {
    if n > 0 {
      SocialTotalBounds(ls, curves, lo, hi, n - 1);
      AddBounds(n, SocialTotal(ls, curves, n - 1), W.MeanUtility(ls, curves[n - 1]), lo, hi);
    }
  }

  /** One more term in [lo, hi] keeps a sum of n terms within n*lo and n*hi. */
  lemma AddBounds(n: nat, prev: real, m: real, lo: real, hi: real)
    requires n > 0 && (n - 1) as real * lo <= prev <= (n - 1) as real * hi && lo <= m <= hi
    ensures n as real * lo <= prev + m <= n as real * hi
  {
    assert n as real * lo == (n - 1) as real * lo + lo;
    assert n as real * hi == (n - 1) as real * hi + hi;
  }

  /** One observer whose curve stays within [lo, hi] judges any population
      within [lo, hi]. */
  lemma JudgementWithin(ls: seq<real>, c: seq<real>, lo: real, hi: real)
    requires |c| >= 6 && |ls| > 0
    requires forall k :: 0 <= k < 6 ==> lo <= c[k] <= hi
    ensures lo <= W.MeanUtility(ls, c) <= hi
  {
    W.MeanWithinCurve(ls, c);
    assert lo <= c[0] && lo <= c[1] && lo <= c[2] && lo <= c[3] && lo <= c[4] && lo <= c[5];
    assert c[0] <= hi && c[1] <= hi && c[2] <= hi && c[3] <= hi && c[4] <= hi && c[5] <= hi;
  }

  /** The life-satisfaction values a policy produces for a population. */
  function Outcome(p: P.Policy, ids: seq<int>, current: seq<real>): (ls: seq<real>)
    requires |ids| == |current|
    ensures |ls| == |ids| && forall i :: 0 <= i < |ls| ==> ls[i] == P.NewLS(p, ids[i], current[i])
  {
    seq(|ids|, i requires 0 <= i < |ids| => P.NewLS(p, ids[i], current[i]))
  }

  /** After any committed policy, the average life satisfaction is in [0, 10]. */
  lemma AverageOutcomeInRange(p: P.Policy, ids: seq<int>, current: seq<real>)
    requires |ids| == |current| && |ids| > 0
    ensures 0.0 <= W.Mean(Outcome(p, ids, current)) <= 10.0
  {
    W.MeanBounds(Outcome(p, ids, current), 0.0, 10.0);
  }

  /** The ids and life satisfaction of a population, as values. */
  function Ids(pop: seq<Respondent>): (ids: seq<int>)
    ensures |ids| == |pop| && forall i :: 0 <= i < |pop| ==> ids[i] == pop[i].id
  {
    seq(|pop|, i requires 0 <= i < |pop| => pop[i].id)
  }

  function CurrentValues(pop: seq<Respondent>): (ls: seq<real>)
    reads set r | r in pop
    ensures |ls| == |pop| && forall i :: 0 <= i < |pop| ==> ls[i] == pop[i].currentLS
  {
    seq(|pop|, i requires 0 <= i < |pop| reads set r | r in pop => pop[i].currentLS)
  }

  // ---------------------------------------------------------------------------
  // The population

  /** No respondent appears twice. */
  ghost predicate Distinct(pop: seq<Respondent>)
  {
    forall i, j :: 0 <= i < j < |pop| ==> pop[i] != pop[j]
  }

  /** Every respondent has its two six-point curves. */
  ghost predicate AllValid(pop: seq<Respondent>)
  {
    forall i :: 0 <= i < |pop| ==> pop[i].Valid()
  }

  /** A population of valid respondents has six-point curves throughout. */
  lemma CurvesWellFormed(pop: seq<Respondent>)
    requires AllValid(pop)
    ensures WellFormed(SocietalCurves(pop)) && WellFormed(PersonalCurves(pop))
  {
    forall i | 0 <= i < |pop|
      ensures |SocietalCurves(pop)[i]| >= 6 && |PersonalCurves(pop)[i]| >= 6
    {
      assert pop[i].Valid();
    }
  }

  /** Each respondent's currentLS is its entry of `values`. */
  ghost predicate Mirrors(pop: seq<Respondent>, values: array<real>)
    reads pop, values
  {
    values.Length == |pop| && forall i :: 0 <= i < |pop| ==> pop[i].currentLS == values[i]
  }

  /** The controller's data invariant: no population before loading, the
      two arrays distinct and aligned with the distinct, well-formed
      respondents, and each respondent's currentLS its entry of `current`. */
  ghost predicate Consistent(loaded: bool, pop: seq<Respondent>, baseline: array<real>, current: array<real>)
    reads pop, current
  {
    (!loaded ==> |pop| == 0) &&
    baseline.Length == |pop| && baseline != current &&
    AllValid(pop) && Distinct(pop) && Mirrors(pop, current)
  }

  /** Copies `values` into the respondents' currentLS, one by one. */
  method WriteBack(pop: seq<Respondent>, values: array<real>)
    requires Distinct(pop) && values.Length == |pop|
    modifies pop
    ensures Mirrors(pop, values)
    ensures forall i :: 0 <= i < |pop| ==> pop[i].wealthTier == old(pop[i].wealthTier)
  {
    var i := 0;
    while i < |pop|
      invariant 0 <= i <= |pop|
      invariant forall j :: 0 <= j < i ==> pop[j].currentLS == values[j]
      invariant forall j :: 0 <= j < |pop| ==> pop[j].wealthTier == old(pop[j].wealthTier)
    {
      pop[i].currentLS := values[i];
      i := i + 1;
    }
  }

  /** The two arrays Start fills: the sampled starting values written into
      BaselineLS and every respondent, then copied into CurrentLS. */
  method StartingArrays(population: seq<Respondent>, startingLS: seq<real>)
    returns (baseline: array<real>, current: array<real>)
    requires |startingLS| == |population| && Distinct(population)
    modifies population
    ensures fresh(baseline) && fresh(current) && baseline != current
    ensures baseline[..] == startingLS && current[..] == startingLS
    ensures Mirrors(population, current)
    ensures forall i :: 0 <= i < |population| ==> population[i].wealthTier == old(population[i].wealthTier)
  {
    var count := |population|;
    baseline := new real[count](i requires 0 <= i < count => startingLS[i]);
    WriteBack(population, baseline);
    current := new real[count](i requires 0 <= i < count => startingLS[i]);
    assert baseline[..] == startingLS && current[..] == startingLS;
  }

  /** The total of the loop of GetCurrentSocietalFairness: every observer's
      judgement of the whole population at `ls`, added up. */
  method SocietalSum(pop: seq<Respondent>, ls: array<real>) returns (total: real)
    requires AllValid(pop) && ls.Length > 0
    ensures total == SocialTotal(ls[..], SocietalCurves(pop), |pop|)
  {
    ghost var curves := SocietalCurves(pop);
    total := 0.0;
    var i := 0;
    while i < |pop|
      invariant 0 <= i <= |pop|
      invariant total == SocialTotal(ls[..], curves, i)
    {
      assert pop[i].Valid();
      var f := W.EvaluateDistribution(ls, pop[i].societalUtilities);
      total := total + f;
      i := i + 1;
    }
  }

  /** The comparison panel's figures over the first n respondents. */
  function ComparePrefix(target: seq<real>, baseline: seq<real>,
                         societal: seq<seq<real>>, personal: seq<seq<real>>, n: nat): Comparison
    requires WellFormed(societal) && WellFormed(personal) && |personal| == |societal|
    requires |target| == |societal| && |baseline| == |societal| && n <= |societal|
  {
    Comparison(
      SocialTotal(baseline, societal, n),
      SocialTotal(target, societal, n),
      PersonalTotal(baseline, personal, n),
      PersonalTotal(target, personal, n),
      HappyCount(target, baseline, societal, n),
      n)
  }

  /** One pass of the loop of CalculateAndRefreshUI: respondent i's four
      utilities are added to the totals, and the happy count goes up when
      they are alive and judge the target better by more than 0.01. */
  method CompareStep(r: Respondent, targetLS: array<real>, baselineLS: array<real>,
                     ghost target: seq<real>, ghost baseline: seq<real>,
                     ghost societal: seq<seq<real>>, ghost personal: seq<seq<real>>, i: nat, acc: Comparison)
    returns (next: Comparison)
    requires WellFormed(societal) && WellFormed(personal) && |personal| == |societal|
    requires |target| == |societal| && |baseline| == |societal| && i < |societal|
    requires targetLS[..] == target && baselineLS[..] == baseline && r.Valid()
    requires societal[i] == r.societalUtilities[..] && personal[i] == r.personalUtilities[..]
    requires acc == ComparePrefix(target, baseline, societal, personal, i)
    ensures next == ComparePrefix(target, baseline, societal, personal, i + 1)
  {
    var uSocCurr := W.EvaluateDistribution(targetLS, r.societalUtilities);
    var uSocBase := W.EvaluateDistribution(baselineLS, r.societalUtilities);
    var uPersCurr := W.Utility(targetLS[i], r.personalUtilities[..]);
    var uPersBase := W.Utility(baselineLS[i], r.personalUtilities[..]);
    var happy := acc.happyCount;
    if targetLS[i] > W.DeathThreshold && uSocCurr > uSocBase + 0.01 {
      happy := happy + 1;
    }
    next := Comparison(acc.totalBaseSocial + uSocBase, acc.totalCurrSocial + uSocCurr,
                       acc.totalBasePersonal + uPersBase, acc.totalCurrPersonal + uPersCurr, happy, i + 1);
  }

  /** The loop of CalculateAndRefreshUI: the four totals and the happy count
      of `targetLS` against `baselineLS` over the population. */
  method ComputeComparison(pop: seq<Respondent>, targetLS: array<real>, baselineLS: array<real>)
    returns (info: Comparison)
    requires AllValid(pop) && targetLS.Length == |pop| && baselineLS.Length == |pop|
    ensures info == Compare(targetLS[..], baselineLS[..], SocietalCurves(pop), PersonalCurves(pop))
  {
    var count := |pop|;
    ghost var societal := SocietalCurves(pop);
    ghost var personal := PersonalCurves(pop);
    ghost var target, baseline := targetLS[..], baselineLS[..];
    CurvesWellFormed(pop);

    info := Comparison(0.0, 0.0, 0.0, 0.0, 0, 0);
    for i := 0 to count
      invariant info == ComparePrefix(target, baseline, societal, personal, i)
    {
      info := CompareStep(pop[i], targetLS, baselineLS, target, baseline, societal, personal, i, info);
    }
  }

  /** The figures of a preview: the policy's outcome on the side, and its
      comparison with the baseline. */
  method PreviewValues(p: P.Policy, pop: seq<Respondent>, baselineLS: array<real>)
    returns (tempLS: array<real>, info: Comparison)
    requires AllValid(pop) && baselineLS.Length == |pop|
    ensures fresh(tempLS)
    ensures tempLS[..] == Outcome(p, Ids(pop), CurrentValues(pop))
    ensures info == Compare(tempLS[..], baselineLS[..], SocietalCurves(pop), PersonalCurves(pop))
  {
    tempLS := P.ApplyPolicy(p, pop);
    assert tempLS[..] == Outcome(p, Ids(pop), CurrentValues(pop));
    info := ComputeComparison(pop, tempLS, baselineLS);
  }

  // ---------------------------------------------------------------------------
  // The controller

  class SimulationManager {
    /** Axes shown before the first policy, during play and while previewing
        (their default Inspector values). */
    const bootXAxis: AxisVariable := LifeSatisfaction
    const bootYAxis: AxisVariable := Stack
    const gameplayXAxis: AxisVariable := LifeSatisfaction
    const gameplayYAxis: AxisVariable := AxisVariable.SocietalFairness
    const previewXAxis: AxisVariable := DeltaPersonalUtility
    const previewYAxis: AxisVariable := DeltaSocietalFairness

    var xAxis: AxisVariable
    var yAxis: AxisVariable
    var faceMode: FaceMode

    /** False until the population is loaded (the list is null before). */
    var loaded: bool
    var PopulationList: seq<Respondent>
    var BaselineLS: array<real>
    var CurrentLS: array<real>
    var ActivePolicy: Option<P.Policy>

    var cachedX: AxisVariable
    var cachedY: AxisVariable
    /** Set once the boot view has been left. */
    var hasGameStarted: bool

    /** The arrays are aligned with the population, the respondents are
        distinct and well formed, and each one's currentLS is its entry of
        CurrentLS. */
    ghost predicate Valid()
      reads this, PopulationList, CurrentLS
    {
      Consistent(loaded, PopulationList, BaselineLS, CurrentLS)
    }

    /** The component before Start: no population, enum fields at their defaults. */
    constructor ()
      ensures Valid() && !loaded && PopulationList == []
      ensures xAxis == LifeSatisfaction && yAxis == LifeSatisfaction && faceMode == Split
      ensures cachedX == LifeSatisfaction && cachedY == LifeSatisfaction
      ensures !hasGameStarted && ActivePolicy == None
    {
      xAxis := LifeSatisfaction;
      yAxis := LifeSatisfaction;
      faceMode := Split;
      loaded := false;
      PopulationList := [];
      BaselineLS := new real[0];
      CurrentLS := new real[0];
      ActivePolicy := None;
      cachedX := LifeSatisfaction;
      cachedY := LifeSatisfaction;
      hasGameStarted := false;
    }

    /** Start: the boot axes, the loaded population (the values of the map the
        reader produced) and the sampled starting values, mirrored into both
        BaselineLS and CurrentLS and into every respondent. */
    method Start(population: seq<Respondent>, startingLS: seq<real>)
      requires |startingLS| == |population|
      requires AllValid(population) && Distinct(population)
      modifies this, population
      ensures Valid() && loaded && PopulationList == population
      ensures fresh(BaselineLS) && fresh(CurrentLS)
      ensures BaselineLS[..] == startingLS && CurrentLS[..] == startingLS
      ensures forall i :: 0 <= i < |population| ==> population[i].currentLS == startingLS[i]
      ensures forall i :: 0 <= i < |population| ==> population[i].wealthTier == old(population[i].wealthTier)
      ensures xAxis == bootXAxis && yAxis == bootYAxis && !hasGameStarted
      ensures faceMode == old(faceMode) && ActivePolicy == old(ActivePolicy)
      ensures cachedX == old(cachedX) && cachedY == old(cachedY)
    {
      var baseline, current := StartingArrays(population, startingLS);
      xAxis := bootXAxis;
      yAxis := bootYAxis;
      hasGameStarted := false;
      PopulationList := population;
      loaded := true;
      BaselineLS := baseline;
      CurrentLS := current;
    }

    /** Commits a policy: CurrentLS becomes the policy's outcome, every
        respondent takes its new value, the baseline stays, and the first
        commit switches to the gameplay axes once and for all. */
    method ApplyPolicyEffect(p: P.Policy)
      requires Valid() && loaded
      modifies this, PopulationList
      ensures Valid() && loaded && fresh(CurrentLS)
      ensures PopulationList == old(PopulationList)
      ensures CurrentLS[..] == Outcome(p, Ids(PopulationList), old(CurrentValues(PopulationList)))
      ensures BaselineLS == old(BaselineLS) && BaselineLS[..] == old(BaselineLS[..])
      ensures forall i :: 0 <= i < |PopulationList| ==> PopulationList[i].wealthTier == old(PopulationList[i].wealthTier)
      ensures ActivePolicy == Some(p) && hasGameStarted && faceMode == old(faceMode)
      ensures !old(hasGameStarted) ==>
        xAxis == gameplayXAxis && yAxis == gameplayYAxis && cachedX == gameplayXAxis && cachedY == gameplayYAxis
      ensures old(hasGameStarted) ==>
        xAxis == old(xAxis) && yAxis == old(yAxis) && cachedX == old(cachedX) && cachedY == old(cachedY)
    {
      var newValues := P.ApplyPolicy(p, PopulationList);
      assert newValues[..] == Outcome(p, Ids(PopulationList), CurrentValues(PopulationList));
      Commit(p, newValues);
      LeaveBootView();
    }

    /** The state half of a commit: the policy becomes the active one and its
        values become CurrentLS and every respondent's currentLS. */
    method Commit(p: P.Policy, newValues: array<real>)
      requires Valid() && loaded && newValues.Length == |PopulationList| && newValues != BaselineLS
      modifies this, PopulationList
      ensures Valid() && loaded && CurrentLS == newValues && ActivePolicy == Some(p)
      ensures PopulationList == old(PopulationList) && BaselineLS == old(BaselineLS)
      ensures forall i :: 0 <= i < |PopulationList| ==> PopulationList[i].wealthTier == old(PopulationList[i].wealthTier)
      ensures xAxis == old(xAxis) && yAxis == old(yAxis) && cachedX == old(cachedX) && cachedY == old(cachedY)
      ensures hasGameStarted == old(hasGameStarted) && faceMode == old(faceMode)
    {
      ActivePolicy := Some(p);
      CurrentLS := newValues;
      WriteBack(PopulationList, CurrentLS);
    }

    /** The first commit leaves the boot view for the gameplay axes, once and
        for all; later commits keep the axes. */
    method LeaveBootView()
      requires Valid()
      modifies this
      ensures Valid() && hasGameStarted
      ensures !old(hasGameStarted) ==>
        xAxis == gameplayXAxis && yAxis == gameplayYAxis && cachedX == gameplayXAxis && cachedY == gameplayYAxis
      ensures old(hasGameStarted) ==>
        xAxis == old(xAxis) && yAxis == old(yAxis) && cachedX == old(cachedX) && cachedY == old(cachedY)
      ensures PopulationList == old(PopulationList) && loaded == old(loaded)
      ensures CurrentLS == old(CurrentLS) && BaselineLS == old(BaselineLS)
      ensures ActivePolicy == old(ActivePolicy) && faceMode == old(faceMode)
    {
      if !hasGameStarted {
        hasGameStarted := true;
        xAxis := gameplayXAxis;
        yAxis := gameplayYAxis;
        cachedX := gameplayXAxis;
        cachedY := gameplayYAxis;
      }
    }

    /** Mean societal fairness over all observers: 0 while nothing is loaded,
        NaN for a loaded but empty population. */
    method GetCurrentSocietalFairness() returns (fairness: Number)
      requires Valid()
      ensures !loaded ==> fairness == Finite(0.0)
      ensures loaded && |PopulationList| == 0 ==> fairness == NaN
      ensures loaded && |PopulationList| > 0 ==>
        fairness == Finite(Fairness(CurrentLS[..], SocietalCurves(PopulationList)))
    {
      if !loaded {
        return Finite(0.0);
      }
      var count := |PopulationList|;
      if count == 0 {
        return NaN;
      }
      var total := SocietalSum(PopulationList, CurrentLS);
      fairness := Finite(total / count as real);
    }

    /** Mean of CurrentLS, or 0 when it is empty. */
    method GetCurrentAvgLS() returns (avg: real)
      requires Valid()
      ensures CurrentLS.Length == 0 ==> avg == 0.0
      ensures CurrentLS.Length > 0 ==> avg == W.Mean(CurrentLS[..])
    {
      if CurrentLS.Length == 0 {
        return 0.0;
      }
      var sum := 0.0;
      var i := 0;
      while i < CurrentLS.Length
        invariant 0 <= i <= CurrentLS.Length
        invariant sum == W.SumRange(CurrentLS[..], 0, i)
      {
        sum := sum + CurrentLS[i];
        i := i + 1;
      }
      avg := sum / CurrentLS.Length as real;
    }

    /** Shows a policy without committing it: the axes are cached and switched
        to the preview axes, and the policy's outcome and its comparison with
        the baseline are computed on the side; nothing else changes. */
    method PreviewPolicy(p: P.Policy) returns (tempLS: array<real>, info: Comparison)
      requires Valid()
      modifies this
      ensures Valid() && fresh(tempLS)
      ensures cachedX == old(xAxis) && cachedY == old(yAxis)
      ensures xAxis == previewXAxis && yAxis == previewYAxis
      ensures tempLS[..] == Outcome(p, Ids(PopulationList), CurrentValues(PopulationList))
      ensures info == Compare(tempLS[..], BaselineLS[..], SocietalCurves(PopulationList), PersonalCurves(PopulationList))
      ensures PopulationList == old(PopulationList) && loaded == old(loaded)
      ensures CurrentLS == old(CurrentLS) && BaselineLS == old(BaselineLS)
      ensures ActivePolicy == old(ActivePolicy) && hasGameStarted == old(hasGameStarted)
      ensures faceMode == old(faceMode)
    {
      ShowPreviewAxes();
      tempLS, info := PreviewValues(p, PopulationList, BaselineLS);
    }

    /** The axis half of a preview: the shown axes are cached and the preview
        axes put in their place. */
    method ShowPreviewAxes()
      requires Valid()
      modifies this
      ensures Valid()
      ensures cachedX == old(xAxis) && cachedY == old(yAxis)
      ensures xAxis == previewXAxis && yAxis == previewYAxis
      ensures PopulationList == old(PopulationList) && loaded == old(loaded)
      ensures CurrentLS == old(CurrentLS) && BaselineLS == old(BaselineLS)
      ensures ActivePolicy == old(ActivePolicy) && hasGameStarted == old(hasGameStarted)
      ensures faceMode == old(faceMode)
    {
      cachedX := xAxis;
      cachedY := yAxis;
      xAxis := previewXAxis;
      yAxis := previewYAxis;
    }

    /** Ends a preview: the axes go back to the cached ones. */
    method StopPreview()
      requires Valid()
      modifies this
      ensures Valid()
      ensures xAxis == old(cachedX) && yAxis == old(cachedY)
      ensures cachedX == old(cachedX) && cachedY == old(cachedY)
      ensures PopulationList == old(PopulationList) && loaded == old(loaded)
      ensures CurrentLS == old(CurrentLS) && BaselineLS == old(BaselineLS)
      ensures ActivePolicy == old(ActivePolicy) && hasGameStarted == old(hasGameStarted)
      ensures faceMode == old(faceMode)
    {
      xAxis := cachedX;
      yAxis := cachedY;
    }

    /** Puts exactly the given variables on the axes. */
    method SetAxisVariables(x: AxisVariable, y: AxisVariable)
      requires Valid()
      modifies this
      ensures Valid() && xAxis == x && yAxis == y
      ensures cachedX == old(cachedX) && cachedY == old(cachedY)
      ensures PopulationList == old(PopulationList) && loaded == old(loaded)
      ensures CurrentLS == old(CurrentLS) && BaselineLS == old(BaselineLS)
      ensures ActivePolicy == old(ActivePolicy) && hasGameStarted == old(hasGameStarted)
      ensures faceMode == old(faceMode)
    {
      xAxis := x;
      yAxis := y;
    }

    /** Selects what the faces show. */
    method SetFaceMode(mode: FaceMode)
      requires Valid()
      modifies this
      ensures Valid() && faceMode == mode
      ensures xAxis == old(xAxis) && yAxis == old(yAxis)
      ensures cachedX == old(cachedX) && cachedY == old(cachedY)
      ensures PopulationList == old(PopulationList) && loaded == old(loaded)
      ensures CurrentLS == old(CurrentLS) && BaselineLS == old(BaselineLS)
      ensures ActivePolicy == old(ActivePolicy) && hasGameStarted == old(hasGameStarted)
    {
      faceMode := mode;
    }
  }

  /** A hover over a policy card followed by leaving it puts back the axes
      that were shown before, and leaves the population's values alone. */
  method HoverCard(sim: SimulationManager, p: P.Policy)
    requires sim.Valid()
    modifies sim
    ensures sim.Valid()
    ensures sim.xAxis == old(sim.xAxis) && sim.yAxis == old(sim.yAxis)
    ensures sim.CurrentLS == old(sim.CurrentLS) && sim.CurrentLS[..] == old(sim.CurrentLS[..])
  {
    var tempLS, info := sim.PreviewPolicy(p);
    sim.StopPreview();
  }
}
