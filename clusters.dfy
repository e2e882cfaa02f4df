/** Opinion groups: the population clustered on the current graph and each
    cluster summarised by its mean life satisfaction, mean fairness and mean
    societal curve (CentreAnalytics.cs). */
module ClusterAnalytics {
  import opened Axes
  import opened Respondents
  import W = WelfareMetrics
  import K = KMeans
  import S = Simulation
  import V = Visualisation

  /** Inspector default for the number of groups. */
  const DefaultClusterCount: int := 4

  // ---------------------------------------------------------------------------
  // Where a respondent sits

  /** GetVal: the respondent's value on an axis, computed from the
      respondent alone and the population's current values `currentLS`.
      Wealth shows the wealth tier; the two delta axes and Stack show 0. */
  function GetVal(axis: AxisVariable, r: Respondent, currentLS: seq<real>): (v: real)
    reads r, r.personalUtilities, r.societalUtilities
    requires r.Valid() && |currentLS| > 0
  {
    match axis
    case LifeSatisfaction => r.currentLS
    case PersonalUtility => W.Utility(r.currentLS, r.personalUtilities[..])
    case SocietalFairness => W.MeanUtility(currentLS, r.societalUtilities[..])
    case Wealth => r.wealthTier as real
    case _ => 0.0
  }

  /** On the life-satisfaction, personal-utility and fairness axes the point
      used for clustering is where the graph plots the respondent; on Wealth
      it is the wealth tier, where the graph shows life satisfaction; on the
      delta axes and Stack it is 0. */
  lemma GetValAgreesWithGraph(axis: AxisVariable, r: Respondent, currentLS: seq<real>, baseLS: real, popBaseLS: seq<real>)
    requires r.Valid() && |currentLS| > 0 && |popBaseLS| > 0
    ensures axis in {LifeSatisfaction, PersonalUtility, AxisVariable.SocietalFairness} ==>
      GetVal(axis, r, currentLS) ==
      V.CalculateAxisValue(axis, r.personalUtilities[..], r.societalUtilities[..], r.currentLS, baseLS, currentLS, popBaseLS)
    ensures axis == Wealth ==> GetVal(axis, r, currentLS) == r.wealthTier as real
    ensures axis in {DeltaPersonalUtility, DeltaSocietalFairness, Stack} ==> GetVal(axis, r, currentLS) == 0.0
  {
  }

  /** GetRespondentPoint for every respondent, as values. */
  function Points(pop: seq<Respondent>, xAxis: AxisVariable, yAxis: AxisVariable, currentLS: seq<real>): (pts: seq<K.Vector2>)
    reads set r | r in pop, set r | r in pop :: r.personalUtilities, set r | r in pop :: r.societalUtilities
    requires S.AllValid(pop) && |currentLS| > 0
    ensures |pts| == |pop|
  {
    seq(|pop|, i requires 0 <= i < |pop|
      reads set r | r in pop, set r | r in pop :: r.personalUtilities, set r | r in pop :: r.societalUtilities =>
      K.Vector2(GetVal(xAxis, pop[i], currentLS), GetVal(yAxis, pop[i], currentLS)))
  }

  /** The loop that converts the population to points. */
  method RespondentPoints(pop: seq<Respondent>, xAxis: AxisVariable, yAxis: AxisVariable, currentLS: array<real>)
    returns (points: array<K.Vector2>)
    requires S.AllValid(pop) && currentLS.Length > 0
    ensures fresh(points) && points[..] == Points(pop, xAxis, yAxis, currentLS[..])
  {
    points := new K.Vector2[|pop|];
    var i := 0;
    while i < |pop|
      invariant 0 <= i <= |pop|
      invariant forall j :: 0 <= j < i ==> points[j] == Points(pop, xAxis, yAxis, currentLS[..])[j]
    {
      var x := GetVal(xAxis, pop[i], currentLS[..]);
      var y := GetVal(yAxis, pop[i], currentLS[..]);
      points[i] := K.Vector2(x, y);
      i := i + 1;
    }
  }

  // ---------------------------------------------------------------------------
  // A group, as a value

  /** The fields of a group opinion. */
  datatype GroupState = GroupState(
    id: int,
    populationSize: int,
    centre: K.Vector2,
    avgLS: real,
    avgSocietalFairness: real,
    avgSocietalUtilities: seq<real>)

  /** Checkpoint k of every curve. */
  function Column(curves: seq<seq<real>>, k: nat): (col: seq<real>)
    requires S.WellFormed(curves) && k < CurveLength
    ensures |col| == |curves| && forall i :: 0 <= i < |curves| ==> col[i] == curves[i][k]
  {
    seq(|curves|, i requires 0 <= i < |curves| => curves[i][k])
  }

  /** The totals of group c after the first n respondents: its size, and the
      sums of its members' life satisfaction, fairness and curves. */
  function Partial(assign: seq<int>, centre: K.Vector2, ls: seq<real>, fair: seq<real>,
                   curves: seq<seq<real>>, c: int, n: nat): (g: GroupState)
    requires n <= |assign| && n <= |ls| && n <= |fair| && n <= |curves| && S.WellFormed(curves)
    ensures |g.avgSocietalUtilities| == CurveLength
  {
    GroupState(c, K.Count(assign, c, n), centre, K.ClusterSum(assign, ls, c, n), K.ClusterSum(assign, fair, c, n),
      seq(CurveLength, k requires 0 <= k < CurveLength => K.ClusterSum(assign, Column(curves, k), c, n)))
  }

  /** One more member: size plus one, each total plus the member's value. */
  function Added(g: GroupState, ls: real, fair: real, curve: seq<real>): (h: GroupState)
    requires |g.avgSocietalUtilities| == CurveLength && |curve| >= CurveLength
    ensures |h.avgSocietalUtilities| == CurveLength
  {
    g.(populationSize := g.populationSize + 1,
       avgLS := g.avgLS + ls,
       avgSocietalFairness := g.avgSocietalFairness + fair,
       avgSocietalUtilities :=
         seq(CurveLength, k requires 0 <= k < CurveLength => g.avgSocietalUtilities[k] + curve[k]))
  }

  /** A non-empty group's totals divided by its size; an empty group as it is. */
  function Finalised(g: GroupState): (h: GroupState)
    ensures h.id == g.id && h.populationSize == g.populationSize && h.centre == g.centre
    ensures |h.avgSocietalUtilities| == |g.avgSocietalUtilities|
    ensures g.populationSize <= 0 ==> h == g
  {
    if g.populationSize > 0 then
      var n := g.populationSize as real;
      g.(avgLS := g.avgLS / n,
         avgSocietalFairness := g.avgSocietalFairness / n,
         avgSocietalUtilities := seq(|g.avgSocietalUtilities|, k requires 0 <= k < |g.avgSocietalUtilities| =>
           g.avgSocietalUtilities[k] / n))
    else g
  }

  /** Respondent n's step of the totals: it joins its own group, the others stay. */
  lemma PartialStep(assign: seq<int>, centre: K.Vector2, ls: seq<real>, fair: seq<real>,
                    curves: seq<seq<real>>, c: int, n: nat)
    requires n < |assign| && n < |ls| && n < |fair| && n < |curves| && S.WellFormed(curves)
    ensures Partial(assign, centre, ls, fair, curves, c, n + 1) ==
      if assign[n] == c then Added(Partial(assign, centre, ls, fair, curves, c, n), ls[n], fair[n], curves[n])
      else Partial(assign, centre, ls, fair, curves, c, n)
  {
    var before := Partial(assign, centre, ls, fair, curves, c, n);
    var after := Partial(assign, centre, ls, fair, curves, c, n + 1);
    if assign[n] == c {
      var added := Added(before, ls[n], fair[n], curves[n]);
      forall k | 0 <= k < CurveLength
        ensures after.avgSocietalUtilities[k] == added.avgSocietalUtilities[k]
      {
        assert Column(curves, k)[n] == curves[n][k];
      }
      assert after.avgSocietalUtilities == added.avgSocietalUtilities;
    } else {
      assert after.avgSocietalUtilities == before.avgSocietalUtilities;
    }
  }

  /** Each member's fairness: how its societal curve judges the population. */
  function Fairnesses(currentLS: seq<real>, curves: seq<seq<real>>): (f: seq<real>)
    requires |currentLS| > 0 && S.WellFormed(curves)
    ensures |f| == |curves| && forall i :: 0 <= i < |curves| ==> f[i] == W.MeanUtility(currentLS, curves[i])
  {
    seq(|curves|, i requires 0 <= i < |curves| => W.MeanUtility(currentLS, curves[i]))
  }

  /** The k summaries GenerateClusters publishes for a non-empty population:
      group c has id c, the c-th centre, its member count and the means of
      its members' life satisfaction, fairness and curves. */
  function Summaries(points: seq<K.Vector2>, k: nat, picks: seq<int>,
                     ls: seq<real>, fair: seq<real>, curves: seq<seq<real>>): (gs: seq<GroupState>)
    requires |points| > 0 && k >= 1 && |picks| >= k && forall i :: 0 <= i < k ==> 0 <= picks[i] < |points|
    requires |ls| == |points| && |fair| == |points| && |curves| == |points| && S.WellFormed(curves)
    ensures |gs| == k
    ensures forall c :: 0 <= c < k ==> gs[c].id == c && |gs[c].avgSocietalUtilities| == CurveLength
  {
    var r := K.Clusters(points, k, K.DefaultMaxIterations, picks);
    K.ClustersShape(points, k, K.DefaultMaxIterations, picks);
    seq(k, c requires 0 <= c < k =>
      Finalised(Partial(r.assignments, r.centres[c], ls, fair, curves, c, |points|)))
  }

  // ---------------------------------------------------------------------------
  // Properties of the summaries

  /** Sizes of the first m groups added up. */
  function SizeTotal(gs: seq<GroupState>, m: nat): int
    requires m <= |gs|
  {
    if m == 0 then 0 else SizeTotal(gs, m - 1) + gs[m - 1].populationSize
  }

  lemma {:induction false} SizeTotalIsTotalCount(gs: seq<GroupState>, assign: seq<int>, n: nat, m: nat)
    requires m <= |gs| && n <= |assign|
    requires forall c :: 0 <= c < |gs| ==> gs[c].populationSize == K.Count(assign, c, n)
    ensures SizeTotal(gs, m) == K.TotalCount(assign, m, n)
  {
    if m > 0 {
      SizeTotalIsTotalCount(gs, assign, n, m - 1);
    }
  }

  /** Every respondent is counted in exactly one group: the sizes add up to
      the population. */
  lemma GroupSizesCoverPopulation(points: seq<K.Vector2>, k: nat, picks: seq<int>,
                                  ls: seq<real>, fair: seq<real>, curves: seq<seq<real>>)
    requires |points| > 0 && k >= 1 && |picks| >= k && forall i :: 0 <= i < k ==> 0 <= picks[i] < |points|
    requires |ls| == |points| && |fair| == |points| && |curves| == |points| && S.WellFormed(curves)
    ensures SizeTotal(Summaries(points, k, picks, ls, fair, curves), k) == |points|
  {
    var gs := Summaries(points, k, picks, ls, fair, curves);
    var r := K.Clusters(points, k, K.DefaultMaxIterations, picks);
    K.ClustersShape(points, k, K.DefaultMaxIterations, picks);
    assert forall c :: 0 <= c < k ==> gs[c].populationSize == K.Count(r.assignments, c, |points|);
    SizeTotalIsTotalCount(gs, r.assignments, |points|, k);
    K.CountsSumToTotal(r.assignments, k, |points|);
  }

  /** A group nobody joined sums to zero. */
  lemma {:induction false} EmptyClusterSumsToZero(assign: seq<int>, vals: seq<real>, c: int, n: nat)
    requires n <= |assign| && n <= |vals| && K.Count(assign, c, n) == 0
    ensures K.ClusterSum(assign, vals, c, n) == 0.0
  {
    if n > 0 {
      EmptyClusterSumsToZero(assign, vals, c, n - 1);
    }
  }

  /** The members' sum lies between size times lo and size times hi. */
  lemma ClusterSumBounds(assign: seq<int>, vals: seq<real>, c: int, n: nat, lo: real, hi: real)
    requires n <= |assign| && n <= |vals|
    requires forall i :: 0 <= i < n && assign[i] == c ==> lo <= vals[i] <= hi
    ensures K.Count(assign, c, n) as real * lo <= K.ClusterSum(assign, vals, c, n) <= K.Count(assign, c, n) as real * hi
  {
    ClusterSumAbove(assign, vals, c, n, lo);
    ClusterSumBelow(assign, vals, c, n, hi);
  }

  lemma {:induction false} ClusterSumAbove(assign: seq<int>, vals: seq<real>, c: int, n: nat, lo: real)
    requires n <= |assign| && n <= |vals|
    requires forall i :: 0 <= i < n && assign[i] == c ==> lo <= vals[i]
    ensures K.Count(assign, c, n) as real * lo <= K.ClusterSum(assign, vals, c, n)
  {
    if n > 0 {
      ClusterSumAbove(assign, vals, c, n - 1, lo);
      var k := K.Count(assign, c, n - 1);
      if assign[n - 1] == c {
        assert K.Count(assign, c, n) as real * lo == k as real * lo + lo;
      }
    }
  }

  lemma {:induction false} ClusterSumBelow(assign: seq<int>, vals: seq<real>, c: int, n: nat, hi: real)
    requires n <= |assign| && n <= |vals|
    requires forall i :: 0 <= i < n && assign[i] == c ==> vals[i] <= hi
    ensures K.ClusterSum(assign, vals, c, n) <= K.Count(assign, c, n) as real * hi
  {
    if n > 0 {
      ClusterSumBelow(assign, vals, c, n - 1, hi);
      var k := K.Count(assign, c, n - 1);
      if assign[n - 1] == c {
        assert K.Count(assign, c, n) as real * hi == k as real * hi + hi;
      }
    }
  }

  /** The mean of the members' values lies within any bounds of those values. */
  lemma MemberMeanWithin(assign: seq<int>, vals: seq<real>, c: int, n: nat, lo: real, hi: real)
    requires n <= |assign| && n <= |vals| && K.Count(assign, c, n) > 0
    requires forall i :: 0 <= i < n && assign[i] == c ==> lo <= vals[i] <= hi
    ensures lo <= K.ClusterSum(assign, vals, c, n) / K.Count(assign, c, n) as real <= hi
  {
    ClusterSumBounds(assign, vals, c, n, lo, hi);
    W.DivBounds(K.ClusterSum(assign, vals, c, n), K.Count(assign, c, n) as real, lo, hi);
  }

  /** Group c's summary: an empty group keeps zero averages and a zero curve;
      a non-empty group's averages lie within the bounds its members' values
      share (life satisfaction in [lsLo, lsHi], fairness and every curve
      checkpoint in [uLo, uHi]). */
  lemma SummaryBounds(points: seq<K.Vector2>, k: nat, picks: seq<int>,
                      ls: seq<real>, fair: seq<real>, curves: seq<seq<real>>, c: nat,
                      lsLo: real, lsHi: real, uLo: real, uHi: real)
    requires |points| > 0 && k >= 1 && |picks| >= k && forall i :: 0 <= i < k ==> 0 <= picks[i] < |points|
    requires |ls| == |points| && |fair| == |points| && |curves| == |points| && S.WellFormed(curves)
    requires c < k
    requires forall i :: 0 <= i < |points| ==> lsLo <= ls[i] <= lsHi && uLo <= fair[i] <= uHi
    requires forall i, j :: 0 <= i < |points| && 0 <= j < CurveLength ==> uLo <= curves[i][j] <= uHi
    ensures var g := Summaries(points, k, picks, ls, fair, curves)[c];
      (g.populationSize == 0 ==>
        g.avgLS == 0.0 && g.avgSocietalFairness == 0.0 &&
        forall j :: 0 <= j < CurveLength ==> g.avgSocietalUtilities[j] == 0.0) &&
      (g.populationSize > 0 ==>
        lsLo <= g.avgLS <= lsHi && uLo <= g.avgSocietalFairness <= uHi &&
        forall j :: 0 <= j < CurveLength ==> uLo <= g.avgSocietalUtilities[j] <= uHi)
  {
    var r := K.Clusters(points, k, K.DefaultMaxIterations, picks);
    K.ClustersShape(points, k, K.DefaultMaxIterations, picks);
    var a, n := r.assignments, |points|;
    var p := Partial(a, r.centres[c], ls, fair, curves, c, n);
    if K.Count(a, c, n) == 0 {
      EmptyClusterSumsToZero(a, ls, c, n);
      EmptyClusterSumsToZero(a, fair, c, n);
      forall j | 0 <= j < CurveLength
        ensures p.avgSocietalUtilities[j] == 0.0
      {
        EmptyClusterSumsToZero(a, Column(curves, j), c, n);
      }
    } else {
      MemberMeanWithin(a, ls, c, n, lsLo, lsHi);
      MemberMeanWithin(a, fair, c, n, uLo, uHi);
      forall j | 0 <= j < CurveLength
        ensures uLo <= p.avgSocietalUtilities[j] / K.Count(a, c, n) as real <= uHi
      {
        MemberMeanWithin(a, Column(curves, j), c, n, uLo, uHi);
      }
    }
  }

  // ---------------------------------------------------------------------------
  // The objects

  /** One cluster's "thought bubble". */
  class GroupOpinion {
    var id: int
    var populationSize: int
    var centerPosition: K.Vector2
    var avgLS: real
    var avgSocietalFairness: real
    /** The group's curve; the array is created with the group and never replaced. */
    const avgSocietalUtilities: array<real>

    ghost function State(): GroupState
      reads this, avgSocietalUtilities
    {
      GroupState(id, populationSize, centerPosition, avgLS, avgSocietalFairness, avgSocietalUtilities[..])
    }

    /** A new group: the given id and centre, everything else zero, and a
        fresh six-point curve. */
    constructor (id: int, centre: K.Vector2)
      ensures fresh(avgSocietalUtilities) && avgSocietalUtilities.Length == CurveLength
      ensures State() == GroupState(id, 0, centre, 0.0, 0.0, seq(CurveLength, _ => 0.0))
    {
      this.id := id;
      populationSize := 0;
      centerPosition := centre;
      avgLS := 0.0;
      avgSocietalFairness := 0.0;
      avgSocietalUtilities := new real[CurveLength](_ => 0.0);
    }

    /** One respondent of the group: size, LS total, fairness total and curve
        total all grow by that respondent's share. */
    method Add(ls: real, fair: real, curve: array<real>)
      requires avgSocietalUtilities.Length == CurveLength && curve.Length == CurveLength
      requires curve != avgSocietalUtilities
      modifies this, avgSocietalUtilities
      ensures State() == Added(old(State()), ls, fair, curve[..])
    {
      ghost var expected := Added(State(), ls, fair, curve[..]);
      populationSize := populationSize + 1;
      avgLS := avgLS + ls;
      avgSocietalFairness := avgSocietalFairness + fair;
      for k := 0 to CurveLength
        modifies avgSocietalUtilities
        invariant forall j :: 0 <= j < k ==> avgSocietalUtilities[j] == old(avgSocietalUtilities[j]) + curve[j]
        invariant forall j :: k <= j < CurveLength ==> avgSocietalUtilities[j] == old(avgSocietalUtilities[j])
      {
        avgSocietalUtilities[k] := avgSocietalUtilities[k] + curve[k];
      }
      assert avgSocietalUtilities[..] == expected.avgSocietalUtilities;
    }

    /** Totals become averages, when the group has members. */
    method Finalise()
      modifies this, avgSocietalUtilities
      ensures State() == Finalised(old(State()))
    {
      if populationSize > 0 {
        ghost var expected := Finalised(State());
        var n := populationSize as real;
        avgLS := avgLS / n;
        avgSocietalFairness := avgSocietalFairness / n;
        for k := 0 to avgSocietalUtilities.Length
          modifies avgSocietalUtilities
          invariant forall j :: 0 <= j < k ==> avgSocietalUtilities[j] == old(avgSocietalUtilities[j]) / n
          invariant forall j :: k <= j < avgSocietalUtilities.Length ==> avgSocietalUtilities[j] == old(avgSocietalUtilities[j])
        {
          avgSocietalUtilities[k] := avgSocietalUtilities[k] / n;
        }
        assert avgSocietalUtilities[..] == expected.avgSocietalUtilities;
      }
    }
  }

  /** The groups are distinct objects with distinct six-point curves, none
      of which is a respondent's curve or the current LS array. */
  ghost predicate Apart(groups: seq<GroupOpinion>, pop: seq<Respondent>, currentLS: array<real>)
  {
    (forall c :: 0 <= c < |groups| ==>
      groups[c].avgSocietalUtilities.Length == CurveLength && groups[c].avgSocietalUtilities != currentLS) &&
    (forall c, d :: 0 <= c < d < |groups| ==>
      groups[c] != groups[d] && groups[c].avgSocietalUtilities != groups[d].avgSocietalUtilities) &&
    (forall c, i :: 0 <= c < |groups| && 0 <= i < |pop| ==> groups[c].avgSocietalUtilities != pop[i].societalUtilities)
  }

  ghost function Footprint(groups: seq<GroupOpinion>): set<object>
  {
    (set g: GroupOpinion | g in groups :: g as object) + (set g: GroupOpinion | g in groups :: g.avgSocietalUtilities as object)
  }

  /** The accumulation loop: each respondent is added to the group it is
      assigned to, with its fairness judged against the current values. */
  method Accumulate(groups: seq<GroupOpinion>, pop: seq<Respondent>, assignments: array<int>, currentLS: array<real>,
                    ghost centres: seq<K.Vector2>, ghost ls: seq<real>, ghost curves: seq<seq<real>>)
    requires Apart(groups, pop, currentLS) && S.AllValid(pop)
    requires |pop| > 0 && assignments.Length == |pop| && currentLS.Length == |pop| && |centres| == |groups|
    requires forall i :: 0 <= i < |pop| ==> 0 <= assignments[i] < |groups|
    requires ls == S.CurrentValues(pop) && curves == S.SocietalCurves(pop)
    requires forall c :: 0 <= c < |groups| ==> groups[c].State() == Partial(assignments[..], centres[c], ls, [], curves, c, 0)
    modifies Footprint(groups)
    ensures forall c :: 0 <= c < |groups| ==>
      groups[c].State() == Partial(assignments[..], centres[c], ls, Fairnesses(currentLS[..], curves), curves, c, |pop|)
  {
    ghost var fair := Fairnesses(currentLS[..], curves);
    ghost var assign := assignments[..];
    assert forall c :: 0 <= c < |groups| ==>
      Partial(assign, centres[c], ls, [], curves, c, 0) == Partial(assign, centres[c], ls, fair, curves, c, 0);
    var i := 0;
    while i < |pop|
      invariant 0 <= i <= |pop|
      invariant forall c :: 0 <= c < |groups| ==> groups[c].State() == Partial(assign, centres[c], ls, fair, curves, c, i)
      invariant forall j :: 0 <= j < |pop| ==> pop[j].societalUtilities[..] == curves[j]
      invariant currentLS[..] == old(currentLS[..])
    {
      AccumulateOne(groups, pop, assignments, currentLS, centres, ls, curves, fair, assign, i);
      i := i + 1;
    }
  }

  /** One pass of the accumulation loop: respondent i joins its group. */
  method AccumulateOne(groups: seq<GroupOpinion>, pop: seq<Respondent>, assignments: array<int>, currentLS: array<real>,
                       ghost centres: seq<K.Vector2>, ghost ls: seq<real>, ghost curves: seq<seq<real>>,
                       ghost fair: seq<real>, ghost assign: seq<int>, i: nat)
    requires Apart(groups, pop, currentLS) && S.AllValid(pop)
    requires i < |pop| && assignments.Length == |pop| && currentLS.Length == |pop| && |centres| == |groups|
    requires assignments[..] == assign && forall j :: 0 <= j < |pop| ==> 0 <= assign[j] < |groups|
    requires ls == S.CurrentValues(pop) && |curves| == |pop| && S.WellFormed(curves)
    requires forall j :: 0 <= j < |pop| ==> pop[j].societalUtilities[..] == curves[j]
    requires fair == Fairnesses(currentLS[..], curves)
    requires forall c :: 0 <= c < |groups| ==> groups[c].State() == Partial(assign, centres[c], ls, fair, curves, c, i)
    modifies Footprint(groups)
    ensures forall c :: 0 <= c < |groups| ==> groups[c].State() == Partial(assign, centres[c], ls, fair, curves, c, i + 1)
    ensures forall j :: 0 <= j < |pop| ==> pop[j].societalUtilities[..] == curves[j]
    ensures currentLS[..] == old(currentLS[..]) && assignments[..] == assign && ls == S.CurrentValues(pop)
  {
    var clusterIndex := assignments[i];
    var group := groups[clusterIndex];
    var r := pop[i];
    var f := W.EvaluateDistribution(currentLS, r.societalUtilities);
    group.Add(r.currentLS, f, r.societalUtilities);
    forall c | 0 <= c < |groups|
      ensures groups[c].State() == Partial(assign, centres[c], ls, fair, curves, c, i + 1)
    {
      PartialStep(assign, centres[c], ls, fair, curves, c, i);
    }
  }

  /** The finalising loop over every group. */
  method FinaliseAll(groups: seq<GroupOpinion>, ghost before: seq<GroupState>)
    requires |before| == |groups|
    requires forall c, d :: 0 <= c < d < |groups| ==>
      groups[c] != groups[d] && groups[c].avgSocietalUtilities != groups[d].avgSocietalUtilities
    requires forall c :: 0 <= c < |groups| ==> groups[c].State() == before[c]
    modifies Footprint(groups)
    ensures forall c :: 0 <= c < |groups| ==> groups[c].State() == Finalised(before[c])
  {
    var j := 0;
    while j < |groups|
      invariant 0 <= j <= |groups|
      invariant forall c :: 0 <= c < j ==> groups[c].State() == Finalised(before[c])
      invariant forall c :: j <= c < |groups| ==> groups[c].State() == before[c]
    {
      groups[j].Finalise();
      j := j + 1;
    }
  }

  /** The initialising loop: group c gets id c and the c-th centre. */
  method NewGroups(centres: array<K.Vector2>, k: int) returns (groups: seq<GroupOpinion>)
    requires 0 <= k <= centres.Length
    ensures |groups| == k
    ensures forall c :: 0 <= c < k ==> fresh(groups[c]) && fresh(groups[c].avgSocietalUtilities)
    ensures forall c :: 0 <= c < k ==>
      groups[c].avgSocietalUtilities.Length == CurveLength &&
      groups[c].State() == GroupState(c, 0, centres[c], 0.0, 0.0, seq(CurveLength, _ => 0.0))
    ensures forall c, d :: 0 <= c < d < k ==>
      groups[c] != groups[d] && groups[c].avgSocietalUtilities != groups[d].avgSocietalUtilities
  {
    groups := [];
    var c := 0;
    while c < k
      invariant 0 <= c <= k && |groups| == c
      invariant forall d :: 0 <= d < c ==> fresh(groups[d]) && fresh(groups[d].avgSocietalUtilities)
      invariant forall d :: 0 <= d < c ==>
        groups[d].avgSocietalUtilities.Length == CurveLength &&
        groups[d].State() == GroupState(d, 0, centres[d], 0.0, 0.0, seq(CurveLength, _ => 0.0))
      invariant forall d, e :: 0 <= d < e < c ==>
        groups[d] != groups[e] && groups[d].avgSocietalUtilities != groups[e].avgSocietalUtilities
    {
      var g := new GroupOpinion(c, centres[c]);
      groups := groups + [g];
      c := c + 1;
    }
  }

  /** The groups GenerateClusters publishes for a non-empty population at
      `currentLS`, the graph's axes, k groups and the seed picks. */
  ghost function Expected(pop: seq<Respondent>, xAxis: AxisVariable, yAxis: AxisVariable, currentLS: seq<real>,
                          k: int, picks: seq<int>): (gs: seq<GroupState>)
    reads set r | r in pop, set r | r in pop :: r.personalUtilities, set r | r in pop :: r.societalUtilities
    requires S.AllValid(pop) && |pop| > 0 && |currentLS| > 0 && k >= 1
    requires |picks| >= k && forall i :: 0 <= i < k ==> 0 <= picks[i] < |pop|
  {
    var curves := S.SocietalCurves(pop);
    S.CurvesWellFormed(pop);
    Summaries(Points(pop, xAxis, yAxis, currentLS), k, picks, S.CurrentValues(pop), Fairnesses(currentLS, curves), curves)
  }

  /** Steps 1 and 2 of GenerateClusters: the points of the current graph
      and their k-means clustering. */
  method ClusterPoints(pop: seq<Respondent>, xAxis: AxisVariable, yAxis: AxisVariable, curLS: array<real>,
                       k: int, picks: seq<int>) returns (centres: array<K.Vector2>, assignments: array<int>)
    requires S.AllValid(pop) && |pop| > 0 && curLS.Length > 0 && k >= 1
    requires |picks| >= k && forall i :: 0 <= i < k ==> 0 <= picks[i] < |pop|
    ensures fresh(centres) && fresh(assignments)
    ensures var r := K.Clusters(Points(pop, xAxis, yAxis, curLS[..]), k, K.DefaultMaxIterations, picks);
      centres[..] == r.centres && assignments[..] == r.assignments
  {
    var points := RespondentPoints(pop, xAxis, yAxis, curLS);
    var cs, assign := K.GetClusters(points, k, K.DefaultMaxIterations, picks);
    centres, assignments := cs, assign;
  }

  /** Step 3 of GenerateClusters: fresh groups, one per centre, holding the
      averages of their members. */
  method Summarise(pop: seq<Respondent>, curLS: array<real>, centres: array<K.Vector2>, assignments: array<int>)
    returns (groups: seq<GroupOpinion>)
    requires S.AllValid(pop) && |pop| > 0 && curLS.Length == |pop| && assignments.Length == |pop|
    requires forall i :: 0 <= i < |pop| ==> 0 <= assignments[i] < centres.Length
    ensures |groups| == centres.Length
    ensures forall c :: 0 <= c < centres.Length ==>
      fresh(groups[c]) &&
      groups[c].State() == old(
        S.CurvesWellFormed(pop);
        var curves := S.SocietalCurves(pop);
        Finalised(Partial(assignments[..], centres[c], S.CurrentValues(pop), Fairnesses(curLS[..], curves), curves, c, |pop|)))
  {
    ghost var ls := S.CurrentValues(pop);
    ghost var curves := S.SocietalCurves(pop);
    S.CurvesWellFormed(pop);
    ghost var fair := Fairnesses(curLS[..], curves);
    ghost var assign := assignments[..];
    ghost var cs := centres[..];
    var k := centres.Length;

    groups := NewGroups(centres, k);
    assert Apart(groups, pop, curLS);
    assert forall d :: 0 <= d < k ==> groups[d].State() == Partial(assign, cs[d], ls, [], curves, d, 0);

    Accumulate(groups, pop, assignments, curLS, cs, ls, curves);
    ghost var totals := seq(k, d requires 0 <= d < k => Partial(assign, cs[d], ls, fair, curves, d, |pop|));
    FinaliseAll(groups, totals);
  }

  /** The body of GenerateClusters for a non-empty population. */
  method BuildGroups(pop: seq<Respondent>, xAxis: AxisVariable, yAxis: AxisVariable, curLS: array<real>,
                     k: int, picks: seq<int>) returns (groups: seq<GroupOpinion>)
    requires S.AllValid(pop) && |pop| > 0 && curLS.Length == |pop| && k >= 1
    requires |picks| >= k && forall i :: 0 <= i < k ==> 0 <= picks[i] < |pop|
    ensures |groups| == k
    ensures forall c :: 0 <= c < k ==>
      fresh(groups[c]) && groups[c].State() == old(Expected(pop, xAxis, yAxis, curLS[..], k, picks))[c]
  {
    ghost var expected := Expected(pop, xAxis, yAxis, curLS[..], k, picks);
    var centres, assignments := ClusterPoints(pop, xAxis, yAxis, curLS, k, picks);
    K.ClustersShape(Points(pop, xAxis, yAxis, curLS[..]), k, K.DefaultMaxIterations, picks);
    groups := Summarise(pop, curLS, centres, assignments);
  }

  class ClusterAnalytics {
    const simManager: S.SimulationManager
    /** Number of groups (Inspector setting, DefaultClusterCount by default). */
    const clusterCount: int
    /** The groups the UI reads. */
    var currentGroups: seq<GroupOpinion>

    constructor (simManager: S.SimulationManager, clusterCount: int)
      ensures this.simManager == simManager && this.clusterCount == clusterCount && currentGroups == []
    {
      this.simManager := simManager;
      this.clusterCount := clusterCount;
      currentGroups := [];
    }

    /** GenerateClusters with the k-means seed picks as an input. With no
        population nothing happens. Otherwise the points of the current graph
        are clustered into clusterCount groups, and the groups are replaced
        by fresh ones, group c summarising cluster c. */
    method GenerateClusters(picks: seq<int>)
      requires simManager.Valid()
      requires |simManager.PopulationList| > 0 ==>
        clusterCount >= 1 && |picks| >= clusterCount &&
        forall i :: 0 <= i < clusterCount ==> 0 <= picks[i] < |simManager.PopulationList|
      modifies this
      ensures |old(simManager.PopulationList)| == 0 ==> currentGroups == old(currentGroups)
      ensures |old(simManager.PopulationList)| > 0 ==>
        |currentGroups| == clusterCount &&
        forall c :: 0 <= c < clusterCount ==>
          fresh(currentGroups[c]) &&
          currentGroups[c].State() ==
            old(Expected(simManager.PopulationList, simManager.xAxis, simManager.yAxis, simManager.CurrentLS[..], clusterCount, picks))[c]
    {
      var pop := simManager.PopulationList;
      if |pop| == 0 {
        return;
      }
      var groups := BuildGroups(pop, simManager.xAxis, simManager.yAxis, simManager.CurrentLS, clusterCount, picks);
      currentGroups := groups;
    }
  }
}
