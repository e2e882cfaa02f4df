/** Seeded k-means clustering of 2-D points (KMeans.cs). */
module KMeans {
  import opened Wrappers

  datatype Vector2 = Vector2(x: real, y: real)

  function Minus(a: Vector2, b: Vector2): Vector2 { Vector2(a.x - b.x, a.y - b.y) }
  function Plus(a: Vector2, b: Vector2): Vector2 { Vector2(a.x + b.x, a.y + b.y) }
  function SqrMagnitude(v: Vector2): real { v.x * v.x + v.y * v.y }

  /** Squared Euclidean distance from a point to a centre. */
  function SqDist(p: Vector2, c: Vector2): real { SqrMagnitude(Minus(p, c)) }

  /** Default number of passes. */
  const DefaultMaxIterations: int := 10

  // ---------------------------------------------------------------------------
  // Assignment

  /** Index of the centre nearest to p among the first n, found by scanning
      upward with a strict comparison, so the lowest index wins a tie. */
  function Nearest(p: Vector2, centres: seq<Vector2>, n: nat): (best: nat)
    requires 1 <= n <= |centres|
    ensures best < n
  {
    if n == 1 then 0
    else
      var b := Nearest(p, centres, n - 1);
      if SqDist(p, centres[n - 1]) < SqDist(p, centres[b]) then n - 1 else b
  }

  /** The scan finds a nearest centre, and no earlier centre is as near. */
  lemma {:induction false} NearestIsClosest(p: Vector2, centres: seq<Vector2>, n: nat)
    requires 1 <= n <= |centres|
    ensures forall c :: 0 <= c < n ==> SqDist(p, centres[Nearest(p, centres, n)]) <= SqDist(p, centres[c])
    ensures forall c :: 0 <= c < Nearest(p, centres, n) ==> SqDist(p, centres[Nearest(p, centres, n)]) < SqDist(p, centres[c])
  {
    if n > 1 {
      NearestIsClosest(p, centres, n - 1);
    }
  }

  /** Every point's nearest centre. */
  function Assign(points: seq<Vector2>, centres: seq<Vector2>): (a: seq<int>)
    requires |centres| >= 1
    ensures |a| == |points|
    ensures forall i :: 0 <= i < |a| ==> 0 <= a[i] < |centres|
  {
    seq(|points|, i requires 0 <= i < |points| => Nearest(points[i], centres, |centres|) as int)
  }

  /** After an assignment pass every point is with a nearest centre, ties
      going to the lowest index. */
  lemma AssignmentIsNearest(points: seq<Vector2>, centres: seq<Vector2>, i: nat, c: nat)
    requires |centres| >= 1 && i < |points| && c < |centres|
    ensures var a := Assign(points, centres);
      SqDist(points[i], centres[a[i]]) <= SqDist(points[i], centres[c]) &&
      (c < a[i] ==> SqDist(points[i], centres[a[i]]) < SqDist(points[i], centres[c]))
  {
    NearestIsClosest(points[i], centres, |centres|);
  }

  // ---------------------------------------------------------------------------
  // Cluster membership

  /** Number of the first n points assigned to cluster c. */
  function Count(assign: seq<int>, c: int, n: nat): (k: nat)
    requires n <= |assign|
    ensures k <= n
  {
    if n == 0 then 0 else Count(assign, c, n - 1) + (if assign[n - 1] == c then 1 else 0)
  }

  /** Sum of vals over the first n members assigned to cluster c. */
  function ClusterSum(assign: seq<int>, vals: seq<real>, c: int, n: nat): real
    requires n <= |assign| && n <= |vals|
  {
    if n == 0 then 0.0
    else ClusterSum(assign, vals, c, n - 1) + (if assign[n - 1] == c then vals[n - 1] else 0.0)
  }

  /** Sum of the first n points assigned to cluster c. */
  function PointSum(points: seq<Vector2>, assign: seq<int>, c: int, n: nat): Vector2
    requires n <= |assign| && n <= |points|
  {
    if n == 0 then Vector2(0.0, 0.0)
    else Plus(PointSum(points, assign, c, n - 1), if assign[n - 1] == c then points[n - 1] else Vector2(0.0, 0.0))
  }

  /** Sizes of the clusters 0..k-1 added up. */
  function TotalCount(assign: seq<int>, k: nat, n: nat): nat
    requires n <= |assign|
  {
    if k == 0 then 0 else TotalCount(assign, k - 1, n) + Count(assign, k - 1, n)
  }

  /** When every assignment is one of 0..k-1, the cluster sizes add up to
      the number of points. */
  lemma {:induction false} CountsSumToTotal(assign: seq<int>, k: nat, n: nat)
    requires n <= |assign|
    requires forall i :: 0 <= i < n ==> 0 <= assign[i] < k
    ensures TotalCount(assign, k, n) == n
  {
    if n == 0 {
      NoPointsNoMembers(assign, k);
    } else {
      CountsSumToTotal(assign, k, n - 1);
      TotalCountStep(assign, k, n);
    }
  }

  /** With no points, every cluster is empty. */
  lemma {:induction false} NoPointsNoMembers(assign: seq<int>, k: nat)
    ensures TotalCount(assign, k, 0) == 0
  {
    if k > 0 {
      NoPointsNoMembers(assign, k - 1);
    }
  }

  /** Adding point n-1 adds one to exactly the cluster it is assigned to. */
  lemma {:induction false} TotalCountStep(assign: seq<int>, k: nat, n: nat)
    requires 0 < n <= |assign|
    ensures TotalCount(assign, k, n) == TotalCount(assign, k, n - 1) + (if 0 <= assign[n - 1] < k then 1 else 0)
  {
    if k > 0 {
      TotalCountStep(assign, k - 1, n);
    }
  }

  // ---------------------------------------------------------------------------
  // Recentring and the pass loop

  /** Mean of the members of a non-empty cluster. */
  function ClusterMean(points: seq<Vector2>, assign: seq<int>, c: int): Vector2
    requires |points| == |assign| && Count(assign, c, |assign|) > 0
  {
    var s := PointSum(points, assign, c, |points|);
    var n := Count(assign, c, |assign|) as real;
    Vector2(s.x / n, s.y / n)
  }

  /** Each centre moves to the mean of its members; a centre with no member
      keeps its position. */
  function Recentre(points: seq<Vector2>, assign: seq<int>, centres: seq<Vector2>): (r: seq<Vector2>)
    requires |points| == |assign|
    ensures |r| == |centres|
    ensures forall c :: 0 <= c < |r| && Count(assign, c, |assign|) == 0 ==> r[c] == centres[c]
    ensures forall c :: 0 <= c < |r| && Count(assign, c, |assign|) > 0 ==> r[c] == ClusterMean(points, assign, c)
  {
    seq(|centres|, c requires 0 <= c < |centres| =>
      if Count(assign, c, |assign|) > 0 then ClusterMean(points, assign, c) else centres[c])
  }

  /** State of the clustering between passes. */
  datatype Clustering = Clustering(centres: seq<Vector2>, assignments: seq<int>, passes: nat)

  /** The main loop: while the last pass changed something and the pass
      budget is not spent, assign every point, then recentre. */
  function Iterate(points: seq<Vector2>, centres: seq<Vector2>, assign: seq<int>,
                   changed: bool, iter: nat, maxIterations: int): Clustering
    requires |centres| >= 1 && |assign| == |points|
    decreases maxIterations - iter
  {
    if changed && iter < maxIterations then
      var a := Assign(points, centres);
      var c := Recentre(points, a, centres);
      Iterate(points, c, a, a != assign, iter + 1, maxIterations)
    else
      Clustering(centres, assign, iter)
  }

  /** The loop keeps k centres and one assignment in 0..k-1 per point, and
      runs at most maxIterations passes. */
  lemma {:induction false} IterateShape(points: seq<Vector2>, centres: seq<Vector2>, assign: seq<int>,
                                        changed: bool, iter: nat, maxIterations: int)
    requires |centres| >= 1 && |assign| == |points|
    requires forall i :: 0 <= i < |assign| ==> 0 <= assign[i] < |centres|
    ensures var r := Iterate(points, centres, assign, changed, iter, maxIterations);
      |r.centres| == |centres| && |r.assignments| == |points| &&
      (forall i :: 0 <= i < |points| ==> 0 <= r.assignments[i] < |centres|) &&
      iter <= r.passes && (r.passes <= maxIterations || r.passes == iter)
    decreases maxIterations - iter
  {
    if changed && iter < maxIterations {
      var a := Assign(points, centres);
      IterateShape(points, Recentre(points, a, centres), a, a != assign, iter + 1, maxIterations);
    }
  }

  /** Recentring is idempotent: after one recentring on an assignment, a
      second one on the same assignment moves no centre. */
  lemma RecentreIdempotent(points: seq<Vector2>, assign: seq<int>, c0: seq<Vector2>)
    requires |points| == |assign|
    ensures Recentre(points, assign, Recentre(points, assign, c0)) == Recentre(points, assign, c0)
  {
  }

  /** The loop from a state that is one pass past `prev`: if it stops below
      its budget, the final centres and assignments are a fixed point of a
      pass. */
  lemma {:induction false} IterateFixedPointFrom(points: seq<Vector2>, prev: seq<Vector2>, iter: nat, maxIterations: int)
    requires |prev| >= 1
    ensures var assign := Assign(points, prev);
      var centres := Recentre(points, assign, prev);
      var r := Iterate(points, centres, assign, true, iter, maxIterations);
      r.passes < maxIterations ==>
        |r.assignments| == |points| && |r.centres| == |prev| &&
        Assign(points, r.centres) == r.assignments &&
        Recentre(points, r.assignments, r.centres) == r.centres
    decreases maxIterations - iter
  {
    var assign := Assign(points, prev);
    var centres := Recentre(points, assign, prev);
    if iter < maxIterations {
      var a := Assign(points, centres);
      var c := Recentre(points, a, centres);
      if a == assign {
        RecentreIdempotent(points, assign, prev);
        assert c == centres;
      } else if iter + 1 < maxIterations {
        IterateFixedPointFrom(points, centres, iter + 1, maxIterations);
      }
    }
  }

  /** Convergence: a run that stops below its budget after at least two
      passes stopped because its last pass reproduced the assignment, and
      it ends at a fixed point: every point is nearest to its own centre and
      recentring moves no centre. */
  lemma {:induction false} IterateEndsAtFixedPoint(points: seq<Vector2>, centres: seq<Vector2>, assign: seq<int>,
                                                   iter: nat, maxIterations: int)
    requires |centres| >= 1 && |assign| == |points|
    ensures var r := Iterate(points, centres, assign, true, iter, maxIterations);
      iter + 2 <= r.passes < maxIterations ==>
        |r.assignments| == |points| && |r.centres| >= 1 &&
        Assign(points, r.centres) == r.assignments &&
        Recentre(points, r.assignments, r.centres) == r.centres
  {
    if iter < maxIterations {
      IterateStep(points, centres, assign, iter, maxIterations);
      if Assign(points, centres) != assign && iter + 1 < maxIterations {
        IterateFixedPointFrom(points, centres, iter + 1, maxIterations);
      }
    }
  }

  /** Initial centres: the points at the seeded random indices. */
  function InitialCentres(points: seq<Vector2>, picks: seq<int>, k: nat): (cs: seq<Vector2>)
    requires |picks| >= k && forall i :: 0 <= i < k ==> 0 <= picks[i] < |points|
    ensures |cs| == k && forall i :: 0 <= i < k ==> cs[i] in points
  {
    seq(k, i requires 0 <= i < k => points[picks[i]])
  }

  /** The whole clustering as a function of the points, k, the pass budget
      and the seeded picks. */
  function Clusters(points: seq<Vector2>, k: nat, maxIterations: int, picks: seq<int>): Clustering
    requires |points| > 0 && k >= 1
    requires |picks| >= k && forall i :: 0 <= i < k ==> 0 <= picks[i] < |points|
  {
    Iterate(points, InitialCentres(points, picks, k), seq(|points|, _ => 0), true, 0, maxIterations)
  }

  /** For a non-empty input: k centres, one assignment per point, each in [0, k). */
  lemma ClustersShape(points: seq<Vector2>, k: nat, maxIterations: int, picks: seq<int>)
    requires |points| > 0 && k >= 1
    requires |picks| >= k && forall i :: 0 <= i < k ==> 0 <= picks[i] < |points|
    ensures var r := Clusters(points, k, maxIterations, picks);
      |r.centres| == k && |r.assignments| == |points| &&
      (forall i :: 0 <= i < |points| ==> 0 <= r.assignments[i] < k) &&
      (maxIterations >= 0 ==> r.passes <= maxIterations) &&
      (maxIterations >= 1 ==> r.passes >= 1)
  {
    var cs := InitialCentres(points, picks, k);
    var a0: seq<int> := seq(|points|, _ => 0);
    if maxIterations >= 1 {
      var a := Assign(points, cs);
      IterateShape(points, Recentre(points, a, cs), a, a != a0, 1, maxIterations);
    } else {
      IterateShape(points, cs, a0, true, 0, maxIterations);
    }
  }

  /** A clustering that stops below its pass budget after at least two
      passes has converged: the returned assignment is the nearest-centre
      assignment of the returned centres, and those centres are the means of
      their clusters (or kept, when empty). */
  lemma ClustersConverge(points: seq<Vector2>, k: nat, maxIterations: int, picks: seq<int>)
    requires |points| > 0 && k >= 1
    requires |picks| >= k && forall i :: 0 <= i < k ==> 0 <= picks[i] < |points|
    ensures var r := Clusters(points, k, maxIterations, picks);
      2 <= r.passes < maxIterations ==>
        |r.assignments| == |points| && |r.centres| >= 1 &&
        Assign(points, r.centres) == r.assignments &&
        Recentre(points, r.assignments, r.centres) == r.centres
  {
    IterateEndsAtFixedPoint(points, InitialCentres(points, picks, k), seq(|points|, _ => 0), 0, maxIterations);
  }

  // ---------------------------------------------------------------------------
  // The imperative algorithm

  /** GetClusters. The RNG seeded with 42 is replaced by `picks`, the indices
      its Random.Range calls return; an empty input gives the default (null) result. */
  method GetClusters(points: array<Vector2>, k: int, maxIterations: int, picks: seq<int>)
    returns (centres: array?<Vector2>, assignments: array?<int>)
    requires points.Length > 0 ==> k >= 1 && |picks| >= k && forall i :: 0 <= i < k ==> 0 <= picks[i] < points.Length
    ensures points.Length == 0 ==> centres == null && assignments == null
    ensures points.Length > 0 ==>
      centres != null && assignments != null && fresh(centres) && fresh(assignments) &&
      var r := Clusters(points[..], k, maxIterations, picks);
      centres[..] == r.centres && assignments[..] == r.assignments
  {
    var count := points.Length;
    if count == 0 {
      return null, null;
    }

    centres := SeedCentres(points, k, picks);
    assignments := new int[count](_ => 0);
    var pixelCounts := new int[k];
    var runningSums := new Vector2[k];
    assert assignments[..] == seq(count, _ => 0) by {
      forall j | 0 <= j < count ensures assignments[j] == 0 {
      }
    }

    MainLoop(points, centres, assignments, pixelCounts, runningSums, maxIterations);
  }

  /** The main loop of GetClusters, from the seeded centres and the zero
      assignments: passes while the last one changed something and the
      budget is not spent. */
  method MainLoop(points: array<Vector2>, centres: array<Vector2>, assignments: array<int>,
                  pixelCounts: array<int>, runningSums: array<Vector2>, maxIterations: int)
    requires centres.Length >= 1 && assignments.Length == points.Length
    requires pixelCounts.Length == centres.Length && runningSums.Length == centres.Length
    requires assignments != pixelCounts && runningSums != points && runningSums != centres && centres != points
    modifies centres, assignments, pixelCounts, runningSums
    ensures var r := Iterate(points[..], old(centres[..]), old(assignments[..]), true, 0, maxIterations);
      centres[..] == r.centres && assignments[..] == r.assignments
  {
    var changed := true;
    var iter := 0;
    ghost var pts := points[..];
    ghost var goal := Iterate(pts, centres[..], assignments[..], true, 0, maxIterations);

    while changed && iter < maxIterations
      invariant 0 <= iter && points[..] == pts
      invariant Iterate(pts, centres[..], assignments[..], changed, iter, maxIterations) == goal
      decreases maxIterations - iter
    {
      ghost var oldCentres := centres[..];
      ghost var oldAssign := assignments[..];
      IterateStep(pts, oldCentres, oldAssign, iter, maxIterations);
      changed := Pass(points, centres, assignments, pixelCounts, runningSums);
      iter := iter + 1;
    }
  }

  /** One unrolling of the main loop. */
  lemma IterateStep(points: seq<Vector2>, centres: seq<Vector2>, assign: seq<int>, iter: nat, maxIterations: int)
    requires |centres| >= 1 && |assign| == |points| && iter < maxIterations
    ensures var a := Assign(points, centres);
      Iterate(points, centres, assign, true, iter, maxIterations) ==
      Iterate(points, Recentre(points, a, centres), a, a != assign, iter + 1, maxIterations)
  {
  }

  /** Step A of a pass: every point goes to its nearest centre, while the
      per-cluster sizes and point sums are collected; `changed` tells whether
      some assignment moved. */
  method AssignPass(points: array<Vector2>, centres: array<Vector2>, assignments: array<int>,
                    pixelCounts: array<int>, runningSums: array<Vector2>) returns (changed: bool)
    requires centres.Length >= 1 && assignments.Length == points.Length
    requires pixelCounts.Length == centres.Length && runningSums.Length == centres.Length
    requires assignments != pixelCounts && runningSums != points && runningSums != centres
    modifies assignments, pixelCounts, runningSums
    ensures assignments[..] == Assign(points[..], centres[..])
    ensures changed <==> assignments[..] != old(assignments[..])
    ensures forall c :: 0 <= c < centres.Length ==> pixelCounts[c] == Count(assignments[..], c, points.Length)
    ensures forall c :: 0 <= c < centres.Length ==> runningSums[c] == PointSum(points[..], assignments[..], c, points.Length)
  {
    ghost var oldAssign := assignments[..];
    ghost var pts := points[..];
    ghost var cs := centres[..];
    ghost var a := Assign(pts, cs);
    var k := centres.Length;
    var count := points.Length;

    changed := false;
    forall c | 0 <= c < k {
      pixelCounts[c] := 0;
    }
    forall c | 0 <= c < k {
      runningSums[c] := Vector2(0.0, 0.0);
    }

    var i := 0;
    while i < count
      invariant 0 <= i <= count
      invariant points[..] == pts && centres[..] == cs
      invariant forall j :: 0 <= j < i ==> assignments[j] == a[j]
      invariant forall j :: i <= j < count ==> assignments[j] == oldAssign[j]
      invariant changed <==> exists j :: 0 <= j < i && a[j] != oldAssign[j]
      invariant forall c :: 0 <= c < k ==> pixelCounts[c] == Count(a, c, i)
      invariant forall c :: 0 <= c < k ==> runningSums[c] == PointSum(pts, a, c, i)
    {
      var p := points[i];
      var bestC := NearestCentre(p, centres);
      assert p == pts[i];
      assert bestC == a[i];
      if assignments[i] != bestC {
        assignments[i] := bestC;
        changed := true;
      }
      Tally(pixelCounts, runningSums, bestC, p, pts, a, i);
      i := i + 1;
    }
    assert assignments[..] == a;
    assert changed <==> a != oldAssign by {
      if a != oldAssign {
        var j :| 0 <= j < count && a[j] != oldAssign[j];
      }
    }
  }

  /** The tally of step A for point i: the size and the point sum of its
      cluster grow by that point, the other clusters' stay. */
  method Tally(pixelCounts: array<int>, runningSums: array<Vector2>, bestC: int, p: Vector2,
               ghost pts: seq<Vector2>, ghost a: seq<int>, i: nat)
    requires i < |a| && i < |pts| && a[i] == bestC && pts[i] == p
    requires 0 <= bestC < pixelCounts.Length && pixelCounts.Length == runningSums.Length
    requires forall c :: 0 <= c < pixelCounts.Length ==> pixelCounts[c] == Count(a, c, i)
    requires forall c :: 0 <= c < runningSums.Length ==> runningSums[c] == PointSum(pts, a, c, i)
    modifies pixelCounts, runningSums
    ensures forall c :: 0 <= c < pixelCounts.Length ==> pixelCounts[c] == Count(a, c, i + 1)
    ensures forall c :: 0 <= c < runningSums.Length ==> runningSums[c] == PointSum(pts, a, c, i + 1)
  {
    pixelCounts[bestC] := pixelCounts[bestC] + 1;
    runningSums[bestC] := Plus(runningSums[bestC], p);
  }

  /** One pass of the main loop: step A, then step B. */
  method Pass(points: array<Vector2>, centres: array<Vector2>, assignments: array<int>,
              pixelCounts: array<int>, runningSums: array<Vector2>) returns (changed: bool)
    requires centres.Length >= 1 && assignments.Length == points.Length
    requires pixelCounts.Length == centres.Length && runningSums.Length == centres.Length
    requires assignments != pixelCounts && runningSums != points && runningSums != centres && centres != points
    modifies centres, assignments, pixelCounts, runningSums
    ensures assignments[..] == Assign(points[..], old(centres[..]))
    ensures centres[..] == Recentre(points[..], assignments[..], old(centres[..]))
    ensures changed <==> assignments[..] != old(assignments[..])
  {
    changed := AssignPass(points, centres, assignments, pixelCounts, runningSums);
    RecentrePass(points, assignments, centres, pixelCounts, runningSums);
  }

  /** The seeding loop: centre i is the point at the i-th pick. */
  method SeedCentres(points: array<Vector2>, k: nat, picks: seq<int>) returns (centres: array<Vector2>)
    requires |picks| >= k && forall i :: 0 <= i < k ==> 0 <= picks[i] < points.Length
    ensures fresh(centres) && centres[..] == InitialCentres(points[..], picks, k)
  {
    centres := new Vector2[k];
    var i := 0;
    while i < k
      invariant 0 <= i <= k
      invariant forall j :: 0 <= j < i ==> centres[j] == points[picks[j]]
    {
      centres[i] := points[picks[i]];
      i := i + 1;
    }
  }

  /** Step B of a pass: a centre with members moves to their mean, computed
      from the sizes and sums step A collected; an empty cluster's centre stays. */
  method RecentrePass(points: array<Vector2>, assignments: array<int>, centres: array<Vector2>,
                      pixelCounts: array<int>, runningSums: array<Vector2>)
    requires assignments.Length == points.Length
    requires pixelCounts.Length == centres.Length && runningSums.Length == centres.Length
    requires centres != points && centres != runningSums
    requires forall c :: 0 <= c < centres.Length ==> pixelCounts[c] == Count(assignments[..], c, points.Length)
    requires forall c :: 0 <= c < centres.Length ==> runningSums[c] == PointSum(points[..], assignments[..], c, points.Length)
    modifies centres
    ensures centres[..] == Recentre(points[..], assignments[..], old(centres[..]))
  {
    ghost var oldCentres := centres[..];
    ghost var target := Recentre(points[..], assignments[..], oldCentres);
    var c := 0;
    while c < centres.Length
      invariant 0 <= c <= centres.Length
      invariant forall j :: 0 <= j < c ==> centres[j] == target[j]
      invariant forall j :: c <= j < centres.Length ==> centres[j] == oldCentres[j]
    {
      if pixelCounts[c] > 0 {
        var n := pixelCounts[c] as real;
        centres[c] := Vector2(runningSums[c].x / n, runningSums[c].y / n);
      }
      c := c + 1;
    }
    assert centres[..] == target;
  }

  /** The inner scan of the assignment pass: the centre with the smallest
      squared distance, lowest index first. */
  method NearestCentre(p: Vector2, centres: array<Vector2>) returns (bestC: int)
    requires centres.Length >= 1
    ensures bestC == Nearest(p, centres[..], centres.Length)
  {
    bestC := 0;
    var bestSq := SqDist(p, centres[0]);
    var c := 1;
    while c < centres.Length
      invariant 1 <= c <= centres.Length
      invariant bestC == Nearest(p, centres[..], c)
      invariant bestSq == SqDist(p, centres[bestC])
    {
      var d := SqDist(p, centres[c]);
      if d < bestSq {
        bestSq := d;
        bestC := c;
      }
      c := c + 1;
    }
  }
}
