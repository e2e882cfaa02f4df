# Welfare and policy simulation: a Dafny model

This project models the simulation engine of a Unity game about social welfare.
A population of survey respondents carries two six-point utility curves, one looking at
their own life satisfaction (LS) and one looking at society as a whole. Each respondent
also has a current LS between 0 and 10, with -1 as a death sentinel. The player spends
political capital on policies over a fixed number of turns. A policy moves each
respondent's LS. The game compares the result with a baseline using personal utility,
societal fairness (the mean over the population of a respondent's societal curve), a
happy count, k-means clusters of the plotted points, and coloured faces.

The modules follow the C# scripts:

- `WelfareMetrics` (welfare.dfy): the ONS baseline distribution, the weighted dice roll,
  curve lookup with clamping and interpolation, and societal fairness.
- `Policies` (policy.dfy): `TargetedRule`, `Policy` and `ApplyPolicy`.
- `KMeans` (kmeans.dfy): `GetClusters` over arrays, refined against a functional reference
  (`Assign`, `Recentre`, `Iterate`, `Clusters`).
- `ClusterAnalytics` (clusters.dfy): `GroupOpinion`, `GetVal`, and the aggregation in
  `GenerateClusters`.
- `Simulation` (simulation.dfy): the `SimulationManager` class with its baseline and current
  arrays, committing and previewing policies, the boot-to-gameplay axis switch, the metrics
  and the happy count.
- `Terms` (terms.dfy): the power curve, the three-card draft, and the `TermManager` turn
  state machine.
- `Visualisation` (visualisation.dfy): axis values, axis ranges, stack-mode bins, alive-only
  extents, sprites and face selection, and pass 1 of `UpdateDisplay`.
- `DataReading` (datareader.dfy): `GetRespondents` over the two CSV texts.
- `Respondents`, `Axes` and `Wrappers`: the shared `Respondent` class, the `AxisVariable`
  and `FaceMode` enums, and `Option`.

C# `float` arithmetic is modelled as exact `real` arithmetic. Every random draw is a
parameter:

- the noise in the power curve;
- the shuffled policy pool, the wildcard pick and the final hand order;
- the k-means seed picks;
- the dice roll `r`.

For a fixed set of draws, every result is therefore a function of the inputs.
`string.GetHashCode()` is an opaque integer field (`nameHash`). `int.TryParse` and
`float.Parse` are partial parser functions passed in as parameters.

Two points where the code and its description differ are modelled as the code behaves:

- In `ClusterAnalytics.GetVal` the `Wealth` axis reads `wealthTier`, while
  `VisualisationManager.CalculateAxisValue` shows `ls` for the same axis. So clusters on a
  Wealth axis are computed from different values than the ones plotted.
- A respondent at the death sentinel (-1) falls into the poor band of a policy and is clamped
  to at least 0, rather than staying dead.

## Model

Some members are the reference definitions of source functions. Their properties are stated
by the lemma and method rows below that cite the same lines, so they have no row of their own:

- `WelfareMetrics.Utility`: `GetUtilityForPerson`, WelfareMetrics.cs:65-97.
- `Visualisation.CalculateAxisValue`: VisualisationManager.cs:170-185.
- `Visualisation.GetAbsoluteSprite`, `Visualisation.GetAbsoluteSocietySprite` and
  `Visualisation.GetRelativeSprite`: VisualisationManager.cs:240-242.
- `ClusterAnalytics.GetVal`: CentreAnalytics.cs:110-122.
- `KMeans.Iterate` and `KMeans.Clusters`: the functional `GetClusters`, KMeans.cs:37-77.
- `Terms.Draft`: the three-card draft of `DraftPolicies`, TermManager.cs:93-129.

| member | source | states |
|---|---|---|
| WelfareMetrics.GetBaselineDistribution | Project_A/Assets/SCRIPTS/WelfareMetrics.cs:25-48 | 11 entries; entries 0 and 1 are 0; entry i in 2..10 is raw[i] divided by the sum of raw[2..10]; all entries are non-negative and they sum to exactly 1 |
| WelfareMetrics.ValidMass | Project_A/Assets/SCRIPTS/WelfareMetrics.cs:28-34 | the accumulator loop yields the sum of the raw ONS shares over LS 2..10 |
| WelfareMetrics.RenormalisedSumsToOne | Project_A/Assets/SCRIPTS/WelfareMetrics.cs:36-45 | any 11-entry array with zeros at 0 and 1 and raw/total elsewhere sums to 1 |
| WelfareMetrics.GetWeightedRandomLS | Project_A/Assets/SCRIPTS/WelfareMetrics.cs:51-61 | if the running sum from index 2 ever reaches r, the result is the first index i >= 2 where it does; otherwise 10; on an 11-entry distribution the score is always in [2,10] |
| WelfareMetrics.NormalisedAlwaysReaches | Project_A/Assets/SCRIPTS/WelfareMetrics.cs:55-60 | on a distribution whose tail sums to 1, every draw r <= 1 is reached, so the fallback is never needed |
| WelfareMetrics.UtilityOfDeath | Project_A/Assets/SCRIPTS/WelfareMetrics.cs:68-71 | LS <= -0.9 gives curve[0] |
| WelfareMetrics.UtilityClampedEnds | Project_A/Assets/SCRIPTS/WelfareMetrics.cs:75-91 | -0.9 < LS <= 2 gives curve[1]; LS >= 10 gives curve[5] |
| WelfareMetrics.UtilityAtCheckpoint | Project_A/Assets/SCRIPTS/WelfareMetrics.cs:80-96 | at LS = 2j for j in 1..5 the utility is exactly curve[j] |
| WelfareMetrics.UtilityInterpolates | Project_A/Assets/SCRIPTS/WelfareMetrics.cs:80-96 | for 2 <= LS <= 10 the utility is the linear interpolation between curve[floor(LS/2)] and curve[ceil(LS/2)], with both indices in 1..5, and lies between the two values |
| WelfareMetrics.UtilityWithinCurve | Project_A/Assets/SCRIPTS/WelfareMetrics.cs:65-97 | every utility lies between the minimum and the maximum of the six curve points |
| WelfareMetrics.LerpBetween | Project_A/Assets/SCRIPTS/WelfareMetrics.cs:96 | `Mathf.Lerp` with t clamped to [0,1] stays between its two end points |
| WelfareMetrics.EvaluateDistribution | Project_A/Assets/SCRIPTS/WelfareMetrics.cs:101-114 | the loop returns the arithmetic mean of the utility of every population entry; the arrays are not written |
| WelfareMetrics.MeanOfUniformPopulation | Project_A/Assets/SCRIPTS/WelfareMetrics.cs:101-114 | a population all at level L has fairness utility(L) |
| WelfareMetrics.MeanWithinCurve | Project_A/Assets/SCRIPTS/WelfareMetrics.cs:101-114 | fairness lies between the curve's minimum and maximum |
| WelfareMetrics.MeanInvariantUnderPermutation | Project_A/Assets/SCRIPTS/WelfareMetrics.cs:106-113 | permuting the population does not change fairness |
| Policies.BandOf | Project_A/Assets/SCRIPTS/Policy.cs:67-69 | exactly one band applies: rich iff current >= richThreshold; poor iff below rich and <= poorThreshold; middle otherwise |
| Policies.TruncatedRemainder | Project_A/Assets/SCRIPTS/Policy.cs:87 | C# `%` by 1.0 truncates toward zero: the result lies in (-1,1), has the dividend's sign, and differs from it by an integer |
| Policies.LotteryValue | Project_A/Assets/SCRIPTS/Policy.cs:87-88 | the selection value, the absolute value of the remainder computed from id and name hash, lies in [0,1) |
| Policies.NewLS | Project_A/Assets/SCRIPTS/Policy.cs:60-98 | the new LS lies in [0,10]; it is 0 when current + base delta + rule deltas is <= 0, and 10 when that sum is >= 10 |
| Policies.ApplyPolicy | Project_A/Assets/SCRIPTS/Policy.cs:56-102 | a fresh array of the population's length whose entry i is a function of respondent i's id and LS and of the policy alone; the population is not written |
| Policies.FullRuleSelectsEveryone | Project_A/Assets/SCRIPTS/Policy.cs:78-88 | an affectEveryone rule, or one whose proportion is >= 1, selects every respondent |
| Policies.RulesOutsideBandIgnored | Project_A/Assets/SCRIPTS/Policy.cs:72-74 | rules whose inclusive [minLS,maxLS] excludes the current LS add nothing |
| Policies.UniversalRulesAddTheirImpacts | Project_A/Assets/SCRIPTS/Policy.cs:72-96 | affectEveryone rules in range add the sum of their impacts |
| Policies.NeutralPolicyKeepsLS | Project_A/Assets/SCRIPTS/Policy.cs:64-98 | zero base deltas and no rules give clamp(current,0,10), which is the current LS when it lies in [0,10] |
| Policies.ExampleThreeRespondents | Project_A/Assets/SCRIPTS/Policy.cs:60-69 | with poor 4, rich 8 and deltas +2, 0, -1, the LS values 3, 8 and 9 become 5, 7 and 8 |
| Policies.DeathSentinelIsClamped | Project_A/Assets/SCRIPTS/Policy.cs:67-69 | the death sentinel -1 lands in the poor band, and its new LS is at least 0 |
| KMeans.Nearest | Project_A/Assets/SCRIPTS/KMeans.cs:51-58 | the centre index found by a strict-less scan is in range |
| KMeans.NearestIsClosest | Project_A/Assets/SCRIPTS/KMeans.cs:51-58 | that centre minimises squared distance, and every lower index is strictly farther: ties go to the lowest index |
| KMeans.Assign | Project_A/Assets/SCRIPTS/KMeans.cs:48-64 | one assignment per point, each in [0,k) |
| KMeans.AssignmentIsNearest | Project_A/Assets/SCRIPTS/KMeans.cs:48-60 | each point's assigned centre is at least as close as every centre, and strictly closer than each lower-indexed one |
| KMeans.CountsSumToTotal | Project_A/Assets/SCRIPTS/KMeans.cs:62 | the per-cluster counts of a pass sum to the number of points |
| KMeans.Recentre | Project_A/Assets/SCRIPTS/KMeans.cs:66-70 | a centre with no members keeps its value; any other becomes the mean of its members |
| KMeans.IterateShape | Project_A/Assets/SCRIPTS/KMeans.cs:37-72 | the loop keeps k centres and one in-range assignment per point, and runs at most maxIterations passes |
| KMeans.RecentreIdempotent | Project_A/Assets/SCRIPTS/KMeans.cs:66-70 | recentring twice on the same assignment gives the same centres as recentring once |
| KMeans.IterateFixedPointFrom | Project_A/Assets/SCRIPTS/KMeans.cs:41-71 | from a state one pass past some centres, a loop that stops below its budget ends where the assignment equals the nearest-centre assignment of the final centres and recentring moves no centre |
| KMeans.IterateEndsAtFixedPoint | Project_A/Assets/SCRIPTS/KMeans.cs:41-71 | a run that stops below maxIterations after at least two passes has converged: its assignment is the nearest-centre assignment of its centres, and recentring on it moves no centre |
| KMeans.InitialCentres | Project_A/Assets/SCRIPTS/KMeans.cs:33-35 | k initial centres, each one of the input points |
| KMeans.ClustersShape | Project_A/Assets/SCRIPTS/KMeans.cs:28-77 | for non-empty input and k >= 1: k centres, one assignment per point, all in [0,k), between 1 and maxIterations passes |
| KMeans.ClustersConverge | Project_A/Assets/SCRIPTS/KMeans.cs:37-77 | a clustering returned after at least two and fewer than maxIterations passes is a fixed point of assign-then-recentre; a one-pass run need not be, because the zero-initialised assignments can match the first pass (points [0, 10] with picks [0, 0] stop with centres [5, 0], and point 0 is then nearer centre 1) |
| KMeans.GetClusters | Project_A/Assets/SCRIPTS/KMeans.cs:11-78 | empty input gives the default (null) result; otherwise fresh arrays equal to the functional reference run on the given seed picks |
| KMeans.MainLoop | Project_A/Assets/SCRIPTS/KMeans.cs:37-72 | the in-place while loop computes exactly the reference iteration |
| KMeans.Pass | Project_A/Assets/SCRIPTS/KMeans.cs:43-71 | one in-place pass: assign, recentre, report whether any assignment changed |
| KMeans.AssignPass | Project_A/Assets/SCRIPTS/KMeans.cs:43-64 | after the assignment loop, each counter is its cluster's member count and each running sum is the sum of its members |
| KMeans.Tally | Project_A/Assets/SCRIPTS/KMeans.cs:62-63 | adding a point to its cluster keeps the counters and sums exact for the prefix processed so far |
| KMeans.RecentrePass | Project_A/Assets/SCRIPTS/KMeans.cs:67-70 | the recentring loop computes the reference recentring |
| KMeans.SeedCentres | Project_A/Assets/SCRIPTS/KMeans.cs:34-35 | the seeded centres are the points at the given picks |
| KMeans.NearestCentre | Project_A/Assets/SCRIPTS/KMeans.cs:51-58 | the inner scan returns the reference nearest centre |
| ClusterAnalytics.GetValAgreesWithGraph | Project_A/Assets/SCRIPTS/CentreAnalytics.cs:110-122 | LS, personal utility and fairness agree with the graph's axis value; Wealth gives wealthTier; every other axis gives 0 |
| ClusterAnalytics.RespondentPoints | Project_A/Assets/SCRIPTS/CentreAnalytics.cs:39-47 | point i is (GetVal(x), GetVal(y)) for respondent i |
| ClusterAnalytics.PartialStep | Project_A/Assets/SCRIPTS/CentreAnalytics.cs:67-85 | visiting respondent n adds its LS, fairness and curve to its own cluster's totals and leaves the other clusters alone |
| ClusterAnalytics.Finalised | Project_A/Assets/SCRIPTS/CentreAnalytics.cs:88-96 | finalising keeps id, size and centre, and leaves a group with no members untouched |
| ClusterAnalytics.GroupSizesCoverPopulation | Project_A/Assets/SCRIPTS/CentreAnalytics.cs:67-73 | the group sizes sum to the population count |
| ClusterAnalytics.SizeTotalIsTotalCount | Project_A/Assets/SCRIPTS/CentreAnalytics.cs:69-73 | sizes that are member counts sum to the total count |
| ClusterAnalytics.EmptyClusterSumsToZero | Project_A/Assets/SCRIPTS/CentreAnalytics.cs:88-96 | a cluster with no members accumulates 0 |
| ClusterAnalytics.ClusterSumBounds | Project_A/Assets/SCRIPTS/CentreAnalytics.cs:73-84 | a cluster's total lies between its size times the lower bound and its size times the upper bound of its members' values |
| ClusterAnalytics.MemberMeanWithin | Project_A/Assets/SCRIPTS/CentreAnalytics.cs:90-95 | a non-empty cluster's mean lies within the bounds of its members' values |
| ClusterAnalytics.Summaries | Project_A/Assets/SCRIPTS/CentreAnalytics.cs:50-96 | exactly k summaries, with ids 0..k-1 and six-point average curves |
| ClusterAnalytics.SummaryBounds | Project_A/Assets/SCRIPTS/CentreAnalytics.cs:74-96 | an empty group keeps every average at 0; a non-empty group's averages lie within the bounds of its members' LS, fairness and curve points |
| ClusterAnalytics.GroupOpinion.constructor | Project_A/Assets/SCRIPTS/CentreAnalytics.cs:18-28 | a new group has the given id and centre, size 0, zero averages, and a fresh six-point curve |
| ClusterAnalytics.GroupOpinion.Add | Project_A/Assets/SCRIPTS/CentreAnalytics.cs:73-84 | adds one member's LS, fairness and curve to the group's totals |
| ClusterAnalytics.GroupOpinion.Finalise | Project_A/Assets/SCRIPTS/CentreAnalytics.cs:90-95 | divides the totals by the size when the size is positive |
| ClusterAnalytics.NewGroups | Project_A/Assets/SCRIPTS/CentreAnalytics.cs:56-64 | k fresh, pairwise distinct groups with ids 0..k-1 and centres from the k-means result |
| ClusterAnalytics.Accumulate | Project_A/Assets/SCRIPTS/CentreAnalytics.cs:67-85 | after the loop, each group holds its members' totals |
| ClusterAnalytics.FinaliseAll | Project_A/Assets/SCRIPTS/CentreAnalytics.cs:88-96 | every group is finalised |
| ClusterAnalytics.ClusterPoints | Project_A/Assets/SCRIPTS/CentreAnalytics.cs:39-50 | runs k-means on the plotted points with the default pass limit |
| ClusterAnalytics.BuildGroups | Project_A/Assets/SCRIPTS/CentreAnalytics.cs:39-96 | the groups equal the functional summary of the clustering |
| ClusterAnalytics.ClusterAnalytics.GenerateClusters | Project_A/Assets/SCRIPTS/CentreAnalytics.cs:30-97 | does nothing on an empty population; otherwise replaces the groups with exactly clusterCount fresh groups equal to the summary |
| Simulation.HappyCount | Project_A/Assets/SCRIPTS/SimulationManager.cs:160-174 | the happy count never exceeds the number of respondents |
| Simulation.AllHappy | Project_A/Assets/SCRIPTS/SimulationManager.cs:173 | the count equals n iff every respondent is alive with fairness more than 0.01 above baseline |
| Simulation.NoneHappy | Project_A/Assets/SCRIPTS/SimulationManager.cs:173 | the count is 0 iff no respondent is |
| Simulation.NobodyHappyWithoutChange | Project_A/Assets/SCRIPTS/SimulationManager.cs:166-173 | comparing a state with itself makes nobody happy |
| Simulation.Compare | Project_A/Assets/SCRIPTS/SimulationManager.cs:157-174 | the comparison covers every respondent, and its happy count is at most that number |
| Simulation.CompareStep | Project_A/Assets/SCRIPTS/SimulationManager.cs:164-173 | one loop pass extends the reference comparison of the first i respondents to the first i+1: the four utilities are added, and the happy count rises exactly when the respondent is alive and judges the target better by more than 0.01 |
| Simulation.ComputeComparison | Project_A/Assets/SCRIPTS/SimulationManager.cs:153-179 | the loop computes exactly the totals and the happy count of the reference comparison |
| Simulation.FairnessWithinCurveBounds | Project_A/Assets/SCRIPTS/SimulationManager.cs:107-114 | overall fairness lies within the bounds of all the societal curves |
| Simulation.MeanJudgementWithin | Project_A/Assets/SCRIPTS/SimulationManager.cs:109-113 | a mean of judgements that each lie in [lo,hi] lies in [lo,hi] |
| Simulation.SocialTotalBounds | Project_A/Assets/SCRIPTS/SimulationManager.cs:109-112 | a total of n judgements in [lo,hi] lies in [n*lo, n*hi] |
| Simulation.Outcome | Project_A/Assets/SCRIPTS/SimulationManager.cs:80-86 | the post-policy values are one NewLS per respondent |
| Simulation.AverageOutcomeInRange | Project_A/Assets/SCRIPTS/SimulationManager.cs:116-122 | after any policy, the average LS is in [0,10] |
| Simulation.CurvesWellFormed | Project_A/Assets/SCRIPTS/Respondent.cs:18-19 | valid respondents have six-point curves |
| Simulation.WriteBack | Project_A/Assets/SCRIPTS/SimulationManager.cs:83-86 | afterwards each respondent's currentLS is its entry of the array and every wealth tier is as before |
| Simulation.StartingArrays | Project_A/Assets/SCRIPTS/SimulationManager.cs:56-63 | baseline and current are two fresh, distinct copies of the starting values, and each respondent holds its own value; no wealth tier changes |
| Simulation.SocietalSum | Project_A/Assets/SCRIPTS/SimulationManager.cs:109-112 | the fairness loop computes the reference total |
| Simulation.PreviewValues | Project_A/Assets/SCRIPTS/SimulationManager.cs:125-137 | the preview array is the policy outcome, and the comparison is against the baseline |
| Simulation.SimulationManager.constructor | Project_A/Assets/SCRIPTS/SimulationManager.cs:12-37 | the field defaults: LS axes, split faces, no active policy, not started |
| Simulation.SimulationManager.Start | Project_A/Assets/SCRIPTS/SimulationManager.cs:39-72 | baseline and current both equal the starting values; every respondent's currentLS matches and its wealth tier is kept; boot axes |
| Simulation.SimulationManager.ApplyPolicyEffect | Project_A/Assets/SCRIPTS/SimulationManager.cs:75-104 | current becomes the policy outcome, every respondent mirrors it and keeps its wealth tier, and the baseline is unchanged; the first call switches to the gameplay axes, later calls keep the axes |
| Simulation.SimulationManager.Commit | Project_A/Assets/SCRIPTS/SimulationManager.cs:77-86 | stores the new values and the active policy, writes them into the respondents without touching a wealth tier, and changes nothing else |
| Simulation.SimulationManager.LeaveBootView | Project_A/Assets/SCRIPTS/SimulationManager.cs:90-98 | the one-way boot-to-gameplay switch |
| Simulation.SimulationManager.GetCurrentSocietalFairness | Project_A/Assets/SCRIPTS/SimulationManager.cs:107-114 | 0 before loading; NaN on an empty population; otherwise the mean over respondents of their fairness |
| Simulation.SimulationManager.GetCurrentAvgLS | Project_A/Assets/SCRIPTS/SimulationManager.cs:116-122 | 0 for an empty array, otherwise the mean of the current values |
| Simulation.SimulationManager.PreviewPolicy | Project_A/Assets/SCRIPTS/SimulationManager.cs:125-137 | caches the shown axes and switches to the preview axes; returns the outcome and its comparison; population, current and baseline are untouched |
| Simulation.SimulationManager.ShowPreviewAxes | Project_A/Assets/SCRIPTS/SimulationManager.cs:127-131 | caches the current axes and shows the preview axes |
| Simulation.SimulationManager.StopPreview | Project_A/Assets/SCRIPTS/SimulationManager.cs:139-144 | restores the cached axes and changes nothing else |
| Simulation.SimulationManager.SetAxisVariables | Project_A/Assets/SCRIPTS/SimulationManager.cs:182 | sets exactly the given axes and changes nothing else |
| Simulation.SimulationManager.SetFaceMode | Project_A/Assets/SCRIPTS/SimulationManager.cs:183 | sets exactly the given face mode and changes nothing else |
| Simulation.HoverCard | Project_A/Assets/SCRIPTS/TermManager.cs:167-168 | hovering over a card and leaving it restores the axes and leaves the current values unchanged |
| Terms.PowerForTurn | Project_A/Assets/SCRIPTS/TermManager.cs:63-76 | the power is max(5, base + (turn-1)*perTurn + variance); always >= 5 |
| Terms.PowerWithinVariance | Project_A/Assets/SCRIPTS/TermManager.cs:69-75 | for any draw within the variance, the power lies between its values at -variance and +variance |
| Terms.PowerNonDecreasing | Project_A/Assets/SCRIPTS/TermManager.cs:69-75 | for a fixed draw, the power never falls from one turn to a later one |
| Terms.DefaultCurve | Project_A/Assets/SCRIPTS/TermManager.cs:63-76 | with the defaults and no noise, turn t has power 5 + 5t |
| Terms.SplitIsPartition | Project_A/Assets/SCRIPTS/TermManager.cs:88-89 | the affordable and the expensive lists together are a permutation of the pool |
| Terms.SplitCosts | Project_A/Assets/SCRIPTS/TermManager.cs:88-89 | affordable cards cost <= power; expensive cards cost more |
| Terms.AffordableComplete | Project_A/Assets/SCRIPTS/TermManager.cs:88 | when the affordable list is empty, every pool card costs more than the power |
| Terms.DraftSize | Project_A/Assets/SCRIPTS/TermManager.cs:93-129 | at most 3 cards and at most the pool size; a pool of >= 2 gives >= 2 cards |
| Terms.DraftFromPool | Project_A/Assets/SCRIPTS/TermManager.cs:93-129 | the hand is a sub-multiset of the pool |
| Terms.NoRepeats | Project_A/Assets/SCRIPTS/TermManager.cs:93-129 | a distinct pool gives a hand without repeats |
| Terms.FirstSlotsPreferAffordable | Project_A/Assets/SCRIPTS/TermManager.cs:93-115 | slots 1 and 2 are affordable while affordable cards remain; an expensive card there means none were left |
| Terms.ThirdCardInReach | Project_A/Assets/SCRIPTS/TermManager.cs:117-129 | the third card costs at most power + 10 |
| Terms.ReorderIsPermutation | Project_A/Assets/SCRIPTS/TermManager.cs:133 | the final shuffle of the hand is a permutation |
| Terms.ShownHand | Project_A/Assets/SCRIPTS/TermManager.cs:80-137 | the shuffled hand keeps the size bounds, comes from the pool, and has no repeats from a distinct pool |
| Terms.DraftHand | Project_A/Assets/SCRIPTS/TermManager.cs:82-129 | the list-mutating draft with Add and RemoveAt equals the functional draft |
| Terms.TermManager.constructor | Project_A/Assets/SCRIPTS/TermManager.cs:10-36 | turn 1, active, empty hand, with the given rules, pool and simulation; any maxTurns is accepted, and one below 1 makes the first paid click end the term |
| Terms.TermManager.DraftPolicies | Project_A/Assets/SCRIPTS/TermManager.cs:80-137 | the hand becomes the shuffled draft at the current power; nothing else changes |
| Terms.TermManager.StartNewTurn | Project_A/Assets/SCRIPTS/TermManager.cs:50-60 | a no-op once the game is over; otherwise sets the turn's power and drafts a hand |
| Terms.TermManager.EndGame | Project_A/Assets/SCRIPTS/TermManager.cs:213-229 | deactivates the game and records the reason and the turn count |
| Terms.TermManager.OnPolicyClicked | Project_A/Assets/SCRIPTS/TermManager.cs:178-199 | a card it cannot afford changes nothing; otherwise it pays and applies the policy with everything ApplyPolicyEffect guarantees (the outcome, the active policy, the one-way switch to the gameplay axes, the face mode, baseline and wealth tiers untouched) and advances the turn, then either ends the game ("Term Finished") or starts the next turn with the session record unchanged |
| Visualisation.DeltaIsDifferenceOfLevels | Project_A/Assets/SCRIPTS/VisualisationManager.cs:170-185 | delta axes are the current metric minus the baseline metric; Wealth equals LS; Stack gives 0 |
| Visualisation.BaselineDeltasVanish | Project_A/Assets/SCRIPTS/VisualisationManager.cs:170-185 | at the baseline every delta is 0 |
| Visualisation.UtilityAxesWithinFixedRanges | Project_A/Assets/SCRIPTS/VisualisationManager.cs:174-207 | with curves in [0,1], utility axes lie in [0,1] and delta axes in [-1,1], the fixed ranges |
| Visualisation.AxisValueAt | Project_A/Assets/SCRIPTS/VisualisationManager.cs:80-95 | the computed axis values are the axis value of each respondent |
| Visualisation.GetFinalRange | Project_A/Assets/SCRIPTS/VisualisationManager.cs:188-225 | [0,10] for LS and Wealth; [0,1] for the utility axes; [-d,d] for the deltas; Stack gives [0, max(dataMax,5)] |
| Visualisation.FinalRangeIgnoresData | Project_A/Assets/SCRIPTS/VisualisationManager.cs:191-215 | fixed axes ignore the data; Stack gives [0,5] or [0,dataMax] |
| Visualisation.AutoRange | Project_A/Assets/SCRIPTS/VisualisationManager.cs:218-224 | the fallback range is symmetric and non-empty |
| Visualisation.AutoRangeCoversData | Project_A/Assets/SCRIPTS/VisualisationManager.cs:218-224 | when there is data, the fallback range contains it |
| Visualisation.Round | Project_A/Assets/SCRIPTS/VisualisationManager.cs:85-86 | rounding is within 0.5 of its argument |
| Visualisation.BinKeyIsExact | Project_A/Assets/SCRIPTS/VisualisationManager.cs:85-86 | the bin key is exactly 100 times the snapped value, so two values share a key iff they snap to the same bin |
| Visualisation.StackHeightsIncrease | Project_A/Assets/SCRIPTS/VisualisationManager.cs:88-90 | a later point in the same bin stacks strictly higher |
| Visualisation.FirstInBinAtBottom | Project_A/Assets/SCRIPTS/VisualisationManager.cs:88-89 | the first point in a bin has height 0 |
| Visualisation.PlotXAt | Project_A/Assets/SCRIPTS/VisualisationManager.cs:83-98 | the cached x is the snapped value in stack mode, otherwise the axis value |
| Visualisation.PlotYAt | Project_A/Assets/SCRIPTS/VisualisationManager.cs:83-98 | the cached y is the count of earlier points in the same bin in stack mode, otherwise the y axis value |
| Visualisation.AliveExtents | Project_A/Assets/SCRIPTS/VisualisationManager.cs:70-107 | the extents bound the values of respondents with LS > -0.9, and are one of those values or the untouched sentinel |
| Visualisation.ExtentStep | Project_A/Assets/SCRIPTS/VisualisationManager.cs:101-107 | one loop step widens the extents only for a living respondent |
| Visualisation.NoAliveNoExtent | Project_A/Assets/SCRIPTS/VisualisationManager.cs:70-101 | with nobody alive, the extents stay at float.MaxValue and float.MinValue |
| Visualisation.SpriteBands | Project_A/Assets/SCRIPTS/VisualisationManager.cs:240-242 | the thresholds of the three sprite helpers, each as an iff |
| Visualisation.SpritesMonotone | Project_A/Assets/SCRIPTS/VisualisationManager.cs:240-242 | a higher value never gives a worse face |
| Visualisation.RelativeSpriteAntisymmetric | Project_A/Assets/SCRIPTS/VisualisationManager.cs:242 | swapping current and baseline swaps green and red, and keeps yellow |
| Visualisation.SelectFaces | Project_A/Assets/SCRIPTS/VisualisationManager.cs:131-148 | both faces are dead iff LS <= -0.9; the PersonalWellbeing and SocietalFairness modes make the two faces equal |
| Visualisation.FacesByMode | Project_A/Assets/SCRIPTS/VisualisationManager.cs:135-147 | a living respondent's left face is the self sprite unless the mode copies from society, and the right face is the society sprite unless the mode copies from self |
| Visualisation.UnchangedComparisonIsYellow | Project_A/Assets/SCRIPTS/VisualisationManager.cs:135-140 | comparing a state with itself shows two yellow faces |
| Visualisation.CountInBin | Project_A/Assets/SCRIPTS/VisualisationManager.cs:88-90 | the dictionary lookup returns the stack height and keeps counting the bins |
| Visualisation.PlotPoint | Project_A/Assets/SCRIPTS/VisualisationManager.cs:76-96 | the step computes point i's plotted x and y |
| Visualisation.Widen | Project_A/Assets/SCRIPTS/VisualisationManager.cs:101-107 | the step maintains the alive-only extents |
| Visualisation.PlotPositions | Project_A/Assets/SCRIPTS/VisualisationManager.cs:60-108 | pass 1 fills the caches with the plotted values and returns the alive-only extents |
| Visualisation.VisualisationManager.constructor | Project_A/Assets/SCRIPTS/VisualisationManager.cs:14-21 | deltaScaleRange 1 and empty caches |
| Visualisation.VisualisationManager.UpdateDisplay | Project_A/Assets/SCRIPTS/VisualisationManager.cs:58-112 | the caches hold the plotted values, and each range is GetFinalRange of the alive-only extents |
| DataReading.JoinSplit | Project_A/Assets/SCRIPTS/DataReader.cs:18-22 | joining the parts of `Split` gives the original text back |
| DataReading.SplitJoin | Project_A/Assets/SCRIPTS/DataReader.cs:18-22 | splitting a join of separator-free parts gives the parts back |
| DataReading.HeaderSkipped | Project_A/Assets/SCRIPTS/DataReader.cs:18-19 | the data lines are everything after the first line |
| DataReading.CurveShape | Project_A/Assets/SCRIPTS/DataReader.cs:27-32 | a parsed curve has six values, taken from columns 1..6 |
| DataReading.FoldNext | Project_A/Assets/SCRIPTS/DataReader.cs:21-59 | blank lines and non-integer ids are skipped; in the societal pass an unknown id is dropped; otherwise the row's curve overwrites the entry, and a parse failure aborts |
| DataReading.FailureIsFinal | Project_A/Assets/SCRIPTS/DataReader.cs:27-32 | once a parse throws, the whole read fails |
| DataReading.FoldKeys | Project_A/Assets/SCRIPTS/DataReader.cs:24-58 | the societal pass keeps exactly the existing keys; the personal pass has exactly the integer ids read |
| DataReading.InertLineIgnored | Project_A/Assets/SCRIPTS/DataReader.cs:21-49 | a skipped line can be removed without changing the result |
| DataReading.LastRowWins | Project_A/Assets/SCRIPTS/DataReader.cs:26-57 | the last row with an id decides that id's curve |
| DataReading.UntouchedKeepsEntry | Project_A/Assets/SCRIPTS/DataReader.cs:49-58 | an id no row mentions keeps its entry |
| DataReading.ExpectedShape | Project_A/Assets/SCRIPTS/DataReader.cs:11-65 | both tables have the personal file's keys; a missing personal file gives nothing; a missing societal file leaves zero curves |
| DataReading.ParseCurve | Project_A/Assets/SCRIPTS/DataReader.cs:27-32 | the six element writes succeed iff the curve parses, and then store it |
| DataReading.NewRespondent | Project_A/Assets/SCRIPTS/DataReader.cs:26-32 | a fresh respondent with the id, the parsed personal curve and a zero societal curve |
| DataReading.ReadPersonal | Project_A/Assets/SCRIPTS/DataReader.cs:16-36 | the personal loop yields the reference table, with fresh, separate respondents |
| DataReading.ReadSocietal | Project_A/Assets/SCRIPTS/DataReader.cs:39-61 | the societal loop writes the reference societal curves into the existing respondents |
| DataReading.GetRespondents | Project_A/Assets/SCRIPTS/DataReader.cs:11-65 | succeeds iff no parse throws; then the keys are the personal ids, and each respondent holds its id and both reference curves |
| Respondents.Respondent.constructor | Project_A/Assets/SCRIPTS/Respondent.cs:15-20 | stores the id; two fresh, separate six-entry curves of zeros; LS and wealth tier 0 |

## Left out

- Rendering, UI and input glue (UIManager, GraphGrid, GraphAxisVisuals, RespondentVisual, ClusterVisual, ButtonHoverHandler): these are presentation only. `VisualisationManager.Update`, `CreatePopulation`, `GetPos` and the pass-2 drawing, `SetHoverHighlight`, `SetGhostMode` and `SetArrowMode` are also left out; only pass 2's face choice is modelled (`SelectFaces`).
- `SimulationManager.CalculateAndRefreshUI` ends by sending text to the UI; the model stops at the totals and the happy count. Its `uiManager` and `visuals` null guards are not modelled.
- `TermManager.LogTurn`, the session record's upload in `EndGame`, and `AssignPoliciesToUI`: persistence and UI side effects. The database and logging scripts are not part of this model.
- Terms.TermManager.EndGame: the source writes the reason and the turn count into `_sessionData.gameOverReason` and `_sessionData.totalTurnsPlayed` (TermManager.cs:217-218). But `GameSessionData` as declared in DatabaseManager.cs:44-49 has only `timestamp` and `buttonLog`, so these writes, like `playerID` and `turnHistory`, do not compile against it. The model keeps the two values as fields of the component.
- `Debug.Log` calls: they have no effect on state.
- Randomness: `Random.value`, `Random.Range`, the `OrderBy(Random.value)` shuffles and `Random.InitState(42)` with its save and restore. They become parameters (draws, a shuffled pool, a wildcard index, a hand order, seed picks), so the model cannot state that a shuffle is uniform. `TermManager.DraftPolicies` takes the already shuffled pool, and the second shuffle's pick is `remaining[wild % |remaining|]`.
- `WelfareMetrics.GetContinuousWeightedLS`, called during start-up, is not part of this model; `Simulation.SimulationManager.Start` takes the sampled starting values as an input.
- Floating point: float rounding, overflow and NaN are not modelled; arithmetic is exact over `real`. `float.MaxValue` is written out as a constant. `Mathf.Round` is modelled as round-half-to-even over the reals.
- WelfareMetrics.EvaluateDistribution: requires a non-empty population. On an empty array the code returns 0/0 (NaN), and every caller passes the whole population. `GetCurrentSocietalFairness` returns `NaN` itself on an empty population.
- KMeans.GetClusters: requires k >= 1 for non-empty input. With k = 0 the code indexes `pixelCounts[0]` and throws.
- Policies.ApplyPolicy: `string.GetHashCode()` is platform-specific and becomes an opaque integer; the selection value is the exact remainder over `real`, not its float rounding.
- Policies.LotteryValue: the value is the exact real remainder, not the float32 one. In `float`, `policyName.GetHashCode() * 0.72f` has magnitude at least 2^23 for all but about 0.5% of 32-bit hashes; such a float has no fractional bits, so the sum with `r.id * 1.58f` is a whole number, `% 1.0f` gives 0 and the seed is 0. For such a policy name every respondent in the wealth band is selected whenever the proportion is at least 0, whatever the proportion is. The model selects by the exact remainder instead, so it does not show this collapse.
- Terms.PowerWithinVariance: only for draws within [-powerVariance, powerVariance]; a negative `powerVariance` (an empty `Random.Range`) is not modelled.
- Terms.NoRepeats: policies are values here, compared by value. The code compares `Policy` assets by reference, so the model treats two identical assets as one card.
- Terms.TermManager.OnPolicyClicked: clicks after the game has ended are still handled, as in the code; the button wiring that would prevent them is UI.
- DataReading.GetRespondents: the parsers are abstract partial functions, and a throwing `float.Parse` makes the whole read fail. The respondents written before the exception are not modelled. `string.IsNullOrWhiteSpace` is modelled with an explicit list of white-space characters.
- Simulation.SimulationManager.Start: the game-start side effects (creating visuals, the first display refresh) are left out; only the state it sets is modelled.
- Hover highlighting and the hover info text in `OnHoverEnter`: UI text only.
