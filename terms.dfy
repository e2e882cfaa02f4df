/** The term: turns, political power, the three-card hand and the end of the
    game (TermManager.cs). */
module Terms {
  import opened Policies
  import S = Simulation
  import opened Wrappers

  // ---------------------------------------------------------------------------
  // The power curve

  function Max(a: int, b: int): int { if a >= b then a else b }

  /** Power before the floor of 5: the base, the growth for the turns already
      played and the random variance. */
  function RawPower(basePower: int, powerPerTurn: int, turn: int, variance: int): int
  {
    basePower + (turn - 1) * powerPerTurn + variance
  }

  /** GetPowerForTurn with the variance drawn by the caller: the raw power,
      but never below 5. */
  function PowerForTurn(basePower: int, powerPerTurn: int, turn: int, variance: int): (power: int)
    ensures power >= 5
    ensures power >= RawPower(basePower, powerPerTurn, turn, variance)
    ensures power == 5 || power == RawPower(basePower, powerPerTurn, turn, variance)
  {
    Max(5, RawPower(basePower, powerPerTurn, turn, variance))
  }

  /** With a variance in [-powerVariance, powerVariance] the power lies
      between the floored curve minus and plus the variance bound. */
  lemma PowerWithinVariance(basePower: int, powerPerTurn: int, powerVariance: int, turn: int, variance: int)
    requires -powerVariance <= variance <= powerVariance
    ensures Max(5, RawPower(basePower, powerPerTurn, turn, -powerVariance)) <=
            PowerForTurn(basePower, powerPerTurn, turn, variance) <=
            Max(5, RawPower(basePower, powerPerTurn, turn, powerVariance))
  {
  }

  /** With a non-negative growth per turn and the same draw, a later turn
      never has less power. */
  lemma PowerNonDecreasing(basePower: int, powerPerTurn: int, t1: int, t2: int, variance: int)
    requires powerPerTurn >= 0 && t1 <= t2
    ensures PowerForTurn(basePower, powerPerTurn, t1, variance) <= PowerForTurn(basePower, powerPerTurn, t2, variance)
  {
    assert (t2 - 1) * powerPerTurn - (t1 - 1) * powerPerTurn == (t2 - t1) * powerPerTurn;
  }

  /** With the default settings (base 10, 5 per turn) and no variance, turn t
      has 5 + 5t power. */
  lemma DefaultCurve(turn: int)
    requires turn >= 1
    ensures PowerForTurn(10, 5, turn, 0) == 5 + 5 * turn
  {
  }

  // ---------------------------------------------------------------------------
  // The hand

  /** The pool members at most `power` expensive, in pool order. */
  function Affordable(pool: seq<Policy>, power: int): (a: seq<Policy>)
  {
    if pool == [] then []
    else (if pool[0].politicalCost <= power then [pool[0]] else []) + Affordable(pool[1..], power)
  }

  /** The pool members more expensive than `power`, in pool order. */
  function Expensive(pool: seq<Policy>, power: int): (e: seq<Policy>)
  {
    if pool == [] then []
    else (if pool[0].politicalCost > power then [pool[0]] else []) + Expensive(pool[1..], power)
  }

  /** The affordable and the expensive members split the pool. */
  lemma {:induction false} SplitIsPartition(pool: seq<Policy>, power: int)
    ensures multiset(Affordable(pool, power)) + multiset(Expensive(pool, power)) == multiset(pool)
  {
    if pool != [] {
      SplitIsPartition(pool[1..], power);
      assert pool == [pool[0]] + pool[1..];
    }
  }

  /** The affordable list holds only affordable policies, the expensive list
      only expensive ones. */
  lemma {:induction false} SplitCosts(pool: seq<Policy>, power: int)
    ensures forall i :: 0 <= i < |Affordable(pool, power)| ==> Affordable(pool, power)[i].politicalCost <= power
    ensures forall i :: 0 <= i < |Expensive(pool, power)| ==> Expensive(pool, power)[i].politicalCost > power
  {
    if pool != [] {
      SplitCosts(pool[1..], power);
    }
  }

  /** Every affordable member of the pool is in the affordable list. */
  lemma {:induction false} AffordableComplete(pool: seq<Policy>, power: int)
    ensures |Affordable(pool, power)| == 0 ==> forall i :: 0 <= i < |pool| ==> pool[i].politicalCost > power
  {
    if pool != [] {
      AffordableComplete(pool[1..], power);
      assert forall i :: 1 <= i < |pool| ==> pool[i] == pool[1..][i - 1];
    }
  }

  function Min(a: int, b: int): int { if a <= b then a else b }

  /** The first two slots: affordable policies while there are any, then
      expensive ones. */
  function FirstSlots(pool: seq<Policy>, power: int): (s: seq<Policy>)
  {
    var aff := Affordable(pool, power);
    var others := Expensive(pool, power);
    var ta := Min(2, |aff|);
    aff[..ta] + others[..Min(2 - ta, |others|)]
  }

  /** The candidates for the third slot: the affordable cards not used, and
      the expensive cards not used that cost at most `power + 10`. */
  function WildcardCandidates(pool: seq<Policy>, power: int): (r: seq<Policy>)
  {
    var aff := Affordable(pool, power);
    var others := Expensive(pool, power);
    var ta := Min(2, |aff|);
    aff[ta..] + Affordable(others[Min(2 - ta, |others|)..], power + 10)
  }

  /** The drafted hand before its final shuffle: the two first slots, then
      the candidate at `wild` (which stands for the shuffle of the candidates)
      when there is one. */
  function Draft(pool: seq<Policy>, power: int, wild: nat): (hand: seq<Policy>)
  {
    var r := WildcardCandidates(pool, power);
    FirstSlots(pool, power) + (if |r| > 0 then [r[wild % |r|]] else [])
  }

  /** A hand order: a permutation of the three button positions. */
  predicate HandOrder(order: seq<int>)
  {
    |order| == 3 && multiset(order) == multiset{0, 1, 2}
  }

  /** The hand shuffled by `order` (the final shuffle of the hand): the
      entries of `order` that are positions of the hand pick the cards, in turn. */
  function Reorder<T>(hand: seq<T>, order: seq<int>): (h: seq<T>)
    requires |order| == 3
  {
    (if 0 <= order[0] < |hand| then [hand[order[0]]] else []) +
    (if 0 <= order[1] < |hand| then [hand[order[1]]] else []) +
    (if 0 <= order[2] < |hand| then [hand[order[2]]] else [])
  }

  /** A hand order is one of the six permutations of 0, 1, 2. */
  lemma HandOrderCases(order: seq<int>)
    requires HandOrder(order)
    ensures order == [0, 1, 2] || order == [0, 2, 1] || order == [1, 0, 2] ||
            order == [1, 2, 0] || order == [2, 0, 1] || order == [2, 1, 0]
  {
    assert order == [order[0], order[1], order[2]];
    assert multiset(order) == multiset{order[0], order[1], order[2]};
    assert order[0] in multiset{0, 1, 2} && order[1] in multiset{0, 1, 2} && order[2] in multiset{0, 1, 2};
  }

  /** The final shuffle of a hand of at most three cards is a permutation. */
  lemma ReorderIsPermutation<T>(hand: seq<T>, order: seq<int>)
    requires HandOrder(order) && |hand| <= 3
    ensures |Reorder(hand, order)| == |hand|
    ensures multiset(Reorder(hand, order)) == multiset(hand)
  {
    HandOrderCases(order);
    if |hand| == 0 {
      assert Reorder(hand, order) == [];
    } else if |hand| == 1 {
      ReorderOne(hand, order);
    } else if |hand| == 2 {
      ReorderTwo(hand, order);
    } else if |hand| == 3 {
      ReorderThree(hand, order);
    }
  }

  lemma ReorderOne<T>(hand: seq<T>, order: seq<int>)
    requires |hand| == 1
    requires order == [0, 1, 2] || order == [0, 2, 1] || order == [1, 0, 2] ||
             order == [1, 2, 0] || order == [2, 0, 1] || order == [2, 1, 0]
    ensures Reorder(hand, order) == hand
  {
  }

  lemma ReorderTwo<T>(hand: seq<T>, order: seq<int>)
    requires |hand| == 2
    requires order == [0, 1, 2] || order == [0, 2, 1] || order == [1, 0, 2] ||
             order == [1, 2, 0] || order == [2, 0, 1] || order == [2, 1, 0]
    ensures |Reorder(hand, order)| == 2 && multiset(Reorder(hand, order)) == multiset(hand)
  {
    assert hand == [hand[0], hand[1]];
    if order == [0, 1, 2] || order == [0, 2, 1] || order == [2, 0, 1] {
      assert Reorder(hand, order) == hand;
    } else {
      assert Reorder(hand, order) == [hand[1], hand[0]];
      SwapTwo(hand[0], hand[1]);
    }
  }

  lemma SwapTwo<T>(a: T, b: T)
    ensures multiset([b, a]) == multiset([a, b])
  {
  }

  lemma ReorderThree<T>(hand: seq<T>, order: seq<int>)
    requires |hand| == 3
    requires order == [0, 1, 2] || order == [0, 2, 1] || order == [1, 0, 2] ||
             order == [1, 2, 0] || order == [2, 0, 1] || order == [2, 1, 0]
    ensures |Reorder(hand, order)| == 3 && multiset(Reorder(hand, order)) == multiset(hand)
  {
    var a, b, c := hand[0], hand[1], hand[2];
    assert hand == [a, b, c];
    ReorderOfDistinct(hand, order[0], order[1], order[2]);
    assert order == [order[0], order[1], order[2]];
    if order == [0, 2, 1] {
      SwapLast(a, b, c);
    } else if order == [1, 0, 2] {
      SwapFirst(a, b, c);
    } else if order == [1, 2, 0] {
      SwapLast(b, a, c);
      SwapFirst(a, b, c);
    } else if order == [2, 0, 1] {
      SwapFirst(a, c, b);
      SwapLast(a, b, c);
    } else if order == [2, 1, 0] {
      SwapFirst(b, c, a);
      SwapLast(b, a, c);
      SwapFirst(a, b, c);
    }
  }

  lemma ReorderOfDistinct<T>(hand: seq<T>, i: int, j: int, k: int)
    requires |hand| == 3 && 0 <= i < 3 && 0 <= j < 3 && 0 <= k < 3
    ensures Reorder(hand, [i, j, k]) == [hand[i], hand[j], hand[k]]
  {
  }

  lemma SwapFirst<T>(a: T, b: T, c: T)
    ensures multiset([b, a, c]) == multiset([a, b, c])
  {
  }

  lemma SwapLast<T>(a: T, b: T, c: T)
    ensures multiset([a, c, b]) == multiset([a, b, c])
  {
  }

  /** At most three cards, and a pool of two or more policies gives at
      least two. */
  lemma DraftSize(pool: seq<Policy>, power: int, wild: nat)
    ensures |Draft(pool, power, wild)| <= 3
    ensures |pool| >= 2 ==> |Draft(pool, power, wild)| >= 2
    ensures |Draft(pool, power, wild)| <= |pool|
  {
    SplitSizes(pool, power);
    var aff := Affordable(pool, power);
    var others := Expensive(pool, power);
    var ta := Min(2, |aff|);
    var to := Min(2 - ta, |others|);
    SplitSizes(others[to..], power + 10);
    DraftUnfolds(pool, power, wild, aff, others, ta, to, Affordable(others[to..], power + 10));
  }

  /** The affordable and the expensive lists together are as long as the pool. */
  lemma {:induction false} SplitSizes(pool: seq<Policy>, power: int)
    ensures |Affordable(pool, power)| + |Expensive(pool, power)| == |pool|
  {
    if pool != [] {
      SplitSizes(pool[1..], power);
    }
  }

  /** Every card comes from the pool, and only as often as it is in the pool:
      with distinct pool entries no card is repeated. */
  lemma DraftFromPool(pool: seq<Policy>, power: int, wild: nat)
    ensures multiset(Draft(pool, power, wild)) <= multiset(pool)
  {
    SplitIsPartition(pool, power);
    var aff := Affordable(pool, power);
    var others := Expensive(pool, power);
    var ta := Min(2, |aff|);
    var to := Min(2 - ta, |others|);
    var close := Affordable(others[to..], power + 10);
    SplitIsPartition(others[to..], power + 10);
    DraftUnfolds(pool, power, wild, aff, others, ta, to, close);
    PicksFromTwoLists(aff, others, ta, to, close, wild);
  }

  lemma DraftUnfolds(pool: seq<Policy>, power: int, wild: nat, aff: seq<Policy>, others: seq<Policy>,
                     ta: nat, to: nat, close: seq<Policy>)
    requires aff == Affordable(pool, power) && others == Expensive(pool, power)
    requires ta == Min(2, |aff|) && to == Min(2 - ta, |others|)
    requires close == Affordable(others[to..], power + 10)
    ensures var r := aff[ta..] + close;
      Draft(pool, power, wild) == aff[..ta] + others[..to] + (if |r| > 0 then [r[wild % |r|]] else [])
  {
  }

  /** Taking prefixes of two lists, then at most one more element of what
      is left (or of a sub-multiset of it), takes each element at most as
      often as the two lists hold it. */
  lemma PicksFromTwoLists<T>(xs: seq<T>, ys: seq<T>, tx: nat, ty: nat, close: seq<T>, wild: nat)
    requires tx <= |xs| && ty <= |ys| && multiset(close) <= multiset(ys[ty..])
    ensures var r := xs[tx..] + close;
      multiset(xs[..tx] + ys[..ty] + (if |r| > 0 then [r[wild % |r|]] else [])) <= multiset(xs) + multiset(ys)
  {
    var r := xs[tx..] + close;
    assert xs == xs[..tx] + xs[tx..];
    assert ys == ys[..ty] + ys[ty..];
    if |r| > 0 {
      var e := r[wild % |r|];
      assert e in multiset(r);
      assert multiset{e} <= multiset(xs[tx..]) + multiset(ys[ty..]);
    }
  }

  /** A sub-multiset of a sequence without repetitions has no repetitions. */
  lemma NoRepeats(hand: seq<Policy>, pool: seq<Policy>)
    requires multiset(hand) <= multiset(pool)
    requires forall i, j :: 0 <= i < j < |pool| ==> pool[i] != pool[j]
    ensures forall i, j :: 0 <= i < j < |hand| ==> hand[i] != hand[j]
  {
    forall i, j | 0 <= i < j < |hand|
      ensures hand[i] != hand[j]
    {
      if hand[i] == hand[j] {
        var x := hand[i];
        assert multiset(hand)[x] >= 2 by {
          var rest := hand[..i] + hand[i + 1..];
          assert hand == hand[..i] + [x] + hand[i + 1..];
          assert x in multiset(rest) by {
            assert rest[j - 1] == x;
          }
        }
        SeqCountAtMostOne(pool, x);
        assert false;
      }
    }
  }

  lemma {:induction false} SeqCountAtMostOne(pool: seq<Policy>, x: Policy)
    requires forall i, j :: 0 <= i < j < |pool| ==> pool[i] != pool[j]
    ensures multiset(pool)[x] <= 1
  {
    if pool != [] {
      var rest := pool[1..];
      SeqCountAtMostOne(rest, x);
      assert pool == [pool[0]] + rest;
      if pool[0] == x {
        assert x !in rest by {
          forall k | 0 <= k < |rest| ensures rest[k] != x {
            assert rest[k] == pool[k + 1];
          }
        }
      }
    }
  }

  /** Slots 1 and 2 hold affordable cards while any remain; an expensive card
      in slot 1 or 2 means nothing cheaper was left for it. */
  lemma FirstSlotsPreferAffordable(pool: seq<Policy>, power: int, wild: nat, j: nat)
    requires j < 2 && j < |Draft(pool, power, wild)|
    ensures j < |Affordable(pool, power)| ==> Draft(pool, power, wild)[j].politicalCost <= power
    ensures Draft(pool, power, wild)[j].politicalCost > power ==> |Affordable(pool, power)| <= j
  {
    var aff := Affordable(pool, power);
    var others := Expensive(pool, power);
    var ta := Min(2, |aff|);
    var to := Min(2 - ta, |others|);
    var close := Affordable(others[to..], power + 10);
    var r := aff[ta..] + close;
    var tail := if |r| > 0 then [r[wild % |r|]] else [];
    DraftUnfolds(pool, power, wild, aff, others, ta, to, close);
    SlotFromPrefixes(aff, others, ta, to, tail, j);
    SplitCosts(pool, power);
  }

  /** Position j of two concatenated prefixes. */
  lemma SlotFromPrefixes<T>(xs: seq<T>, ys: seq<T>, tx: nat, ty: nat, tail: seq<T>, j: nat)
    requires tx <= |xs| && ty <= |ys| && j < tx + ty
    ensures (xs[..tx] + ys[..ty] + tail)[j] == if j < tx then xs[j] else ys[j - tx]
  {
  }

  /** The third card, when there is one, costs at most power + 10. */
  lemma ThirdCardInReach(pool: seq<Policy>, power: int, wild: nat)
    requires |Draft(pool, power, wild)| == 3
    ensures Draft(pool, power, wild)[2].politicalCost <= power + 10
  {
    var aff := Affordable(pool, power);
    var others := Expensive(pool, power);
    var ta := Min(2, |aff|);
    var to := Min(2 - ta, |others|);
    var close := Affordable(others[to..], power + 10);
    var r := aff[ta..] + close;
    DraftUnfolds(pool, power, wild, aff, others, ta, to, close);
    assert |aff[..ta] + others[..to]| == ta + to <= 2;
    assert |r| > 0;
    var w := wild % |r|;
    assert Draft(pool, power, wild)[2] == r[w];
    SplitCosts(pool, power);
    SplitCosts(others[to..], power + 10);
    if w < |aff| - ta {
      assert r[w] == aff[ta + w];
    } else {
      assert r[w] == close[w - (|aff| - ta)];
    }
  }

  /** The hand as the buttons show it: at most three cards, at least two
      from a pool of two or more, each from the pool no more often than the
      pool holds it, so none repeated when the pool has no repeats. */
  lemma ShownHand(pool: seq<Policy>, power: int, wild: nat, order: seq<int>)
    requires HandOrder(order)
    ensures |Reorder(Draft(pool, power, wild), order)| <= 3
    ensures |pool| >= 2 ==> |Reorder(Draft(pool, power, wild), order)| >= 2
    ensures multiset(Reorder(Draft(pool, power, wild), order)) <= multiset(pool)
    ensures (forall i, j :: 0 <= i < j < |pool| ==> pool[i] != pool[j]) ==>
      forall i, j :: 0 <= i < j < |Reorder(Draft(pool, power, wild), order)| ==>
        Reorder(Draft(pool, power, wild), order)[i] != Reorder(Draft(pool, power, wild), order)[j]
  {
    var hand := Draft(pool, power, wild);
    DraftSize(pool, power, wild);
    DraftFromPool(pool, power, wild);
    ReorderIsPermutation(hand, order);
    if forall i, j :: 0 <= i < j < |pool| ==> pool[i] != pool[j] {
      NoRepeats(Reorder(hand, order), pool);
    }
  }

  /** The drafting steps of DraftPolicies on an already shuffled pool: two
      slots filled from the affordable cards first, then one wildcard from
      what is left within reach. The hand is the draft. */
  method DraftHand(shuffledPool: seq<Policy>, power: int, wild: nat) returns (hand: seq<Policy>)
    ensures hand == Draft(shuffledPool, power, wild)
  {
    hand := [];
    var affordable := Affordable(shuffledPool, power);
    var others := Expensive(shuffledPool, power);
    ghost var aff0, others0 := affordable, others;

    if |affordable| > 0 {
      hand := hand + [affordable[0]];
      affordable := affordable[1..];
    } else if |others| > 0 {
      hand := hand + [others[0]];
      others := others[1..];
    }

    if |affordable| > 0 {
      hand := hand + [affordable[0]];
      affordable := affordable[1..];
    } else if |others| > 0 {
      hand := hand + [others[0]];
      others := others[1..];
    }

    ghost var ta := Min(2, |aff0|);
    ghost var to := Min(2 - ta, |others0|);
    assert hand == FirstSlots(shuffledPool, power) by {
      assert hand == aff0[..ta] + others0[..to];
    }
    assert affordable == aff0[ta..] && others == others0[to..];

    var closeReach := Affordable(others, power + 10);
    var remaining := affordable + closeReach;
    assert remaining == WildcardCandidates(shuffledPool, power);
    if |remaining| > 0 {
      hand := hand + [remaining[wild % |remaining|]];
    }
  }

  // ---------------------------------------------------------------------------
  // The controller

  /** The random draws of one turn: the power variance, the shuffled pool,
      the wildcard shuffle (as an index) and the hand shuffle. */
  datatype TurnDraws = TurnDraws(variance: int, shuffledPool: seq<Policy>, wild: nat, order: seq<int>)

  class TermManager {
    const maxTurns: int
    const basePower: int
    const powerPerTurn: int
    const powerVariance: int
    const allPoliciesPool: seq<Policy>
    const simManager: S.SimulationManager

    var currentTurn: int
    var currentPower: int
    var isGameActive: bool
    var currentHand: seq<Policy>
    /** The two session fields EndGame fills in. */
    var gameOverReason: string
    var totalTurnsPlayed: int

    /** Power is never negative, turns start at 1, and the game is active
        exactly while the turn has not passed maxTurns; the first turn is
        always played, even when maxTurns is below 1. */
    ghost predicate Valid()
      reads this
    {
      currentPower >= 0 && currentTurn >= 1 && (isGameActive <==> (currentTurn <= maxTurns || currentTurn == 1))
    }

    /** Draws that a turn can produce: a variance in range, a permutation of
        the pool and a permutation of the three buttons. */
    predicate Fits(d: TurnDraws)
    {
      -powerVariance <= d.variance <= powerVariance &&
      multiset(d.shuffledPool) == multiset(allPoliciesPool) &&
      HandOrder(d.order)
    }

    /** The component with its Inspector settings (by default 12 turns, base
        10, 5 per turn, variance 3), before its first turn. */
    constructor (maxTurns: int, basePower: int, powerPerTurn: int, powerVariance: int,
                 pool: seq<Policy>, simManager: S.SimulationManager)
      ensures Valid()
      ensures this.maxTurns == maxTurns && this.basePower == basePower && this.powerPerTurn == powerPerTurn
      ensures this.powerVariance == powerVariance && allPoliciesPool == pool && this.simManager == simManager
      ensures currentTurn == 1 && currentPower == 0 && isGameActive && currentHand == []
      ensures gameOverReason == "" && totalTurnsPlayed == 0
    {
      this.maxTurns := maxTurns;
      this.basePower := basePower;
      this.powerPerTurn := powerPerTurn;
      this.powerVariance := powerVariance;
      allPoliciesPool := pool;
      this.simManager := simManager;
      currentTurn := 1;
      currentPower := 0;
      isGameActive := true;
      currentHand := [];
      gameOverReason := "";
      totalTurnsPlayed := 0;
    }

    function GetPowerForTurn(turn: int, variance: int): (power: int)
    {
      PowerForTurn(basePower, powerPerTurn, turn, variance)
    }

    /** DraftPolicies: the hand becomes the shuffled draft of the shuffled
        pool at the current power; nothing else changes. */
    method DraftPolicies(d: TurnDraws)
      requires Fits(d)
      modifies this
      ensures currentHand == Reorder(Draft(d.shuffledPool, currentPower, d.wild), d.order)
      ensures currentTurn == old(currentTurn) && currentPower == old(currentPower) && isGameActive == old(isGameActive)
      ensures gameOverReason == old(gameOverReason) && totalTurnsPlayed == old(totalTurnsPlayed)
    {
      var hand := DraftHand(d.shuffledPool, currentPower, d.wild);
      currentHand := Reorder(hand, d.order);
    }

    /** StartNewTurn: nothing once the game is over; otherwise the turn's
        power is drawn and a hand drafted at that power. */
    method StartNewTurn(d: TurnDraws)
      requires Valid() && Fits(d)
      modifies this
      ensures Valid()
      ensures !old(isGameActive) ==>
        currentPower == old(currentPower) && currentHand == old(currentHand)
      ensures old(isGameActive) ==>
        currentPower == GetPowerForTurn(currentTurn, d.variance) &&
        currentHand == Reorder(Draft(d.shuffledPool, currentPower, d.wild), d.order)
      ensures currentTurn == old(currentTurn) && isGameActive == old(isGameActive)
      ensures gameOverReason == old(gameOverReason) && totalTurnsPlayed == old(totalTurnsPlayed)
    {
      if !isGameActive {
        return;
      }
      currentPower := GetPowerForTurn(currentTurn, d.variance);
      DraftPolicies(d);
    }

    /** EndGame: the game stops and the session records the reason and the
        turn reached. */
    method EndGame(reason: string)
      modifies this
      ensures !isGameActive && gameOverReason == reason && totalTurnsPlayed == currentTurn
      ensures currentTurn == old(currentTurn) && currentPower == old(currentPower) && currentHand == old(currentHand)
    {
      isGameActive := false;
      gameOverReason := reason;
      totalTurnsPlayed := currentTurn;
    }

    /** OnPolicyClicked with the next turn's draws: an affordable policy is
        paid for, applied to the population and ends the turn, which either
        ends the term or starts the next turn; an unaffordable one changes
        nothing. */
    method OnPolicyClicked(p: Policy, next: TurnDraws)
      requires Valid() && Fits(next)
      requires currentPower >= p.politicalCost ==> simManager.Valid() && simManager.loaded
      modifies this, simManager, simManager.PopulationList
      ensures Valid()
      ensures old(currentPower) < p.politicalCost ==>
        currentTurn == old(currentTurn) && currentPower == old(currentPower) && currentHand == old(currentHand) &&
        isGameActive == old(isGameActive) && gameOverReason == old(gameOverReason) &&
        totalTurnsPlayed == old(totalTurnsPlayed) && unchanged(simManager) && unchanged(simManager.PopulationList)
      ensures old(currentPower) >= p.politicalCost ==>
        currentTurn == old(currentTurn) + 1 && simManager.Valid() && simManager.loaded &&
        simManager.PopulationList == old(simManager.PopulationList) &&
        simManager.CurrentLS[..] == S.Outcome(p, S.Ids(simManager.PopulationList), old(S.CurrentValues(simManager.PopulationList))) &&
        simManager.BaselineLS == old(simManager.BaselineLS) && simManager.BaselineLS[..] == old(simManager.BaselineLS[..]) &&
        (forall i :: 0 <= i < |simManager.PopulationList| ==>
          simManager.PopulationList[i].wealthTier == old(simManager.PopulationList[i].wealthTier)) &&
        simManager.ActivePolicy == Some(p) && simManager.hasGameStarted &&
        simManager.faceMode == old(simManager.faceMode)
      ensures old(currentPower) >= p.politicalCost && !old(simManager.hasGameStarted) ==>
        simManager.xAxis == simManager.gameplayXAxis && simManager.yAxis == simManager.gameplayYAxis &&
        simManager.cachedX == simManager.gameplayXAxis && simManager.cachedY == simManager.gameplayYAxis
      ensures old(currentPower) >= p.politicalCost && old(simManager.hasGameStarted) ==>
        simManager.xAxis == old(simManager.xAxis) && simManager.yAxis == old(simManager.yAxis) &&
        simManager.cachedX == old(simManager.cachedX) && simManager.cachedY == old(simManager.cachedY)
      ensures old(currentPower) >= p.politicalCost && currentTurn > maxTurns ==>
        !isGameActive && gameOverReason == "Term Finished" && totalTurnsPlayed == currentTurn &&
        currentPower == old(currentPower) - p.politicalCost && currentHand == old(currentHand)
      ensures old(currentPower) >= p.politicalCost && currentTurn <= maxTurns ==>
        isGameActive && currentPower == GetPowerForTurn(currentTurn, next.variance) &&
        currentHand == Reorder(Draft(next.shuffledPool, currentPower, next.wild), next.order) &&
        gameOverReason == old(gameOverReason) && totalTurnsPlayed == old(totalTurnsPlayed)
    {
      if currentPower >= p.politicalCost {
        currentPower := currentPower - p.politicalCost;
        simManager.ApplyPolicyEffect(p);
        currentTurn := currentTurn + 1;
        if currentTurn > maxTurns {
          EndGame("Term Finished");
        } else {
          StartNewTurn(next);
        }
      }
    }
  }
}
