/** A policy and the way it moves every respondent's life satisfaction (Policy.cs). */
module Policies {
  import opened Respondents

  /** A sub-clause of a policy that hits some of the respondents in an LS band. */
  datatype TargetedRule = TargetedRule(
    note: string,
    minLS: real,
    maxLS: real,
    affectEveryone: bool,
    proportion: real,
    impact: real)

  /** A policy asset. `nameHash` stands for the platform's `policyName.GetHashCode()`,
      which the model treats as an opaque integer fixed per policy. An asset created
      from the menu starts with cost 10, all deltas 0, thresholds rich 8 and poor 4. */
  datatype Policy = Policy(
    policyName: string,
    nameHash: int,
    description: string,
    politicalCost: int,
    baseChangeRich: real,
    baseChangeMiddle: real,
    baseChangePoor: real,
    richThreshold: real,
    poorThreshold: real,
    specificRules: seq<TargetedRule>)

  /** The three base bands. */
  datatype Band = Rich | Middle | Poor

  /** The base band of a respondent at `current`: rich is decided first, and
      both thresholds belong to their outer band. */
  function BandOf(p: Policy, current: real): (b: Band)
    ensures b == Rich <==> current >= p.richThreshold
    ensures b == Poor <==> current < p.richThreshold && current <= p.poorThreshold
    ensures b == Middle <==> p.poorThreshold < current < p.richThreshold
  {
    if current >= p.richThreshold then Rich
    else if current <= p.poorThreshold then Poor
    else Middle
  }

  /** The base-band change applied to a respondent at `current`. */
  function BaseDelta(p: Policy, current: real): real
  {
    match BandOf(p, current)
    case Rich => p.baseChangeRich
    case Poor => p.baseChangePoor
    case Middle => p.baseChangeMiddle
  }

  function Abs(x: real): real { if x < 0.0 then -x else x }

  /** Integer part of x, rounded toward zero. */
  function Truncate(x: real): int
  {
    if x >= 0.0 then x.Floor else -((-x).Floor)
  }

  /** C#'s `x % 1.0`: the remainder keeps the sign of x. */
  function TruncatedRemainder(x: real): (r: real)
    ensures -1.0 < r < 1.0
    ensures x >= 0.0 ==> 0.0 <= r
    ensures x <= 0.0 ==> r <= 0.0
    ensures (x - r).Floor as real == x - r
  {
    x - Truncate(x) as real
  }

  /** The pseudo-random lottery number of a respondent under a policy:
      |(id * 1.58 + hash * 0.72) % 1.0|. It depends on nothing else. */
  function LotteryValue(id: int, nameHash: int): (v: real)
    ensures 0.0 <= v < 1.0
  {
    Abs(TruncatedRemainder(id as real * 1.58 + nameHash as real * 0.72))
  }

  /** The rule's LS band contains `current`, both ends included. */
  predicate InBand(rule: TargetedRule, current: real)
  {
    rule.minLS <= current <= rule.maxLS
  }

  /** The rule picks the respondent: everyone, or those whose lottery number
      is at most the proportion. */
  predicate Selected(rule: TargetedRule, id: int, nameHash: int)
  {
    rule.affectEveryone || LotteryValue(id, nameHash) <= rule.proportion
  }

  /** Impact the rule has on a respondent with this id at `current`. */
  function RuleImpact(rule: TargetedRule, id: int, nameHash: int, current: real): real
  {
    if InBand(rule, current) && Selected(rule, id, nameHash) then rule.impact else 0.0
  }

  /** Total impact of the rules, added in declaration order. */
  function RulesDelta(rules: seq<TargetedRule>, id: int, nameHash: int, current: real): real
  {
    if rules == [] then 0.0
    else RulesDelta(rules[..|rules| - 1], id, nameHash, current) + RuleImpact(rules[|rules| - 1], id, nameHash, current)
  }

  /** Mathf.Clamp(value, 0, 10). */
  function Clamp(value: real, lo: real, hi: real): real
  {
    if value < lo then lo else if value > hi then hi else value
  }

  /** New life satisfaction of a respondent with this id at `current`. */
  function NewLS(p: Policy, id: int, current: real): (ls: real)
    ensures 0.0 <= ls <= 10.0
    ensures current + BaseDelta(p, current) + RulesDelta(p.specificRules, id, p.nameHash, current) <= 0.0 ==> ls == 0.0
    ensures current + BaseDelta(p, current) + RulesDelta(p.specificRules, id, p.nameHash, current) >= 10.0 ==> ls == 10.0
  {
    Clamp(current + BaseDelta(p, current) + RulesDelta(p.specificRules, id, p.nameHash, current), 0.0, 10.0)
  }

  /** ApplyPolicy: a fresh array of new LS values, one per respondent, each a
      function of that respondent's id and current LS and of the policy alone.
      Calling it twice on the same inputs gives the same array contents. */
  method ApplyPolicy(p: Policy, population: seq<Respondent>) returns (newLS: array<real>)
    ensures fresh(newLS) && newLS.Length == |population|
    ensures forall i :: 0 <= i < |population| ==>
      newLS[i] == NewLS(p, population[i].id, population[i].currentLS)
  {
    newLS := new real[|population|];
    var i := 0;
    while i < |population|
      invariant 0 <= i <= |population|
      invariant forall j :: 0 <= j < i ==> newLS[j] == NewLS(p, population[j].id, population[j].currentLS)
    {
      var r := population[i];
      var current := r.currentLS;
      var totalDelta := 0.0;

      if current >= p.richThreshold {
        totalDelta := totalDelta + p.baseChangeRich;
      } else if current <= p.poorThreshold {
        totalDelta := totalDelta + p.baseChangePoor;
      } else {
        totalDelta := totalDelta + p.baseChangeMiddle;
      }

      var k := 0;
      while k < |p.specificRules|
        invariant 0 <= k <= |p.specificRules|
        invariant totalDelta == BaseDelta(p, current) + RulesDelta(p.specificRules[..k], r.id, p.nameHash, current)
      {
        var rule := p.specificRules[k];
        assert p.specificRules[..k + 1][..k] == p.specificRules[..k];
        if current >= rule.minLS && current <= rule.maxLS {
          var isSelected := false;
          if rule.affectEveryone {
            isSelected := true;
          } else {
            var seed := TruncatedRemainder(r.id as real * 1.58 + p.nameHash as real * 0.72);
            if Abs(seed) <= rule.proportion {
              isSelected := true;
            }
          }
          if isSelected {
            totalDelta := totalDelta + rule.impact;
          }
        }
        k := k + 1;
      }
      assert p.specificRules[..k] == p.specificRules;

      newLS[i] := Clamp(current + totalDelta, 0.0, 10.0);
      i := i + 1;
    }
  }

  /** A rule that reaches everyone in its band. With a proportion of 1 or more
      the lottery cannot fail, because its number is always below 1. */
  lemma FullRuleSelectsEveryone(rule: TargetedRule, id: int, nameHash: int)
    requires rule.affectEveryone || rule.proportion >= 1.0
    ensures Selected(rule, id, nameHash)
  {
  }

  /** Rules whose bands miss `current` contribute nothing. */
  lemma {:induction false} RulesOutsideBandIgnored(rules: seq<TargetedRule>, id: int, nameHash: int, current: real)
    requires forall k :: 0 <= k < |rules| ==> !InBand(rules[k], current)
    ensures RulesDelta(rules, id, nameHash, current) == 0.0
  {
    if rules != [] {
      RulesOutsideBandIgnored(rules[..|rules| - 1], id, nameHash, current);
    }
  }

  /** Rules that reach everyone in their bands add up exactly their impacts
      for a respondent inside all the bands, whatever the id. */
  lemma {:induction false} UniversalRulesAddTheirImpacts(rules: seq<TargetedRule>, id: int, nameHash: int, current: real)
    requires forall k :: 0 <= k < |rules| ==> rules[k].affectEveryone && InBand(rules[k], current)
    ensures RulesDelta(rules, id, nameHash, current) == TotalImpact(rules)
  {
    if rules != [] {
      UniversalRulesAddTheirImpacts(rules[..|rules| - 1], id, nameHash, current);
    }
  }

  /** Sum of the impacts of the rules. */
  function TotalImpact(rules: seq<TargetedRule>): real
  {
    if rules == [] then 0.0 else TotalImpact(rules[..|rules| - 1]) + rules[|rules| - 1].impact
  }

  /** A policy with no base change and no rules only clamps the value to
      [0, 10], so it leaves values in [0, 10] as they are. */
  lemma NeutralPolicyKeepsLS(p: Policy, id: int, current: real)
    requires p.baseChangeRich == 0.0 && p.baseChangeMiddle == 0.0 && p.baseChangePoor == 0.0
    requires p.specificRules == []
    ensures NewLS(p, id, current) == Clamp(current, 0.0, 10.0)
    ensures 0.0 <= current <= 10.0 ==> NewLS(p, id, current) == current
  {
  }

  /** The poor-band help, rich-band levy example: LS 3, 8 and 9 become 5, 7 and 8. */
  lemma ExampleThreeRespondents(p: Policy, id: int)
    requires p.poorThreshold == 4.0 && p.richThreshold == 8.0
    requires p.baseChangePoor == 2.0 && p.baseChangeMiddle == 0.0 && p.baseChangeRich == -1.0
    requires p.specificRules == []
    ensures NewLS(p, id, 3.0) == 5.0
    ensures NewLS(p, id, 8.0) == 7.0
    ensures NewLS(p, id, 9.0) == 8.0
  {
  }

  /** The death sentinel is not passed through: -1 falls in the poor band
      (when the poor threshold is not negative) and is clamped to at least 0. */
  lemma DeathSentinelIsClamped(p: Policy, id: int)
    requires p.richThreshold > -1.0 && p.poorThreshold >= -1.0
    ensures BandOf(p, -1.0) == Poor
    ensures NewLS(p, id, -1.0) >= 0.0
  {
  }
}
