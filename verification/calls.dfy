/** The FRI host-API calls the converter emits, modelled as data instead of C text. */
module Calls {
  import opened Wrappers

  datatype Call =
    | Init(universeCount: nat, rulebaseCount: nat)
    | InitUniverse(universeId: nat, elementCount: nat)
    | AddElement(x: string, y: string)
    | InitRuleBase(rulebaseId: nat, ruleCount: nat, consequentId: int)
    | AddRule(ruleIndex: nat, antecedentCount: nat)
    | AddAntecedent(antecedentUniverse: int, conditionIndex: int)

  /** An antecedent after name resolution; -1 marks an unresolved part. */
  datatype Resolved = Resolved(universeId: int, conditionIndex: int)

  /** Ids of the `InitUniverse` calls, in emission order. */
  function UniverseIds(cs: seq<Call>): seq<nat> {
    if cs == [] then []
    else (if cs[0].InitUniverse? then [cs[0].universeId] else []) + UniverseIds(cs[1..])
  }

  /** Ids of the `InitRuleBase` calls, in emission order. */
  function RulebaseIds(cs: seq<Call>): seq<nat> {
    if cs == [] then []
    else (if cs[0].InitRuleBase? then [cs[0].rulebaseId] else []) + RulebaseIds(cs[1..])
  }

  lemma {:induction false} UniverseIdsAppend(a: seq<Call>, b: seq<Call>)
    ensures UniverseIds(a + b) == UniverseIds(a) + UniverseIds(b)
  {
    if a == [] {
      assert a + b == b;
    } else {
      var head := if a[0].InitUniverse? then [a[0].universeId] else [];
      calc {
        UniverseIds(a + b);
        { assert (a + b)[0] == a[0]; }
        head + UniverseIds((a + b)[1..]);
        { assert (a + b)[1..] == a[1..] + b; UniverseIdsAppend(a[1..], b); }
        head + (UniverseIds(a[1..]) + UniverseIds(b));
        (head + UniverseIds(a[1..])) + UniverseIds(b);
      }
    }
  }


  lemma {:induction false} RulebaseIdsAppend(a: seq<Call>, b: seq<Call>)
    ensures RulebaseIds(a + b) == RulebaseIds(a) + RulebaseIds(b)
  {
    if a == [] {
      assert a + b == b;
    } else {
      var head := if a[0].InitRuleBase? then [a[0].rulebaseId] else [];
      calc {
        RulebaseIds(a + b);
        { assert (a + b)[0] == a[0]; }
        head + RulebaseIds((a + b)[1..]);
        { assert (a + b)[1..] == a[1..] + b; RulebaseIdsAppend(a[1..], b); }
        head + (RulebaseIds(a[1..]) + RulebaseIds(b));
        (head + RulebaseIds(a[1..])) + RulebaseIds(b);
      }
    }
  }


  /** The ids of a concatenation are the ids of its parts, in order. */
  lemma IdsAppend(a: seq<Call>, b: seq<Call>)
    ensures UniverseIds(a + b) == UniverseIds(a) + UniverseIds(b)
    ensures RulebaseIds(a + b) == RulebaseIds(a) + RulebaseIds(b)
  {
    UniverseIdsAppend(a, b);
    RulebaseIdsAppend(a, b);
  }

  /** `ids` is first, first + 1, first + 2, ... */
  predicate NumberedFrom(ids: seq<nat>, first: nat) {
    forall k :: 0 <= k < |ids| ==> ids[k] == first + k
  }

  /** One `AddAntecedent` call per resolved antecedent, in order. */
  function AntecedentCalls(rs: seq<Resolved>): seq<Call> {
    seq(|rs|, k requires 0 <= k < |rs| => AddAntecedent(rs[k].universeId, rs[k].conditionIndex))
  }

  /** The calls announcing one rule: its index and antecedent count, then its antecedents. */
  function RuleCalls(index: nat, rs: seq<Resolved>): seq<Call> {
    [AddRule(index, |rs|)] + AntecedentCalls(rs)
  }

  /** Reads `n` antecedent calls off the front of `cs`. */
  function DecodeAntecedents(cs: seq<Call>, n: nat): (r: Option<(seq<Resolved>, seq<Call>)>)
    ensures r.Some? ==> |r.value.0| == n && |r.value.1| + n == |cs|
  {
    if n == 0 then Some(([], cs))
    else if cs == [] || !cs[0].AddAntecedent? then None
    else match DecodeAntecedents(cs[1..], n - 1)
      case None => None
      case Some((rs, rest)) =>
        Some(([Resolved(cs[0].antecedentUniverse, cs[0].conditionIndex)] + rs, rest))
  }

  /** Reads a rule section back: `AddRule(first, n)` followed by exactly `n`
      antecedent calls, then rule `first + 1`, and so on to the end of `cs`. */
  function DecodeRules(cs: seq<Call>, first: nat): Option<seq<seq<Resolved>>>
    decreases |cs|
  {
    if cs == [] then Some([])
    else if !cs[0].AddRule? || cs[0].ruleIndex != first then None
    else match DecodeAntecedents(cs[1..], cs[0].antecedentCount)
      case None => None
      case Some((rs, rest)) =>
        match DecodeRules(rest, first + 1)
        case None => None
        case Some(rules) => Some([rs] + rules)
  }

  lemma {:induction false} DecodeAntecedentCalls(rs: seq<Resolved>, rest: seq<Call>)
    ensures DecodeAntecedents(AntecedentCalls(rs) + rest, |rs|) == Some((rs, rest))
  {
    if rs == [] {
      assert AntecedentCalls(rs) + rest == rest;
    } else {
      var cs := AntecedentCalls(rs) + rest;
      assert cs[0] == AddAntecedent(rs[0].universeId, rs[0].conditionIndex);
      assert AntecedentCalls(rs)[1..] == AntecedentCalls(rs[1..]);
      assert cs[1..] == AntecedentCalls(rs[1..]) + rest;
      DecodeAntecedentCalls(rs[1..], rest);
      assert [rs[0]] + rs[1..] == rs;
    }
  }

  /** Decoding one rule's calls gives back its resolved antecedents and leaves what follows. */
  lemma DecodeRuleCalls(index: nat, rs: seq<Resolved>, rest: seq<Call>)
    ensures (RuleCalls(index, rs) + rest)[0] == AddRule(index, |rs|)
    ensures DecodeAntecedents((RuleCalls(index, rs) + rest)[1..], |rs|) == Some((rs, rest))
  {
    var tail := AntecedentCalls(rs) + rest;
    assert RuleCalls(index, rs) + rest == [AddRule(index, |rs|)] + tail;
    DecodeAntecedentCalls(rs, rest);
  }

  /** Rule calls contain no universe or rulebase initializer. */
  lemma RuleCallsHaveNoIds(index: nat, rs: seq<Resolved>)
    ensures UniverseIds(RuleCalls(index, rs)) == [] && RulebaseIds(RuleCalls(index, rs)) == []
  {
    NoInitHasNoIds(RuleCalls(index, rs));
  }

  lemma {:induction false} NoInitHasNoIds(cs: seq<Call>)
    requires forall k :: 0 <= k < |cs| ==> !cs[k].InitUniverse? && !cs[k].InitRuleBase?
    ensures UniverseIds(cs) == [] && RulebaseIds(cs) == []
  {
    if cs != [] {
      NoInitHasNoIds(cs[1..]);
    }
  }
}
