/** processRulebase: uniqueness check, consequent resolution by the rulebase's own
    name, the rule loop, and emission of the rule section. */
module RulebaseBuilder {
  import opened Wrappers
  import opened Tokens
  import opened Calls
  import opened Registry
  import opened RuleBuilder

  /** The body loop from position `i`: a rule at every token whose value is `rule`,
      any other token skipped, stopping at the first token whose value is `end`
      (whatever its kind) or at the end of the stream. */
  function ScanRules(tokens: seq<Token>, i: nat): (r: Result<(seq<Rule>, nat), Error>)
    ensures r.Success? ==> i <= r.value.1 && (i <= |tokens| ==> r.value.1 <= |tokens|)
    ensures r.Success? ==> r.value.1 >= |tokens| || tokens[r.value.1].value == END
    ensures r.Success? ==> 4 * |r.value.0| <= r.value.1 - i
    ensures r.Failure? ==> r.error.ReadPastEnd? && r.error.index >= |tokens|
    decreases |tokens| - i
  {
    if i >= |tokens| || tokens[i].value == END then Success(([], i))
    else if tokens[i].value == RULE then
      var one :- ProcessRule(tokens, i);
      var rest :- ScanRules(tokens, one.1);
      Success(([one.0] + rest.0, rest.1))
    else ScanRules(tokens, i + 1)
  }

  /** `[a, b)` is an empty range or a range of the stream holding no `rule` and no
      `end`: the body loop steps over all of it. */
  predicate SkippedBetween(tokens: seq<Token>, a: nat, b: nat) {
    && a <= b
    && (a == b || b <= |tokens|)
    && forall k :: a <= k < b ==> tokens[k].value != RULE && tokens[k].value != END
  }

  /** From `q`, the first token the body loop does not step over is a `rule` at `p`. */
  predicate NextRuleAt(tokens: seq<Token>, q: nat, p: nat) {
    SkippedBetween(tokens, q, p) && p < |tokens| && tokens[p].value == RULE
  }

  /** From `q` the body loop collects exactly `rules` and stops at `stop`: each rule is
      what processRule reads at the next `rule` token, every token in between is
      stepped over, and `stop` is the first `end` left, or the end of the stream. */
  ghost predicate RulesThenStop(tokens: seq<Token>, q: nat, rules: seq<Rule>, stop: nat)
    decreases |rules|
  {
    if rules == [] then
      SkippedBetween(tokens, q, stop) && (stop >= |tokens| || tokens[stop].value == END)
    else
      exists p :: NextRuleAt(tokens, q, p)
        && ProcessRule(tokens, p).Success? && ProcessRule(tokens, p).value.0 == rules[0]
        && RulesThenStop(tokens, ProcessRule(tokens, p).value.1, rules[1..], stop)
  }

  /** From `q` the body loop collects `rules` and then throws inside the next rule. */
  ghost predicate RulesRunOff(tokens: seq<Token>, q: nat, rules: seq<Rule>)
    decreases |rules|
  {
    exists p :: NextRuleAt(tokens, q, p) &&
      if rules == [] then ProcessRule(tokens, p).Failure?
      else
        && ProcessRule(tokens, p).Success? && ProcessRule(tokens, p).value.0 == rules[0]
        && RulesRunOff(tokens, ProcessRule(tokens, p).value.1, rules[1..])
  }

  /** Some rule met by the body loop from `q` throws. */
  ghost predicate RuleLoopThrows(tokens: seq<Token>, q: nat) {
    exists rules :: RulesRunOff(tokens, q, rules)
  }

  /** Stepped-over tokens do not change what the body loop returns. */
  lemma {:induction false} ScanRulesSkips(tokens: seq<Token>, q: nat, p: nat)
    requires SkippedBetween(tokens, q, p)
    ensures ScanRules(tokens, q) == ScanRules(tokens, p)
    decreases p - q
  {
    if q < p {
      ScanRulesSkips(tokens, q + 1, p);
    }
  }

  lemma SkipOne(tokens: seq<Token>, i: nat, b: nat)
    requires i < |tokens| && tokens[i].value != RULE && tokens[i].value != END
    requires SkippedBetween(tokens, i + 1, b)
    ensures SkippedBetween(tokens, i, b)
  {
  }

  lemma SkipOneThenStop(tokens: seq<Token>, i: nat, rules: seq<Rule>, stop: nat)
    requires i < |tokens| && tokens[i].value != RULE && tokens[i].value != END
    requires RulesThenStop(tokens, i + 1, rules, stop)
    ensures RulesThenStop(tokens, i, rules, stop)
  {
    if rules == [] {
      assert SkippedBetween(tokens, i + 1, stop);
      SkipOne(tokens, i, stop);
    } else {
      var p :| NextRuleAt(tokens, i + 1, p)
        && ProcessRule(tokens, p).Success? && ProcessRule(tokens, p).value.0 == rules[0]
        && RulesThenStop(tokens, ProcessRule(tokens, p).value.1, rules[1..], stop);
      SkipOne(tokens, i, p);
    }
  }

  lemma SkipOneRunOff(tokens: seq<Token>, i: nat, rules: seq<Rule>)
    requires i < |tokens| && tokens[i].value != RULE && tokens[i].value != END
    requires RulesRunOff(tokens, i + 1, rules)
    ensures RulesRunOff(tokens, i, rules)
  {
    var p :| NextRuleAt(tokens, i + 1, p) &&
      if rules == [] then ProcessRule(tokens, p).Failure?
      else
        && ProcessRule(tokens, p).Success? && ProcessRule(tokens, p).value.0 == rules[0]
        && RulesRunOff(tokens, ProcessRule(tokens, p).value.1, rules[1..]);
    SkipOne(tokens, i, p);
  }

  /** What the body loop returns is the chain of rules up to its stop; when it throws,
      some rule in the chain ran off the stream. */
  lemma {:induction false} ScanRulesReads(tokens: seq<Token>, i: nat)
    ensures ScanRules(tokens, i).Success? ==>
      RulesThenStop(tokens, i, ScanRules(tokens, i).value.0, ScanRules(tokens, i).value.1)
    ensures ScanRules(tokens, i).Failure? ==> RuleLoopThrows(tokens, i)
    decreases |tokens| - i
  {
    if i >= |tokens| || tokens[i].value == END {
      assert SkippedBetween(tokens, i, i);
    } else if tokens[i].value == RULE {
      assert NextRuleAt(tokens, i, i);
      var one := ProcessRule(tokens, i);
      if one.Failure? {
        assert RulesRunOff(tokens, i, []);
      } else {
        ScanRulesReads(tokens, one.value.1);
        var rest := ScanRules(tokens, one.value.1);
        if rest.Success? {
          var rules := [one.value.0] + rest.value.0;
          assert rules[1..] == rest.value.0;
          assert RulesThenStop(tokens, i, rules, rest.value.1);
        } else {
          var more :| RulesRunOff(tokens, one.value.1, more);
          var rules := [one.value.0] + more;
          assert rules[1..] == more;
          assert RulesRunOff(tokens, i, rules);
        }
      }
    } else {
      ScanRulesReads(tokens, i + 1);
      var r := ScanRules(tokens, i + 1);
      if r.Success? {
        SkipOneThenStop(tokens, i, r.value.0, r.value.1);
      } else {
        var rules :| RulesRunOff(tokens, i + 1, rules);
        SkipOneRunOff(tokens, i, rules);
      }
    }
  }

  /** One rule read at a `rule` token, then the rest of the loop. */
  lemma ScanRulesAtRule(tokens: seq<Token>, p: nat, n: nat, rules: seq<Rule>, stop: nat)
    requires p < |tokens| && tokens[p].value == RULE && rules != []
    requires ProcessRule(tokens, p) == Success((rules[0], n))
    requires ScanRules(tokens, n) == Success((rules[1..], stop))
    ensures ScanRules(tokens, p) == Success((rules, stop))
  {
    assert [rules[0]] + rules[1..] == rules;
  }

  /** The first rule of a chain, and where the rest of the chain starts. */
  lemma FirstRuleOf(tokens: seq<Token>, i: nat, rules: seq<Rule>, stop: nat) returns (p: nat, n: nat)
    requires rules != [] && RulesThenStop(tokens, i, rules, stop)
    ensures NextRuleAt(tokens, i, p) && ProcessRule(tokens, p) == Success((rules[0], n))
    ensures RulesThenStop(tokens, n, rules[1..], stop)
  {
    p :| NextRuleAt(tokens, i, p)
      && ProcessRule(tokens, p).Success? && ProcessRule(tokens, p).value.0 == rules[0]
      && RulesThenStop(tokens, ProcessRule(tokens, p).value.1, rules[1..], stop);
    n := ProcessRule(tokens, p).value.1;
  }

  lemma StopScans(tokens: seq<Token>, i: nat, stop: nat)
    requires SkippedBetween(tokens, i, stop) && (stop >= |tokens| || tokens[stop].value == END)
    ensures ScanRules(tokens, i) == Success(([], stop))
  {
    ScanRulesSkips(tokens, i, stop);
  }

  /** Conversely, the chain of rules up to a stop is what the body loop returns. */
  lemma {:induction false} RulesThenStopScans(tokens: seq<Token>, i: nat, rules: seq<Rule>, stop: nat)
    requires RulesThenStop(tokens, i, rules, stop)
    ensures ScanRules(tokens, i) == Success((rules, stop))
    decreases |rules|
  {
    if rules == [] {
      StopScans(tokens, i, stop);
    } else {
      var p, n := FirstRuleOf(tokens, i, rules, stop);
      ScanRulesSkips(tokens, i, p);
      RulesThenStopScans(tokens, n, rules[1..], stop);
      ScanRulesAtRule(tokens, p, n, rules, stop);
    }
  }

  /** Conversely, a chain whose next rule throws makes the body loop throw. */
  lemma {:induction false} RulesRunOffFails(tokens: seq<Token>, i: nat, rules: seq<Rule>)
    requires RulesRunOff(tokens, i, rules)
    ensures ScanRules(tokens, i).Failure?
    decreases |rules|
  {
    var p :| NextRuleAt(tokens, i, p) &&
      if rules == [] then ProcessRule(tokens, p).Failure?
      else
        && ProcessRule(tokens, p).Success? && ProcessRule(tokens, p).value.0 == rules[0]
        && RulesRunOff(tokens, ProcessRule(tokens, p).value.1, rules[1..]);
    ScanRulesSkips(tokens, i, p);
    if rules != [] {
      RulesRunOffFails(tokens, ProcessRule(tokens, p).value.1, rules[1..]);
    }
  }

  /** The body loop, characterized by its rule chains in both directions. */
  lemma ScanRulesIff(tokens: seq<Token>, i: nat, rules: seq<Rule>, stop: nat)
    ensures ScanRules(tokens, i) == Success((rules, stop)) <==> RulesThenStop(tokens, i, rules, stop)
    ensures ScanRules(tokens, i).Failure? <==> RuleLoopThrows(tokens, i)
  {
    ScanRulesReads(tokens, i);
    if RulesThenStop(tokens, i, rules, stop) {
      RulesThenStopScans(tokens, i, rules, stop);
    }
    if RuleLoopThrows(tokens, i) {
      var rules' :| RulesRunOff(tokens, i, rules');
      RulesRunOffFails(tokens, i, rules');
    }
  }

  /** A rule's antecedents as (universe id, condition index) pairs. */
  function ResolveRule(ctx: Context, rule: Rule): seq<Resolved> {
    seq(|rule.antecedents|, k requires 0 <= k < |rule.antecedents| =>
      ResolveAntecedent(ctx, rule.antecedents[k].universe, rule.antecedents[k].condition))
  }

  function ResolveRules(ctx: Context, rules: seq<Rule>): seq<seq<Resolved>> {
    seq(|rules|, k requires 0 <= k < |rules| => ResolveRule(ctx, rules[k]))
  }

  /** The rule section: each rule's calls, numbered from `first`. */
  function EmitRules(ctx: Context, rules: seq<Rule>, first: nat): seq<Call> {
    if rules == [] then []
    else RuleCalls(first, ResolveRule(ctx, rules[0])) + EmitRules(ctx, rules[1..], first + 1)
  }

  /** The rule section can be read back: rule k is announced as `AddRule(first + k, n)`
      and followed by exactly its n resolved antecedents. */
  lemma {:induction false} DecodeEmittedRules(ctx: Context, rules: seq<Rule>, first: nat)
    ensures DecodeRules(EmitRules(ctx, rules, first), first) == Some(ResolveRules(ctx, rules))
  {
    if rules == [] {
      assert ResolveRules(ctx, rules) == [];
    } else {
      var rs := ResolveRule(ctx, rules[0]);
      var rest := EmitRules(ctx, rules[1..], first + 1);
      var cs := RuleCalls(first, rs) + rest;
      assert EmitRules(ctx, rules, first) == cs;
      DecodeRuleCalls(first, rs, rest);
      assert cs[0] == AddRule(first, |rs|);
      assert DecodeAntecedents(cs[1..], |rs|) == Some((rs, rest));
      DecodeEmittedRules(ctx, rules[1..], first + 1);
      assert DecodeRules(cs, first) == Some([rs] + ResolveRules(ctx, rules[1..]));
      assert ResolveRules(ctx, rules) == [rs] + ResolveRules(ctx, rules[1..]);
    }
  }

  lemma {:induction false} EmittedRulesHaveNoIds(ctx: Context, rules: seq<Rule>, first: nat)
    ensures UniverseIds(EmitRules(ctx, rules, first)) == []
    ensures RulebaseIds(EmitRules(ctx, rules, first)) == []
  {
    if rules != [] {
      var head := RuleCalls(first, ResolveRule(ctx, rules[0]));
      RuleCallsHaveNoIds(first, ResolveRule(ctx, rules[0]));
      EmittedRulesHaveNoIds(ctx, rules[1..], first + 1);
      IdsAppend(head, EmitRules(ctx, rules[1..], first + 1));
    }
  }

  /** The calls of a resolved rulebase: its initializer, then its rule section. */
  function RulebaseCalls(ctx: Context, id: nat, consequent: int, rules: seq<Rule>): (cs: seq<Call>)
    ensures |cs| >= 1 && cs[0] == InitRuleBase(id, |rules|, consequent)
    ensures DecodeRules(cs[1..], 0) == Some(ResolveRules(ctx, rules))
    ensures UniverseIds(cs) == [] && RulebaseIds(cs) == [id]
  {
    var cs := [InitRuleBase(id, |rules|, consequent)] + EmitRules(ctx, rules, 0);
    DecodeEmittedRules(ctx, rules, 0);
    EmittedRulesHaveNoIds(ctx, rules, 0);
    assert cs[1..] == EmitRules(ctx, rules, 0);
    cs
  }

  /** processRulebase at `start` with rulebase counter `id`. */
  function ProcessRulebase(tokens: seq<Token>, start: nat, id: nat, ctx: Context): (r: Result<Step, Error>)
    ensures start + 1 >= |tokens| ==> r == Failure(ReadPastEnd(start + 1))
    // fatal exactly when the name is already registered
    ensures start + 1 < |tokens| ==>
      (r == Failure(DuplicateRulebase(tokens[start + 1].value)) <==> tokens[start + 1].value in ctx.rulebaseNames)
    ensures r.Failure? ==> r.error.DuplicateRulebase? || r.error.index >= |tokens|
    // otherwise the name is appended once and nothing else in the registries changes
    ensures r.Success? ==>
      start + 1 < |tokens| && r.value.ctx == ctx.(rulebaseNames := ctx.rulebaseNames + [tokens[start + 1].value])
    // no universe of that name: only the placeholder, and a fixed skip of three tokens
    ensures r.Success? && ResolveUniverse(ctx, tokens[start + 1].value) == -1 ==>
      r.value.next == start + 3 && r.value.calls == [InitRuleBase(id, 0, -1)]
    // resolved: the rule count announced is the number of rules in a well-formed rule section
    ensures r.Success? && ResolveUniverse(ctx, tokens[start + 1].value) != -1 ==>
      && r.value.next >= start + 3
      && (r.value.next > |tokens| || tokens[r.value.next - 1].value == END)
      && |r.value.calls| >= 1
      && r.value.calls[0].InitRuleBase?
      && r.value.calls[0].rulebaseId == id
      && r.value.calls[0].consequentId == ResolveUniverse(ctx, tokens[start + 1].value)
      && exists rules :: DecodeRules(r.value.calls[1..], 0) == Some(rules)
           && |rules| == r.value.calls[0].ruleCount
    ensures r.Success? ==> UniverseIds(r.value.calls) == [] && RulebaseIds(r.value.calls) == [id]
  {
    if start + 1 >= |tokens| then Failure(ReadPastEnd(start + 1))
    else
      var name := tokens[start + 1].value;
      if name in ctx.rulebaseNames then Failure(DuplicateRulebase(name))
      else
        var registered := ctx.(rulebaseNames := ctx.rulebaseNames + [name]);
        var consequent := ResolveUniverse(ctx, name);
        if consequent == -1 then
          Success(Step(start + 3, [InitRuleBase(id, 0, -1)], registered))
        else
          var scan :- ScanRules(tokens, start + 2);
          var calls := RulebaseCalls(registered, id, consequent, scan.0);
          assert DecodeRules(calls[1..], 0) == Some(ResolveRules(registered, scan.0));
          Success(Step(scan.1 + 1, calls, registered))
  }

  /** The calls `cs` and cursor `next` are what a resolved rulebase whose body starts at
      `q` yields: the rules the body loop collects up to its stop, announced with their
      count and consequent and emitted in order with every antecedent resolved in `ctx`,
      and the cursor one past the stop. */
  ghost predicate EmitsBody(tokens: seq<Token>, q: nat, ctx: Context, id: nat, consequent: int, cs: seq<Call>, next: nat) {
    exists rules, stop: nat :: RulesThenStop(tokens, q, rules, stop)
      && next == stop + 1
      && |cs| >= 1 && cs[0] == InitRuleBase(id, |rules|, consequent)
      && DecodeRules(cs[1..], 0) == Some(ResolveRules(ctx, rules))
  }

  /** What a new rulebase name leads to. Without a universe of that name the block
      always succeeds, with the placeholder. With one, it emits the rules of its body
      and throws exactly when a rule of the body runs off the stream. */
  lemma ProcessRulebaseReadsBody(tokens: seq<Token>, start: nat, id: nat, ctx: Context)
    requires start + 1 < |tokens| && tokens[start + 1].value !in ctx.rulebaseNames
    ensures var r := ProcessRulebase(tokens, start, id, ctx);
      ResolveUniverse(ctx, tokens[start + 1].value) == -1 ==>
        r == Success(Step(start + 3, [InitRuleBase(id, 0, -1)],
                          ctx.(rulebaseNames := ctx.rulebaseNames + [tokens[start + 1].value])))
    ensures var r := ProcessRulebase(tokens, start, id, ctx);
      var consequent := ResolveUniverse(ctx, tokens[start + 1].value);
      consequent != -1 ==>
        && (r.Failure? <==> RuleLoopThrows(tokens, start + 2))
        && (r.Success? ==> EmitsBody(tokens, start + 2, r.value.ctx, id, consequent, r.value.calls, r.value.next))
  {
    var name := tokens[start + 1].value;
    var consequent := ResolveUniverse(ctx, name);
    if consequent != -1 {
      ScanRulesReads(tokens, start + 2);
      ScanRulesIff(tokens, start + 2, [], 0);
      var scan := ScanRules(tokens, start + 2);
      if scan.Success? {
        var registered := ctx.(rulebaseNames := ctx.rulebaseNames + [name]);
        var cs := RulebaseCalls(registered, id, consequent, scan.value.0);
        assert ProcessRulebase(tokens, start, id, ctx) == Success(Step(scan.value.1 + 1, cs, registered));
        assert RulesThenStop(tokens, start + 2, scan.value.0, scan.value.1);
      }
    }
  }
}
