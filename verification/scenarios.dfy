/** Whole conversions of small concrete token streams. */
module Scenarios {
  import opened Wrappers
  import opened Tokens
  import opened Calls
  import opened Registry
  import opened UniverseBuilder
  import opened RuleBuilder
  import opened RulebaseBuilder
  import opened Converter

  function Kw(v: string): Token { Token(Keyword, v) }
  function Id(v: string): Token { Token(Other, v) }
  function Lit(v: string): Token { Token(Literal, v) }

  // One unfolding of each loop, for stepping through a concrete stream.

  lemma ElementsStep(ts: seq<Token>, i: nat, e: Element, es: seq<Element>, j: nat)
    requires i + 2 < |ts| && ts[i].kind == Literal
    requires e == Element(ts[i].value, ts[i + 1].value, ts[i + 2].value)
    requires ScanElements(ts, i + 3) == Success((es, j))
    ensures ScanElements(ts, i) == Success(([e] + es, j))
  {
  }

  lemma UniverseStep(ts: seq<Token>, start: nat, id: nat, ctx: Context, es: seq<Element>, j: nat)
    requires start + 1 < |ts|
    requires ScanElements(ts, start + 2) == Success((es, j))
    ensures ProcessUniverse(ts, start, id, ctx)
      == Success(Step(j + 1, [InitUniverse(id, |es|)] + ElementCalls(es), AddUniverse(ctx, id, ts[start + 1].value, es)))
  {
  }

  lemma AntecedentsStep(ts: seq<Token>, p: nat, a: Antecedent, ants: seq<Antecedent>, j: nat)
    requires p + 2 < |ts| && ts[p].value != END && ts[p].value != AND
    requires a == Antecedent(ts[p].value, ts[p + 2].value)
    requires ScanAntecedents(ts, p + 3) == Success((ants, j))
    ensures ScanAntecedents(ts, p) == Success(([a] + ants, j))
  {
  }

  lemma RulesStep(ts: seq<Token>, i: nat, rule: Rule, k: nat, rules: seq<Rule>, j: nat)
    requires i < |ts| && ts[i].value == RULE
    requires ProcessRule(ts, i) == Success((rule, k))
    requires ScanRules(ts, k) == Success((rules, j))
    ensures ScanRules(ts, i) == Success(([rule] + rules, j))
  {
  }

  lemma ResolvedRulebaseStep(ts: seq<Token>, start: nat, id: nat, ctx: Context, rules: seq<Rule>, j: nat)
    requires start + 1 < |ts| && ts[start + 1].value !in ctx.rulebaseNames
    requires ResolveUniverse(ctx, ts[start + 1].value) != -1
    requires ScanRules(ts, start + 2) == Success((rules, j))
    ensures var registered := ctx.(rulebaseNames := ctx.rulebaseNames + [ts[start + 1].value]);
      ProcessRulebase(ts, start, id, ctx)
        == Success(Step(j + 1, RulebaseCalls(registered, id, ResolveUniverse(ctx, ts[start + 1].value), rules), registered))
  {
  }

  lemma PlaceholderRulebaseStep(ts: seq<Token>, start: nat, id: nat, ctx: Context)
    requires start + 1 < |ts| && ts[start + 1].value !in ctx.rulebaseNames
    requires ResolveUniverse(ctx, ts[start + 1].value) == -1
    ensures ProcessRulebase(ts, start, id, ctx)
      == Success(Step(start + 3, [InitRuleBase(id, 0, -1)], ctx.(rulebaseNames := ctx.rulebaseNames + [ts[start + 1].value])))
  {
  }

  // universe temp "cold" 0 0 "hot" 1 1 end
  // rulebase temp rule high when temp is hot end end
  const TempStream: seq<Token> := [
    Kw("universe"), Id("temp"), Lit("cold"), Id("0"), Id("0"), Lit("hot"), Id("1"), Id("1"), Kw("end"),
    Kw("rulebase"), Id("temp"), Kw("rule"), Id("high"), Kw("when"), Id("temp"), Kw("is"), Id("hot"),
    Kw("end"), Kw("end")]

  /** `ts` holds the tokens of `TempStream`, position by position. */
  predicate TempTokens(ts: seq<Token>) {
    && |ts| == 19
    && ts[0] == Kw("universe") && ts[1] == Id("temp")
    && ts[2] == Lit("cold") && ts[3] == Id("0") && ts[4] == Id("0")
    && ts[5] == Lit("hot") && ts[6] == Id("1") && ts[7] == Id("1") && ts[8] == Kw("end")
    && ts[9] == Kw("rulebase") && ts[10] == Id("temp") && ts[11] == Kw("rule") && ts[12] == Id("high")
    && ts[13] == Kw("when") && ts[14] == Id("temp") && ts[15] == Kw("is") && ts[16] == Id("hot")
    && ts[17] == Kw("end") && ts[18] == Kw("end")
  }

  lemma TempStreamLength()
    ensures |TempStream| == 19
  {
  }

  lemma TempStreamHead()
    ensures TempStream[0] == Kw("universe") && TempStream[1] == Id("temp")
  {
  }

  lemma TempStreamCold()
    ensures TempStream[2] == Lit("cold") && TempStream[3] == Id("0") && TempStream[4] == Id("0")
  {
  }

  lemma TempStreamMiddle()
    ensures var ts := TempStream;
      && ts[5] == Lit("hot") && ts[6] == Id("1") && ts[7] == Id("1") && ts[8] == Kw("end")
  {
  }

  lemma TempStreamTail()
    ensures var ts := TempStream;
      && ts[9] == Kw("rulebase") && ts[10] == Id("temp") && ts[11] == Kw("rule") && ts[12] == Id("high")
      && ts[13] == Kw("when") && ts[14] == Id("temp") && ts[15] == Kw("is") && ts[16] == Id("hot")
      && ts[17] == Kw("end") && ts[18] == Kw("end")
  {
  }

  lemma TempStreamTokens()
    ensures TempTokens(TempStream)
  {
    TempStreamLength();
    TempStreamHead();
    TempStreamCold();
    TempStreamMiddle();
    TempStreamTail();
  }

  const Cold := Element("cold", "0", "0")
  const Hot := Element("hot", "1", "1")
  const TempRegistry := AddUniverse(Fresh, 0, "temp", [Cold, Hot])
  const TempFinal := TempRegistry.(rulebaseNames := ["temp"])
  const High := Rule("high", [Antecedent("temp", "hot")])
  const TempUniverseCalls := [InitUniverse(0, 2), AddElement("0", "0"), AddElement("1", "1")]
  const TempRulebaseCalls := [InitRuleBase(0, 1, 0), AddRule(0, 1), AddAntecedent(0, 1)]

  lemma TempElements(ts: seq<Token>)
    requires TempTokens(ts)
    ensures ScanElements(ts, 2) == Success(([Cold, Hot], 8))
  {
    assert ScanElements(ts, 8) == Success(([], 8));
    ElementsStep(ts, 5, Hot, [], 8);
    assert [Hot] + [] == [Hot];
    ElementsStep(ts, 2, Cold, [Hot], 8);
    assert [Cold] + [Hot] == [Cold, Hot];
  }

  lemma TempElementCalls()
    ensures [InitUniverse(0, 2)] + ElementCalls([Cold, Hot]) == TempUniverseCalls
  {
    assert ElementCalls([Cold, Hot]) == [AddElement("0", "0"), AddElement("1", "1")];
  }

  lemma TempUniverseBlock(ts: seq<Token>)
    requires TempTokens(ts)
    ensures ProcessUniverse(ts, 0, 0, Fresh) == Success(Step(9, TempUniverseCalls, TempRegistry))
  {
    TempElements(ts);
    UniverseStep(ts, 0, 0, Fresh, [Cold, Hot], 8);
    TempElementCalls();
  }

  lemma TempRules(ts: seq<Token>)
    requires TempTokens(ts)
    ensures ScanRules(ts, 11) == Success(([High], 18))
  {
    assert ScanAntecedents(ts, 17) == Success(([], 18));
    AntecedentsStep(ts, 14, Antecedent("temp", "hot"), [], 18);
    assert [Antecedent("temp", "hot")] + [] == [Antecedent("temp", "hot")];
    assert ProcessRule(ts, 11) == Success((High, 18));
    assert ScanRules(ts, 18) == Success(([], 18));
    RulesStep(ts, 11, High, 18, [], 18);
    assert [High] + [] == [High];
  }

  /** `temp is hot` resolves to universe 0 and its element 1. */
  lemma TempResolvesHot()
    ensures ResolveRule(TempFinal, High) == [Resolved(0, 1)]
  {
    assert FindElementIndex([Cold, Hot], "hot") == 1;
    assert FindConditionId(TempFinal, "temp", "hot") == 1;
  }

  lemma TempRuleCalls()
    ensures RulebaseCalls(TempFinal, 0, 0, [High]) == TempRulebaseCalls
  {
    TempResolvesHot();
    var resolved := [Resolved(0, 1)];
    assert [High][1..] == [];
    assert AntecedentCalls(resolved) == [AddAntecedent(0, 1)];
    assert RuleCalls(0, resolved) == [AddRule(0, 1), AddAntecedent(0, 1)];
    assert EmitRules(TempFinal, [High], 0) == [AddRule(0, 1), AddAntecedent(0, 1)];
  }

  lemma TempRulebaseBlock(ts: seq<Token>)
    requires TempTokens(ts)
    ensures ProcessRulebase(ts, 9, 0, TempRegistry) == Success(Step(19, TempRulebaseCalls, TempFinal))
  {
    TempRules(ts);
    assert ResolveUniverse(TempRegistry, "temp") == 0;
    assert TempRegistry.rulebaseNames + ["temp"] == ["temp"];
    ResolvedRulebaseStep(ts, 9, 0, TempRegistry, [High], 18);
    TempRuleCalls();
  }

  lemma TempCountsFrom9(ts: seq<Token>)
    requires TempTokens(ts)
    ensures KeywordsFrom(ts, UNIVERSE, 9) == 0 && KeywordsFrom(ts, RULEBASE, 9) == 1
  {
    assert KeywordsFrom(ts, UNIVERSE, 18) == 0 && KeywordsFrom(ts, RULEBASE, 18) == 0;
    assert KeywordsFrom(ts, UNIVERSE, 17) == 0 && KeywordsFrom(ts, RULEBASE, 17) == 0;
    assert KeywordsFrom(ts, UNIVERSE, 16) == 0 && KeywordsFrom(ts, RULEBASE, 16) == 0;
    assert KeywordsFrom(ts, UNIVERSE, 15) == 0 && KeywordsFrom(ts, RULEBASE, 15) == 0;
    assert KeywordsFrom(ts, UNIVERSE, 14) == 0 && KeywordsFrom(ts, RULEBASE, 14) == 0;
    assert KeywordsFrom(ts, UNIVERSE, 13) == 0 && KeywordsFrom(ts, RULEBASE, 13) == 0;
    assert KeywordsFrom(ts, UNIVERSE, 12) == 0 && KeywordsFrom(ts, RULEBASE, 12) == 0;
    assert KeywordsFrom(ts, UNIVERSE, 11) == 0 && KeywordsFrom(ts, RULEBASE, 11) == 0;
    assert KeywordsFrom(ts, UNIVERSE, 10) == 0 && KeywordsFrom(ts, RULEBASE, 10) == 0;
  }

  lemma TempCounts(ts: seq<Token>)
    requires TempTokens(ts)
    ensures KeywordCount(ts, UNIVERSE) == 1 && KeywordCount(ts, RULEBASE) == 1
  {
    TempCountsFrom9(ts);
    assert KeywordsFrom(ts, UNIVERSE, 8) == 0 && KeywordsFrom(ts, RULEBASE, 8) == 1;
    assert KeywordsFrom(ts, UNIVERSE, 7) == 0 && KeywordsFrom(ts, RULEBASE, 7) == 1;
    assert KeywordsFrom(ts, UNIVERSE, 6) == 0 && KeywordsFrom(ts, RULEBASE, 6) == 1;
    assert KeywordsFrom(ts, UNIVERSE, 5) == 0 && KeywordsFrom(ts, RULEBASE, 5) == 1;
    assert KeywordsFrom(ts, UNIVERSE, 4) == 0 && KeywordsFrom(ts, RULEBASE, 4) == 1;
    assert KeywordsFrom(ts, UNIVERSE, 3) == 0 && KeywordsFrom(ts, RULEBASE, 3) == 1;
    assert KeywordsFrom(ts, UNIVERSE, 2) == 0 && KeywordsFrom(ts, RULEBASE, 2) == 1;
    assert KeywordsFrom(ts, UNIVERSE, 1) == 0 && KeywordsFrom(ts, RULEBASE, 1) == 1;
  }

  lemma TempRun(ts: seq<Token>)
    requires TempTokens(ts)
    ensures Run(ts) == Success(Pass(TempUniverseCalls + TempRulebaseCalls, TempFinal, 1, 1))
  {
    TempUniverseBlock(ts);
    TempRulebaseBlock(ts);
    assert Drive(ts, 19, TempFinal, 1, 1) == Success(Pass([], TempFinal, 1, 1));
    DriveRulebaseStep(ts, 9, TempRegistry, 1, 0, Step(19, TempRulebaseCalls, TempFinal));
    assert TempRulebaseCalls + [] == TempRulebaseCalls;
    DriveUniverseStep(ts, 0, Fresh, 0, 0, Step(9, TempUniverseCalls, TempRegistry));
  }

  lemma TempOutput()
    ensures [Init(1, 1)] + (TempUniverseCalls + TempRulebaseCalls) == [
      Init(1, 1), InitUniverse(0, 2), AddElement("0", "0"), AddElement("1", "1"),
      InitRuleBase(0, 1, 0), AddRule(0, 1), AddAntecedent(0, 1)]
  {
  }

  lemma TempConvert(ts: seq<Token>)
    requires TempTokens(ts)
    ensures Convert(ts) == Success([Init(1, 1)] + (TempUniverseCalls + TempRulebaseCalls))
  {
    TempRun(ts);
    TempCounts(ts);
    ConvertStep(ts);
  }

  /** The worked example: one universe with two elements and one rulebase whose
      single rule tests `temp is hot`, resolved to universe 0, condition 1. */
  lemma EndToEnd()
    ensures Convert(TempStream) == Success([
      Init(1, 1), InitUniverse(0, 2), AddElement("0", "0"), AddElement("1", "1"),
      InitRuleBase(0, 1, 0), AddRule(0, 1), AddAntecedent(0, 1)])
  {
    TempStreamTokens();
    TempConvert(TempStream);
    TempOutput();
  }

  // rulebase q end rulebase q end
  const TwiceQ: seq<Token> := [Kw("rulebase"), Id("q"), Kw("end"), Kw("rulebase"), Id("q"), Kw("end")]

  predicate TwiceQTokens(ts: seq<Token>) {
    && |ts| == 6
    && ts[0] == Kw("rulebase") && ts[1] == Id("q") && ts[2] == Kw("end")
    && ts[3] == Kw("rulebase") && ts[4] == Id("q") && ts[5] == Kw("end")
  }

  lemma TwiceQStreamTokens()
    ensures TwiceQTokens(TwiceQ)
  {
    var ts := TwiceQ;
    assert ts[0] == Kw("rulebase") && ts[1] == Id("q") && ts[2] == Kw("end");
    assert ts[3] == Kw("rulebase") && ts[4] == Id("q") && ts[5] == Kw("end");
  }

  lemma TwiceQRun(ts: seq<Token>)
    requires TwiceQTokens(ts)
    ensures Run(ts) == Failure(DuplicateRulebase("q"))
  {
    var ctx := Fresh.(rulebaseNames := ["q"]);
    assert Fresh.rulebaseNames + ["q"] == ["q"];
    PlaceholderRulebaseStep(ts, 0, 0, Fresh);
    assert ProcessRulebase(ts, 3, 1, ctx) == Failure(DuplicateRulebase("q"));
    DriveRulebaseFails(ts, 3, ctx, 0, 1, DuplicateRulebase("q"));
    DriveRulebaseStep(ts, 0, Fresh, 0, 0, Step(3, [InitRuleBase(0, 0, -1)], ctx));
  }

  /** The second rulebase repeats the name `q`: the whole run fails and emits nothing. */
  lemma DuplicateRulebaseAborts()
    ensures Convert(TwiceQ) == Failure(DuplicateRulebase("q"))
  {
    TwiceQStreamTokens();
    TwiceQRun(TwiceQ);
    ConvertStep(TwiceQ);
  }

  // rulebase speed rule universe temp "cold" 0 0 end
  const SpeedStream: seq<Token> := [
    Kw("rulebase"), Id("speed"), Kw("rule"),
    Kw("universe"), Id("temp"), Lit("cold"), Id("0"), Id("0"), Kw("end")]

  predicate SpeedTokens(ts: seq<Token>) {
    && |ts| == 9
    && ts[0] == Kw("rulebase") && ts[1] == Id("speed") && ts[2] == Kw("rule")
    && ts[3] == Kw("universe") && ts[4] == Id("temp")
    && ts[5] == Lit("cold") && ts[6] == Id("0") && ts[7] == Id("0") && ts[8] == Kw("end")
  }

  lemma SpeedStreamTokens()
    ensures SpeedTokens(SpeedStream)
  {
    var ts := SpeedStream;
    assert ts[0] == Kw("rulebase") && ts[1] == Id("speed") && ts[2] == Kw("rule");
    assert ts[3] == Kw("universe") && ts[4] == Id("temp");
    assert ts[5] == Lit("cold") && ts[6] == Id("0") && ts[7] == Id("0") && ts[8] == Kw("end");
  }

  const SpeedRegistry := Fresh.(rulebaseNames := ["speed"])
  const SpeedFinal := AddUniverse(SpeedRegistry, 0, "temp", [Cold])
  const SpeedUniverseCalls := [InitUniverse(0, 1), AddElement("0", "0")]

  lemma SpeedUniverseBlock(ts: seq<Token>)
    requires SpeedTokens(ts)
    ensures ProcessUniverse(ts, 3, 0, SpeedRegistry) == Success(Step(9, SpeedUniverseCalls, SpeedFinal))
  {
    assert ScanElements(ts, 8) == Success(([], 8));
    ElementsStep(ts, 5, Cold, [], 8);
    assert [Cold] + [] == [Cold];
    UniverseStep(ts, 3, 0, SpeedRegistry, [Cold], 8);
    assert [InitUniverse(0, 1)] + ElementCalls([Cold]) == SpeedUniverseCalls;
  }

  lemma SpeedRulebaseBlock(ts: seq<Token>)
    requires SpeedTokens(ts)
    ensures ProcessRulebase(ts, 0, 0, Fresh) == Success(Step(3, [InitRuleBase(0, 0, -1)], SpeedRegistry))
  {
    assert Fresh.rulebaseNames + ["speed"] == ["speed"];
    PlaceholderRulebaseStep(ts, 0, 0, Fresh);
  }

  lemma SpeedTail(ts: seq<Token>)
    requires SpeedTokens(ts)
    ensures Drive(ts, 3, SpeedRegistry, 0, 1) == Success(Pass(SpeedUniverseCalls, SpeedFinal, 1, 1))
  {
    SpeedUniverseBlock(ts);
    assert Drive(ts, 9, SpeedFinal, 1, 1) == Success(Pass([], SpeedFinal, 1, 1));
    DriveUniverseStep(ts, 3, SpeedRegistry, 0, 1, Step(9, SpeedUniverseCalls, SpeedFinal));
    assert SpeedUniverseCalls + [] == SpeedUniverseCalls;
  }

  lemma SpeedRun(ts: seq<Token>)
    requires SpeedTokens(ts)
    ensures Run(ts) == Success(Pass([InitRuleBase(0, 0, -1)] + SpeedUniverseCalls, SpeedFinal, 1, 1))
  {
    SpeedRulebaseBlock(ts);
    SpeedTail(ts);
    DriveRulebaseStep(ts, 0, Fresh, 0, 0, Step(3, [InitRuleBase(0, 0, -1)], SpeedRegistry));
  }

  lemma SpeedOutput()
    ensures [InitRuleBase(0, 0, -1)] + SpeedUniverseCalls == [InitRuleBase(0, 0, -1), InitUniverse(0, 1), AddElement("0", "0")]
  {
  }

  /** No universe is called `speed`, so the rulebase is cut after three tokens and
      the `universe` keyword inside its body starts a universe block of its own. */
  lemma PlaceholderSkipIsFixed()
    ensures Convert(SpeedStream).Success?
    ensures Convert(SpeedStream).value[1..] == [InitRuleBase(0, 0, -1), InitUniverse(0, 1), AddElement("0", "0")]
  {
    SpeedStreamTokens();
    SpeedRun(SpeedStream);
    ConvertStep(SpeedStream);
    SpeedOutput();
  }

  // universe t end rulebase t rule r when t is a and end
  const DanglingAnd: seq<Token> := [
    Kw("universe"), Id("t"), Kw("end"),
    Kw("rulebase"), Id("t"), Kw("rule"), Id("r"), Kw("when"), Id("t"), Kw("is"), Id("a"), Kw("and"),
    Kw("end"), Kw("end")]

  predicate DanglingTokens(ts: seq<Token>) {
    && |ts| == 14
    && ts[0] == Kw("universe") && ts[1] == Id("t") && ts[2] == Kw("end")
    && ts[3] == Kw("rulebase") && ts[4] == Id("t") && ts[5] == Kw("rule") && ts[6] == Id("r")
    && ts[7] == Kw("when") && ts[8] == Id("t") && ts[9] == Kw("is") && ts[10] == Id("a")
    && ts[11] == Kw("and") && ts[12] == Kw("end") && ts[13] == Kw("end")
  }

  lemma DanglingStreamTokens()
    ensures DanglingTokens(DanglingAnd)
  {
    var ts := DanglingAnd;
    assert ts[0] == Kw("universe") && ts[1] == Id("t") && ts[2] == Kw("end");
    assert ts[3] == Kw("rulebase") && ts[4] == Id("t") && ts[5] == Kw("rule") && ts[6] == Id("r");
    assert ts[7] == Kw("when") && ts[8] == Id("t") && ts[9] == Kw("is") && ts[10] == Id("a");
    assert ts[11] == Kw("and") && ts[12] == Kw("end") && ts[13] == Kw("end");
  }

  const SingleT := AddUniverse(Fresh, 0, "t", [])

  lemma DanglingRuleFails(ts: seq<Token>)
    requires DanglingTokens(ts)
    ensures ScanRules(ts, 5) == Failure(ReadPastEnd(14))
  {
    assert ScanAntecedents(ts, 11) == Failure(ReadPastEnd(14));
    assert ScanAntecedents(ts, 8) == Failure(ReadPastEnd(14));
    assert ProcessRule(ts, 5) == Failure(ReadPastEnd(14));
  }

  lemma DanglingRun(ts: seq<Token>)
    requires DanglingTokens(ts)
    ensures Run(ts) == Failure(ReadPastEnd(14))
  {
    assert ScanElements(ts, 2) == Success(([], 2));
    UniverseStep(ts, 0, 0, Fresh, [], 2);
    DanglingRuleFails(ts);
    assert ResolveUniverse(SingleT, "t") == 0;
    assert ProcessRulebase(ts, 3, 0, SingleT) == Failure(ReadPastEnd(14));
    DriveRulebaseFails(ts, 3, SingleT, 1, 0, ReadPastEnd(14));
    DriveUniverseStep(ts, 0, Fresh, 0, 0, Step(3, [InitUniverse(0, 0)] + ElementCalls([]), SingleT));
  }

  /** After skipping `and` the loop still reads an antecedent, taking `end` as a
      universe name and the token two further on as its condition; that token
      lies past the end of the stream, so the conversion throws. */
  lemma DanglingAndReadsPastEnd()
    ensures Convert(DanglingAnd) == Failure(ReadPastEnd(14))
  {
    DanglingStreamTokens();
    DanglingRun(DanglingAnd);
    ConvertStep(DanglingAnd);
  }

  // universe t end rulebase t "end" rule x end
  const LiteralEnd: seq<Token> := [
    Kw("universe"), Id("t"), Kw("end"),
    Kw("rulebase"), Id("t"), Lit("end"), Kw("rule"), Id("x"), Kw("end")]

  predicate LiteralEndTokens(ts: seq<Token>) {
    && |ts| == 9
    && ts[0] == Kw("universe") && ts[1] == Id("t") && ts[2] == Kw("end")
    && ts[3] == Kw("rulebase") && ts[4] == Id("t") && ts[5] == Lit("end")
    && ts[6] == Kw("rule") && ts[7] == Id("x") && ts[8] == Kw("end")
  }

  lemma LiteralEndStreamTokens()
    ensures LiteralEndTokens(LiteralEnd)
  {
    var ts := LiteralEnd;
    assert ts[0] == Kw("universe") && ts[1] == Id("t") && ts[2] == Kw("end");
    assert ts[3] == Kw("rulebase") && ts[4] == Id("t") && ts[5] == Lit("end");
    assert ts[6] == Kw("rule") && ts[7] == Id("x") && ts[8] == Kw("end");
  }

  const SingleTNamed := SingleT.(rulebaseNames := ["t"])

  lemma LiteralEndUniverseBlock(ts: seq<Token>)
    requires LiteralEndTokens(ts)
    ensures ProcessUniverse(ts, 0, 0, Fresh) == Success(Step(3, [InitUniverse(0, 0)], SingleT))
  {
    assert ScanElements(ts, 2) == Success(([], 2));
    UniverseStep(ts, 0, 0, Fresh, [], 2);
    assert [InitUniverse(0, 0)] + ElementCalls([]) == [InitUniverse(0, 0)];
  }

  lemma NoRuleCalls()
    ensures RulebaseCalls(SingleTNamed, 0, 0, []) == [InitRuleBase(0, 0, 0)]
  {
    assert EmitRules(SingleTNamed, [], 0) == [];
  }

  lemma LiteralEndRulebaseBlock(ts: seq<Token>)
    requires LiteralEndTokens(ts)
    ensures ProcessRulebase(ts, 3, 0, SingleT) == Success(Step(6, [InitRuleBase(0, 0, 0)], SingleTNamed))
  {
    assert ScanRules(ts, 5) == Success(([], 5));
    assert ResolveUniverse(SingleT, "t") == 0;
    assert SingleT.rulebaseNames + ["t"] == ["t"];
    ResolvedRulebaseStep(ts, 3, 0, SingleT, [], 5);
    NoRuleCalls();
  }

  lemma LiteralEndTail(ts: seq<Token>)
    requires LiteralEndTokens(ts)
    ensures Drive(ts, 6, SingleTNamed, 1, 1) == Success(Pass([], SingleTNamed, 1, 1))
  {
    assert Drive(ts, 9, SingleTNamed, 1, 1) == Success(Pass([], SingleTNamed, 1, 1));
    DriveSkipStep(ts, 8, SingleTNamed, 1, 1);
    DriveSkipStep(ts, 7, SingleTNamed, 1, 1);
    DriveSkipStep(ts, 6, SingleTNamed, 1, 1);
  }

  lemma LiteralEndRun(ts: seq<Token>)
    requires LiteralEndTokens(ts)
    ensures Run(ts) == Success(Pass([InitUniverse(0, 0)] + [InitRuleBase(0, 0, 0)], SingleTNamed, 1, 1))
  {
    LiteralEndUniverseBlock(ts);
    LiteralEndRulebaseBlock(ts);
    LiteralEndTail(ts);
    DriveRulebaseStep(ts, 3, SingleT, 1, 0, Step(6, [InitRuleBase(0, 0, 0)], SingleTNamed));
    assert [InitRuleBase(0, 0, 0)] + [] == [InitRuleBase(0, 0, 0)];
    DriveUniverseStep(ts, 0, Fresh, 0, 0, Step(3, [InitUniverse(0, 0)], SingleT));
  }

  /** A literal token "end" ends the rulebase body as the keyword would: the rule
      after it is never read and the rulebase announces no rules. */
  lemma EndMatchedByValue()
    ensures Convert(LiteralEnd).Success?
    ensures Convert(LiteralEnd).value[1..] == [InitUniverse(0, 0), InitRuleBase(0, 0, 0)]
  {
    LiteralEndStreamTokens();
    LiteralEndRun(LiteralEnd);
    ConvertStep(LiteralEnd);
  }

  /** Two universes called `t`, [a, b] and then [b]: the antecedent `t is b` takes
      its universe id from the map, which holds the second universe (id 1), and its
      condition index from the first universe, where b is at position 1. */
  lemma MapAndListLookupsDisagree()
    ensures
      var a := Element("a", "0", "0");
      var b := Element("b", "1", "1");
      var b2 := Element("b", "2", "2");
      var ctx := AddUniverse(AddUniverse(Fresh, 0, "t", [a, b]), 1, "t", [b2]);
      ResolveAntecedent(ctx, "t", "b") == Resolved(1, 1)
  {
    var a := Element("a", "0", "0");
    var b := Element("b", "1", "1");
    var b2 := Element("b", "2", "2");
    var ctx := AddUniverse(AddUniverse(Fresh, 0, "t", [a, b]), 1, "t", [b2]);
    assert FindUniverse(ctx.universes, "t") == 0;
    assert FindElementIndex([a, b], "b") == 1;
  }
}
