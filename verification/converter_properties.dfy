/** Whole-run guarantees of the driver. */
module ConverterProperties {
  import opened Wrappers
  import opened Tokens
  import opened Calls
  import opened Registry
  import opened UniverseBuilder
  import opened RulebaseBuilder
  import opened Converter

  /** The registries stay well formed along the pass, and the counters are their sizes. */
  lemma {:induction false} DriveKeepsValid(tokens: seq<Token>, i: nat, ctx: Context, uc: nat, rc: nat)
    requires Valid(ctx) && uc == |ctx.universes| && rc == |ctx.rulebaseNames|
    requires Drive(tokens, i, ctx, uc, rc).Success?
    ensures var p := Drive(tokens, i, ctx, uc, rc).value;
      Valid(p.ctx) && p.universeCounter == |p.ctx.universes| && p.rulebaseCounter == |p.ctx.rulebaseNames|
    decreases |tokens| - i
  {
    if i >= |tokens| {
    } else if IsKeyword(tokens[i], UNIVERSE) {
      var s := ProcessUniverse(tokens, i, uc, ctx).value;
      AddUniverseKeepsValid(ctx, tokens[i + 1].value, s.ctx.universes[|ctx.universes|].elements);
      DriveKeepsValid(tokens, s.next, s.ctx, uc + 1, rc);
    } else if IsKeyword(tokens[i], RULEBASE) {
      var s := ProcessRulebase(tokens, i, rc, ctx).value;
      DriveKeepsValid(tokens, s.next, s.ctx, uc, rc + 1);
    } else {
      DriveKeepsValid(tokens, i + 1, ctx, uc, rc);
    }
  }

  /** A pass dispatches at most as many blocks of each sort as there are keywords
      of that sort from the cursor on. */
  lemma {:induction false} DriveBlocksBounded(tokens: seq<Token>, i: nat, ctx: Context, uc: nat, rc: nat)
    requires Drive(tokens, i, ctx, uc, rc).Success?
    ensures |UniverseIds(Drive(tokens, i, ctx, uc, rc).value.calls)| <= KeywordsFrom(tokens, UNIVERSE, i)
    ensures |RulebaseIds(Drive(tokens, i, ctx, uc, rc).value.calls)| <= KeywordsFrom(tokens, RULEBASE, i)
    decreases |tokens| - i
  {
    if i >= |tokens| {
    } else if IsKeyword(tokens[i], UNIVERSE) {
      var s := ProcessUniverse(tokens, i, uc, ctx).value;
      IdsAppend(s.calls, Drive(tokens, s.next, s.ctx, uc + 1, rc).value.calls);
      DriveBlocksBounded(tokens, s.next, s.ctx, uc + 1, rc);
      KeywordsFromMonotone(tokens, UNIVERSE, i + 1, s.next);
      KeywordsFromMonotone(tokens, RULEBASE, i + 1, s.next);
    } else if IsKeyword(tokens[i], RULEBASE) {
      var s := ProcessRulebase(tokens, i, rc, ctx).value;
      IdsAppend(s.calls, Drive(tokens, s.next, s.ctx, uc, rc + 1).value.calls);
      DriveBlocksBounded(tokens, s.next, s.ctx, uc, rc + 1);
      KeywordsFromMonotone(tokens, UNIVERSE, i + 1, s.next);
      KeywordsFromMonotone(tokens, RULEBASE, i + 1, s.next);
    } else {
      DriveBlocksBounded(tokens, i + 1, ctx, uc, rc);
    }
  }

  /** A `rulebase` keyword at `p` whose name token reads `name`. */
  ghost predicate RulebaseNamedAt(tokens: seq<Token>, p: nat, name: string) {
    p + 1 < |tokens| && IsKeyword(tokens[p], RULEBASE) && tokens[p + 1].value == name
  }

  /** Every registered rulebase name was read from a rulebase block before `i`. */
  ghost predicate NamesFromBefore(tokens: seq<Token>, names: seq<string>, i: nat) {
    forall n :: n in names ==> exists p: nat :: p < i && RulebaseNamedAt(tokens, p, n)
  }

  /** The fatal error is only raised for a name that two rulebase blocks really declare. */
  lemma {:induction false} DriveDuplicateIsGenuine(
    tokens: seq<Token>, i: nat, ctx: Context, uc: nat, rc: nat, name: string)
    requires NamesFromBefore(tokens, ctx.rulebaseNames, i)
    requires Drive(tokens, i, ctx, uc, rc) == Failure(DuplicateRulebase(name))
    ensures exists p: nat, q: nat :: p < q && RulebaseNamedAt(tokens, p, name) && RulebaseNamedAt(tokens, q, name)
    decreases |tokens| - i
  {
    if IsKeyword(tokens[i], UNIVERSE) {
      var s := ProcessUniverse(tokens, i, uc, ctx).value;
      DriveDuplicateIsGenuine(tokens, s.next, s.ctx, uc + 1, rc, name);
    } else if IsKeyword(tokens[i], RULEBASE) {
      var r := ProcessRulebase(tokens, i, rc, ctx);
      if r.Failure? {
        assert RulebaseNamedAt(tokens, i, name);
      } else {
        var s := r.value;
        assert RulebaseNamedAt(tokens, i, tokens[i + 1].value);
        DriveDuplicateIsGenuine(tokens, s.next, s.ctx, uc, rc + 1, name);
      }
    } else {
      DriveDuplicateIsGenuine(tokens, i + 1, ctx, uc, rc, name);
    }
  }

  /** A whole run: the initializer carries the number of occurrences of each keyword
      token in the stream, at least as many as blocks dispatched, which are numbered
      0, 1, 2, ... in source order; the final registries are well formed and hold one
      entry per dispatched block. */
  lemma ConvertCounts(tokens: seq<Token>)
    requires Convert(tokens).Success?
    ensures var cs := Convert(tokens).value;
      && cs[0].universeCount == multiset(tokens)[Token(Keyword, UNIVERSE)]
      && cs[0].rulebaseCount == multiset(tokens)[Token(Keyword, RULEBASE)]
      && |UniverseIds(cs[1..])| <= cs[0].universeCount
      && |RulebaseIds(cs[1..])| <= cs[0].rulebaseCount
    ensures var cs := Convert(tokens).value; var p := Run(tokens).value;
      && Valid(p.ctx)
      && |p.ctx.universes| == |UniverseIds(cs[1..])|
      && |p.ctx.rulebaseNames| == |RulebaseIds(cs[1..])|
  {
    KeywordCountIsOccurrences(tokens, UNIVERSE);
    KeywordCountIsOccurrences(tokens, RULEBASE);
    DriveBlocksBounded(tokens, 0, Fresh, 0, 0);
    DriveKeepsValid(tokens, 0, Fresh, 0, 0);
    DriveNumbersBlocks(tokens, 0, Fresh, 0, 0);
  }

  /** A run that aborts as a duplicate names a rulebase declared by two blocks. */
  lemma ConvertDuplicateIsGenuine(tokens: seq<Token>, name: string)
    requires Convert(tokens) == Failure(DuplicateRulebase(name))
    ensures exists p: nat, q: nat :: p < q && RulebaseNamedAt(tokens, p, name) && RulebaseNamedAt(tokens, q, name)
  {
    DriveDuplicateIsGenuine(tokens, 0, Fresh, 0, 0, name);
  }
}
