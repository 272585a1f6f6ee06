/** convertFBDLToC: the single forward pass over the token stream. */
module Converter {
  import opened Wrappers
  import opened Tokens
  import opened Calls
  import opened Registry
  import opened UniverseBuilder
  import opened RulebaseBuilder

  /** What the pass leaves behind from some cursor on: the calls emitted, the
      registries, and the two block counters. */
  datatype Pass = Pass(calls: seq<Call>, ctx: Context, universeCounter: nat, rulebaseCounter: nat)

  /** The driver loop from cursor `i`, with universe counter `uc` and rulebase counter
      `rc`: a `universe` or `rulebase` keyword hands the cursor to its block, any
      other token is stepped over, and the first failure ends the pass. */
  function Drive(tokens: seq<Token>, i: nat, ctx: Context, uc: nat, rc: nat): Result<Pass, Error>
    decreases |tokens| - i
  {
    if i >= |tokens| then Success(Pass([], ctx, uc, rc))
    else if IsKeyword(tokens[i], UNIVERSE) then
      var s :- ProcessUniverse(tokens, i, uc, ctx);
      var rest :- Drive(tokens, s.next, s.ctx, uc + 1, rc);
      Success(rest.(calls := s.calls + rest.calls))
    else if IsKeyword(tokens[i], RULEBASE) then
      var s :- ProcessRulebase(tokens, i, rc, ctx);
      var rest :- Drive(tokens, s.next, s.ctx, uc, rc + 1);
      Success(rest.(calls := s.calls + rest.calls))
    else Drive(tokens, i + 1, ctx, uc, rc)
  }

  /** Ids are handed out consecutively from the counters, one per dispatched block,
      and the registries only grow, by one entry per dispatched block. */
  lemma {:induction false} DriveNumbersBlocks(tokens: seq<Token>, i: nat, ctx: Context, uc: nat, rc: nat)
    requires Drive(tokens, i, ctx, uc, rc).Success?
    ensures var p := Drive(tokens, i, ctx, uc, rc).value;
      && NumberedFrom(UniverseIds(p.calls), uc)
      && NumberedFrom(RulebaseIds(p.calls), rc)
      && p.universeCounter == uc + |UniverseIds(p.calls)|
      && p.rulebaseCounter == rc + |RulebaseIds(p.calls)|
      && Extends(ctx, p.ctx, |UniverseIds(p.calls)|, |RulebaseIds(p.calls)|)
    decreases |tokens| - i
  {
    if i >= |tokens| {
      assert ctx.universes[..|ctx.universes|] == ctx.universes;
      assert ctx.rulebaseNames[..|ctx.rulebaseNames|] == ctx.rulebaseNames;
    } else if IsKeyword(tokens[i], UNIVERSE) {
      var s := ProcessUniverse(tokens, i, uc, ctx).value;
      UniverseBlockAdvances(tokens, i, uc, rc, ctx);
      DriveNumbersBlocks(tokens, s.next, s.ctx, uc + 1, rc);
      Glue(ctx, uc, rc, s, Drive(tokens, s.next, s.ctx, uc + 1, rc).value, 1, 0);
    } else if IsKeyword(tokens[i], RULEBASE) {
      var s := ProcessRulebase(tokens, i, rc, ctx).value;
      RulebaseBlockAdvances(tokens, i, uc, rc, ctx);
      DriveNumbersBlocks(tokens, s.next, s.ctx, uc, rc + 1);
      Glue(ctx, uc, rc, s, Drive(tokens, s.next, s.ctx, uc, rc + 1).value, 0, 1);
    } else {
      DriveNumbersBlocks(tokens, i + 1, ctx, uc, rc);
    }
  }

  /** A pass fails only on a duplicate rulebase name or on a read past the end. */
  lemma {:induction false} DriveFailureIsFatal(tokens: seq<Token>, i: nat, ctx: Context, uc: nat, rc: nat)
    requires Drive(tokens, i, ctx, uc, rc).Failure?
    ensures var e := Drive(tokens, i, ctx, uc, rc).error;
      e.DuplicateRulebase? || (e.ReadPastEnd? && e.index >= |tokens|)
    decreases |tokens| - i
  {
    if IsKeyword(tokens[i], UNIVERSE) {
      var r := ProcessUniverse(tokens, i, uc, ctx);
      if r.Success? {
        DriveFailureIsFatal(tokens, r.value.next, r.value.ctx, uc + 1, rc);
      }
    } else if IsKeyword(tokens[i], RULEBASE) {
      var r := ProcessRulebase(tokens, i, rc, ctx);
      if r.Success? {
        DriveFailureIsFatal(tokens, r.value.next, r.value.ctx, uc, rc + 1);
      }
    } else {
      DriveFailureIsFatal(tokens, i + 1, ctx, uc, rc);
    }
  }

  /** Registry `after` extends `before` by `du` universes and `dr` rulebase names. */
  predicate Extends(before: Context, after: Context, du: nat, dr: nat) {
    && |after.universes| == |before.universes| + du
    && after.universes[..|before.universes|] == before.universes
    && |after.rulebaseNames| == |before.rulebaseNames| + dr
    && after.rulebaseNames[..|before.rulebaseNames|] == before.rulebaseNames
  }

  /** A universe block moves the cursor forward and adds exactly one universe. */
  lemma UniverseBlockAdvances(tokens: seq<Token>, i: nat, uc: nat, rc: nat, ctx: Context)
    requires ProcessUniverse(tokens, i, uc, ctx).Success?
    ensures var s := ProcessUniverse(tokens, i, uc, ctx).value;
      && s.next > i && Extends(ctx, s.ctx, 1, 0)
      && NumberedFrom(UniverseIds(s.calls), uc) && |UniverseIds(s.calls)| == 1
      && NumberedFrom(RulebaseIds(s.calls), rc) && |RulebaseIds(s.calls)| == 0
  {
    var s := ProcessUniverse(tokens, i, uc, ctx).value;
    var u := s.ctx.universes[|ctx.universes|];
    assert s.ctx.universes == ctx.universes + [Universe(uc, tokens[i + 1].value, u.elements)];
    assert s.ctx.universes[..|ctx.universes|] == ctx.universes;
  }

  /** A rulebase block moves the cursor forward and adds exactly one name. */
  lemma RulebaseBlockAdvances(tokens: seq<Token>, i: nat, uc: nat, rc: nat, ctx: Context)
    requires ProcessRulebase(tokens, i, rc, ctx).Success?
    ensures var s := ProcessRulebase(tokens, i, rc, ctx).value;
      && s.next > i && Extends(ctx, s.ctx, 0, 1)
      && NumberedFrom(UniverseIds(s.calls), uc) && |UniverseIds(s.calls)| == 0
      && NumberedFrom(RulebaseIds(s.calls), rc) && |RulebaseIds(s.calls)| == 1
  {
    var s := ProcessRulebase(tokens, i, rc, ctx).value;
    assert s.ctx.rulebaseNames[..|ctx.rulebaseNames|] == ctx.rulebaseNames;
  }

  /** One block's step followed by the rest of the pass keeps the numbering and
      growth facts of both. */
  lemma Glue(ctx: Context, uc: nat, rc: nat, s: Step, rest: Pass, du: nat, dr: nat)
    requires NumberedFrom(UniverseIds(s.calls), uc) && |UniverseIds(s.calls)| == du
    requires NumberedFrom(RulebaseIds(s.calls), rc) && |RulebaseIds(s.calls)| == dr
    requires Extends(ctx, s.ctx, du, dr)
    requires NumberedFrom(UniverseIds(rest.calls), uc + du)
    requires NumberedFrom(RulebaseIds(rest.calls), rc + dr)
    requires rest.universeCounter == uc + du + |UniverseIds(rest.calls)|
    requires rest.rulebaseCounter == rc + dr + |RulebaseIds(rest.calls)|
    requires Extends(s.ctx, rest.ctx, |UniverseIds(rest.calls)|, |RulebaseIds(rest.calls)|)
    ensures var cs := s.calls + rest.calls;
      && NumberedFrom(UniverseIds(cs), uc)
      && NumberedFrom(RulebaseIds(cs), rc)
      && rest.universeCounter == uc + |UniverseIds(cs)|
      && rest.rulebaseCounter == rc + |RulebaseIds(cs)|
      && Extends(ctx, rest.ctx, |UniverseIds(cs)|, |RulebaseIds(cs)|)
  {
    IdsAppend(s.calls, rest.calls);
    var n := |ctx.universes|;
    assert rest.ctx.universes[..n] == rest.ctx.universes[..|s.ctx.universes|][..n];
    var m := |ctx.rulebaseNames|;
    assert rest.ctx.rulebaseNames[..m] == rest.ctx.rulebaseNames[..|s.ctx.rulebaseNames|][..m];
  }

  /** The calls of one block in front of whatever the rest of the pass gives. */
  function Prepend(cs: seq<Call>, r: Result<Pass, Error>): Result<Pass, Error> {
    if r.Failure? then r else Success(r.value.(calls := cs + r.value.calls))
  }

  lemma DriveUniverseStep(tokens: seq<Token>, i: nat, ctx: Context, uc: nat, rc: nat, s: Step)
    requires i < |tokens| && IsKeyword(tokens[i], UNIVERSE)
    requires ProcessUniverse(tokens, i, uc, ctx) == Success(s)
    ensures Drive(tokens, i, ctx, uc, rc) == Prepend(s.calls, Drive(tokens, s.next, s.ctx, uc + 1, rc))
  {
  }

  lemma DriveRulebaseStep(tokens: seq<Token>, i: nat, ctx: Context, uc: nat, rc: nat, s: Step)
    requires i < |tokens| && IsKeyword(tokens[i], RULEBASE)
    requires ProcessRulebase(tokens, i, rc, ctx) == Success(s)
    ensures Drive(tokens, i, ctx, uc, rc) == Prepend(s.calls, Drive(tokens, s.next, s.ctx, uc, rc + 1))
  {
  }

  lemma DriveRulebaseFails(tokens: seq<Token>, i: nat, ctx: Context, uc: nat, rc: nat, e: Error)
    requires i < |tokens| && IsKeyword(tokens[i], RULEBASE)
    requires ProcessRulebase(tokens, i, rc, ctx) == Failure(e)
    ensures Drive(tokens, i, ctx, uc, rc) == Failure(e)
  {
  }

  lemma DriveSkipStep(tokens: seq<Token>, i: nat, ctx: Context, uc: nat, rc: nat)
    requires i < |tokens| && !IsKeyword(tokens[i], UNIVERSE) && !IsKeyword(tokens[i], RULEBASE)
    ensures Drive(tokens, i, ctx, uc, rc) == Drive(tokens, i + 1, ctx, uc, rc)
  {
  }

  /** A `universe` or `rulebase` keyword: the tokens the pass hands to a block. */
  predicate IsBlockKeyword(t: Token) {
    IsKeyword(t, UNIVERSE) || IsKeyword(t, RULEBASE)
  }

  /** No token of the stream in [a, b) opens a block: the pass steps over all of them. */
  predicate SteppedOver(tokens: seq<Token>, a: nat, b: nat) {
    forall k :: a <= k < b && k < |tokens| ==> !IsBlockKeyword(tokens[k])
  }

  /** From cursor `q`, the first token that opens a block is at `p`. */
  predicate NextBlockAt(tokens: seq<Token>, q: nat, p: nat) {
    q <= p < |tokens| && SteppedOver(tokens, q, p) && IsBlockKeyword(tokens[p])
  }

  /** The block opened by the keyword at `p`: its step, and the universe and rulebase
      counters as they stand after it (the one matching the keyword goes up by one). */
  function RunBlock(tokens: seq<Token>, p: nat, ctx: Context, uc: nat, rc: nat): (r: Result<(Step, nat, nat), Error>)
    requires p < |tokens| && IsBlockKeyword(tokens[p])
    ensures r.Success? ==> r.value.0.next > p
    ensures r.Success? ==>
      if IsKeyword(tokens[p], UNIVERSE) then r.value.1 == uc + 1 && r.value.2 == rc
      else r.value.1 == uc && r.value.2 == rc + 1
  {
    if IsKeyword(tokens[p], UNIVERSE) then
      var s :- ProcessUniverse(tokens, p, uc, ctx);
      Success((s, uc + 1, rc))
    else
      var s :- ProcessRulebase(tokens, p, rc, ctx);
      Success((s, uc, rc + 1))
  }

  /** From cursor `q`, with registries `ctx` and counters `uc`, `rc`, the pass yields
      `pass`. Either no token left opens a block, and the pass emits nothing and keeps
      registries and counters; or the first token that does opens a block that
      succeeds, that block's calls come first in `pass`, and the rest of `pass` is what
      the pass yields from where the block leaves the cursor, with the registries and
      counters it leaves. */
  ghost predicate Dispatches(tokens: seq<Token>, q: nat, ctx: Context, uc: nat, rc: nat, pass: Pass)
    decreases |tokens| - q
  {
    if SteppedOver(tokens, q, |tokens|) then pass == Pass([], ctx, uc, rc)
    else
      exists p ::
        && NextBlockAt(tokens, q, p)
        && RunBlock(tokens, p, ctx, uc, rc).Success?
        && var (s, uc', rc') := RunBlock(tokens, p, ctx, uc, rc).value;
           && |s.calls| <= |pass.calls| && pass.calls[..|s.calls|] == s.calls
           && Dispatches(tokens, s.next, s.ctx, uc', rc', pass.(calls := pass.calls[|s.calls|..]))
  }

  /** From cursor `q` the pass ends with error `e`: the next token that opens a block
      opens one that fails with `e`, or one that succeeds and the pass ends with `e`
      from where it leaves the cursor. */
  ghost predicate DispatchFails(tokens: seq<Token>, q: nat, ctx: Context, uc: nat, rc: nat, e: Error)
    decreases |tokens| - q
  {
    exists p :: NextBlockAt(tokens, q, p) &&
      var b := RunBlock(tokens, p, ctx, uc, rc);
      if b.Failure? then b.error == e
      else DispatchFails(tokens, b.value.0.next, b.value.0.ctx, b.value.1, b.value.2, e)
  }

  /** Tokens that open no block are stepped over one by one. */
  lemma {:induction false} DriveSkips(tokens: seq<Token>, q: nat, p: nat, ctx: Context, uc: nat, rc: nat)
    requires q <= p <= |tokens| && SteppedOver(tokens, q, p)
    ensures Drive(tokens, q, ctx, uc, rc) == Drive(tokens, p, ctx, uc, rc)
    decreases p - q
  {
    if q < p {
      assert !IsBlockKeyword(tokens[q]);
      DriveSkips(tokens, q + 1, p, ctx, uc, rc);
    }
  }

  /** With no token left that opens a block, the pass emits nothing. */
  lemma NothingLeft(tokens: seq<Token>, q: nat, ctx: Context, uc: nat, rc: nat)
    ensures SteppedOver(tokens, q, |tokens|) ==> Drive(tokens, q, ctx, uc, rc) == Success(Pass([], ctx, uc, rc))
  {
    if SteppedOver(tokens, q, |tokens|) && q < |tokens| {
      DriveSkips(tokens, q, |tokens|, ctx, uc, rc);
    }
  }

  /** The first token at or after `q` that opens a block, when there is one. */
  lemma {:induction false} FirstBlock(tokens: seq<Token>, q: nat) returns (p: nat)
    requires !SteppedOver(tokens, q, |tokens|)
    ensures NextBlockAt(tokens, q, p)
    decreases |tokens| - q
  {
    if IsBlockKeyword(tokens[q]) {
      p := q;
    } else {
      p := FirstBlock(tokens, q + 1);
    }
  }

  /** At a token that opens a block, the pass runs that block, then goes on from where
      the block leaves the cursor, with the registries and counters it leaves. */
  lemma DriveAtBlock(tokens: seq<Token>, p: nat, ctx: Context, uc: nat, rc: nat)
    requires p < |tokens| && IsBlockKeyword(tokens[p])
    ensures var b := RunBlock(tokens, p, ctx, uc, rc);
      Drive(tokens, p, ctx, uc, rc)
        == if b.Failure? then Failure(b.error)
           else Prepend(b.value.0.calls, Drive(tokens, b.value.0.next, b.value.0.ctx, b.value.1, b.value.2))
  {
  }

  lemma {:induction false} DriveDispatches(tokens: seq<Token>, q: nat, ctx: Context, uc: nat, rc: nat)
    requires Drive(tokens, q, ctx, uc, rc).Success?
    ensures Dispatches(tokens, q, ctx, uc, rc, Drive(tokens, q, ctx, uc, rc).value)
    decreases |tokens| - q
  {
    NothingLeft(tokens, q, ctx, uc, rc);
    if !SteppedOver(tokens, q, |tokens|) {
      var pass := Drive(tokens, q, ctx, uc, rc).value;
      var p := FirstBlock(tokens, q);
      DriveSkips(tokens, q, p, ctx, uc, rc);
      DriveAtBlock(tokens, p, ctx, uc, rc);
      var (s, uc', rc') := RunBlock(tokens, p, ctx, uc, rc).value;
      var rest := Drive(tokens, s.next, s.ctx, uc', rc').value;
      DriveDispatches(tokens, s.next, s.ctx, uc', rc');
      assert pass.calls == s.calls + rest.calls;
      assert pass.calls[..|s.calls|] == s.calls;
      assert pass.(calls := pass.calls[|s.calls|..]) == rest;
    }
  }

  /** The first block of a pass the chain describes, and the rest of that pass. */
  lemma FirstBlockOf(tokens: seq<Token>, q: nat, ctx: Context, uc: nat, rc: nat, pass: Pass)
      returns (p: nat, s: Step, uc': nat, rc': nat, rest: Pass)
    requires Dispatches(tokens, q, ctx, uc, rc, pass) && !SteppedOver(tokens, q, |tokens|)
    ensures NextBlockAt(tokens, q, p) && RunBlock(tokens, p, ctx, uc, rc) == Success((s, uc', rc'))
    ensures pass == rest.(calls := s.calls + rest.calls)
    ensures Dispatches(tokens, s.next, s.ctx, uc', rc', rest)
  {
    p :|
      && NextBlockAt(tokens, q, p)
      && RunBlock(tokens, p, ctx, uc, rc).Success?
      && var (s, uc', rc') := RunBlock(tokens, p, ctx, uc, rc).value;
         && |s.calls| <= |pass.calls| && pass.calls[..|s.calls|] == s.calls
         && Dispatches(tokens, s.next, s.ctx, uc', rc', pass.(calls := pass.calls[|s.calls|..]));
    var b := RunBlock(tokens, p, ctx, uc, rc).value;
    s, uc', rc' := b.0, b.1, b.2;
    rest := pass.(calls := pass.calls[|s.calls|..]);
    assert pass.calls == s.calls + rest.calls;
  }

  lemma {:induction false} DispatchesDrive(tokens: seq<Token>, q: nat, ctx: Context, uc: nat, rc: nat, pass: Pass)
    requires Dispatches(tokens, q, ctx, uc, rc, pass)
    ensures Drive(tokens, q, ctx, uc, rc) == Success(pass)
    decreases |tokens| - q
  {
    NothingLeft(tokens, q, ctx, uc, rc);
    if !SteppedOver(tokens, q, |tokens|) {
      var p, s, uc', rc', rest := FirstBlockOf(tokens, q, ctx, uc, rc, pass);
      DriveSkips(tokens, q, p, ctx, uc, rc);
      DriveAtBlock(tokens, p, ctx, uc, rc);
      DispatchesDrive(tokens, s.next, s.ctx, uc', rc', rest);
    }
  }

  lemma {:induction false} DriveFails(tokens: seq<Token>, q: nat, ctx: Context, uc: nat, rc: nat)
    requires Drive(tokens, q, ctx, uc, rc).Failure?
    ensures DispatchFails(tokens, q, ctx, uc, rc, Drive(tokens, q, ctx, uc, rc).error)
    decreases |tokens| - q
  {
    NothingLeft(tokens, q, ctx, uc, rc);
    var p := FirstBlock(tokens, q);
    DriveSkips(tokens, q, p, ctx, uc, rc);
    DriveAtBlock(tokens, p, ctx, uc, rc);
    var b := RunBlock(tokens, p, ctx, uc, rc);
    if b.Success? {
      DriveFails(tokens, b.value.0.next, b.value.0.ctx, b.value.1, b.value.2);
    }
    assert NextBlockAt(tokens, q, p);
  }

  lemma {:induction false} FailsDrive(tokens: seq<Token>, q: nat, ctx: Context, uc: nat, rc: nat, e: Error)
    requires DispatchFails(tokens, q, ctx, uc, rc, e)
    ensures Drive(tokens, q, ctx, uc, rc) == Failure(e)
    decreases |tokens| - q
  {
    var p: nat :| NextBlockAt(tokens, q, p) &&
      var b := RunBlock(tokens, p, ctx, uc, rc);
      if b.Failure? then b.error == e
      else DispatchFails(tokens, b.value.0.next, b.value.0.ctx, b.value.1, b.value.2, e);
    DriveSkips(tokens, q, p, ctx, uc, rc);
    DriveAtBlock(tokens, p, ctx, uc, rc);
    var b := RunBlock(tokens, p, ctx, uc, rc);
    if b.Success? {
      FailsDrive(tokens, b.value.0.next, b.value.0.ctx, b.value.1, b.value.2, e);
    }
  }

  /** The driver yields exactly the pass its dispatch chain describes, and fails with
      exactly the error its failing chain describes. */
  lemma DriveIff(tokens: seq<Token>, q: nat, ctx: Context, uc: nat, rc: nat, pass: Pass, e: Error)
    ensures Drive(tokens, q, ctx, uc, rc) == Success(pass) <==> Dispatches(tokens, q, ctx, uc, rc, pass)
    ensures Drive(tokens, q, ctx, uc, rc) == Failure(e) <==> DispatchFails(tokens, q, ctx, uc, rc, e)
  {
    if Drive(tokens, q, ctx, uc, rc).Success? {
      DriveDispatches(tokens, q, ctx, uc, rc);
    } else {
      DriveFails(tokens, q, ctx, uc, rc);
    }
    if Dispatches(tokens, q, ctx, uc, rc, pass) {
      DispatchesDrive(tokens, q, ctx, uc, rc, pass);
    }
    if DispatchFails(tokens, q, ctx, uc, rc, e) {
      FailsDrive(tokens, q, ctx, uc, rc, e);
    }
  }

  /** One run from fresh registries. */
  function Run(tokens: seq<Token>): Result<Pass, Error> {
    Drive(tokens, 0, Fresh, 0, 0)
  }

  /** convertFBDLToC: `FRI_init` with the keyword counts of the whole stream, then
      every block's calls in source order; no calls at all on failure. */
  function Convert(tokens: seq<Token>): (r: Result<seq<Call>, Error>)
    ensures r.Success? ==>
      |r.value| >= 1 && r.value[0] == Init(KeywordCount(tokens, UNIVERSE), KeywordCount(tokens, RULEBASE))
    // after it, exactly the calls of the blocks the pass dispatches, in source order
    ensures r.Success? ==> Run(tokens).Success? && r.value[1..] == Run(tokens).value.calls
    ensures r.Success? ==> NumberedFrom(UniverseIds(r.value[1..]), 0) && NumberedFrom(RulebaseIds(r.value[1..]), 0)
    ensures r.Failure? <==> Run(tokens).Failure?
    ensures r.Failure? ==> r.error.DuplicateRulebase? || (r.error.ReadPastEnd? && r.error.index >= |tokens|)
  {
    var run := Run(tokens);
    if run.Failure? then
      DriveFailureIsFatal(tokens, 0, Fresh, 0, 0);
      Failure(run.error)
    else
      var p := run.value;
      DriveNumbersBlocks(tokens, 0, Fresh, 0, 0);
      var cs := [Init(KeywordCount(tokens, UNIVERSE), KeywordCount(tokens, RULEBASE))] + p.calls;
      assert cs[1..] == p.calls;
      Success(cs)
  }

  lemma ConvertStep(tokens: seq<Token>)
    ensures Run(tokens).Failure? ==> Convert(tokens) == Failure(Run(tokens).error)
    ensures Run(tokens).Success? ==>
      Convert(tokens) == Success([Init(KeywordCount(tokens, UNIVERSE), KeywordCount(tokens, RULEBASE))] + Run(tokens).value.calls)
  {
  }

  /** convertFBDLToC through the dispatch chain: the conversion yields `calls` exactly
      when they are `FRI_init` with the keyword counts followed by the calls of a pass
      the chain describes from the start of the stream with fresh registries, and fails
      with `e` exactly when the failing chain ends with `e`. */
  lemma ConvertIff(tokens: seq<Token>, calls: seq<Call>, e: Error)
    ensures Convert(tokens) == Success(calls) <==>
      && |calls| >= 1 && calls[0] == Init(KeywordCount(tokens, UNIVERSE), KeywordCount(tokens, RULEBASE))
      && exists pass :: Dispatches(tokens, 0, Fresh, 0, 0, pass) && calls[1..] == pass.calls
    ensures Convert(tokens) == Failure(e) <==> DispatchFails(tokens, 0, Fresh, 0, 0, e)
  {
    ConvertStep(tokens);
    var run := Run(tokens);
    if run.Success? {
      DriveIff(tokens, 0, Fresh, 0, 0, run.value, e);
      if Convert(tokens) == Success(calls) {
        assert calls[1..] == run.value.calls;
      }
    } else {
      DriveIff(tokens, 0, Fresh, 0, 0, Pass([], Fresh, 0, 0), e);
    }
    forall pass | |calls| >= 1 && calls[0] == Init(KeywordCount(tokens, UNIVERSE), KeywordCount(tokens, RULEBASE))
      && Dispatches(tokens, 0, Fresh, 0, 0, pass) && calls[1..] == pass.calls
      ensures Convert(tokens) == Success(calls)
    {
      DispatchesDrive(tokens, 0, Fresh, 0, 0, pass);
      assert calls == [calls[0]] + calls[1..];
    }
  }
}
