/** processUniverse: a `universe` block is the keyword, a name, then
    (name, x, y) triples for as long as the next token is a literal. */
module UniverseBuilder {
  import opened Wrappers
  import opened Tokens
  import opened Calls
  import opened Registry

  /** The triple at `p` is a well-formed element: it starts with a literal and all
      three tokens are present. */
  predicate ElementAt(tokens: seq<Token>, p: nat, e: Element) {
    && p + 2 < |tokens|
    && tokens[p].kind == Literal
    && e == Element(tokens[p].value, tokens[p + 1].value, tokens[p + 2].value)
  }

  /** The token at `p` exists and is a literal: the element loop reads a triple there. */
  predicate LiteralAt(tokens: seq<Token>, p: nat) {
    p < |tokens| && tokens[p].kind == Literal
  }

  /** Reading triples from `i`, the first `k` start with a literal and the next one
      does too, but the stream ends before its third token. */
  predicate CutShortAfter(tokens: seq<Token>, i: nat, k: nat) {
    && (forall j :: 0 <= j < k ==> LiteralAt(tokens, i + 3 * j))
    && LiteralAt(tokens, i + 3 * k)
    && |tokens| <= i + 3 * k + 2
  }

  /** The element loop: returns the elements read and the position of the first
      token that does not start a triple. */
  function ScanElements(tokens: seq<Token>, i: nat): (r: Result<(seq<Element>, nat), Error>)
    ensures r.Success? ==> r.value.1 == i + 3 * |r.value.0|
    ensures r.Success? ==> forall k :: 0 <= k < |r.value.0| ==> ElementAt(tokens, i + 3 * k, r.value.0[k])
    ensures r.Success? ==> r.value.1 >= |tokens| || tokens[r.value.1].kind != Literal
    ensures r.Success? && i <= |tokens| ==> r.value.1 <= |tokens|
    ensures r.Failure? ==> r.error == ReadPastEnd(|tokens|)
    decreases |tokens| - i
  {
    if i < |tokens| && tokens[i].kind == Literal then
      if i + 2 >= |tokens| then Failure(ReadPastEnd(|tokens|))
      else
        var rest :- ScanElements(tokens, i + 3);
        Success(([Element(tokens[i].value, tokens[i + 1].value, tokens[i + 2].value)] + rest.0, rest.1))
    else Success(([], i))
  }

  /** Some triple read from `i` on is cut short. */
  ghost predicate ElementsCutShort(tokens: seq<Token>, i: nat) {
    exists k: nat :: CutShortAfter(tokens, i, k)
  }

  lemma CutShortStartsWithLiteral(tokens: seq<Token>, i: nat, k: nat)
    ensures CutShortAfter(tokens, i, k) ==> LiteralAt(tokens, i)
  {
    if k > 0 {
      assert i + 3 * 0 == i;
    }
  }

  /** Past a literal-led triple at `i`, the cut-short triples from `i` are those from
      `i + 3`, one further on. */
  lemma CutShortShift(tokens: seq<Token>, i: nat, k: nat)
    requires LiteralAt(tokens, i)
    ensures CutShortAfter(tokens, i, k + 1) <==> CutShortAfter(tokens, i + 3, k)
  {
    if CutShortAfter(tokens, i + 3, k) {
      forall j | 0 <= j < k + 1 ensures LiteralAt(tokens, i + 3 * j) {
        if j > 0 {
          assert i + 3 * j == (i + 3) + 3 * (j - 1);
        }
      }
    }
    if CutShortAfter(tokens, i, k + 1) {
      forall j | 0 <= j < k ensures LiteralAt(tokens, (i + 3) + 3 * j) {
        assert (i + 3) + 3 * j == i + 3 * (j + 1);
      }
    }
  }

  /** The element loop throws exactly when a literal-led triple is cut short by the end
      of the stream; otherwise it always succeeds. */
  lemma {:induction false} ScanElementsFailsIff(tokens: seq<Token>, i: nat)
    ensures ScanElements(tokens, i).Failure? <==> ElementsCutShort(tokens, i)
    decreases |tokens| - i
  {
    if LiteralAt(tokens, i) {
      if i + 2 >= |tokens| {
        assert CutShortAfter(tokens, i, 0);
      } else {
        var next := i + 3;
        ScanElementsFailsIff(tokens, next);
        if ElementsCutShort(tokens, next) {
          var k: nat :| CutShortAfter(tokens, next, k);
          CutShortShift(tokens, i, k);
        }
        if ElementsCutShort(tokens, i) {
          var k: nat :| CutShortAfter(tokens, i, k);
          CutShortShift(tokens, i, k - 1);
        }
      }
    } else {
      forall k: nat ensures !CutShortAfter(tokens, i, k) {
        CutShortStartsWithLiteral(tokens, i, k);
      }
    }
  }

  /** One `AddElement` call per element, in element order. */
  function ElementCalls(es: seq<Element>): seq<Call> {
    seq(|es|, k requires 0 <= k < |es| => AddElement(es[k].x, es[k].y))
  }

  /** processUniverse at `start` with universe counter `id`. */
  function ProcessUniverse(tokens: seq<Token>, start: nat, id: nat, ctx: Context): (r: Result<Step, Error>)
    ensures start + 1 >= |tokens| ==> r == Failure(ReadPastEnd(start + 1))
    ensures r.Failure? ==> r.error.ReadPastEnd? && r.error.index >= |tokens|
    // with the name present, it throws exactly when a triple is cut short
    ensures start + 1 < |tokens| ==> (r.Failure? <==> ElementsCutShort(tokens, start + 2))
    ensures r.Success? ==> |r.value.ctx.universes| == |ctx.universes| + 1
    // k triples consumed: InitUniverse(id, k), then the k elements' AddElement calls in
    // order, and the cursor ends one past the token after the last triple
    ensures r.Success? ==>
      var es := r.value.ctx.universes[|ctx.universes|].elements;
      && r.value.next == start + 2 + 3 * |es| + 1
      && (forall m :: 0 <= m < |es| ==> ElementAt(tokens, start + 2 + 3 * m, es[m]))
      && (start + 2 + 3 * |es| >= |tokens| || tokens[start + 2 + 3 * |es|].kind != Literal)
      && |r.value.calls| == |es| + 1
      && r.value.calls[0] == InitUniverse(id, |es|)
      && (forall m :: 0 <= m < |es| ==> r.value.calls[1 + m] == AddElement(es[m].x, es[m].y))
    // the registry gains exactly this universe under this id; rulebase names are untouched
    ensures r.Success? ==>
      r.value.ctx == AddUniverse(ctx, id, tokens[start + 1].value, r.value.ctx.universes[|ctx.universes|].elements)
    ensures r.Success? ==> UniverseIds(r.value.calls) == [id] && RulebaseIds(r.value.calls) == []
  {
    if start + 1 >= |tokens| then Failure(ReadPastEnd(start + 1))
    else
      ScanElementsFailsIff(tokens, start + 2);
      var scan :- ScanElements(tokens, start + 2);
      var es := scan.0;
      var calls := [InitUniverse(id, |es|)] + ElementCalls(es);
      ElementCallsHaveNoIds(id, es);
      Success(Step(scan.1 + 1, calls, AddUniverse(ctx, id, tokens[start + 1].value, es)))
  }

  lemma ElementCallsHaveNoIds(id: nat, es: seq<Element>)
    ensures UniverseIds([InitUniverse(id, |es|)] + ElementCalls(es)) == [id]
    ensures RulebaseIds([InitUniverse(id, |es|)] + ElementCalls(es)) == []
  {
    var cs := [InitUniverse(id, |es|)] + ElementCalls(es);
    NoInitHasNoIds(ElementCalls(es));
    assert cs[1..] == ElementCalls(es);
  }
}
