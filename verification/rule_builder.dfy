/** processRule: `rule <consequent> when <u> is <c> [and] <u> is <c> ... end`,
    read at fixed offsets and stopped by the first token whose value is `end`. */
module RuleBuilder {
  import opened Wrappers
  import opened Tokens

  datatype Antecedent = Antecedent(universe: string, condition: string)

  datatype Rule = Rule(consequent: string, antecedents: seq<Antecedent>)

  /** The antecedent loop from position `i`: returns the antecedents and the
      position just past the `end` it stops on. An `and` is skipped, and the
      token after it is read as a universe name even when it is `end`. */
  function ScanAntecedents(tokens: seq<Token>, i: nat): Result<(seq<Antecedent>, nat), Error>
    decreases |tokens| - i
  {
    if i >= |tokens| then Failure(ReadPastEnd(i))
    else if tokens[i].value == END then Success(([], i + 1))
    else
      var p := if tokens[i].value == AND then i + 1 else i;
      if p >= |tokens| then Failure(ReadPastEnd(p))
      else if p + 2 >= |tokens| then Failure(ReadPastEnd(p + 2))
      else
        var rest :- ScanAntecedents(tokens, p + 3);
        Success(([Antecedent(tokens[p].value, tokens[p + 2].value)] + rest.0, rest.1))
  }

  /** The loop ends just past an `end` inside the stream; each antecedent takes three
      tokens, four with an `and`; it reads nothing exactly when it starts on `end`;
      running off the stream throws a read past its end. */
  lemma {:induction false} ScanAntecedentsBounds(tokens: seq<Token>, i: nat)
    ensures var r := ScanAntecedents(tokens, i);
      && (r.Success? ==> i < r.value.1 <= |tokens| && tokens[r.value.1 - 1].value == END)
      && (r.Success? ==> 3 * |r.value.0| + 1 <= r.value.1 - i <= 4 * |r.value.0| + 1)
      && (r.Success? ==> (r.value.0 == [] <==> tokens[i].value == END))
      && (r.Failure? ==> r.error.ReadPastEnd? && r.error.index >= |tokens|)
    decreases |tokens| - i
  {
    if i < |tokens| && tokens[i].value != END {
      var p := AntecedentStart(tokens, i);
      if p + 2 < |tokens| {
        ScanAntecedentsBounds(tokens, p + 3);
      }
    }
  }

  /** Where the antecedent met at `q` is read from: one past an `and`, otherwise `q`. */
  function AntecedentStart(tokens: seq<Token>, q: nat): nat
    requires q < |tokens|
  {
    if tokens[q].value == AND then q + 1 else q
  }

  /** The loop meets no `end` at `q` and reads antecedent `a` there: the universe is the
      token at the antecedent's start and the condition the token two further on. */
  predicate AntecedentAt(tokens: seq<Token>, q: nat, a: Antecedent) {
    && q < |tokens| && tokens[q].value != END
    && AntecedentStart(tokens, q) + 2 < |tokens|
    && a == Antecedent(tokens[AntecedentStart(tokens, q)].value, tokens[AntecedentStart(tokens, q) + 2].value)
  }

  /** From `q` the loop reads exactly `ants`, each starting three tokens after the
      previous one's start, then stops on an `end` with the cursor `n` just past it. */
  predicate AntecedentsThenEnd(tokens: seq<Token>, q: nat, ants: seq<Antecedent>, n: nat)
    decreases |ants|
  {
    if ants == [] then q < |tokens| && tokens[q].value == END && n == q + 1
    else
      && AntecedentAt(tokens, q, ants[0])
      && AntecedentsThenEnd(tokens, AntecedentStart(tokens, q) + 3, ants[1..], n)
  }

  /** From `q` the loop reads `ants` and then runs off the stream: no token is left
      where an antecedent or `end` is due, or the antecedent due there is cut short. */
  predicate AntecedentsRunOff(tokens: seq<Token>, q: nat, ants: seq<Antecedent>)
    decreases |ants|
  {
    if ants == [] then
      q >= |tokens| || (tokens[q].value != END && AntecedentStart(tokens, q) + 2 >= |tokens|)
    else
      && AntecedentAt(tokens, q, ants[0])
      && AntecedentsRunOff(tokens, AntecedentStart(tokens, q) + 3, ants[1..])
  }

  /** Some chain of antecedents from `q` runs off the stream. */
  ghost predicate AntecedentLoopThrows(tokens: seq<Token>, q: nat) {
    exists ants :: AntecedentsRunOff(tokens, q, ants)
  }

  /** What the loop returns is a chain of antecedents ending on an `end`. */
  lemma {:induction false} ScanAntecedentsSound(tokens: seq<Token>, i: nat, ants: seq<Antecedent>, n: nat)
    requires ScanAntecedents(tokens, i) == Success((ants, n))
    ensures AntecedentsThenEnd(tokens, i, ants, n)
    decreases |tokens| - i
  {
    if tokens[i].value != END {
      var p := AntecedentStart(tokens, i);
      var rest := ScanAntecedents(tokens, p + 3).value;
      ScanAntecedentsSound(tokens, p + 3, rest.0, rest.1);
      assert ants[1..] == rest.0;
    }
  }

  /** When the loop throws, it has read a chain of antecedents that runs off the stream. */
  lemma {:induction false} ScanAntecedentsThrows(tokens: seq<Token>, i: nat) returns (ants: seq<Antecedent>)
    requires ScanAntecedents(tokens, i).Failure?
    ensures AntecedentsRunOff(tokens, i, ants)
    decreases |tokens| - i
  {
    if i >= |tokens| || AntecedentStart(tokens, i) + 2 >= |tokens| {
      ants := [];
    } else {
      var p := AntecedentStart(tokens, i);
      var more := ScanAntecedentsThrows(tokens, p + 3);
      ants := [Antecedent(tokens[p].value, tokens[p + 2].value)] + more;
      assert ants[1..] == more;
    }
  }

  /** Conversely, a chain ending on an `end` is what the loop returns. */
  lemma {:induction false} AntecedentsThenEndScans(tokens: seq<Token>, i: nat, ants: seq<Antecedent>, n: nat)
    requires AntecedentsThenEnd(tokens, i, ants, n)
    ensures ScanAntecedents(tokens, i) == Success((ants, n))
    decreases |ants|
  {
    if ants != [] {
      AntecedentsThenEndScans(tokens, AntecedentStart(tokens, i) + 3, ants[1..], n);
      assert [ants[0]] + ants[1..] == ants;
    }
  }

  /** Conversely, a chain that runs off the stream makes the loop throw. */
  lemma {:induction false} AntecedentsRunOffFails(tokens: seq<Token>, i: nat, ants: seq<Antecedent>)
    requires AntecedentsRunOff(tokens, i, ants)
    ensures ScanAntecedents(tokens, i).Failure?
    decreases |ants|
  {
    if ants != [] {
      AntecedentsRunOffFails(tokens, AntecedentStart(tokens, i) + 3, ants[1..]);
    }
  }

  /** The antecedent loop, characterized by its token chains in both directions. */
  lemma ScanAntecedentsIff(tokens: seq<Token>, i: nat, ants: seq<Antecedent>, n: nat)
    ensures ScanAntecedents(tokens, i) == Success((ants, n)) <==> AntecedentsThenEnd(tokens, i, ants, n)
    ensures ScanAntecedents(tokens, i).Failure? <==> AntecedentLoopThrows(tokens, i)
  {
    if ScanAntecedents(tokens, i) == Success((ants, n)) {
      ScanAntecedentsSound(tokens, i, ants, n);
    }
    if ScanAntecedents(tokens, i).Failure? {
      var ants' := ScanAntecedentsThrows(tokens, i);
    }
    if AntecedentsThenEnd(tokens, i, ants, n) {
      AntecedentsThenEndScans(tokens, i, ants, n);
    }
    if AntecedentLoopThrows(tokens, i) {
      var ants' :| AntecedentsRunOff(tokens, i, ants');
      AntecedentsRunOffFails(tokens, i, ants');
    }
  }

  /** processRule at `start` (the `rule` token): the consequent is the next token's
      value, the connective after it is skipped unread. */
  function ProcessRule(tokens: seq<Token>, start: nat): (r: Result<(Rule, nat), Error>)
    ensures start + 1 >= |tokens| ==> r == Failure(ReadPastEnd(start + 1))
    ensures r.Success? ==> r.value.0.consequent == tokens[start + 1].value
    ensures r.Success? ==> start + 4 <= r.value.1 <= |tokens| && tokens[r.value.1 - 1].value == END
    ensures r.Success? ==>
      3 * |r.value.0.antecedents| + 4 <= r.value.1 - start <= 4 * |r.value.0.antecedents| + 4
    ensures r.Failure? ==> r.error.ReadPastEnd? && r.error.index >= |tokens|
  {
    if start + 1 >= |tokens| then Failure(ReadPastEnd(start + 1))
    else
      ScanAntecedentsBounds(tokens, start + 3);
      var scan :- ScanAntecedents(tokens, start + 3);
      Success((Rule(tokens[start + 1].value, scan.0), scan.1))
  }

  /** A rule's antecedents are the chain read from `start + 3`, past the consequent and
      `when`; with its consequent present, the rule throws exactly when that chain runs
      off the stream. */
  lemma ProcessRuleReads(tokens: seq<Token>, start: nat)
    ensures ProcessRule(tokens, start).Success? ==>
      AntecedentsThenEnd(tokens, start + 3, ProcessRule(tokens, start).value.0.antecedents, ProcessRule(tokens, start).value.1)
    ensures start + 1 < |tokens| ==>
      (ProcessRule(tokens, start).Failure? <==> AntecedentLoopThrows(tokens, start + 3))
  {
    var r := ScanAntecedents(tokens, start + 3);
    if r.Success? {
      ScanAntecedentsSound(tokens, start + 3, r.value.0, r.value.1);
    }
    ScanAntecedentsIff(tokens, start + 3, [], 0);
  }
}
