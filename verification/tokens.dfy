/** The token stream the converter reads, and the ways a conversion can fail. */
module Tokens {

  /** The scanner's token categories as far as the converter tells them apart:
      it only ever compares a token's type with "keyword" and "literal". */
  datatype Kind = Keyword | Literal | Other

  datatype Token = Token(kind: Kind, value: string)

  /** Why a conversion produces no output. */
  datatype Error =
    | DuplicateRulebase(name: string)  // a rulebase name declared twice: the converter returns null
    | ReadPastEnd(index: nat)          // reading `tokens[index].value` past the end throws

  const UNIVERSE := "universe"
  const RULEBASE := "rulebase"
  const RULE := "rule"
  const AND := "and"
  const END := "end"

  predicate IsKeyword(t: Token, word: string) {
    t.kind == Keyword && t.value == word
  }

  /** Number of `word` keyword tokens at positions `i` and later. */
  function KeywordsFrom(tokens: seq<Token>, word: string, i: nat): nat
    decreases |tokens| - i
  {
    if i >= |tokens| then 0
    else (if IsKeyword(tokens[i], word) then 1 else 0) + KeywordsFrom(tokens, word, i + 1)
  }

  /** Number of `word` keyword tokens anywhere in the stream. */
  function KeywordCount(tokens: seq<Token>, word: string): nat {
    KeywordsFrom(tokens, word, 0)
  }

  /** The count is the number of occurrences of the keyword token in the stream,
      whatever the order of the tokens. */
  lemma {:induction false} KeywordsFromIsOccurrences(tokens: seq<Token>, word: string, i: nat)
    requires i <= |tokens|
    ensures KeywordsFrom(tokens, word, i) == multiset(tokens[i..])[Token(Keyword, word)]
    decreases |tokens| - i
  {
    if i < |tokens| {
      KeywordsFromIsOccurrences(tokens, word, i + 1);
      assert tokens[i..] == [tokens[i]] + tokens[i + 1..];
    }
  }

  lemma KeywordCountIsOccurrences(tokens: seq<Token>, word: string)
    ensures KeywordCount(tokens, word) == multiset(tokens)[Token(Keyword, word)]
  {
    KeywordsFromIsOccurrences(tokens, word, 0);
    assert tokens[0..] == tokens;
  }

  /** Counting from a later position never finds more keywords. */
  lemma {:induction false} KeywordsFromMonotone(tokens: seq<Token>, word: string, i: nat, j: nat)
    requires i <= j
    ensures KeywordsFrom(tokens, word, j) <= KeywordsFrom(tokens, word, i)
    decreases j - i
  {
    if i < j && i < |tokens| {
      KeywordsFromMonotone(tokens, word, i + 1, j);
    }
  }
}
