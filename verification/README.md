# FBDL-to-FRI converter, modelled in Dafny

This project models the converter at the heart of FBDL-Converter. The converter
takes an already-tokenized FBDL program and turns it into calls against the FRI
runtime. An FBDL program declares fuzzy *universes*: named lists of
`(name, x, y)` elements. It also declares *rulebases*: named lists of rules whose
antecedents are `universe is condition` tests. The converter runs as one
forward pass with an integer cursor, and it does three things:

- A `universe` block reads the universe's name. It then reads `(name, x, y)`
  triples for as long as the next token is a literal, registers the universe
  and emits `FRI_initUniverseById` followed by one `FRI_addUniverseElement` per
  element.
- A `rulebase` block first rejects a name already used by another rulebase.
  That error is fatal, and the run returns null. It then looks up its own name
  as a universe to find its consequent.
  - With no such universe, it emits a placeholder `FRI_initRuleBaseById(id, 0, -1)`
    and skips three tokens.
  - Otherwise it collects the `rule … end` sub-blocks up to the first token
    whose value is `end`. It then emits the rulebase, each rule, and each
    antecedent resolved to a (universe id, condition index) pair.
- The driver emits `FRI_init(U, R)` first. `U` and `R` count the `universe` and
  `rulebase` keyword tokens in the whole stream. It then dispatches each block
  in source order.

The model is functional. The two registries (`universes` with
`universesMap`, and `rulebaseNames`) are a `Context` value that each builder
takes and returns. The emitted C text is modelled as a sequence of `Call`
values. A conversion yields `Result<seq<Call>, Error>`:

- `DuplicateRulebase(name)` is the source's `null` return.
- `ReadPastEnd(index)` is the `TypeError` the source throws when it reads
  `tokens[index].value` past the end of the stream.

Every builder's cursor arithmetic follows the source exactly:

- A universe block ends at `start + 2 + 3k + 1` after k triples.
- A placeholder rulebase ends at `start + 3`.
- A rule ends one past the `end` it stops on.
- After skipping `and`, a rule still reads an antecedent at the new position.
- `end` is matched by value, whatever the token's kind.

Modules: `Wrappers` (Option, Result), `Tokens` (tokens, errors, keyword
counting), `Calls` (the FRI calls and a decoder for the rule section), `Registry`
(universes, lookups, the registry invariant), `UniverseBuilder`, `RuleBuilder`,
`RulebaseBuilder`, `Converter` (driver), `ConverterProperties` (whole-run
lemmas) and `Scenarios` (concrete token streams).

Two points where the code is followed to the letter:

- Universe lookups are not uniformly first match. The
  universe id of a rulebase's consequent and of an antecedent comes from
  `universesMap`, where a later declaration overwrites an earlier one, so the
  last declaration wins. Only the condition index comes from `universes.find`,
  where the first declaration wins. `Registry.ResolveUniverse` and
  `Registry.FindConditionId` model the two lookups separately.
- Malformed input is not excluded. The code throws on
  reads past the end of the stream. The model returns `ReadPastEnd` at the same
  points instead of forbidding such streams by a precondition.

## Model

| member | source | states |
|---|---|---|
| Tokens.KeywordCountIsOccurrences | converter.js:200-206 | the keyword count given to `FRI_init` is the number of occurrences of the `(keyword, word)` token in the stream, however the tokens are ordered |
| Registry.AddUniverseKeepsValid | converter.js:93-94 | registering a universe whose id is the current number of universes keeps the registry invariant: ids equal positions, every declared name is a map key, and each key maps to the last universe of that name |
| Registry.ResolveUniverse | converter.js:140 | in well-formed registries, `universesMap[name] ?? -1` yields the last universe declared under `name`, and yields -1 exactly when no universe has that name |
| Registry.FindUniverse | converter.js:185 | the result is the position of the first universe with the name, or -1 exactly when none has it |
| Registry.FindElementIndex | converter.js:191 | the result is the position of the first element with the name, or -1 exactly when none has it |
| Registry.FindConditionId | converter.js:184-198 | the result is the index of the first matching element in the first universe with the name, so it lies in [-1, elements); it is -1 exactly when no universe has the name or that first universe has no such element |
| UniverseBuilder.ScanElements | converter.js:85-91 | when the element loop returns, it has stopped at the first position, in steps of three, whose token is not a literal, and each element read is the literal-led triple at its position; when it throws, the error is a read past the end |
| UniverseBuilder.ScanElementsFailsIff | converter.js:85-91 | the element loop throws exactly when some triple it reaches starts with a literal but is cut short by the end of the stream; on every other stream it returns |
| UniverseBuilder.ProcessUniverse | converter.js:78-103 | after k triples the block emits `InitUniverse(id, k)`, then the k `AddElement` calls in element order, and returns cursor `start + 2 + 3k + 1`; the registry gains exactly this universe under `id` and rulebase names are unchanged; a missing name token is a read past the end, and with the name present the block throws exactly when a triple is cut short, so it succeeds otherwise |
| RuleBuilder.ScanAntecedentsBounds | converter.js:168-179 | when the antecedent loop returns, it ends one past a token whose value is `end`, each antecedent has consumed three or four tokens, and nothing was read exactly when the first token is `end`; when it throws, the error is a read past the end |
| RuleBuilder.ScanAntecedentsIff | converter.js:168-179 | the loop returns `(ants, n)` exactly when, from the cursor, each antecedent in turn is read at a token that is not `end` (one further on past an `and`) as that token and the one two after it, the next antecedent starts three on, and the token after the last is `end` at `n - 1`; it throws exactly when such a chain reaches the end of the stream or an antecedent cut short by it |
| RuleBuilder.ProcessRule | converter.js:159-182 | the consequent is the token after `rule`; the returned cursor is at least `start + 4` and lies just past an `end` |
| RuleBuilder.ProcessRuleReads | converter.js:159-182 | a rule's antecedents are exactly the chain read from `start + 3`, past the consequent and `when`, and the cursor is one past the `end` closing it; with the consequent present, the rule throws exactly when that chain runs off the stream |
| RulebaseBuilder.ScanRules | converter.js:125-133 | the body loop stops at the stream's end or at a token whose value is `end`, of any kind; each collected rule spans at least four tokens |
| RulebaseBuilder.ScanRulesIff | converter.js:125-133 | the body loop returns `(rules, stop)` exactly when each rule is what processRule reads at the next token whose value is `rule`, every token in between is stepped over, and `stop` is the first `end`-valued token left after the last rule, or the end of the stream; it throws exactly when one of the rules it meets throws |
| RulebaseBuilder.DecodeEmittedRules | converter.js:137-153 | the emitted rule section decodes back to the resolved rules: rule k is announced as `AddRule(k, n)` and is followed by exactly its n resolved antecedents |
| RulebaseBuilder.RulebaseCalls | converter.js:135-153 | a resolved rulebase's calls start with `InitRuleBase(id, n, consequent)` for n rules, and the rest decodes to the rules' resolved antecedents |
| RulebaseBuilder.ProcessRulebaseReadsBody | converter.js:105-157 | for a name not yet registered: with no universe of that name the block always succeeds, emitting only `InitRuleBase(id, 0, -1)` and moving to `start + 3`; with one, the calls are `InitRuleBase(id, n, consequent)` for the n rules the body loop collects from `start + 2`, then those rules in order with each antecedent resolved, the cursor is one past the loop's stop, and the block throws exactly when a rule of the body runs off the stream |
| RulebaseBuilder.ProcessRulebase | converter.js:105-157 | fails as a duplicate exactly when the name is already registered; otherwise appends the name once and changes nothing else. With no universe of that name it emits only `InitRuleBase(id, 0, -1)` and returns `start + 3`. Otherwise the announced rule count equals the number of rules in a well-formed rule section, and the cursor ends past an `end` or past the stream |
| Converter.DriveNumbersBlocks | converter.js:51-72 | universe and rulebase ids are handed out as consecutive numbers from the two counters, one per dispatched block, and each counter ends at its start plus the blocks of its kind; the registries only grow, keeping their earlier entries, by one entry per dispatched block |
| Converter.DriveFailureIsFatal | converter.js:56-65 | the pass stops early only on a duplicate rulebase name or a read past the end of the stream |
| Converter.RunBlock | converter.js:55-68 | a `universe` keyword runs the universe block and advances only the universe counter, a `rulebase` keyword runs the rulebase block and advances only the rulebase counter, and a block that succeeds leaves the cursor strictly past its keyword |
| Converter.DriveIff | converter.js:51-72 | the loop yields a pass exactly when the dispatch chain describes it: every token that is neither a `universe` nor a `rulebase` keyword is stepped over, the first one that is runs its block, that block's calls come first and the rest is the chain from where the block leaves the cursor with the registries and counters it leaves, and nothing is emitted once no such keyword is left; the loop fails with an error exactly when the chain reaches a block that fails with that error |
| Converter.Convert | converter.js:39-76 | the output starts with `Init(U, R)`, where U and R are the keyword counts of the whole stream, and continues with exactly the calls of the blocks the pass dispatches, in source order (the pass that `Run` yields); the `InitUniverse` ids and `InitRuleBase` ids among them are each 0, 1, 2, …; there is no output exactly when the pass fails, and the failure is then a duplicate rulebase name or a read past the end |
| Converter.ConvertIff | converter.js:39-76 | the conversion yields a call list exactly when it is `Init(U, R)` with the keyword counts followed by the calls of a pass the dispatch chain describes from the start of the stream with empty registries and both counters at 0; it fails with an error exactly when the failing dispatch chain ends with that error |
| ConverterProperties.DriveKeepsValid | converter.js:52-71 | along the pass the registries stay well formed and the two counters equal their sizes |
| ConverterProperties.DriveBlocksBounded | converter.js:49-71 | the pass dispatches at most as many universe blocks and rulebase blocks as there are keywords of each kind from the cursor on |
| ConverterProperties.ConvertCounts | converter.js:45-67 | in a successful run, `FRI_init` carries the keyword occurrence counts, which bound the number of universes and rulebases in the output after it; the final registries are well formed and have one entry per block in that output |
| ConverterProperties.ConvertDuplicateIsGenuine | converter.js:105-113 | a run aborts as a duplicate of `name` only if two rulebase keywords, at different positions, are each followed by a token whose value is `name` |
| Scenarios.EndToEnd | converter.js:39-198 | `universe temp "cold" 0 0 "hot" 1 1 end rulebase temp rule high when temp is hot end end` converts to `Init(1,1)`, `InitUniverse(0,2)`, two `AddElement`, `InitRuleBase(0,1,0)`, `AddRule(0,1)`, `AddAntecedent(0,1)` |
| Scenarios.DuplicateRulebaseAborts | converter.js:60-65 | `rulebase q end rulebase q end` produces no output and reports the duplicate `q` |
| Scenarios.PlaceholderSkipIsFixed | converter.js:118-123 | an unresolved rulebase skips only three tokens, so a `universe` keyword inside its body is dispatched as a block |
| Scenarios.DanglingAndReadsPastEnd | converter.js:168-178 | after skipping `and`, the rule loop reads `end` as a universe name, and the condition read two tokens on throws past the end of the stream |
| Scenarios.EndMatchedByValue | converter.js:125 | a literal token `"end"` ends a rulebase body, and the rule after it is never read |
| Scenarios.MapAndListLookupsDisagree | converter.js:140-145 | with two universes named `t`, an antecedent `t is b` gets universe id 1 from the map but condition index 1 from the first universe |

## Left out

- The page wiring: the CodeMirror editor, the form handler and the display of the result (converter.js:1-19). They are UI, not conversion logic.
- The scanner (`tokenizeFBDL` and `Tokenizer`, converter.js:22-33). It is not part of this model. Its output is the input `seq<Token>`, without the `empty` sentinel. Token categories other than keyword and literal are collapsed into `Other`, because the converter never tells them apart.
- `console.log`, `console.warn` and `console.error` diagnostics. They do not affect the output.
- `parseFloat` and the number formatting of element coordinates. `AddElement` carries the raw token strings, because floating point is outside the model.
- The exact C text: the `int main(){` wrapper, `return 0;`, comments and blank lines. The model emits the sequence of calls instead.
- JavaScript object-key quirks of `universesMap` (keys such as `__proto__`). The map is modelled as a finite map from names to ids.
- The unused `rulebaseCounter` and `ruleID` arguments of `processRule`. They do not influence its result.
- Determinism and isolation between runs have no lemma of their own. Every member is a pure function, and `Convert` always starts from the empty `Registry.Fresh`.
- ConvertDuplicateIsGenuine: only the direction "abort implies a repeated name" is proved. The converse is false: a repeated rulebase can be skipped (inside a placeholder's three tokens, or read as an element value), or the run can throw first.
