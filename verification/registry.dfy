/** The two registries of one conversion run: the universe list with its
    name-to-id map, and the list of rulebase names seen so far. */
module Registry {
  import opened Calls

  datatype Element = Element(name: string, x: string, y: string)

  datatype Universe = Universe(id: nat, name: string, elements: seq<Element>)

  datatype Context = Context(
    universes: seq<Universe>,
    universesMap: map<string, nat>,
    rulebaseNames: seq<string>)

  /** What a block builder hands back to the driver: the cursor after the block,
      the calls the block emits, and the registries after it. */
  datatype Step = Step(next: nat, calls: seq<Call>, ctx: Context)

  /** Every run starts from empty registries. */
  const Fresh: Context := Context([], map[], [])

  /** `us[k]` is the first universe called `name`. */
  ghost predicate FirstDeclared(us: seq<Universe>, name: string, k: int) {
    0 <= k < |us| && us[k].name == name && forall j :: 0 <= j < k ==> us[j].name != name
  }

  /** `us[k]` is the last universe called `name`. */
  ghost predicate LastDeclared(us: seq<Universe>, name: string, k: int) {
    0 <= k < |us| && us[k].name == name && forall j :: k < j < |us| ==> us[j].name != name
  }

  /** `es[k]` is the first element called `name`. */
  ghost predicate FirstElement(es: seq<Element>, name: string, k: int) {
    0 <= k < |es| && es[k].name == name && forall j :: 0 <= j < k ==> es[j].name != name
  }

  predicate Distinct(names: seq<string>) {
    forall a, b :: 0 <= a < b < |names| ==> names[a] != names[b]
  }

  /** What the registries look like after any sequence of blocks: universe ids are
      their positions, the map sends each declared name to its last declaration,
      and no rulebase name is registered twice. */
  ghost predicate Valid(ctx: Context) {
    && (forall k :: 0 <= k < |ctx.universes| ==> ctx.universes[k].id == k)
    && (forall k :: 0 <= k < |ctx.universes| ==> ctx.universes[k].name in ctx.universesMap)
    && (forall name :: name in ctx.universesMap ==>
          LastDeclared(ctx.universes, name, ctx.universesMap[name]))
    && Distinct(ctx.rulebaseNames)
  }

  /** Registering a universe: appended to the list, and its name (re)bound to its id. */
  function AddUniverse(ctx: Context, id: nat, name: string, elements: seq<Element>): Context {
    ctx.(universes := ctx.universes + [Universe(id, name, elements)],
         universesMap := ctx.universesMap[name := id])
  }

  /** Registering under the next free id keeps the registries well formed: the new
      universe becomes the last declaration of its name, other names keep theirs. */
  lemma AddUniverseKeepsValid(ctx: Context, name: string, elements: seq<Element>)
    requires Valid(ctx)
    ensures Valid(AddUniverse(ctx, |ctx.universes|, name, elements))
  {
  }

  /** The universe map's lookup: the id bound to `name`, or -1 when the map has no
      entry for it. In well-formed registries this is the LAST universe declared
      under `name`, and -1 exactly when no universe has that name. */
  function ResolveUniverse(ctx: Context, name: string): (r: int)
    ensures r >= -1
    ensures Valid(ctx) && r >= 0 ==> LastDeclared(ctx.universes, name, r)
    ensures Valid(ctx) ==> (r == -1 <==> forall k :: 0 <= k < |ctx.universes| ==> ctx.universes[k].name != name)
  {
    if name in ctx.universesMap then ctx.universesMap[name] else -1
  }

  /** The universe list's lookup: the position of the first universe declared under
      `name`, or -1 when there is none. */
  function FindUniverse(us: seq<Universe>, name: string): (r: int)
    ensures -1 <= r < |us|
    ensures r >= 0 ==> FirstDeclared(us, name, r)
    ensures r == -1 <==> forall k :: 0 <= k < |us| ==> us[k].name != name
  {
    if us == [] then -1
    else if us[0].name == name then 0
    else
      var r := FindUniverse(us[1..], name);
      if r == -1 then -1 else r + 1
  }

  /** The position of the first element of a universe named `name`, or -1 when
      there is none. */
  function FindElementIndex(es: seq<Element>, name: string): (r: int)
    ensures -1 <= r < |es|
    ensures r >= 0 ==> FirstElement(es, name, r)
    ensures r == -1 <==> forall k :: 0 <= k < |es| ==> es[k].name != name
  {
    if es == [] then -1
    else if es[0].name == name then 0
    else
      var r := FindElementIndex(es[1..], name);
      if r == -1 then -1 else r + 1
  }

  /** findConditionID: the position of the first element called `condition` in the
      FIRST universe called `universe`; -1 when either lookup fails. */
  function FindConditionId(ctx: Context, universe: string, condition: string): (r: int)
    ensures -1 <= r
    ensures r >= 0 ==>
      exists k :: FirstDeclared(ctx.universes, universe, k)
        && FirstElement(ctx.universes[k].elements, condition, r)
    ensures r == -1 <==>
      || (forall k :: 0 <= k < |ctx.universes| ==> ctx.universes[k].name != universe)
      || (exists k :: FirstDeclared(ctx.universes, universe, k)
            && forall j :: 0 <= j < |ctx.universes[k].elements| ==>
                 ctx.universes[k].elements[j].name != condition)
  {
    var k := FindUniverse(ctx.universes, universe);
    if k < 0 then -1 else FindElementIndex(ctx.universes[k].elements, condition)
  }

  /** Resolving one antecedent: its universe through the map (last declaration),
      its condition through findConditionID (first declaration). */
  function ResolveAntecedent(ctx: Context, universe: string, condition: string): Resolved {
    Resolved(ResolveUniverse(ctx, universe), FindConditionId(ctx, universe, condition))
  }
}
