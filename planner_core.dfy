/** Definitions shared by the three planner algorithms of planner.ts: the
    collaborators, the depth budget, recipe choice, tag candidates and the
    cycle growth factor. */
module PlannerCore {
  import opened Wrappers
  import opened PackTypes
  import opened StackExtractor
  import Sorting

  /** Collaborators whose source is not part of this model, as
      uninterpreted total functions: `itemKeyHash`,
      `recipesProducingItem(index, key)`, `normalizeTagId` and
      `JSON.stringify` of item data. */
  datatype Env = Env(
    itemKeyHash: ItemKey -> string,
    recipesProducingItem: ItemKey -> seq<string>,
    normalizeTagId: (string, string) -> string,
    stringify: Nbt -> Option<string>)

  /** The parts of `JeiIndex` the planner reads. A tag's item set is given
      in its iteration order. */
  datatype Index = Index(
    recipesById: map<string, Recipe>,
    recipeTypesByKey: map<string, RecipeTypeDef>,
    itemIdsByTagId: map<string, seq<string>>)

  /** One planner call: collaborators, index, the pack's `gameId` (default
      tag namespace) and the depth limit, already resolved from
      `args.maxDepth ?? 20`. */
  datatype Ctx = Ctx(env: Env, index: Index, defaultNs: string, maxDepth: int)

  /** The two selection maps: item-key hash to recipe id, tag id to item id. */
  datatype Selections = Selections(recipes: map<string, string>, tags: map<string, string>)

  /** Recursion levels left before `depth > maxDepth` stops a walk. */
  function Budget(c: Ctx, depth: int): nat {
    if depth <= c.maxDepth then c.maxDepth - depth + 1 else 0
  }

  function Hash(c: Ctx, key: ItemKey): string {
    c.env.itemKeyHash(key)
  }

  function Producers(c: Ctx, key: ItemKey): seq<string> {
    c.env.recipesProducingItem(key)
  }

  function TypeOf(c: Ctx, recipe: Recipe): Option<RecipeTypeDef> {
    Get(c.index.recipeTypesByKey, recipe.recipeType)
  }

  function InputsOf(c: Ctx, recipe: Recipe): seq<Stack> {
    RecipeStacks(recipe, TypeOf(c, recipe)).inputs
  }

  function NormalizeTag(c: Ctx, tagId: string): string {
    c.env.normalizeTagId(tagId, c.defaultNs)
  }

  /** The item ids of a normalised tag, in set order (empty when unknown). */
  function TagMembers(c: Ctx, normalized: string): seq<string> {
    if normalized in c.index.itemIdsByTagId then c.index.itemIdsByTagId[normalized] else []
  }

  /** `Array.from(set.values()).sort()`. */
  function SortedCandidates(c: Ctx, normalized: string): (r: seq<string>)
    ensures |r| == |TagMembers(c, normalized)|
    ensures multiset(r) == multiset(TagMembers(c, normalized))
  {
    Sorting.SortStrings(TagMembers(c, normalized))
  }

  lemma SortedCandidatesSorted(c: Ctx, normalized: string)
    ensures Sorting.SortedBy(SortedCandidates(c, normalized), Strings.StrLe)
  {
    Sorting.SortStringsSorted(TagMembers(c, normalized));
  }

  datatype Chosen = Chosen(recipeId: string, recipe: Recipe, recipeType: Option<RecipeTypeDef>)

  /** `getChosenRecipe`: the selected recipe id (with `allowSole`, else the
      only producer); nothing when that id is empty or not in the index. */
  function ChosenRecipe(c: Ctx, recipes: map<string, string>, key: ItemKey, allowSole: bool): (r: Option<Chosen>)
    ensures r.Some? ==>
      (r.value.recipeId != "" && r.value.recipeId in c.index.recipesById
       && r.value.recipe == c.index.recipesById[r.value.recipeId])
  {
    var h := Hash(c, key);
    var options := Producers(c, key);
    var id := if h in recipes then recipes[h] else if allowSole && |options| == 1 then options[0] else "";
    if id == "" || id !in c.index.recipesById then None
    else
      var recipe := c.index.recipesById[id];
      Some(Chosen(id, recipe, TypeOf(c, recipe)))
  }

  /** `indexOf`: the first position of `x`, or -1. */
  function IndexOf(s: seq<string>, x: string): (r: int)
    ensures -1 <= r < |s|
    ensures r >= 0 ==> s[r] == x && x !in s[..r]
    ensures r == -1 <==> x !in s
  {
    if |s| == 0 then -1
    else if s[0] == x then 0
    else
      var r := IndexOf(s[1..], x);
      assert s == [s[0]] + s[1..];
      if r < 0 then -1
      else
        assert s[..r + 1] == [s[0]] + s[1..][..r];
        r + 1
  }

  /** The path segment from the first occurrence of `h` to the top of the stack. */
  function CycleSegment(hashes: seq<string>, keys: seq<ItemKey>, h: string): (seg: seq<ItemKey>)
    requires |hashes| == |keys|
    ensures h in hashes <==> |seg| > 0
    ensures |seg| > 0 ==> seg[|seg| - 1] == keys[|keys| - 1]
  {
    var start := IndexOf(hashes, h);
    if start >= 0 then keys[start..] else []
  }

  /** out/in of one step of a cycle, when the step has a recipe and both
      amounts are positive. The last key wraps to the first. */
  function StepRatio(c: Ctx, recipes: map<string, string>, seg: seq<ItemKey>, i: nat, allowSole: bool): Option<real>
    requires i < |seg|
  {
    var from := seg[i];
    var to := if i + 1 < |seg| then seg[i + 1] else seg[0];
    match ChosenRecipe(c, recipes, from, allowSole)
    case None => None
    case Some(ch) =>
      var out := PerCraftOutput(c.env.stringify, ch.recipe, ch.recipeType, from);
      var inp := PerCraftInput(c.env.stringify, ch.recipe, ch.recipeType, to);
      if out <= 0.0 || inp <= 0.0 then None else Some(out / inp)
  }

  predicate StepsValid(c: Ctx, recipes: map<string, string>, seg: seq<ItemKey>, n: nat, allowSole: bool)
    requires n <= |seg|
  {
    forall i :: 0 <= i < n ==> StepRatio(c, recipes, seg, i, allowSole).Some?
  }

  /** Real multiplication, named so that the product below is related to
      the loop's running factor by congruence rather than by arithmetic. */
  function Mul(a: real, b: real): real {
    a * b
  }

  /** Product of the first `n` step ratios. */
  function ProductUpTo(c: Ctx, recipes: map<string, string>, seg: seq<ItemKey>, n: nat, allowSole: bool): real
    requires n <= |seg|
    requires StepsValid(c, recipes, seg, n, allowSole)
  {
    if n == 0 then 1.0
    else Mul(ProductUpTo(c, recipes, seg, n - 1, allowSole), StepRatio(c, recipes, seg, n - 1, allowSole).value)
  }

  /** The cycle growth factor: present when the segment is non-empty and every step is valid. */
  function GrowthFactor(c: Ctx, recipes: map<string, string>, seg: seq<ItemKey>, allowSole: bool): Option<real> {
    if |seg| > 0 && StepsValid(c, recipes, seg, |seg|, allowSole)
    then Some(ProductUpTo(c, recipes, seg, |seg|, allowSole))
    else None
  }

  /** A cycle is legal when it grows by more than this factor per loop. */
  const LegalGrowth: real := 1.000001

  predicate LegalCycle(c: Ctx, recipes: map<string, string>, seg: seq<ItemKey>, allowSole: bool) {
    var g := GrowthFactor(c, recipes, seg, allowSole);
    g.Some? && g.value > LegalGrowth
  }

  /** One step of the loop below: the recipe of `seg[i]` and the two per-craft amounts. */
  method ComputeStepRatio(c: Ctx, recipes: map<string, string>, seg: seq<ItemKey>, i: nat, allowSole: bool)
    returns (r: Option<real>)
    requires i < |seg|
    ensures r == StepRatio(c, recipes, seg, i, allowSole)
  {
    var fromKey := seg[i];
    var toKey := if i + 1 < |seg| then seg[i + 1] else seg[0];
    var chosen := ChosenRecipe(c, recipes, fromKey, allowSole);
    if chosen.None? {
      return None;
    }
    var out := PerCraftOutputAmountFor(c.env.stringify, chosen.value.recipe, chosen.value.recipeType, fromKey);
    var inp := PerCraftInputAmountFor(c.env.stringify, chosen.value.recipe, chosen.value.recipeType, toKey);
    if out <= 0.0 || inp <= 0.0 {
      return None;
    }
    r := Some(out / inp);
  }

  /** The loop of `isLegalCycle` and of the tree builder's `cycleFactor`:
      multiply the step ratios, giving up at the first invalid step. */
  method ComputeGrowthFactor(c: Ctx, recipes: map<string, string>, seg: seq<ItemKey>, allowSole: bool)
    returns (valid: bool, factor: real)
    ensures GrowthFactor(c, recipes, seg, allowSole) == if valid then Some(factor) else None
  {
    if |seg| == 0 {
      return false, 0.0;
    }
    factor := 1.0;
    var i := 0;
    while i < |seg|
      invariant 0 <= i <= |seg|
      invariant StepsValid(c, recipes, seg, i, allowSole)
      invariant factor == ProductUpTo(c, recipes, seg, i, allowSole)
    {
      var ok;
      ok, factor := GrowthStep(c, recipes, seg, i, allowSole, factor);
      if !ok {
        return false, 0.0;
      }
      i := i + 1;
    }
    valid := true;
  }

  /** One pass of the loop above: the running factor times the step's ratio, or failure. */
  method GrowthStep(c: Ctx, recipes: map<string, string>, seg: seq<ItemKey>, i: nat, allowSole: bool, factor: real)
    returns (ok: bool, next: real)
    requires i < |seg| && StepsValid(c, recipes, seg, i, allowSole)
    requires factor == ProductUpTo(c, recipes, seg, i, allowSole)
    ensures ok <==> StepsValid(c, recipes, seg, i + 1, allowSole)
    ensures ok ==> next == ProductUpTo(c, recipes, seg, i + 1, allowSole)
    ensures !ok ==> GrowthFactor(c, recipes, seg, allowSole) == None
  {
    var ratio := ComputeStepRatio(c, recipes, seg, i, allowSole);
    StepsValidNext(c, recipes, seg, i, allowSole);
    if ratio.None? {
      return false, 0.0;
    }
    return true, Mul(factor, ratio.value);
  }

  /** One more valid step extends the valid prefix; an invalid step makes the whole cycle invalid. */
  lemma StepsValidNext(c: Ctx, recipes: map<string, string>, seg: seq<ItemKey>, i: nat, allowSole: bool)
    requires i < |seg|
    ensures StepsValid(c, recipes, seg, i + 1, allowSole)
            <==> StepsValid(c, recipes, seg, i, allowSole) && StepRatio(c, recipes, seg, i, allowSole).Some?
    ensures StepRatio(c, recipes, seg, i, allowSole).None? ==> GrowthFactor(c, recipes, seg, allowSole) == None
  {
  }
}
