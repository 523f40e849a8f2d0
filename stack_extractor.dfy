/** Stack extraction (planner.ts:51-137): classify every slot of a recipe
    as input, output or catalyst, and sum the per-craft amount of one item
    key over a bucket. */
module StackExtractor {
  import opened Wrappers
  import opened Strings
  import opened PackTypes

  /** `JSON.stringify` of structured item data; `None` when it throws. */
  type Stringify = Nbt -> Option<string>

  /** `asArray`: a single stack is a one-element list. */
  function AsArray(c: SlotContent): seq<Stack> {
    match c
    case OneStack(s) => [s]
    case StackList(ss) => ss
  }

  /** Role of a slot the recipe type does not declare: an output when its
      lower-cased id starts with `out` or mentions `output`, else an input;
      never a catalyst. */
  function SlotIoFallback(slotId: string): (io: SlotIo)
    ensures io != Catalyst
  {
    var id := ToLower(slotId);
    if StartsWith(id, "out") || Contains(id, "output") then Output else Input
  }

  /** Which undeclared slots count as outputs: those whose lower-cased id
      starts with `out` or contains `output`, whatever the case of the
      original id. */
  lemma SlotIoFallbackOutputs(slotId: string)
    ensures SlotIoFallback(slotId) == Output <==> StartsWith(ToLower(slotId), "out") || Contains(ToLower(slotId), "output")
    ensures SlotIoFallback(ToLower(slotId)) == SlotIoFallback(slotId)
  {
    ToLowerIdempotent(slotId);
  }

  /** `collectSlotDefsById`: a later declaration of the same slot id wins;
      every entry found is a declared slot with that id. */
  function SlotDefsById(slots: seq<SlotDef>): (m: map<string, SlotDef>)
    ensures forall k :: k in m ==> m[k].slotId == k && m[k] in slots
    ensures |slots| > 0 ==> slots[|slots| - 1].slotId in m && m[slots[|slots| - 1].slotId] == slots[|slots| - 1]
  {
    if |slots| == 0 then map[]
    else
      var last := slots[|slots| - 1];
      var m := SlotDefsById(slots[..|slots| - 1]);
      assert forall d :: d in slots[..|slots| - 1] ==> d in slots;
      m[last.slotId := last]
  }

  /** Slot `i` is the last declaration of its id. */
  predicate LastWithId(slots: seq<SlotDef>, i: nat)
    requires i < |slots|
  {
    forall j :: i < j < |slots| ==> slots[j].slotId != slots[i].slotId
  }

  /** Every declared slot id is a key, and it maps to the last slot
      declared with that id. */
  lemma SlotDefsByIdLastWins(slots: seq<SlotDef>)
    ensures forall i :: 0 <= i < |slots| ==> slots[i].slotId in SlotDefsById(slots)
    ensures forall i :: 0 <= i < |slots| && LastWithId(slots, i) ==> SlotDefsById(slots)[slots[i].slotId] == slots[i]
  {
    forall i | 0 <= i < |slots|
      ensures slots[i].slotId in SlotDefsById(slots)
      ensures LastWithId(slots, i) ==> SlotDefsById(slots)[slots[i].slotId] == slots[i]
    {
      SlotDefsByIdAt(slots, i);
    }
  }

  /** The same for one slot. */
  lemma {:induction false} SlotDefsByIdAt(slots: seq<SlotDef>, i: nat)
    requires i < |slots|
    ensures slots[i].slotId in SlotDefsById(slots)
    ensures LastWithId(slots, i) ==> SlotDefsById(slots)[slots[i].slotId] == slots[i]
    decreases |slots|
  {
    var n := |slots| - 1;
    if i < n {
      FrontLast(slots, i);
      SlotDefsByIdAt(slots[..n], i);
    }
  }

  /** Slot `i` of the list without its last slot: the same slot, and the
      last of its id there when it is the last of its id in the list. */
  lemma FrontLast(slots: seq<SlotDef>, i: nat)
    requires i < |slots| - 1
    ensures slots[..|slots| - 1][i] == slots[i]
    ensures LastWithId(slots, i) ==> LastWithId(slots[..|slots| - 1], i) && slots[|slots| - 1].slotId != slots[i].slotId
  {
  }

  /** A slot the recipe type declares takes the role of its last
      declaration, so a declared catalyst slot yields catalysts. */
  lemma DeclaredSlotRole(t: RecipeTypeDef, i: nat)
    requires i < |t.slots| && LastWithId(t.slots, i)
    ensures SlotRole(DefsOf(Some(t)), t.slots[i].slotId) == t.slots[i].io
  {
    SlotDefsByIdLastWins(t.slots);
  }

  function DefsOf(rt: Option<RecipeTypeDef>): map<string, SlotDef> {
    match rt
    case Some(t) => SlotDefsById(t.slots)
    case None => map[]
  }

  /** `def?.io ?? slotIoFallback(slotId)`. */
  function SlotRole(defs: map<string, SlotDef>, slotId: string): SlotIo {
    if slotId in defs then defs[slotId].io else SlotIoFallback(slotId)
  }

  /** The item-kind stacks of a list, in order. */
  function ItemsOnly(stacks: seq<Stack>): (r: seq<StackItem>)
    ensures forall x :: x in r <==> ItemStack(x) in stacks
  {
    if |stacks| == 0 then []
    else
      assert stacks == stacks[..|stacks| - 1] + [stacks[|stacks| - 1]];
      ItemsOnly(stacks[..|stacks| - 1])
        + (if stacks[|stacks| - 1].ItemStack? then [stacks[|stacks| - 1].item] else [])
  }

  datatype Buckets = Buckets(inputs: seq<Stack>, outputs: seq<Stack>, catalysts: seq<StackItem>)

  /** The buckets after the slots in `entries`, visited in order. */
  function BucketsOf(defs: map<string, SlotDef>, entries: seq<(string, SlotContent)>): Buckets
    decreases |entries|
  {
    if |entries| == 0 then Buckets([], [], [])
    else
      var b := BucketsOf(defs, entries[..|entries| - 1]);
      var e := entries[|entries| - 1];
      var stacks := AsArray(e.1);
      match SlotRole(defs, e.0)
      case Output => b.(outputs := b.outputs + stacks)
      case Catalyst => b.(catalysts := b.catalysts + ItemsOnly(stacks))
      case Input => b.(inputs := b.inputs + stacks)
  }

  /** `extractRecipeStacks(recipe, recipeType)` as a value. */
  function RecipeStacks(recipe: Recipe, rt: Option<RecipeTypeDef>): Buckets {
    BucketsOf(DefsOf(rt), recipe.slotContents)
  }

  /** Where each slot's stacks go: a stack is an output exactly when some
      slot of role output holds it, and likewise for inputs; a catalyst is
      an item stack of a catalyst slot. */
  lemma {:induction false} BucketsMembership(defs: map<string, SlotDef>, entries: seq<(string, SlotContent)>)
    ensures forall x :: x in BucketsOf(defs, entries).outputs <==>
      exists k :: 0 <= k < |entries| && SlotRole(defs, entries[k].0) == Output && x in AsArray(entries[k].1)
    ensures forall x :: x in BucketsOf(defs, entries).inputs <==>
      exists k :: 0 <= k < |entries| && SlotRole(defs, entries[k].0) == Input && x in AsArray(entries[k].1)
    ensures forall x :: x in BucketsOf(defs, entries).catalysts <==>
      exists k :: 0 <= k < |entries| && SlotRole(defs, entries[k].0) == Catalyst && ItemStack(x) in AsArray(entries[k].1)
    decreases |entries|
  {
    if |entries| > 0 {
      var n := |entries| - 1;
      var front := entries[..n];
      BucketsMembership(defs, front);
      assert forall k :: 0 <= k < n ==> front[k] == entries[k];
    }
  }

  /** A slot the recipe type does not declare never yields catalysts. */
  lemma UndeclaredSlotsAreNotCatalysts(defs: map<string, SlotDef>, slotId: string)
    requires slotId !in defs
    ensures SlotRole(defs, slotId) != Catalyst
  {
  }

  /** `stackItemToKey`. */
  function StackItemToKey(s: StackItem): ItemKey {
    ItemKey(s.id, s.meta, s.nbt)
  }

  /** `stackMatchesKey`: ids equal, meta equal when the key has one, and the
      serialised data equal when the key has some (a failing serialisation
      is a mismatch). */
  predicate StackMatchesKey(stringify: Stringify, s: StackItem, key: ItemKey) {
    && s.id == key.id
    && (key.meta.None? || s.meta == key.meta)
    && (key.nbt.None? ||
        (s.nbt.Some? && stringify(s.nbt.value).Some? && stringify(s.nbt.value) == stringify(key.nbt.value)))
  }

  /** A stack matches the key made from it, except when its own data cannot
      be serialised. */
  lemma StackMatchesOwnKey(stringify: Stringify, s: StackItem)
    ensures StackMatchesKey(stringify, s, StackItemToKey(s)) <==> (s.nbt.None? || stringify(s.nbt.value).Some?)
  {
  }

  /** A key without meta or data is matched by every stack with its id. */
  lemma BareKeyMatchesById(stringify: Stringify, s: StackItem, id: string)
    ensures StackMatchesKey(stringify, s, ItemKey(id, None, None)) <==> s.id == id
  {
  }

  /** Contribution of one stack to a per-craft amount. */
  function MatchAmount(stringify: Stringify, s: Stack, key: ItemKey): real {
    if s.ItemStack? && StackMatchesKey(stringify, s.item, key) then FiniteOr(s.item.amount, 0.0) else 0.0
  }

  /** Sum of the amounts of the matching item stacks. */
  function SumMatching(stringify: Stringify, stacks: seq<Stack>, key: ItemKey): real
    decreases |stacks|
  {
    if |stacks| == 0 then 0.0
    else SumMatching(stringify, stacks[..|stacks| - 1], key) + MatchAmount(stringify, stacks[|stacks| - 1], key)
  }

  /** Amounts of several stacks of the same item add up. */
  lemma {:induction false} SumMatchingAppend(stringify: Stringify, a: seq<Stack>, b: seq<Stack>, key: ItemKey)
    ensures SumMatching(stringify, a + b, key) == SumMatching(stringify, a, key) + SumMatching(stringify, b, key)
    decreases |b|
  {
    if |b| > 0 {
      var n := |b| - 1;
      assert (a + b)[..|a + b| - 1] == a + b[..n];
      SumMatchingAppend(stringify, a, b[..n], key);
    } else {
      assert a + b == a;
    }
  }

  /** Stacks that do not match the key contribute nothing. */
  lemma {:induction false} SumMatchingNoMatch(stringify: Stringify, stacks: seq<Stack>, key: ItemKey)
    requires forall k :: 0 <= k < |stacks| ==> !(stacks[k].ItemStack? && StackMatchesKey(stringify, stacks[k].item, key))
    ensures SumMatching(stringify, stacks, key) == 0.0
    decreases |stacks|
  {
    if |stacks| > 0 {
      SumMatchingNoMatch(stringify, stacks[..|stacks| - 1], key);
    }
  }

  function PerCraftOutput(stringify: Stringify, recipe: Recipe, rt: Option<RecipeTypeDef>, key: ItemKey): real {
    SumMatching(stringify, RecipeStacks(recipe, rt).outputs, key)
  }

  function PerCraftInput(stringify: Stringify, recipe: Recipe, rt: Option<RecipeTypeDef>, key: ItemKey): real {
    SumMatching(stringify, RecipeStacks(recipe, rt).inputs, key)
  }

  /** `extractRecipeStacks`: pushes each slot's stacks into its bucket. */
  method ExtractRecipeStacks(recipe: Recipe, rt: Option<RecipeTypeDef>)
    returns (inputs: seq<Stack>, outputs: seq<Stack>, catalysts: seq<StackItem>)
    ensures Buckets(inputs, outputs, catalysts) == RecipeStacks(recipe, rt)
  {
    var defs := DefsOf(rt);
    inputs, outputs, catalysts := [], [], [];
    var entries := recipe.slotContents;
    for i := 0 to |entries|
      invariant Buckets(inputs, outputs, catalysts) == BucketsOf(defs, entries[..i])
    {
      assert entries[..i + 1][..i] == entries[..i];
      var (slotId, content) := entries[i];
      var io := SlotRole(defs, slotId);
      var stacks := AsArray(content);
      if io == Output {
        outputs := outputs + stacks;
      } else if io == Catalyst {
        catalysts := catalysts + ItemsOnly(stacks);
      } else {
        inputs := inputs + stacks;
      }
    }
    assert entries[..|entries|] == entries;
  }

  method SumMatchingLoop(stringify: Stringify, stacks: seq<Stack>, key: ItemKey) returns (total: real)
    ensures total == SumMatching(stringify, stacks, key)
  {
    total := 0.0;
    for i := 0 to |stacks|
      invariant total == SumMatching(stringify, stacks[..i], key)
    {
      assert stacks[..i + 1][..i] == stacks[..i];
      var s := stacks[i];
      if !s.ItemStack? { continue; }
      if !StackMatchesKey(stringify, s.item, key) { continue; }
      total := total + FiniteOr(s.item.amount, 0.0);
    }
    assert stacks[..|stacks|] == stacks;
  }

  /** `perCraftOutputAmountFor`. */
  method PerCraftOutputAmountFor(stringify: Stringify, recipe: Recipe, rt: Option<RecipeTypeDef>, key: ItemKey)
    returns (total: real)
    ensures total == PerCraftOutput(stringify, recipe, rt, key)
  {
    var _, outputs, _ := ExtractRecipeStacks(recipe, rt);
    total := SumMatchingLoop(stringify, outputs, key);
  }

  /** `perCraftInputAmountFor`. */
  method PerCraftInputAmountFor(stringify: Stringify, recipe: Recipe, rt: Option<RecipeTypeDef>, key: ItemKey)
    returns (total: real)
    ensures total == PerCraftInput(stringify, recipe, rt, key)
  {
    var inputs, _, _ := ExtractRecipeStacks(recipe, rt);
    total := SumMatchingLoop(stringify, inputs, key);
  }
}
