/** `buildRequirementTree` (planner.ts:382-562): expand a root item and a
    target amount into a requirement tree, scaling each recipe by the
    amount needed over its yield. Leaves (cut off by depth, without a
    recipe, or repeating an item of the path) are summed into the leaf
    item totals, fluid inputs into the fluid totals, and catalysts are
    combined by maximum. */
module TreeBuilder {
  import opened Wrappers
  import opened PackTypes
  import opened StackExtractor
  import opened PlannerCore

  /** A node of the tree; `nodeId` k stands for the text `n<k>`. An absent
      `cycleSeed` is `false`. */
  datatype Node =
    | ItemNode(nodeId: nat, itemKey: ItemKey, amount: real, recipeIdUsed: Option<string>,
               recipeTypeKeyUsed: Option<string>, machineItemId: Option<string>, machineName: Option<string>,
               children: seq<Node>, catalysts: seq<StackItem>, cycle: bool, cycleSeed: bool)
    | FluidNode(nodeId: nat, fluidId: string, amount: real, unit: Option<string>)

  /** The id counter, the three totals and the path (`visiting`,
      `stackHashes`, `stackKeys`). */
  datatype TreeState = TreeState(
    counter: nat,
    leafItems: map<string, real>,
    leafFluids: map<string, real>,
    catalysts: map<string, real>,
    visiting: set<string>,
    hashes: seq<string>,
    keys: seq<ItemKey>)

  /** `map.get(k) ?? 0`. */
  function Get0(m: map<string, real>, k: string): real {
    if k in m then m[k] else 0.0
  }

  function RMax(a: real, b: real): real {
    if a >= b then a else b
  }

  /** `addLeafItem` / `addLeafFluid`. */
  function AddAmount(m: map<string, real>, k: string, v: real): (r: map<string, real>)
    ensures forall x :: Get0(r, x) == Get0(m, x) + (if x == k then v else 0.0)
  {
    m[k := Get0(m, k) + v]
  }

  /** `addCatalyst`. */
  function MaxAmount(m: map<string, real>, k: string, v: real): (r: map<string, real>)
    ensures forall x :: Get0(r, x) == if x == k then RMax(Get0(m, x), v) else Get0(m, x)
  {
    m[k := RMax(Get0(m, k), v)]
  }

  ghost predicate NonNegative(m: map<string, real>) {
    forall k :: k in m ==> m[k] >= 0.0
  }

  /** `multiplier`: how many crafts give `amount`, or 0 for a recipe that
      yields nothing of the item. */
  function Multiplier(amount: real, perCraftYield: real): (m: real)
    ensures perCraftYield > 0.0 ==> m * perCraftYield == amount
    ensures perCraftYield <= 0.0 ==> m == 0.0
  {
    if perCraftYield > 0.0 then amount / perCraftYield else 0.0
  }

  /** The amount one input needs: its declared amount (0 when unparsable) times the multiplier. */
  function Needed(input: Stack, multiplier: real): real {
    Mul(FiniteOr(StackAmount(input), 0.0), multiplier)
  }

  /** `recipeType?.machine?.id` and `?.name`, when non-empty; an array of
      machines has neither. */
  function MachineInfo(rt: Option<RecipeTypeDef>): (Option<string>, Option<string>) {
    match rt
    case Some(t) =>
      (match t.machine
       case OneMachine(m) => (if Truthy(m.id) then m.id else None, if Truthy(m.name) then m.name else None)
       case _ => (None, None))
    case None => (None, None)
  }

  /** A childless item node that is not a cycle. */
  function PlainLeaf(id: nat, key: ItemKey, amount: real): Node {
    ItemNode(id, key, amount, None, None, None, None, [], [], false, false)
  }

  /** Nodes that count toward the leaf item totals. */
  predicate CountedLeaf(n: Node) {
    n.ItemNode? && (n.cycle || n.recipeIdUsed.None?)
  }

  /** Node ids in pre-order. */
  function Ids(n: Node): seq<nat>
    decreases n, 1
  {
    match n
    case FluidNode(id, _, _, _) => [id]
    case ItemNode(id, _, _, _, _, _, _, children, _, _, _) => [id] + IdsList(children)
  }

  function IdsList(ns: seq<Node>): seq<nat>
    decreases ns, 0
  {
    if |ns| == 0 then [] else Ids(ns[0]) + IdsList(ns[1..])
  }

  /** Sum of the amounts of the counted item leaves of item `id`. */
  function LeafItemSum(n: Node, id: string): real
    decreases n, 1
  {
    match n
    case FluidNode(_, _, _, _) => 0.0
    case ItemNode(_, key, amount, _, _, _, _, children, _, _, _) =>
      (if CountedLeaf(n) && key.id == id then amount else 0.0) + LeafItemSumList(children, id)
  }

  function LeafItemSumList(ns: seq<Node>, id: string): real
    decreases ns, 0
  {
    if |ns| == 0 then 0.0 else LeafItemSum(ns[0], id) + LeafItemSumList(ns[1..], id)
  }

  /** Sum of the amounts of the fluid nodes of fluid `id`. */
  function LeafFluidSum(n: Node, id: string): real
    decreases n, 1
  {
    match n
    case FluidNode(_, fid, amount, _) => if fid == id then amount else 0.0
    case ItemNode(_, _, _, _, _, _, _, children, _, _, _) => LeafFluidSumList(children, id)
  }

  function LeafFluidSumList(ns: seq<Node>, id: string): real
    decreases ns, 0
  {
    if |ns| == 0 then 0.0 else LeafFluidSum(ns[0], id) + LeafFluidSumList(ns[1..], id)
  }

  /** The largest amount among catalyst stacks of item `id` (0 when none). */
  function StacksPeak(cats: seq<StackItem>, id: string): (r: real)
    ensures r >= 0.0
  {
    if |cats| == 0 then 0.0
    else
      var last := cats[|cats| - 1];
      RMax(StacksPeak(cats[..|cats| - 1], id), if last.id == id then FiniteOr(last.amount, 0.0) else 0.0)
  }

  /** The largest catalyst amount of item `id` anywhere in the tree. */
  function CatalystPeak(n: Node, id: string): (r: real)
    ensures r >= 0.0
    decreases n, 1
  {
    match n
    case FluidNode(_, _, _, _) => 0.0
    case ItemNode(_, _, _, _, _, _, _, children, cats, _, _) => RMax(StacksPeak(cats, id), CatalystPeakList(children, id))
  }

  function CatalystPeakList(ns: seq<Node>, id: string): (r: real)
    ensures r >= 0.0
    decreases ns, 0
  {
    if |ns| == 0 then 0.0 else RMax(CatalystPeak(ns[0], id), CatalystPeakList(ns[1..], id))
  }

  /** Every node of the tree has a positive amount. */
  predicate Positive(n: Node)
    decreases n, 1
  {
    match n
    case FluidNode(_, _, amount, _) => amount > 0.0
    case ItemNode(_, _, amount, _, _, _, _, children, _, _, _) => amount > 0.0 && PositiveList(children)
  }

  predicate PositiveList(ns: seq<Node>)
    decreases ns, 0
  {
    |ns| == 0 || (Positive(ns[0]) && PositiveList(ns[1..]))
  }

  /** The ids `lo + 1 .. hi`, in order. */
  function Range(lo: nat, hi: nat): (r: seq<nat>)
    requires lo <= hi
    ensures |r| == hi - lo
    ensures forall k :: 0 <= k < |r| ==> r[k] == lo + 1 + k
  {
    seq(hi - lo, k requires 0 <= k < hi - lo => lo + 1 + k)
  }

  lemma RangeAppend(a: nat, b: nat, d: nat)
    requires a <= b <= d
    ensures Range(a, b) + Range(b, d) == Range(a, d)
  {
  }

  /** What the folds give for a childless item node. */

  /** Building node `n` took the state from `s` to `t`: the path is back
      as it was, `n`'s ids are the next ones, and each total grew by what
      `n` holds. */
  ghost predicate NodeStep(s: TreeState, n: Node, t: TreeState) {
    && t.visiting == s.visiting && t.hashes == s.hashes && t.keys == s.keys
    && s.counter < t.counter && Ids(n) == Range(s.counter, t.counter)
    && (forall x :: Get0(t.leafItems, x) == Get0(s.leafItems, x) + LeafItemSum(n, x))
    && (forall x :: Get0(t.leafFluids, x) == Get0(s.leafFluids, x) + LeafFluidSum(n, x))
    && (NonNegative(s.catalysts) ==>
         NonNegative(t.catalysts) && forall x :: Get0(t.catalysts, x) == RMax(Get0(s.catalysts, x), CatalystPeak(n, x)))
  }

  /** The same for a list of sibling nodes built one after the other. */
  ghost predicate ListStep(s: TreeState, ns: seq<Node>, t: TreeState) {
    && t.visiting == s.visiting && t.hashes == s.hashes && t.keys == s.keys
    && s.counter <= t.counter && IdsList(ns) == Range(s.counter, t.counter)
    && (forall x :: Get0(t.leafItems, x) == Get0(s.leafItems, x) + LeafItemSumList(ns, x))
    && (forall x :: Get0(t.leafFluids, x) == Get0(s.leafFluids, x) + LeafFluidSumList(ns, x))
    && (NonNegative(s.catalysts) ==>
         NonNegative(t.catalysts) && forall x :: Get0(t.catalysts, x) == RMax(Get0(s.catalysts, x), CatalystPeakList(ns, x)))
  }

  /** A childless item node made with the next id. */
  lemma ChildlessStep(s: TreeState, n: Node, t: TreeState)
    requires n.ItemNode? && n.children == [] && n.catalysts == [] && n.nodeId == s.counter + 1
    requires t == s.(counter := s.counter + 1, leafItems := AddAmount(s.leafItems, n.itemKey.id, n.amount))
    requires CountedLeaf(n)
    ensures NodeStep(s, n, t)
    ensures Positive(n) <==> n.amount > 0.0
  {
    assert Ids(n) == [s.counter + 1];
  }

  /** An item node with the next id, then its children. */
  lemma InnerStep(s: TreeState, m: TreeState, n: Node, t: TreeState)
    requires n.ItemNode? && !CountedLeaf(n) && n.nodeId == s.counter + 1 && m.counter == s.counter + 1
    requires m.leafItems == s.leafItems && m.leafFluids == s.leafFluids
    requires NonNegative(s.catalysts) ==>
      NonNegative(m.catalysts) && forall x :: Get0(m.catalysts, x) == RMax(Get0(s.catalysts, x), StacksPeak(n.catalysts, x))
    requires ListStep(m, n.children, t)
    requires t.visiting == s.visiting && t.hashes == s.hashes && t.keys == s.keys
    ensures NodeStep(s, n, t)
  {
    assert Ids(n) == [n.nodeId] + IdsList(n.children);
    assert [n.nodeId] == Range(s.counter, m.counter);
    RangeAppend(s.counter, m.counter, t.counter);
  }

  /** One more sibling in front of a list. */
  lemma ConsStep(s: TreeState, n: Node, m: TreeState, ns: seq<Node>, t: TreeState)
    requires NodeStep(s, n, m) && ListStep(m, ns, t)
    ensures ListStep(s, [n] + ns, t)
  {
    ConsFolds(n, ns);
    RangeAppend(s.counter, m.counter, t.counter);
    var l := [n] + ns;
    forall x ensures Get0(t.leafItems, x) == Get0(s.leafItems, x) + LeafItemSumList(l, x) {
      assert Get0(m.leafItems, x) == Get0(s.leafItems, x) + LeafItemSum(n, x);
    }
    forall x ensures Get0(t.leafFluids, x) == Get0(s.leafFluids, x) + LeafFluidSumList(l, x) {
      assert Get0(m.leafFluids, x) == Get0(s.leafFluids, x) + LeafFluidSum(n, x);
    }
    if NonNegative(s.catalysts) {
      forall x ensures Get0(t.catalysts, x) == RMax(Get0(s.catalysts, x), CatalystPeakList(l, x)) {
        assert Get0(m.catalysts, x) == RMax(Get0(s.catalysts, x), CatalystPeak(n, x));
      }
    }
  }

  /** The folds over a list with one more node in front. */
  lemma ConsFolds(n: Node, ns: seq<Node>)
    ensures IdsList([n] + ns) == Ids(n) + IdsList(ns)
    ensures forall x :: LeafItemSumList([n] + ns, x) == LeafItemSum(n, x) + LeafItemSumList(ns, x)
    ensures forall x :: LeafFluidSumList([n] + ns, x) == LeafFluidSum(n, x) + LeafFluidSumList(ns, x)
    ensures forall x :: CatalystPeakList([n] + ns, x) == RMax(CatalystPeak(n, x), CatalystPeakList(ns, x))
  {
    var l := [n] + ns;
    assert l[0] == n && l[1..] == ns;
  }

  /** `forEach(addCatalyst)` over a recipe's catalysts. */
  function AddCatalysts(m: map<string, real>, cats: seq<StackItem>): (r: map<string, real>)
    ensures NonNegative(m) ==> NonNegative(r)
    ensures NonNegative(m) ==> forall x :: Get0(r, x) == RMax(Get0(m, x), StacksPeak(cats, x))
  {
    if |cats| == 0 then m
    else
      var last := cats[|cats| - 1];
      MaxAmount(AddCatalysts(m, cats[..|cats| - 1]), last.id, FiniteOr(last.amount, 0.0))
  }

  /** How much of `key` one craft of the recipe chosen for `pred` consumes
      (0 when `pred` has no usable recipe). */
  function PredecessorInput(c: Ctx, sel: Selections, pred: ItemKey, key: ItemKey): real {
    match ChosenRecipe(c, sel.recipes, pred, true)
    case None => 0.0
    case Some(ch) => PerCraftInput(c.env.stringify, ch.recipe, ch.recipeType, key)
  }

  /** The leaf for an item already on the path. It is a seed exactly when
      the cycle from the item's first occurrence grows; a seed carries what
      one craft of the predecessor (the top of the path) consumes of the
      item, when that is positive; every other cycle leaf keeps `amount`. */
  function CycleLeaf(c: Ctx, sel: Selections, s: TreeState, key: ItemKey, amount: real, id: nat): (r: (Node, TreeState))
    requires |s.hashes| == |s.keys|
    ensures r.0.ItemNode? && r.0.cycle && r.0.children == [] && r.0.catalysts == [] && r.0.nodeId == id
    ensures r.1 == s.(leafItems := AddAmount(s.leafItems, key.id, r.0.amount))
    ensures amount > 0.0 ==> r.0.amount > 0.0
    ensures r.0.cycleSeed <==> LegalCycle(c, sel.recipes, CycleSegment(s.hashes, s.keys, Hash(c, key)), true)
    ensures !r.0.cycleSeed ==> r.0.amount == amount
    ensures r.0.cycleSeed ==> |s.keys| > 0
    ensures r.0.cycleSeed ==>
      var p := PredecessorInput(c, sel, s.keys[|s.keys| - 1], key);
      r.0.amount == if p > 0.0 then p else amount
  {
    var seg := CycleSegment(s.hashes, s.keys, Hash(c, key));
    var factor := match GrowthFactor(c, sel.recipes, seg, true) case Some(f) => f case None => 0.0;
    var growth := factor > LegalGrowth;
    var seed := if |seg| == 0 then 0.0 else PredecessorInput(c, sel, seg[|seg| - 1], key);
    var seedAmount := if growth && seed > 0.0 then seed else amount;
    var forNode := ChosenRecipe(c, sel.recipes, key, true);
    var recipeIdUsed := if forNode.Some? then Some(forNode.value.recipeId) else None;
    var typeKey := if forNode.Some? && forNode.value.recipe.recipeType != "" then Some(forNode.value.recipe.recipeType) else None;
    var machine := if forNode.Some? then MachineInfo(forNode.value.recipeType) else (None, None);
    (ItemNode(id, key, seedAmount, recipeIdUsed, typeKey, machine.0, machine.1, [], [], true, growth),
     s.(leafItems := AddAmount(s.leafItems, key.id, seedAmount)))
  }

  /** `buildForItem(key, amountNeeded, depth)`: the node and the state after it. */
  function BuildF(c: Ctx, sel: Selections, s: TreeState, key: ItemKey, amount: real, depth: int): (r: (Node, TreeState))
    requires |s.hashes| == |s.keys|
    ensures NodeStep(s, r.0, r.1)
    ensures r.0.ItemNode? && r.0.itemKey == key && r.0.nodeId == s.counter + 1
    ensures Hash(c, key) !in s.visiting ==> r.0.amount == amount && !r.0.cycle
    ensures !r.0.cycleSeed ==> r.0.amount == amount
    ensures amount > 0.0 ==> Positive(r.0)
    decreases Budget(c, depth), 2
  {
    var id := s.counter + 1;
    var s1 := s.(counter := id);
    if depth > c.maxDepth then
      var r := (PlainLeaf(id, key, amount), s1.(leafItems := AddAmount(s1.leafItems, key.id, amount)));
      ChildlessStep(s, r.0, r.1);
      r
    else if Hash(c, key) in s.visiting then
      var r := CycleLeaf(c, sel, s1, key, amount, id);
      ChildlessStep(s, r.0, r.1);
      r
    else
      match ChosenRecipe(c, sel.recipes, key, true)
      case None =>
        var r := (PlainLeaf(id, key, amount), s1.(leafItems := AddAmount(s1.leafItems, key.id, amount)));
        ChildlessStep(s, r.0, r.1);
        r
      case Some(ch) => Expand(c, sel, s, key, amount, depth, ch)
  }

  /** When `buildForItem` expands: past the depth limit, and within it for
      an item off the path with no usable recipe, the node is a childless
      leaf carrying the whole amount, added to the leaf totals; an item on
      the path becomes a cycle leaf; an item off the path with a chosen
      recipe is expanded with that recipe. */
  lemma BuildOutcomes(c: Ctx, sel: Selections, s: TreeState, key: ItemKey, amount: real, depth: int)
    requires |s.hashes| == |s.keys|
    ensures var r := BuildF(c, sel, s, key, amount, depth);
      var leaf := (PlainLeaf(s.counter + 1, key, amount),
                   s.(counter := s.counter + 1, leafItems := AddAmount(s.leafItems, key.id, amount)));
      && (depth > c.maxDepth ==> r == leaf)
      && (depth <= c.maxDepth && Hash(c, key) in s.visiting ==>
            r == CycleLeaf(c, sel, s.(counter := s.counter + 1), key, amount, s.counter + 1))
      && (depth <= c.maxDepth && Hash(c, key) !in s.visiting && ChosenRecipe(c, sel.recipes, key, true).None? ==>
            r == leaf)
      && (depth <= c.maxDepth && Hash(c, key) !in s.visiting && ChosenRecipe(c, sel.recipes, key, true).Some? ==>
            r == Expand(c, sel, s, key, amount, depth, ChosenRecipe(c, sel.recipes, key, true).value)
            && r.0.recipeIdUsed == Some(ChosenRecipe(c, sel.recipes, key, true).value.recipeId) && !r.0.cycle)
  {
  }

  /** The state the input loop of `buildForItem` starts from: the next id
      taken, `key` pushed on the path and the recipe's catalysts added. */
  function ChildrenStart(c: Ctx, s: TreeState, key: ItemKey, ch: Chosen): (r: TreeState)
    ensures r.hashes == s.hashes + [Hash(c, key)] && r.keys == s.keys + [key]
    ensures r.visiting == s.visiting + {Hash(c, key)} && r.counter == s.counter + 1
  {
    var h := Hash(c, key);
    s.(counter := s.counter + 1, visiting := s.visiting + {h}, hashes := s.hashes + [h], keys := s.keys + [key],
       catalysts := AddCatalysts(s.catalysts, RecipeStacks(ch.recipe, ch.recipeType).catalysts))
  }

  /** `buildForItem` once `key` has a recipe: push it on the path, add the
      catalysts, build the children of the scaled inputs, pop it again. */
  function Expand(c: Ctx, sel: Selections, s: TreeState, key: ItemKey, amount: real, depth: int, ch: Chosen)
    : (r: (Node, TreeState))
    requires |s.hashes| == |s.keys| && depth <= c.maxDepth && Hash(c, key) !in s.visiting
    ensures NodeStep(s, r.0, r.1)
    ensures r.0.ItemNode? && r.0.itemKey == key && r.0.nodeId == s.counter + 1 && !CountedLeaf(r.0)
    ensures r.0.amount == amount && !r.0.cycle && !r.0.cycleSeed
    ensures r.0.recipeIdUsed == Some(ch.recipeId) && r.0.catalysts == RecipeStacks(ch.recipe, ch.recipeType).catalysts
    ensures amount > 0.0 ==> Positive(r.0)
    decreases Budget(c, depth), 1
  {
    var id := s.counter + 1;
    var h := Hash(c, key);
    var multiplier := Multiplier(amount, PerCraftOutput(c.env.stringify, ch.recipe, ch.recipeType, key));
    var b := RecipeStacks(ch.recipe, ch.recipeType);
    var s3 := ChildrenStart(c, s, key, ch);
    var r := BuildInputsF(c, sel, s3, b.inputs, 0, multiplier, depth);
    var machine := MachineInfo(ch.recipeType);
    var node := ItemNode(id, key, amount, Some(ch.recipeId), Some(ch.recipe.recipeType), machine.0, machine.1,
                         r.0, b.catalysts, false, false);
    var t := r.1.(visiting := r.1.visiting - {h}, hashes := r.1.hashes[..|r.1.hashes| - 1],
                  keys := r.1.keys[..|r.1.keys| - 1]);
    assert (s3.visiting - {h}) == s.visiting;
    assert s3.hashes[..|s3.hashes| - 1] == s.hashes && s3.keys[..|s3.keys| - 1] == s.keys;
    assert ListStep(s3.(visiting := s.visiting, hashes := s.hashes, keys := s.keys), r.0, t);
    InnerStep(s, s3.(visiting := s.visiting, hashes := s.hashes, keys := s.keys), node, t);
    (node, t)
  }

  /** `Expand` step by step: given what its input loop returns from the
      state after the push and the catalysts, the node and the state after
      the pop. */
  lemma ExpandUnfolds(c: Ctx, sel: Selections, s: TreeState, key: ItemKey, amount: real, depth: int, ch: Chosen,
                      children: seq<Node>, t: TreeState)
    requires |s.hashes| == |s.keys| && depth <= c.maxDepth && Hash(c, key) !in s.visiting
    requires (children, t)
      == BuildInputsF(c, sel, ChildrenStart(c, s, key, ch), RecipeStacks(ch.recipe, ch.recipeType).inputs, 0,
                      Multiplier(amount, PerCraftOutput(c.env.stringify, ch.recipe, ch.recipeType, key)), depth)
    ensures var machine := MachineInfo(ch.recipeType);
      Expand(c, sel, s, key, amount, depth, ch)
      == (ItemNode(s.counter + 1, key, amount, Some(ch.recipeId), Some(ch.recipe.recipeType), machine.0, machine.1,
                   children, RecipeStacks(ch.recipe, ch.recipeType).catalysts, false, false),
          t.(visiting := t.visiting - {Hash(c, key)}, hashes := t.hashes[..|t.hashes| - 1], keys := t.keys[..|t.keys| - 1]))
  {
  }

  /** The item a tag input stands for: the selected member of the
      normalised tag, else its only member, else none (""). */
  function TagChoice(c: Ctx, sel: Selections, tagId: string): string {
    var n := NormalizeTag(c, tagId);
    var cands := TagMembers(c, n);
    if n in sel.tags then sel.tags[n] else if |cands| == 1 then cands[0] else ""
  }

  /** An input that gets no child: its scaled amount is not positive, or
      it is a tag with no chosen member. */
  predicate Skipped(c: Ctx, sel: Selections, input: Stack, multiplier: real) {
    Needed(input, multiplier) <= 0.0 || (input.TagStack? && TagChoice(c, sel, input.tagId) == "")
  }

  /** Node `n` answers `input` scaled by `multiplier`: a fluid input gives a
      node of that fluid and unit with the declared amount times the
      multiplier; an item input, or a tag input through its chosen member,
      gives a node of that item with that amount, unless the node is a
      cycle seed (whose amount `CycleLeaf` states). */
  predicate Meets(c: Ctx, sel: Selections, n: Node, input: Stack, multiplier: real) {
    match input
    case FluidStack(fid, _, unit) =>
      n.FluidNode? && n.fluidId == fid && n.unit == (if Truthy(unit) then unit else None)
      && n.amount == Needed(input, multiplier)
    case ItemStack(it) =>
      n.ItemNode? && n.itemKey == StackItemToKey(it) && (n.cycleSeed || n.amount == Needed(input, multiplier))
    case TagStack(t, _) =>
      n.ItemNode? && n.itemKey == ItemKey(TagChoice(c, sel, t), None, None)
      && (n.cycleSeed || n.amount == Needed(input, multiplier))
  }

  /** The child of one input (none when the input is skipped) and the
      state after it. */
  function InputStep(c: Ctx, sel: Selections, s: TreeState, input: Stack, multiplier: real, depth: int)
    : (r: (Option<Node>, TreeState))
    requires depth <= c.maxDepth && |s.hashes| == |s.keys|
    ensures r.0.None? <==> Skipped(c, sel, input, multiplier)
    ensures r.0.None? ==> r.1 == s
    ensures r.0.Some? ==> NodeStep(s, r.0.value, r.1) && Positive(r.0.value)
    ensures r.0.Some? ==> Meets(c, sel, r.0.value, input, multiplier)
    decreases Budget(c, depth), 0, 0, 1
  {
    var needed := Needed(input, multiplier);
    if needed <= 0.0 then (None, s)
    else
      match input
      case ItemStack(it) =>
        var b := BuildF(c, sel, s, StackItemToKey(it), needed, depth + 1);
        (Some(b.0), b.1)
      case TagStack(t, _) =>
        var chosen := TagChoice(c, sel, t);
        if chosen == "" then (None, s)
        else
          var b := BuildF(c, sel, s, ItemKey(chosen, None, None), needed, depth + 1);
          (Some(b.0), b.1)
      case FluidStack(fid, _, unit) =>
        var id := s.counter + 1;
        var node := FluidNode(id, fid, needed, if Truthy(unit) then unit else None);
        assert Ids(node) == Range(s.counter, id);
        (Some(node), s.(counter := id, leafFluids := AddAmount(s.leafFluids, fid, needed)))
  }

  /** The input loop of `buildForItem` from position `i`: the children it
      adds and the state after them. */
  function BuildInputsF(c: Ctx, sel: Selections, s: TreeState, inputs: seq<Stack>, i: nat, multiplier: real,
                        depth: int): (r: (seq<Node>, TreeState))
    requires depth <= c.maxDepth && |s.hashes| == |s.keys|
    ensures ListStep(s, r.0, r.1)
    ensures PositiveList(r.0)
    decreases Budget(c, depth), 0, |inputs| - i, 0
  {
    if i >= |inputs| then
      assert Range(s.counter, s.counter) == [];
      ([], s)
    else
      var step := InputStep(c, sel, s, inputs[i], multiplier, depth);
      var rest := BuildInputsF(c, sel, step.1, inputs, i + 1, multiplier, depth);
      match step.0
      case None => rest
      case Some(n) =>
        ConsStep(s, n, step.1, rest.0, rest.1);
        var l := [n] + rest.0;
        assert l[0] == n && l[1..] == rest.0;
        (l, rest.1)
  }

  lemma BuildInputsUnfold(c: Ctx, sel: Selections, s: TreeState, inputs: seq<Stack>, i: nat, multiplier: real, depth: int)
    requires depth <= c.maxDepth && |s.hashes| == |s.keys| && i < |inputs|
    ensures var step := InputStep(c, sel, s, inputs[i], multiplier, depth);
      var rest := BuildInputsF(c, sel, step.1, inputs, i + 1, multiplier, depth);
      BuildInputsF(c, sel, s, inputs, i, multiplier, depth)
        == if step.0.None? then rest else ([step.0.value] + rest.0, rest.1)
  {
  }

  /** The inputs from position `i` on that get a child, in order. */
  function Kept(c: Ctx, sel: Selections, inputs: seq<Stack>, i: nat, multiplier: real): seq<Stack>
    decreases |inputs| - i
  {
    if i >= |inputs| then []
    else (if Skipped(c, sel, inputs[i], multiplier) then [] else [inputs[i]]) + Kept(c, sel, inputs, i + 1, multiplier)
  }

  /** The kept inputs are exactly those that are not skipped. */
  lemma {:induction false} KeptMembers(c: Ctx, sel: Selections, inputs: seq<Stack>, i: nat, multiplier: real)
    requires i <= |inputs|
    ensures forall x :: x in Kept(c, sel, inputs, i, multiplier) <==> x in inputs[i..] && !Skipped(c, sel, x, multiplier)
    decreases |inputs| - i
  {
    if i < |inputs| {
      KeptMembers(c, sel, inputs, i + 1, multiplier);
      assert inputs[i..] == [inputs[i]] + inputs[i + 1..];
    }
  }

  /** The children are one node per kept input from position `i`, in
      order, each answering its input. */
  ghost predicate ChildrenMeet(c: Ctx, sel: Selections, children: seq<Node>, inputs: seq<Stack>, i: nat,
                               multiplier: real) {
    var kept := Kept(c, sel, inputs, i, multiplier);
    |children| == |kept| && forall k :: 0 <= k < |children| ==> Meets(c, sel, children[k], kept[k], multiplier)
  }

  /** Throughout the tree, an item node expanded with a recipe (not a
      cycle) has as children the answers to that recipe's kept inputs,
      scaled by `Multiplier(amount, per-craft output)`; every other item
      node has no children. */
  ghost predicate Scaled(c: Ctx, sel: Selections, n: Node)
    decreases n, 1
  {
    match n
    case FluidNode(_, _, _, _) => true
    case ItemNode(_, key, amount, rid, _, _, _, children, _, cycle, _) =>
      && (cycle || rid.None? ==> children == [])
      && (!cycle && rid.Some? ==>
            var ch := ChosenRecipe(c, sel.recipes, key, true);
            ch.Some? && ch.value.recipeId == rid.value
            && ChildrenMeet(c, sel, children, RecipeStacks(ch.value.recipe, ch.value.recipeType).inputs, 0,
                            Multiplier(amount, PerCraftOutput(c.env.stringify, ch.value.recipe, ch.value.recipeType, key))))
      && ScaledList(c, sel, children)
  }

  ghost predicate ScaledList(c: Ctx, sel: Selections, ns: seq<Node>)
    decreases ns, 0
  {
    forall k :: 0 <= k < |ns| ==> Scaled(c, sel, ns[k])
  }

  /** Every node `buildForItem` returns is scaled throughout. */
  lemma {:induction false} BuildScaled(c: Ctx, sel: Selections, s: TreeState, key: ItemKey, amount: real, depth: int)
    requires |s.hashes| == |s.keys|
    ensures Scaled(c, sel, BuildF(c, sel, s, key, amount, depth).0)
    decreases Budget(c, depth), 2
  {
    if depth <= c.maxDepth && Hash(c, key) !in s.visiting {
      match ChosenRecipe(c, sel.recipes, key, true)
      case None =>
      case Some(ch) => ExpandScaled(c, sel, s, key, amount, depth, ch);
    }
  }

  /** A node with a recipe: its children answer the recipe's inputs scaled
      by the amount over the recipe's per-craft output of the item. */
  lemma {:induction false} ExpandScaled(c: Ctx, sel: Selections, s: TreeState, key: ItemKey, amount: real, depth: int,
                                        ch: Chosen)
    requires |s.hashes| == |s.keys| && depth <= c.maxDepth && Hash(c, key) !in s.visiting
    requires ChosenRecipe(c, sel.recipes, key, true) == Some(ch)
    ensures var n := Expand(c, sel, s, key, amount, depth, ch).0;
      ChildrenMeet(c, sel, n.children, RecipeStacks(ch.recipe, ch.recipeType).inputs, 0,
                   Multiplier(amount, PerCraftOutput(c.env.stringify, ch.recipe, ch.recipeType, key)))
      && Scaled(c, sel, n)
    decreases Budget(c, depth), 1
  {
    var inputs := RecipeStacks(ch.recipe, ch.recipeType).inputs;
    var m := Multiplier(amount, PerCraftOutput(c.env.stringify, ch.recipe, ch.recipeType, key));
    var s3 := ChildrenStart(c, s, key, ch);
    var r := BuildInputsF(c, sel, s3, inputs, 0, m, depth);
    ExpandUnfolds(c, sel, s, key, amount, depth, ch, r.0, r.1);
    InputsScaled(c, sel, s3, inputs, 0, m, depth);
  }

  /** The children the input loop adds from position `i` answer the kept
      inputs from `i` on, and are scaled throughout. */
  lemma {:induction false} InputsScaled(c: Ctx, sel: Selections, s: TreeState, inputs: seq<Stack>, i: nat,
                                        multiplier: real, depth: int)
    requires depth <= c.maxDepth && |s.hashes| == |s.keys| && i <= |inputs|
    ensures var ns := BuildInputsF(c, sel, s, inputs, i, multiplier, depth).0;
      ChildrenMeet(c, sel, ns, inputs, i, multiplier) && ScaledList(c, sel, ns)
    decreases Budget(c, depth), 0, |inputs| - i, 1
  {
    if i < |inputs| {
      var step := InputStep(c, sel, s, inputs[i], multiplier, depth);
      var rest := BuildInputsF(c, sel, step.1, inputs, i + 1, multiplier, depth);
      InputScaled(c, sel, s, inputs[i], multiplier, depth);
      InputsScaled(c, sel, step.1, inputs, i + 1, multiplier, depth);
      BuildInputsUnfold(c, sel, s, inputs, i, multiplier, depth);
      if step.0.Some? {
        ChildrenMeetCons(c, sel, step.0.value, rest.0, inputs, i, multiplier);
      }
    }
  }

  /** One more answered, kept input in front of the children. */
  lemma ChildrenMeetCons(c: Ctx, sel: Selections, n: Node, ns: seq<Node>, inputs: seq<Stack>, i: nat, multiplier: real)
    requires i < |inputs| && !Skipped(c, sel, inputs[i], multiplier)
    requires Meets(c, sel, n, inputs[i], multiplier) && Scaled(c, sel, n)
    requires ChildrenMeet(c, sel, ns, inputs, i + 1, multiplier) && ScaledList(c, sel, ns)
    ensures ChildrenMeet(c, sel, [n] + ns, inputs, i, multiplier) && ScaledList(c, sel, [n] + ns)
  {
    var tail := Kept(c, sel, inputs, i + 1, multiplier);
    var l := [n] + ns;
    var kept := [inputs[i]] + tail;
    assert Kept(c, sel, inputs, i, multiplier) == kept;
    forall k | 0 <= k < |l|
      ensures Meets(c, sel, l[k], kept[k], multiplier) && Scaled(c, sel, l[k])
    {
      if k > 0 {
        assert l[k] == ns[k - 1] && kept[k] == tail[k - 1];
      }
    }
  }

  /** The child of one input is scaled throughout. */
  lemma {:induction false} InputScaled(c: Ctx, sel: Selections, s: TreeState, input: Stack, multiplier: real, depth: int)
    requires depth <= c.maxDepth && |s.hashes| == |s.keys|
    ensures var r := InputStep(c, sel, s, input, multiplier, depth);
      r.0.Some? ==> Scaled(c, sel, r.0.value)
    decreases Budget(c, depth), 0, 0, 2
  {
    var needed := Needed(input, multiplier);
    if needed > 0.0 {
      match input
      case ItemStack(it) =>
        BuildScaled(c, sel, s, StackItemToKey(it), needed, depth + 1);
      case TagStack(t, _) =>
        if TagChoice(c, sel, t) != "" {
          BuildScaled(c, sel, s, ItemKey(TagChoice(c, sel, t), None, None), needed, depth + 1);
        }
      case FluidStack(_, _, _) =>
    }
  }

  /** `buildRequirementTree`: the tree for `rootItemKey` and `targetAmount`
      (1 when not a finite number), with the three totals. The root carries
      the target, the node ids are `n1 .. nN` in pre-order, each total is
      the sum (or, for catalysts, the maximum) over the tree, and a positive
      target gives positive amounts throughout. */
  function RequirementTree(c: Ctx, sel: Selections, root: ItemKey, target: RawNumber): (r: (Node, TreeState))
    ensures r.0.ItemNode? && r.0.itemKey == root && !r.0.cycle && r.0.amount == FiniteOr(target, 1.0)
    ensures Ids(r.0) == Range(0, r.1.counter)
    ensures forall x :: Get0(r.1.leafItems, x) == LeafItemSum(r.0, x)
    ensures forall x :: Get0(r.1.leafFluids, x) == LeafFluidSum(r.0, x)
    ensures forall x :: Get0(r.1.catalysts, x) == CatalystPeak(r.0, x)
    ensures FiniteOr(target, 1.0) > 0.0 ==> Positive(r.0)
  {
    var s0 := TreeState(0, map[], map[], map[], {}, [], []);
    assert forall x :: Get0(s0.leafItems, x) == 0.0 && Get0(s0.catalysts, x) == 0.0;
    BuildF(c, sel, s0, root, FiniteOr(target, 1.0), 0)
  }

  /** The node ids of a built tree are pairwise distinct. */
  lemma TreeIdsDistinct(c: Ctx, sel: Selections, root: ItemKey, target: RawNumber)
    ensures var ids := Ids(RequirementTree(c, sel, root, target).0);
      forall a, b :: 0 <= a < b < |ids| ==> ids[a] < ids[b]
  {
  }

  /** In the whole requirement tree, each input of a recipe needs its
      declared amount times the amount over the recipe's yield. */
  lemma RequirementTreeScaled(c: Ctx, sel: Selections, root: ItemKey, target: RawNumber)
    ensures Scaled(c, sel, RequirementTree(c, sel, root, target).0)
  {
    BuildScaled(c, sel, TreeState(0, map[], map[], map[], {}, [], []), root, FiniteOr(target, 1.0), 0);
  }

  /** The root of the requirement tree is expanded with its chosen recipe
      when it has one and the depth limit is not negative, and its children
      then answer that recipe's inputs scaled to the target; otherwise it is
      a childless leaf carrying the target. */
  lemma RequirementTreeRoot(c: Ctx, sel: Selections, root: ItemKey, target: RawNumber)
    ensures var n := RequirementTree(c, sel, root, target).0;
      var chosen := ChosenRecipe(c, sel.recipes, root, true);
      && (0 <= c.maxDepth && chosen.Some? ==>
            var ch := chosen.value;
            && n.recipeIdUsed == Some(ch.recipeId)
            && ChildrenMeet(c, sel, n.children, RecipeStacks(ch.recipe, ch.recipeType).inputs, 0,
                            Multiplier(FiniteOr(target, 1.0), PerCraftOutput(c.env.stringify, ch.recipe, ch.recipeType, root))))
      && (0 > c.maxDepth || chosen.None? ==> n == PlainLeaf(1, root, FiniteOr(target, 1.0)))
  {
    var s0 := TreeState(0, map[], map[], map[], {}, [], []);
    BuildOutcomes(c, sel, s0, root, FiniteOr(target, 1.0), 0);
    RequirementTreeScaled(c, sel, root, target);
  }

  /** The closure state of one `buildRequirementTree` call. */
  class Builder {
    const c: Ctx
    const sel: Selections
    var counter: nat
    var leafItems: map<string, real>
    var leafFluids: map<string, real>
    var catalysts: map<string, real>
    var visiting: set<string>
    var hashes: seq<string>
    var keys: seq<ItemKey>

    function State(): TreeState
      reads this
    {
      TreeState(counter, leafItems, leafFluids, catalysts, visiting, hashes, keys)
    }

    constructor(c: Ctx, sel: Selections)
      ensures this.c == c && this.sel == sel
      ensures State() == TreeState(0, map[], map[], map[], {}, [], [])
    {
      this.c := c;
      this.sel := sel;
      counter := 0;
      leafItems, leafFluids, catalysts := map[], map[], map[];
      visiting, hashes, keys := {}, [], [];
    }

    method AddLeafItem(itemId: string, amount: real)
      modifies this
      ensures State() == old(State()).(leafItems := AddAmount(old(leafItems), itemId, amount))
    {
      var prev := if itemId in leafItems then leafItems[itemId] else 0.0;
      leafItems := leafItems[itemId := prev + amount];
    }

    method AddLeafFluid(fluidId: string, amount: real)
      modifies this
      ensures State() == old(State()).(leafFluids := AddAmount(old(leafFluids), fluidId, amount))
    {
      var prev := if fluidId in leafFluids then leafFluids[fluidId] else 0.0;
      leafFluids := leafFluids[fluidId := prev + amount];
    }

    method AddCatalyst(itemId: string, amount: real)
      modifies this
      ensures State() == old(State()).(catalysts := MaxAmount(old(catalysts), itemId, amount))
    {
      var prev := if itemId in catalysts then catalysts[itemId] else 0.0;
      catalysts := catalysts[itemId := if prev >= amount then prev else amount];
    }

    /** The leaf for an item already on the path. */
    method CycleNode(key: ItemKey, amount: real, id: nat) returns (node: Node)
      requires |hashes| == |keys|
      modifies this
      ensures (node, State()) == CycleLeaf(c, sel, old(State()), key, amount, id)
    {
      var seg := CycleSegment(hashes, keys, Hash(c, key));
      var valid, factor := ComputeGrowthFactor(c, sel.recipes, seg, true);
      if !valid {
        factor := 0.0;
      }
      var growth := factor > LegalGrowth;
      var seed := 0.0;
      if |seg| > 0 {
        var chosen := ChosenRecipe(c, sel.recipes, seg[|seg| - 1], true);
        if chosen.Some? {
          seed := PerCraftInputAmountFor(c.env.stringify, chosen.value.recipe, chosen.value.recipeType, key);
        }
      }
      var forNode := ChosenRecipe(c, sel.recipes, key, true);
      var seedAmount := if growth && seed > 0.0 then seed else amount;
      AddLeafItem(key.id, seedAmount);
      var recipeIdUsed := if forNode.Some? then Some(forNode.value.recipeId) else None;
      var typeKey := if forNode.Some? && forNode.value.recipe.recipeType != "" then Some(forNode.value.recipe.recipeType) else None;
      var machine := if forNode.Some? then MachineInfo(forNode.value.recipeType) else (None, None);
      node := ItemNode(id, key, seedAmount, recipeIdUsed, typeKey, machine.0, machine.1, [], [], true, growth);
    }

    /** `buildForItem`. The path push and pop around an item without a
        recipe leave the path as it was, so that case skips them. */
    method BuildForItem(key: ItemKey, amount: real, depth: int) returns (node: Node)
      requires |hashes| == |keys|
      modifies this
      ensures (node, State()) == BuildF(c, sel, old(State()), key, amount, depth)
      decreases Budget(c, depth), 2
    {
      counter := counter + 1;
      var id := counter;
      if depth > c.maxDepth {
        AddLeafItem(key.id, amount);
        return PlainLeaf(id, key, amount);
      }
      var h := Hash(c, key);
      if h in visiting {
        node := CycleNode(key, amount, id);
        return;
      }
      var chosen := ChosenRecipe(c, sel.recipes, key, true);
      if chosen.None? {
        AddLeafItem(key.id, amount);
        return PlainLeaf(id, key, amount);
      }
      node := ExpandItem(key, amount, depth, chosen.value, old(State()));
    }

    /** `buildForItem` for an item with a recipe; the node id was taken from
        `s`, the state before the call. */
    method ExpandItem(key: ItemKey, amount: real, depth: int, ch: Chosen, ghost s: TreeState) returns (node: Node)
      requires |s.hashes| == |s.keys| && depth <= c.maxDepth && Hash(c, key) !in s.visiting
      requires State() == s.(counter := s.counter + 1)
      modifies this
      ensures (node, State()) == Expand(c, sel, s, key, amount, depth, ch)
      decreases Budget(c, depth), 1
    {
      var id := counter;
      var h := Hash(c, key);
      var children, cats := ExpandChildren(key, amount, depth, ch, s);
      ghost var t := State();
      ExpandUnfolds(c, sel, s, key, amount, depth, ch, children, t);
      PopPath(h);
      var machine := MachineInfo(ch.recipeType);
      node := ItemNode(id, key, amount, Some(ch.recipeId), Some(ch.recipe.recipeType), machine.0, machine.1,
                       children, cats, false, false);
    }

    /** `visiting.add(h); stack.push(key)`. */
    method PushPath(h: string, key: ItemKey)
      modifies this
      ensures State() == old(State()).(visiting := old(visiting) + {h}, hashes := old(hashes) + [h],
                                       keys := old(keys) + [key])
    {
      visiting := visiting + {h};
      hashes := hashes + [h];
      keys := keys + [key];
    }

    /** `visiting.delete(h); stack.pop()`. */
    method PopPath(h: string)
      requires |hashes| > 0 && |keys| > 0
      modifies this
      ensures State() == old(State()).(visiting := old(visiting) - {h}, hashes := old(hashes)[..|old(hashes)| - 1],
                                       keys := old(keys)[..|old(keys)| - 1])
    {
      visiting := visiting - {h};
      hashes := hashes[..|hashes| - 1];
      keys := keys[..|keys| - 1];
    }

    /** The part of `buildForItem` between the push and the pop: the
        catalysts of the recipe, then the children of its scaled inputs. */
    method ExpandChildren(key: ItemKey, amount: real, depth: int, ch: Chosen, ghost s: TreeState)
      returns (children: seq<Node>, cats: seq<StackItem>)
      requires |s.hashes| == |s.keys| && depth <= c.maxDepth
      requires State() == s.(counter := s.counter + 1)
      modifies this
      ensures cats == RecipeStacks(ch.recipe, ch.recipeType).catalysts
      ensures (children, State())
        == BuildInputsF(c, sel, ChildrenStart(c, s, key, ch), RecipeStacks(ch.recipe, ch.recipeType).inputs, 0,
                        Multiplier(amount, PerCraftOutput(c.env.stringify, ch.recipe, ch.recipeType, key)), depth)
      decreases Budget(c, depth), 0, 2
    {
      PushPath(Hash(c, key), key);
      var perCraftYield := PerCraftOutputAmountFor(c.env.stringify, ch.recipe, ch.recipeType, key);
      var multiplier := if perCraftYield > 0.0 then amount / perCraftYield else 0.0;
      assert multiplier == Multiplier(amount, PerCraftOutput(c.env.stringify, ch.recipe, ch.recipeType, key));
      var inputs, outputs;
      inputs, outputs, cats := ExtractRecipeStacks(ch.recipe, ch.recipeType);
      AddRecipeCatalysts(cats);
      assert State() == ChildrenStart(c, s, key, ch);
      children := BuildInputs(inputs, multiplier, depth);
    }

    /** `recipeCatalysts.forEach(addCatalyst)`. */
    method AddRecipeCatalysts(cats: seq<StackItem>)
      modifies this
      ensures State() == old(State()).(catalysts := AddCatalysts(old(catalysts), cats))
    {
      for k := 0 to |cats|
        invariant State() == old(State()).(catalysts := AddCatalysts(old(catalysts), cats[..k]))
      {
        assert cats[..k + 1][..k] == cats[..k];
        AddCatalyst(cats[k].id, FiniteOr(cats[k].amount, 0.0));
      }
      assert cats[..|cats|] == cats;
    }

    /** One pass of the input loop of `buildForItem`. */
    method BuildInput(input: Stack, multiplier: real, depth: int) returns (child: Option<Node>)
      requires depth <= c.maxDepth && |hashes| == |keys|
      modifies this
      ensures (child, State()) == InputStep(c, sel, old(State()), input, multiplier, depth)
      decreases Budget(c, depth), 0, 0
    {
      var needed := FiniteOr(StackAmount(input), 0.0) * multiplier;
      assert needed == Needed(input, multiplier);
      if needed <= 0.0 {
        return None;
      }
      match input {
        case ItemStack(it) =>
          var node := BuildForItem(StackItemToKey(it), needed, depth + 1);
          child := Some(node);
        case TagStack(t, _) =>
          var n := NormalizeTag(c, t);
          var cands := TagMembers(c, n);
          var chosen := if n in sel.tags then sel.tags[n] else if |cands| == 1 then cands[0] else "";
          if chosen == "" {
            return None;
          }
          var node := BuildForItem(ItemKey(chosen, None, None), needed, depth + 1);
          child := Some(node);
        case FluidStack(fid, _, unit) =>
          AddLeafFluid(fid, needed);
          counter := counter + 1;
          child := Some(FluidNode(counter, fid, needed, if Truthy(unit) then unit else None));
      }
    }

    /** The input loop of `buildForItem`. */
    method BuildInputs(inputs: seq<Stack>, multiplier: real, depth: int) returns (children: seq<Node>)
      requires depth <= c.maxDepth && |hashes| == |keys|
      modifies this
      ensures (children, State()) == BuildInputsF(c, sel, old(State()), inputs, 0, multiplier, depth)
      decreases Budget(c, depth), 0, 1
    {
      ghost var goal := BuildInputsF(c, sel, State(), inputs, 0, multiplier, depth);
      children := [];
      for i := 0 to |inputs|
        invariant |hashes| == |keys|
        invariant children + BuildInputsF(c, sel, State(), inputs, i, multiplier, depth).0 == goal.0
        invariant BuildInputsF(c, sel, State(), inputs, i, multiplier, depth).1 == goal.1
      {
        BuildInputsUnfold(c, sel, State(), inputs, i, multiplier, depth);
        var child := BuildInput(inputs[i], multiplier, depth);
        if child.Some? {
          children := children + [child.value];
        }
      }
      ghost var done := BuildInputsF(c, sel, State(), inputs, |inputs|, multiplier, depth);
      assert done.0 == [] && done.1 == State();
      assert children + done.0 == children;
    }
  }

  /** `buildRequirementTree` over a fresh builder. */
  method BuildRequirementTree(c: Ctx, sel: Selections, root: ItemKey, target: RawNumber)
    returns (tree: Node, leafItemTotals: map<string, real>, leafFluidTotals: map<string, real>,
             catalystTotals: map<string, real>)
    ensures var r := RequirementTree(c, sel, root, target);
      tree == r.0 && leafItemTotals == r.1.leafItems && leafFluidTotals == r.1.leafFluids
      && catalystTotals == r.1.catalysts
  {
    var targetAmount := FiniteOr(target, 1.0);
    var b := new Builder(c, sel);
    tree := b.BuildForItem(root, targetAmount, 0);
    leafItemTotals, leafFluidTotals, catalystTotals := b.leafItems, b.leafFluids, b.catalysts;
  }
}
