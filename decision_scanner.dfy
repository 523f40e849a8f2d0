/** `computePlannerDecisions` (planner.ts:139-212): walk the recipe graph
    from a root item and report every choice the user still has to make:
    an item with several producing recipes and no selection, or a tag with
    no members or several members and no selection. */
module DecisionScanner {
  import opened Wrappers
  import opened PackTypes
  import opened StackExtractor
  import opened PlannerCore

  datatype Decision =
    | ItemRecipe(itemKey: ItemKey, itemKeyHash: string, recipeOptions: seq<string>)
    | TagItem(tagId: string, candidateItemIds: seq<string>)

  /** The decisions `visitItem(key, depth)` appends when the hashes in
      `visiting` are on the current path. */
  function ScanItem(c: Ctx, sel: Selections, key: ItemKey, depth: int, visiting: set<string>): seq<Decision>
    decreases Budget(c, depth), 1
  {
    if depth > c.maxDepth then []
    else
      var h := Hash(c, key);
      if h in visiting then []
      else
        var options := Producers(c, key);
        if |options| > 1 && h !in sel.recipes then [ItemRecipe(key, h, options)]
        else
          match ChosenRecipe(c, sel.recipes, key, true)
          case None => []
          case Some(ch) => ScanInputs(c, sel, InputsOf(c, ch.recipe), 0, depth + 1, visiting + {h})
  }

  /** The decisions of the inputs from position `i` on, visited at `depth`. */
  function ScanInputs(c: Ctx, sel: Selections, inputs: seq<Stack>, i: nat, depth: int, visiting: set<string>)
    : seq<Decision>
    decreases Budget(c, depth) + 1, 0, |inputs| - i
  {
    if i >= |inputs| then []
    else ScanInput(c, sel, inputs[i], depth, visiting) + ScanInputs(c, sel, inputs, i + 1, depth, visiting)
  }

  /** The decisions of one input: an item is visited, a tag is resolved, a fluid is skipped. */
  function ScanInput(c: Ctx, sel: Selections, input: Stack, depth: int, visiting: set<string>): seq<Decision>
    decreases Budget(c, depth) + 1, 0, 0
  {
    match input
    case ItemStack(it) => ScanItem(c, sel, StackItemToKey(it), depth, visiting)
    case TagStack(t, _) => ScanTag(c, sel, t, depth, visiting)
    case FluidStack(_, _, _) => []
  }

  /** The decisions `visitTag(tag, depth)` appends. */
  function ScanTag(c: Ctx, sel: Selections, tagId: string, depth: int, visiting: set<string>): seq<Decision>
    decreases Budget(c, depth), 2
  {
    if depth > c.maxDepth then []
    else
      var n := NormalizeTag(c, tagId);
      var cands := SortedCandidates(c, n);
      if |cands| == 0 then [TagItem(n, [])]
      else if |cands| > 1 && n !in sel.tags then [TagItem(n, cands)]
      else
        var chosen := if n in sel.tags then sel.tags[n] else if |cands| == 1 then cands[0] else "";
        if chosen == "" then [] else ScanItem(c, sel, ItemKey(chosen, None, None), depth + 1, visiting)
  }

  /** What a reported decision promises: an item decision lists every
      producing recipe, of which there are several, and the item has no
      selection and is not on the current path; a tag decision lists the
      tag's members sorted, and they are either none or several with no
      selection. */
  ghost predicate WellFormed(c: Ctx, sel: Selections, visiting: set<string>, d: Decision) {
    match d
    case ItemRecipe(key, h, opts) =>
      h == Hash(c, key) && opts == Producers(c, key) && |opts| > 1 && h !in sel.recipes && h !in visiting
    case TagItem(t, cands) =>
      cands == SortedCandidates(c, t) && (cands == [] || (|cands| > 1 && t !in sel.tags))
  }

  ghost predicate AllWellFormed(c: Ctx, sel: Selections, visiting: set<string>, ds: seq<Decision>) {
    forall k :: 0 <= k < |ds| ==> WellFormed(c, sel, visiting, ds[k])
  }

  lemma AllWellFormedAppend(c: Ctx, sel: Selections, visiting: set<string>, a: seq<Decision>, b: seq<Decision>)
    requires AllWellFormed(c, sel, visiting, a) && AllWellFormed(c, sel, visiting, b)
    ensures AllWellFormed(c, sel, visiting, a + b)
  {
    forall k | 0 <= k < |a + b| ensures WellFormed(c, sel, visiting, (a + b)[k]) {
      if k >= |a| {
        assert (a + b)[k] == b[k - |a|];
      }
    }
  }

  /** A path that grows keeps every decision valid for the shorter path. */
  lemma AllWellFormedShrink(c: Ctx, sel: Selections, small: set<string>, big: set<string>, ds: seq<Decision>)
    requires small <= big
    requires AllWellFormed(c, sel, big, ds)
    ensures AllWellFormed(c, sel, small, ds)
  {
  }

  /** Every decision the walk reports is well formed. */
  lemma {:induction false} ScanItemWellFormed(c: Ctx, sel: Selections, key: ItemKey, depth: int, visiting: set<string>)
    ensures AllWellFormed(c, sel, visiting, ScanItem(c, sel, key, depth, visiting))
    decreases Budget(c, depth), 1
  {
    if depth <= c.maxDepth {
      var h := Hash(c, key);
      var options := Producers(c, key);
      if h !in visiting && !(|options| > 1 && h !in sel.recipes) {
        match ChosenRecipe(c, sel.recipes, key, true)
        case None =>
        case Some(ch) =>
          ScanInputsWellFormed(c, sel, InputsOf(c, ch.recipe), 0, depth + 1, visiting + {h});
          AllWellFormedShrink(c, sel, visiting, visiting + {h},
            ScanInputs(c, sel, InputsOf(c, ch.recipe), 0, depth + 1, visiting + {h}));
      }
    }
  }

  lemma {:induction false} ScanInputsWellFormed(c: Ctx, sel: Selections, inputs: seq<Stack>, i: nat, depth: int,
                                                visiting: set<string>)
    ensures AllWellFormed(c, sel, visiting, ScanInputs(c, sel, inputs, i, depth, visiting))
    decreases Budget(c, depth) + 1, 0, |inputs| - i
  {
    if i < |inputs| {
      var rest := ScanInputs(c, sel, inputs, i + 1, depth, visiting);
      ScanInputsWellFormed(c, sel, inputs, i + 1, depth, visiting);
      match inputs[i] {
        case ItemStack(it) => ScanItemWellFormed(c, sel, StackItemToKey(it), depth, visiting);
        case TagStack(t, _) => ScanTagWellFormed(c, sel, t, depth, visiting);
        case FluidStack(_, _, _) =>
      }
      AllWellFormedAppend(c, sel, visiting, ScanInput(c, sel, inputs[i], depth, visiting), rest);
    }
  }

  lemma {:induction false} ScanTagWellFormed(c: Ctx, sel: Selections, tagId: string, depth: int, visiting: set<string>)
    ensures AllWellFormed(c, sel, visiting, ScanTag(c, sel, tagId, depth, visiting))
    decreases Budget(c, depth), 2
  {
    if depth <= c.maxDepth {
      TagOutcomes(c, sel, tagId, depth, visiting);
      var n := NormalizeTag(c, tagId);
      var members := TagMembers(c, n);
      var r := ScanTag(c, sel, tagId, depth, visiting);
      if |members| == 0 || (|members| > 1 && n !in sel.tags) {
        assert r == [TagItem(n, SortedCandidates(c, n))];
        assert WellFormed(c, sel, visiting, r[0]);
      } else {
        var chosen := if n in sel.tags then sel.tags[n] else members[0];
        if chosen != "" {
          ScanItemWellFormed(c, sel, ItemKey(chosen, None, None), depth + 1, visiting);
        }
      }
    }
  }

  /** An unresolved item is reported on its own, without looking at any recipe. */
  lemma UnresolvedItemIsReported(c: Ctx, sel: Selections, key: ItemKey, depth: int, visiting: set<string>)
    requires 0 <= depth <= c.maxDepth
    requires Hash(c, key) !in visiting
    requires |Producers(c, key)| > 1 && Hash(c, key) !in sel.recipes
    ensures ScanItem(c, sel, key, depth, visiting) == [ItemRecipe(key, Hash(c, key), Producers(c, key))]
  {
  }

  /** The walk visits an item at most once per path: an item already on the
      path contributes nothing. */
  lemma RevisitedItemIsPruned(c: Ctx, sel: Selections, key: ItemKey, depth: int, visiting: set<string>)
    requires Hash(c, key) in visiting
    ensures ScanItem(c, sel, key, depth, visiting) == []
  {
  }

  /** A resolved item within the depth limit and off the path reports
      nothing itself: with no usable recipe the walk stops, and with its
      selected or only recipe the walk goes on into that recipe's inputs,
      one level deeper and with the item on the path. */
  lemma ResolvedItemDescends(c: Ctx, sel: Selections, key: ItemKey, depth: int, visiting: set<string>)
    requires depth <= c.maxDepth && Hash(c, key) !in visiting
    requires |Producers(c, key)| <= 1 || Hash(c, key) in sel.recipes
    ensures ChosenRecipe(c, sel.recipes, key, true).None? ==> ScanItem(c, sel, key, depth, visiting) == []
    ensures ChosenRecipe(c, sel.recipes, key, true).Some? ==>
      ScanItem(c, sel, key, depth, visiting)
      == ScanInputs(c, sel, InputsOf(c, ChosenRecipe(c, sel.recipes, key, true).value.recipe), 0, depth + 1,
                    visiting + {Hash(c, key)})
  {
  }

  /** Every input is visited, in order: the decisions of the inputs from
      `i` on are those of the inputs before `j`, then those from `j` on
      (which `ScanInputs` begins with input `j`'s). */
  lemma {:induction false} ScanInputsSplit(c: Ctx, sel: Selections, inputs: seq<Stack>, i: nat, j: nat, depth: int,
                                           visiting: set<string>)
    requires i <= j <= |inputs|
    ensures ScanInputs(c, sel, inputs, i, depth, visiting)
      == ScanInputs(c, sel, inputs[..j], i, depth, visiting) + ScanInputs(c, sel, inputs, j, depth, visiting)
    decreases j - i
  {
    if i < j {
      ScanInputsSplit(c, sel, inputs, i + 1, j, depth, visiting);
      assert inputs[..j][i] == inputs[i];
    }
  }

  /** Past the depth limit neither an item nor a tag reports anything. */
  lemma DepthCutOff(c: Ctx, sel: Selections, key: ItemKey, tagId: string, depth: int, visiting: set<string>)
    requires depth > c.maxDepth
    ensures ScanItem(c, sel, key, depth, visiting) == []
    ensures ScanTag(c, sel, tagId, depth, visiting) == []
  {
  }

  /** What a tag within the depth limit contributes, by its members: none
      gives one decision with no candidates; several with no selection give
      one decision listing them as `SortedCandidates` orders them (a
      sorted permutation), and the walk stops there; otherwise
      the walk goes on into the selected member, or else the only one
      (an empty id stops it). */
  lemma TagOutcomes(c: Ctx, sel: Selections, tagId: string, depth: int, visiting: set<string>)
    requires depth <= c.maxDepth
    ensures var n := NormalizeTag(c, tagId);
      TagMembers(c, n) == [] ==> ScanTag(c, sel, tagId, depth, visiting) == [TagItem(n, [])]
    ensures var n := NormalizeTag(c, tagId);
      var r := ScanTag(c, sel, tagId, depth, visiting);
      |TagMembers(c, n)| > 1 && n !in sel.tags ==>
        r == [TagItem(n, SortedCandidates(c, n))]
    ensures var n := NormalizeTag(c, tagId);
      |TagMembers(c, n)| > 0 && n in sel.tags ==>
        ScanTag(c, sel, tagId, depth, visiting)
          == if sel.tags[n] == "" then [] else ScanItem(c, sel, ItemKey(sel.tags[n], None, None), depth + 1, visiting)
    ensures var n := NormalizeTag(c, tagId);
      var only := TagMembers(c, n);
      |only| == 1 && n !in sel.tags ==>
        ScanTag(c, sel, tagId, depth, visiting)
          == if only[0] == "" then [] else ScanItem(c, sel, ItemKey(only[0], None, None), depth + 1, visiting)
    ensures var n := NormalizeTag(c, tagId);
      |TagMembers(c, n)| == 1 ==> SortedCandidates(c, n) == TagMembers(c, n)
  {
    var n := NormalizeTag(c, tagId);
    var members := TagMembers(c, n);
    if |members| == 1 {
      var cands := SortedCandidates(c, n);
      assert cands[0] in multiset(members);
    }
  }

  /** The mutable walk: the decision list and the set of item hashes on the
      current path. */
  class Scanner {
    const c: Ctx
    const sel: Selections
    var decisions: seq<Decision>
    var visiting: set<string>

    constructor (c: Ctx, sel: Selections)
      ensures this.c == c && this.sel == sel
      ensures decisions == [] && visiting == {}
    {
      this.c := c;
      this.sel := sel;
      decisions := [];
      visiting := {};
    }

    /** `visitItem`: appends the decisions below `key` and leaves the path as it was. */
    method VisitItem(key: ItemKey, depth: int)
      modifies this
      ensures visiting == old(visiting)
      ensures decisions == old(decisions) + ScanItem(c, sel, key, depth, old(visiting))
      decreases Budget(c, depth), 1
    {
      if depth > c.maxDepth {
        return;
      }
      var h := c.env.itemKeyHash(key);
      if h in visiting {
        return;
      }
      visiting := visiting + {h};
      var options := c.env.recipesProducingItem(key);
      if |options| > 1 && h !in sel.recipes {
        decisions := decisions + [ItemRecipe(key, h, options)];
        visiting := visiting - {h};
        return;
      }
      var chosenRecipeId := if h in sel.recipes then sel.recipes[h] else if |options| == 1 then options[0] else "";
      if chosenRecipeId == "" || chosenRecipeId !in c.index.recipesById {
        visiting := visiting - {h};
        return;
      }
      var recipe := c.index.recipesById[chosenRecipeId];
      var inputs, _, _ := ExtractRecipeStacks(recipe, TypeOf(c, recipe));
      VisitInputs(inputs, depth + 1);
      visiting := visiting - {h};
    }

    /** The `for (const input of inputs)` loop of `visitItem`. */
    method VisitInputs(inputs: seq<Stack>, depth: int)
      modifies this
      ensures visiting == old(visiting)
      ensures decisions == old(decisions) + ScanInputs(c, sel, inputs, 0, depth, old(visiting))
      decreases Budget(c, depth) + 1, 0, 1
    {
      ghost var v0 := visiting;
      ghost var d0 := decisions;
      for i := 0 to |inputs|
        invariant visiting == v0
        invariant d0 + ScanInputs(c, sel, inputs, 0, depth, v0) == decisions + ScanInputs(c, sel, inputs, i, depth, v0)
      {
        ghost var d := decisions;
        ghost var x, rest := ScanInput(c, sel, inputs[i], depth, v0), ScanInputs(c, sel, inputs, i + 1, depth, v0);
        assert ScanInputs(c, sel, inputs, i, depth, v0) == x + rest;
        VisitInput(inputs[i], depth);
        assert decisions == d + x;
        assert d + (x + rest) == decisions + rest;
      }
    }

    /** One pass of the input loop of `visitItem`. */
    method VisitInput(input: Stack, depth: int)
      modifies this
      ensures visiting == old(visiting)
      ensures decisions == old(decisions) + ScanInput(c, sel, input, depth, old(visiting))
      decreases Budget(c, depth) + 1, 0, 0
    {
      match input {
        case ItemStack(it) =>
          VisitItem(StackItemToKey(it), depth);
        case TagStack(t, _) =>
          VisitTag(t, depth);
        case FluidStack(_, _, _) =>
      }
    }

    /** `visitTag`: reports an empty or unselected tag, else visits the chosen member. */
    method VisitTag(tagId: string, depth: int)
      modifies this
      ensures visiting == old(visiting)
      ensures decisions == old(decisions) + ScanTag(c, sel, tagId, depth, old(visiting))
      decreases Budget(c, depth), 2
    {
      if depth <= c.maxDepth {
        TagOutcomes(c, sel, tagId, depth, visiting);
        var normalized := NormalizeTag(c, tagId);
        var candidates := SortedCandidates(c, normalized);
        if |candidates| == 0 {
          decisions := decisions + [TagItem(normalized, [])];
        } else if |candidates| > 1 && normalized !in sel.tags {
          decisions := decisions + [TagItem(normalized, candidates)];
        } else {
          var chosen := if normalized in sel.tags then sel.tags[normalized] else if |candidates| == 1 then candidates[0] else "";
          if chosen != "" {
            VisitItem(ItemKey(chosen, None, None), depth + 1);
          }
        }
      }
    }
  }

  /** `computePlannerDecisions`: the decisions of a walk from the root at depth 0. */
  method ComputePlannerDecisions(c: Ctx, sel: Selections, root: ItemKey) returns (ds: seq<Decision>)
    ensures ds == ScanItem(c, sel, root, 0, {})
  {
    var s := new Scanner(c, sel);
    s.VisitItem(root, 0);
    ds := s.decisions;
  }

  /** The decisions returned to the caller are all well formed. */
  lemma ComputedDecisionsWellFormed(c: Ctx, sel: Selections, root: ItemKey)
    ensures AllWellFormed(c, sel, {}, ScanItem(c, sel, root, 0, {}))
  {
    ScanItemWellFormed(c, sel, root, 0, {});
  }
}
