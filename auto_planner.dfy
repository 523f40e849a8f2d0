/** `autoPlanSelections` (planner.ts:214-380): a depth-first search with
    backtracking that picks a recipe for every item and a member for every
    tag reachable from a root item. Every change to the two selection maps
    is logged with the value it replaced, so that a failed branch can be
    undone exactly by rolling the log back to a checkpoint. */
module AutoPlanner {
  import opened Wrappers
  import opened Strings
  import opened PackTypes
  import opened StackExtractor
  import opened PlannerCore
  import Sorting

  /** One logged change: the key it set and the value it replaced. */
  datatype Op =
    | RecipeOp(keyHash: string, prev: Option<string>)
    | TagOp(tagId: string, prevItem: Option<string>)

  /** Put back a replaced value, or delete the key when there was none. */
  function RestoreEntry(m: map<string, string>, k: string, prev: Option<string>): map<string, string> {
    match prev
    case None => m - {k}
    case Some(v) => m[k := v]
  }

  /** The two selection maps and the log of changes made to them. */
  datatype Journal = Journal(recipes: map<string, string>, tags: map<string, string>, ops: seq<Op>)
  {
    /** `setRecipe`. */
    function SetRecipe(keyHash: string, recipeId: string): Journal {
      Journal(recipes[keyHash := recipeId], tags, ops + [RecipeOp(keyHash, Get(recipes, keyHash))])
    }

    /** `setTag`. */
    function SetTag(tagId: string, itemId: string): Journal {
      Journal(recipes, tags[tagId := itemId], ops + [TagOp(tagId, Get(tags, tagId))])
    }

    /** Pop the last op and undo it. */
    function Undo(): Journal
      requires |ops| > 0
    {
      var rest := ops[..|ops| - 1];
      match ops[|ops| - 1]
      case RecipeOp(k, prev) => Journal(RestoreEntry(recipes, k, prev), tags, rest)
      case TagOp(k, prev) => Journal(recipes, RestoreEntry(tags, k, prev), rest)
    }

    /** `rollbackTo(checkpoint)`: undo ops until the log is no longer than the checkpoint. */
    function Rollback(checkpoint: nat): (r: Journal)
      ensures |r.ops| == if checkpoint < |ops| then checkpoint else |ops|
      ensures r.ops == ops[..|r.ops|]
      decreases |ops|
    {
      if |ops| <= checkpoint then this else Undo().Rollback(checkpoint)
    }
  }

  /** The journal and the path stack (`stackHashes`, `stackKeys`). */
  datatype PlanState = PlanState(journal: Journal, hashes: seq<string>, keys: seq<ItemKey>)

  /** `b` was reached from `a` by logged changes only: rolling `b` back to
      the length of `a`'s log gives `a` again, maps included. */
  ghost predicate Restores(a: Journal, b: Journal) {
    |a.ops| <= |b.ops| && b.Rollback(|a.ops|) == a
  }

  /** `b` keeps every non-empty recipe selection and every tag selection of `a`. */
  ghost predicate Respects(a: Journal, b: Journal) {
    && (forall x :: x in a.recipes && a.recipes[x] != "" ==> x in b.recipes && b.recipes[x] == a.recipes[x])
    && (forall t :: t in a.tags ==> t in b.tags && b.tags[t] == a.tags[t])
  }

  /** Undoing a `setRecipe` gives back the map it changed. */
  lemma SetRecipeRestores(j: Journal, keyHash: string, recipeId: string)
    ensures Restores(j, j.SetRecipe(keyHash, recipeId))
  {
    var s := j.SetRecipe(keyHash, recipeId);
    assert s.ops[..|s.ops| - 1] == j.ops;
    assert RestoreEntry(s.recipes, keyHash, Get(j.recipes, keyHash)) == j.recipes;
  }

  /** Undoing a `setTag` gives back the map it changed. */
  lemma SetTagRestores(j: Journal, tagId: string, itemId: string)
    ensures Restores(j, j.SetTag(tagId, itemId))
  {
    var s := j.SetTag(tagId, itemId);
    assert s.ops[..|s.ops| - 1] == j.ops;
    assert RestoreEntry(s.tags, tagId, Get(j.tags, tagId)) == j.tags;
  }

  /** Rolling back in two steps is rolling back once to the earlier checkpoint. */
  lemma {:induction false} RollbackCompose(j: Journal, m: nat, n: nat)
    requires n <= m
    ensures j.Rollback(m).Rollback(n) == j.Rollback(n)
    decreases |j.ops|
  {
    if |j.ops| > m {
      RollbackCompose(j.Undo(), m, n);
    }
  }

  lemma RestoresTransitive(a: Journal, b: Journal, c: Journal)
    requires Restores(a, b) && Restores(b, c)
    ensures Restores(a, c)
  {
    RollbackCompose(c, |b.ops|, |a.ops|);
  }

  /** Rolling back past the start of a branch that only logged changes
      lands where rolling back the start would. */
  lemma RollbackThrough(a: Journal, b: Journal, checkpoint: nat)
    requires Restores(a, b) && checkpoint <= |a.ops|
    ensures b.Rollback(checkpoint) == a.Rollback(checkpoint)
  {
    RollbackCompose(b, |a.ops|, checkpoint);
  }

  /** A change made through `setRecipe` or `setTag`. */
  datatype Change = ChangeRecipe(keyHash: string, recipeId: string) | ChangeTag(tagId: string, itemId: string)

  function Apply(j: Journal, changes: seq<Change>): Journal
    decreases |changes|
  {
    if |changes| == 0 then j
    else
      var k := Apply(j, changes[..|changes| - 1]);
      match changes[|changes| - 1]
      case ChangeRecipe(h, rid) => k.SetRecipe(h, rid)
      case ChangeTag(t, id) => k.SetTag(t, id)
  }

  /** Whatever changes were logged since a checkpoint, rolling back to it
      gives both selection maps exactly as they were. */
  lemma {:induction false} RollbackUndoesChanges(j: Journal, changes: seq<Change>)
    ensures |Apply(j, changes).ops| == |j.ops| + |changes|
    ensures Apply(j, changes).Rollback(|j.ops|) == j
    decreases |changes|
  {
    if |changes| > 0 {
      var front := changes[..|changes| - 1];
      var k := Apply(j, front);
      RollbackUndoesChanges(j, front);
      match changes[|changes| - 1]
      case ChangeRecipe(h, rid) =>
        SetRecipeRestores(k, h, rid);
        RestoresTransitive(j, k, k.SetRecipe(h, rid));
      case ChangeTag(t, id) =>
        SetTagRestores(k, t, id);
        RestoresTransitive(j, k, k.SetTag(t, id));
    }
  }

  /** Inputs of a recipe, or 9999 when the recipe is not in the index. */
  function InputCount(c: Ctx, rid: string): nat {
    if rid in c.index.recipesById then |InputsOf(c, c.index.recipesById[rid])| else 9999
  }

  /** The candidate order: fewer inputs first, then by recipe id. */
  predicate CostLe(c: Ctx, a: string, b: string) {
    InputCount(c, a) < InputCount(c, b) || (InputCount(c, a) == InputCount(c, b) && StrLe(a, b))
  }

  lemma CostLeIsTotalPreorder(c: Ctx)
    ensures Sorting.IsTotalPreorder((a, b) => CostLe(c, a, b))
  {
    forall a, b ensures CostLe(c, a, b) || CostLe(c, b, a) {
      StrLeTotal(a, b);
    }
    forall a, b, d | CostLe(c, a, b) && CostLe(c, b, d) ensures CostLe(c, a, d) {
      if InputCount(c, a) == InputCount(c, b) == InputCount(c, d) {
        StrLeTransitive(a, b, d);
      }
    }
  }

  /** The `options` ordered for trying, a permutation sorted by `CostLe`. */
  function SortCandidates(c: Ctx, options: seq<string>): (r: seq<string>)
    ensures |r| == |options| && multiset(r) == multiset(options)
  {
    Sorting.InsertionSort(options, (a, b) => CostLe(c, a, b))
  }

  /** The candidates come fewest inputs first, ties broken by id. */
  lemma SortCandidatesOrder(c: Ctx, options: seq<string>)
    ensures var r := SortCandidates(c, options);
      forall i, j :: 0 <= i < j < |r| ==> CostLe(c, r[i], r[j])
  {
    CostLeIsTotalPreorder(c);
    Sorting.InsertionSortSorted(options, (a, b) => CostLe(c, a, b));
  }

  /** `isLegalCycle(h)` on the current path and selections. */
  predicate IsLegal(c: Ctx, s: PlanState, h: string)
    requires |s.hashes| == |s.keys|
  {
    LegalCycle(c, s.journal.recipes, CycleSegment(s.hashes, s.keys, h), false)
  }

  /** `stackHashes.push(h); stackKeys.push(key)`. */
  function Push(s: PlanState, h: string, key: ItemKey): PlanState {
    PlanState(s.journal, s.hashes + [h], s.keys + [key])
  }

  /** `stackHashes.pop(); stackKeys.pop()`. */
  function Pop(s: PlanState): PlanState
    requires |s.hashes| > 0 && |s.keys| > 0
  {
    PlanState(s.journal, s.hashes[..|s.hashes| - 1], s.keys[..|s.keys| - 1])
  }

  /** The recipes chosen for the items on the path are left alone. */
  ghost predicate KeepsSelections(hashes: seq<string>, a: Journal, b: Journal) {
    forall x :: x in hashes ==> Get(b.recipes, x) == Get(a.recipes, x)
  }

  /** `planItem(key, depth)`: the result and the state it leaves. The path
      stack comes back as it was; the journal only grows by logged
      changes; a failure changes nothing; the selections of the items on
      the path and every selection made before the call are kept. */
  function PlanItemF(c: Ctx, s: PlanState, key: ItemKey, depth: int): (r: (bool, PlanState))
    requires |s.hashes| == |s.keys|
    ensures r.1.hashes == s.hashes && r.1.keys == s.keys
    ensures Restores(s.journal, r.1.journal)
    ensures !r.0 ==> r.1.journal == s.journal
    ensures KeepsSelections(s.hashes, s.journal, r.1.journal)
    ensures Respects(s.journal, r.1.journal)
    decreases Budget(c, depth), 3
  {
    if depth > c.maxDepth then (true, s)
    else
      var h := Hash(c, key);
      if h in s.hashes then (IsLegal(c, s, h), s)
      else if |Producers(c, key)| == 0 then (true, s)
      else PlanOnPathF(c, s, key, depth)
  }

  /** `planItem` for an item that is not on the path and has producers:
      push it, choose its recipe, pop it. */
  function PlanOnPathF(c: Ctx, s: PlanState, key: ItemKey, depth: int): (r: (bool, PlanState))
    requires |s.hashes| == |s.keys| && depth <= c.maxDepth
    requires Hash(c, key) !in s.hashes && |Producers(c, key)| > 0
    ensures r.1.hashes == s.hashes && r.1.keys == s.keys
    ensures Restores(s.journal, r.1.journal)
    ensures !r.0 ==> r.1.journal == s.journal
    ensures KeepsSelections(s.hashes, s.journal, r.1.journal)
    ensures Respects(s.journal, r.1.journal)
    decreases Budget(c, depth), 2, 2
  {
    var h := Hash(c, key);
    var t := ChooseRecipeF(c, Push(s, h, key), h, Producers(c, key), depth);
    assert Pop(t.1).hashes == s.hashes && Pop(t.1).keys == s.keys;
    (t.0, Pop(t.1))
  }

  /** The part of `planItem` between the push and the pop: the selected
      recipe, or else the candidates in `SortCandidates` order, with the
      first candidate set and at once rolled back when all of them fail.
      Only the item `h` may change its selection among the path items. */
  function ChooseRecipeF(c: Ctx, s: PlanState, h: string, options: seq<string>, depth: int): (r: (bool, PlanState))
    requires depth <= c.maxDepth && |s.hashes| == |s.keys| && h in s.hashes && |options| > 0
    ensures r.1.hashes == s.hashes && r.1.keys == s.keys
    ensures Restores(s.journal, r.1.journal)
    ensures !r.0 ==> r.1.journal == s.journal
    ensures forall x :: x in s.hashes && x != h ==> Get(r.1.journal.recipes, x) == Get(s.journal.recipes, x)
    ensures Respects(s.journal, r.1.journal)
    decreases Budget(c, depth), 2, 1
  {
    var chosen := Get(s.journal.recipes, h);
    if Truthy(chosen) then
      assert s.journal.SetRecipe(h, chosen.value).recipes == s.journal.recipes;
      UseRecipeF(c, s, h, chosen.value, depth)
    else
      var sorted := SortCandidates(c, options);
      var t := TryCandidatesF(c, s, h, sorted, 0, depth);
      if t.0 then t
      else
        SetRecipeRestores(t.1.journal, h, sorted[0]);
        (true, t.1.(journal := t.1.journal.SetRecipe(h, sorted[0]).Rollback(|t.1.journal.ops|)))
  }

  /** `useRecipe(recipeId)` for the item `h` on the path. */
  function UseRecipeF(c: Ctx, s: PlanState, h: string, recipeId: string, depth: int): (r: (bool, PlanState))
    requires depth <= c.maxDepth && |s.hashes| == |s.keys| && h in s.hashes
    ensures r.1.hashes == s.hashes && r.1.keys == s.keys
    ensures Restores(s.journal, r.1.journal)
    ensures !r.0 ==> r.1.journal == s.journal
    ensures r.0 ==> KeepsSelections(s.hashes, s.journal.SetRecipe(h, recipeId), r.1.journal)
    ensures r.0 ==> Respects(s.journal.SetRecipe(h, recipeId), r.1.journal)
    decreases Budget(c, depth), 1
  {
    var checkpoint := |s.journal.ops|;
    var withSet := s.(journal := s.journal.SetRecipe(h, recipeId));
    SetRecipeRestores(s.journal, h, recipeId);
    if recipeId !in c.index.recipesById then (false, s.(journal := withSet.journal.Rollback(checkpoint)))
    else
      var recipe := c.index.recipesById[recipeId];
      var r := PlanInputsF(c, withSet, InputsOf(c, recipe), 0, depth, checkpoint);
      if r.0 then RestoresTransitive(s.journal, withSet.journal, r.1.journal); r
      else r
  }

  /** The `for (const input of inputs)` loop of `useRecipe` from position
      `i`: a failure rolls back to the recipe's checkpoint. A tag input
      takes its selected member, else records its first sorted member. */
  function PlanInputsF(c: Ctx, s: PlanState, inputs: seq<Stack>, i: nat, depth: int, checkpoint: nat)
    : (r: (bool, PlanState))
    requires depth <= c.maxDepth && |s.hashes| == |s.keys| && checkpoint <= |s.journal.ops|
    ensures r.1.hashes == s.hashes && r.1.keys == s.keys
    ensures r.0 ==> Restores(s.journal, r.1.journal) && KeepsSelections(s.hashes, s.journal, r.1.journal)
    ensures r.0 ==> Respects(s.journal, r.1.journal)
    ensures !r.0 ==> r.1.journal == s.journal.Rollback(checkpoint)
    decreases Budget(c, depth), 0, |inputs| - i, 2
  {
    if i >= |inputs| then (true, s)
    else
      match inputs[i]
      case ItemStack(it) =>
        var p := PlanItemF(c, s, StackItemToKey(it), depth + 1);
        PlanInputsNext(c, s, p.1, p.0, inputs, i, depth, checkpoint)
      case TagStack(t, _) =>
        var n := NormalizeTag(c, t);
        var cands := SortedCandidates(c, n);
        if |cands| == 0 then PlanInputsF(c, s, inputs, i + 1, depth, checkpoint)
        else
          var chosen := if n in s.journal.tags then s.journal.tags[n] else cands[0];
          var tagged := if n in s.journal.tags then s else s.(journal := s.journal.SetTag(n, chosen));
          SetTagRestores(s.journal, n, chosen);
          var p := PlanItemF(c, tagged, ItemKey(chosen, None, None), depth + 1);
          RestoresTransitive(s.journal, tagged.journal, p.1.journal);
          PlanInputsNext(c, s, p.1, p.0, inputs, i, depth, checkpoint)
      case FluidStack(_, _, _) => PlanInputsF(c, s, inputs, i + 1, depth, checkpoint)
  }

  /** After input `i` was planned with result `ok` into state `t`: roll
      back on failure, else go on with input `i + 1`. */
  function PlanInputsNext(c: Ctx, s: PlanState, t: PlanState, ok: bool, inputs: seq<Stack>, i: nat, depth: int,
                          checkpoint: nat): (r: (bool, PlanState))
    requires depth <= c.maxDepth && |s.hashes| == |s.keys| && checkpoint <= |s.journal.ops| && i < |inputs|
    requires t.hashes == s.hashes && t.keys == s.keys
    requires Restores(s.journal, t.journal) && KeepsSelections(s.hashes, s.journal, t.journal)
    requires Respects(s.journal, t.journal)
    ensures r.1.hashes == s.hashes && r.1.keys == s.keys
    ensures r.0 ==> Restores(s.journal, r.1.journal) && KeepsSelections(s.hashes, s.journal, r.1.journal)
    ensures r.0 ==> Respects(s.journal, r.1.journal)
    ensures !r.0 ==> r.1.journal == s.journal.Rollback(checkpoint)
    decreases Budget(c, depth), 0, |inputs| - i, 1
  {
    RollbackThrough(s.journal, t.journal, checkpoint);
    if !ok then (false, t.(journal := t.journal.Rollback(checkpoint)))
    else
      var r := PlanInputsF(c, t, inputs, i + 1, depth, checkpoint);
      if r.0 then RestoresTransitive(s.journal, t.journal, r.1.journal); r
      else r
  }

  /** One pass of the input loop, unfolded: what `PlanInputsF` does with
      input `i` and where it goes on. */
  lemma PlanInputsUnfold(c: Ctx, s: PlanState, inputs: seq<Stack>, i: nat, depth: int, checkpoint: nat)
    requires depth <= c.maxDepth && |s.hashes| == |s.keys| && checkpoint <= |s.journal.ops| && i < |inputs|
    ensures inputs[i].FluidStack? ==>
      PlanInputsF(c, s, inputs, i, depth, checkpoint) == PlanInputsF(c, s, inputs, i + 1, depth, checkpoint)
    ensures inputs[i].ItemStack? ==>
      var p := PlanItemF(c, s, StackItemToKey(inputs[i].item), depth + 1);
      PlanInputsF(c, s, inputs, i, depth, checkpoint)
      == if p.0 then PlanInputsF(c, p.1, inputs, i + 1, depth, checkpoint)
         else (false, p.1.(journal := p.1.journal.Rollback(checkpoint)))
    ensures inputs[i].TagStack? && |SortedCandidates(c, NormalizeTag(c, inputs[i].tagId))| == 0 ==>
      PlanInputsF(c, s, inputs, i, depth, checkpoint) == PlanInputsF(c, s, inputs, i + 1, depth, checkpoint)
    ensures inputs[i].TagStack? && |SortedCandidates(c, NormalizeTag(c, inputs[i].tagId))| > 0 ==>
      var n := NormalizeTag(c, inputs[i].tagId);
      var chosen := if n in s.journal.tags then s.journal.tags[n] else SortedCandidates(c, n)[0];
      var tagged := if n in s.journal.tags then s else s.(journal := s.journal.SetTag(n, chosen));
      var p := PlanItemF(c, tagged, ItemKey(chosen, None, None), depth + 1);
      PlanInputsF(c, s, inputs, i, depth, checkpoint)
      == if p.0 then PlanInputsF(c, p.1, inputs, i + 1, depth, checkpoint)
         else (false, p.1.(journal := p.1.journal.Rollback(checkpoint)))
  {
  }

  /** The candidate loop of `planItem` from position `j`, for an item `h`
      without a selection: the first candidate whose recipe plans is kept;
      a failed one is rolled back. */
  function TryCandidatesF(c: Ctx, s: PlanState, h: string, sorted: seq<string>, j: nat, depth: int)
    : (r: (bool, PlanState))
    requires depth <= c.maxDepth && |s.hashes| == |s.keys| && h in s.hashes
    requires !Truthy(Get(s.journal.recipes, h))
    ensures r.1.hashes == s.hashes && r.1.keys == s.keys
    ensures Restores(s.journal, r.1.journal)
    ensures !r.0 ==> r.1.journal == s.journal
    ensures r.0 ==> forall x :: x in s.hashes && x != h ==> Get(r.1.journal.recipes, x) == Get(s.journal.recipes, x)
    ensures Respects(s.journal, r.1.journal)
    decreases Budget(c, depth), 2, 0, |sorted| - j
  {
    if j >= |sorted| then (false, s)
    else
      var checkpoint := |s.journal.ops|;
      var u := UseRecipeF(c, s, h, sorted[j], depth);
      if u.0 then (true, u.1)
      else TryCandidatesF(c, u.1.(journal := u.1.journal.Rollback(checkpoint)), h, sorted, j + 1, depth)
  }

  /** One pass of the candidate loop, unfolded. */
  lemma TryCandidatesUnfold(c: Ctx, s: PlanState, h: string, sorted: seq<string>, j: nat, depth: int)
    requires depth <= c.maxDepth && |s.hashes| == |s.keys| && h in s.hashes
    requires !Truthy(Get(s.journal.recipes, h))
    ensures j >= |sorted| ==> TryCandidatesF(c, s, h, sorted, j, depth) == (false, s)
    ensures j < |sorted| ==>
      var u := UseRecipeF(c, s, h, sorted[j], depth);
      TryCandidatesF(c, s, h, sorted, j, depth)
      == if u.0 then (true, u.1)
         else TryCandidatesF(c, u.1.(journal := u.1.journal.Rollback(|s.journal.ops|)), h, sorted, j + 1, depth)
  {
  }

  /** A failed attempt, rolled back, leaves the state as it was. */
  lemma FailedAttemptRestores(c: Ctx, s: PlanState, h: string, recipeId: string, depth: int)
    requires depth <= c.maxDepth && |s.hashes| == |s.keys| && h in s.hashes
    requires !UseRecipeF(c, s, h, recipeId, depth).0
    ensures var u := UseRecipeF(c, s, h, recipeId, depth);
      u.1.(journal := u.1.journal.Rollback(|s.journal.ops|)) == s
  {
  }

  /** Candidates are tried from the same state: a failed attempt leaves
      the state exactly as it was, so the loop succeeds iff some candidate
      plans, and then it returns what the first such candidate returns. */
  lemma {:induction false} TryCandidatesFirstSuccess(c: Ctx, s: PlanState, h: string, sorted: seq<string>, j: nat,
                                                     depth: int)
    requires depth <= c.maxDepth && |s.hashes| == |s.keys| && h in s.hashes
    requires !Truthy(Get(s.journal.recipes, h))
    ensures TryCandidatesF(c, s, h, sorted, j, depth).0 <==>
      exists k :: j <= k < |sorted| && UseRecipeF(c, s, h, sorted[k], depth).0
    ensures !TryCandidatesF(c, s, h, sorted, j, depth).0 ==> TryCandidatesF(c, s, h, sorted, j, depth).1 == s
    ensures forall k ::
      (j <= k < |sorted| && UseRecipeF(c, s, h, sorted[k], depth).0
       && (forall m :: j <= m < k ==> !UseRecipeF(c, s, h, sorted[m], depth).0))
      ==> TryCandidatesF(c, s, h, sorted, j, depth) == UseRecipeF(c, s, h, sorted[k], depth)
    decreases |sorted| - j
  {
    TryCandidatesUnfold(c, s, h, sorted, j, depth);
    var t := TryCandidatesF(c, s, h, sorted, j, depth);
    if j < |sorted| {
      var u := UseRecipeF(c, s, h, sorted[j], depth);
      if u.0 {
        assert t == u;
        forall k | j <= k < |sorted| && UseRecipeF(c, s, h, sorted[k], depth).0
                   && (forall m :: j <= m < k ==> !UseRecipeF(c, s, h, sorted[m], depth).0)
          ensures t == UseRecipeF(c, s, h, sorted[k], depth)
        {
          if k != j {
            assert false;
          }
        }
      } else {
        FailedAttemptRestores(c, s, h, sorted[j], depth);
        TryCandidatesFirstSuccess(c, s, h, sorted, j + 1, depth);
        assert t == TryCandidatesF(c, s, h, sorted, j + 1, depth);
        if t.0 {
          var k :| j + 1 <= k < |sorted| && UseRecipeF(c, s, h, sorted[k], depth).0;
          assert j <= k < |sorted|;
        } else {
          forall k | j <= k < |sorted| ensures !UseRecipeF(c, s, h, sorted[k], depth).0 {
            if k != j {
              assert j + 1 <= k < |sorted|;
            }
          }
        }
        forall k | j <= k < |sorted| && UseRecipeF(c, s, h, sorted[k], depth).0
                   && (forall m :: j <= m < k ==> !UseRecipeF(c, s, h, sorted[m], depth).0)
          ensures t == UseRecipeF(c, s, h, sorted[k], depth)
        {
          assert k != j;
          assert forall m :: j + 1 <= m < k ==> !UseRecipeF(c, s, h, sorted[m], depth).0;
        }
      }
    }
  }

  /** The early exits of `planItem`: past `maxDepth` and for an item
      without producers it succeeds and changes nothing; for an item
      already on the path it answers `isLegalCycle`. It fails only on an
      illegal cycle or when a selection made earlier does not plan. */
  lemma PlanItemOutcome(c: Ctx, s: PlanState, key: ItemKey, depth: int)
    requires |s.hashes| == |s.keys|
    ensures depth > c.maxDepth ==> PlanItemF(c, s, key, depth) == (true, s)
    ensures depth <= c.maxDepth && Hash(c, key) in s.hashes ==>
      PlanItemF(c, s, key, depth) == (IsLegal(c, s, Hash(c, key)), s)
    ensures depth <= c.maxDepth && Hash(c, key) !in s.hashes && |Producers(c, key)| == 0 ==>
      PlanItemF(c, s, key, depth) == (true, s)
    ensures !PlanItemF(c, s, key, depth).0 ==>
      (depth <= c.maxDepth &&
       ((Hash(c, key) in s.hashes && !IsLegal(c, s, Hash(c, key)))
        || (Hash(c, key) !in s.hashes && Truthy(Get(s.journal.recipes, Hash(c, key))))))
  {
    if depth <= c.maxDepth && Hash(c, key) !in s.hashes && |Producers(c, key)| > 0 {
      var h := Hash(c, key);
      var pushed := Push(s, h, key);
      assert PlanItemF(c, s, key, depth).0 == ChooseRecipeF(c, pushed, h, Producers(c, key), depth).0;
      assert Get(pushed.journal.recipes, h) == Get(s.journal.recipes, h);
    }
  }

  /** The search keeps the first candidate, in `SortCandidates` order,
      whose recipe plans: `planItem` succeeds and that recipe is selected. */
  lemma SearchKeepsFirstWorkingCandidate(c: Ctx, s: PlanState, key: ItemKey, depth: int, k: nat)
    requires |s.hashes| == |s.keys| && depth <= c.maxDepth
    requires Hash(c, key) !in s.hashes && |Producers(c, key)| > 0
    requires !Truthy(Get(s.journal.recipes, Hash(c, key)))
    requires k < |Producers(c, key)|
    requires UseRecipeF(c, Push(s, Hash(c, key), key), Hash(c, key), SortCandidates(c, Producers(c, key))[k], depth).0
    requires forall m :: 0 <= m < k ==>
      !UseRecipeF(c, Push(s, Hash(c, key), key), Hash(c, key), SortCandidates(c, Producers(c, key))[m], depth).0
    ensures PlanItemF(c, s, key, depth).0
    ensures Get(PlanItemF(c, s, key, depth).1.journal.recipes, Hash(c, key))
      == Some(SortCandidates(c, Producers(c, key))[k])
  {
    var h := Hash(c, key);
    var pushed := Push(s, h, key);
    var sorted := SortCandidates(c, Producers(c, key));
    TryCandidatesFirstSuccess(c, pushed, h, sorted, 0, depth);
    var u := UseRecipeF(c, pushed, h, sorted[k], depth);
    assert h in pushed.hashes;
    assert Get(u.1.journal.recipes, h) == Get(pushed.journal.SetRecipe(h, sorted[k]).recipes, h);
    assert ChooseRecipeF(c, pushed, h, Producers(c, key), depth) == u;
    assert PlanItemF(c, s, key, depth) == PlanOnPathF(c, s, key, depth) == (u.0, Pop(u.1));
  }

  /** When every producing recipe fails, the forced selection of the first
      candidate is set and at once rolled back: `planItem` reports success
      and leaves the state, and so the item's missing selection, as it was. */
  lemma AllCandidatesFailKeepsState(c: Ctx, s: PlanState, key: ItemKey, depth: int)
    requires |s.hashes| == |s.keys| && depth <= c.maxDepth
    requires Hash(c, key) !in s.hashes && |Producers(c, key)| > 0
    requires !Truthy(Get(s.journal.recipes, Hash(c, key)))
    requires forall rid :: rid in Producers(c, key) ==>
      !UseRecipeF(c, Push(s, Hash(c, key), key), Hash(c, key), rid, depth).0
    ensures PlanItemF(c, s, key, depth) == (true, s)
  {
    var h := Hash(c, key);
    var pushed := Push(s, h, key);
    var sorted := SortCandidates(c, Producers(c, key));
    forall k | 0 <= k < |sorted| ensures !UseRecipeF(c, pushed, h, sorted[k], depth).0 {
      assert sorted[k] in multiset(sorted);
    }
    TryCandidatesFirstSuccess(c, pushed, h, sorted, 0, depth);
    SetRecipeRestores(pushed.journal, h, sorted[0]);
    assert ChooseRecipeF(c, pushed, h, Producers(c, key), depth) == (true, pushed);
    assert PlanItemF(c, s, key, depth) == PlanOnPathF(c, s, key, depth) == (true, Pop(pushed));
    assert Pop(pushed) == s;
  }

  /** The search state of one `autoPlanSelections` call. */
  class Planner {
    const c: Ctx
    var recipes: map<string, string>
    var tags: map<string, string>
    var ops: seq<Op>
    var stackHashes: seq<string>
    var stackKeys: seq<ItemKey>

    function State(): PlanState
      reads this
    {
      PlanState(Journal(recipes, tags, ops), stackHashes, stackKeys)
    }

    constructor (c: Ctx)
      ensures this.c == c
      ensures State() == PlanState(Journal(map[], map[], []), [], [])
    {
      this.c := c;
      recipes := map[];
      tags := map[];
      ops := [];
      stackHashes := [];
      stackKeys := [];
    }

    method SetRecipe(keyHash: string, recipeId: string)
      modifies this
      ensures State() == old(State()).(journal := old(State()).journal.SetRecipe(keyHash, recipeId))
    {
      ops := ops + [RecipeOp(keyHash, Get(recipes, keyHash))];
      recipes := recipes[keyHash := recipeId];
    }

    method SetTag(tagId: string, itemId: string)
      modifies this
      ensures State() == old(State()).(journal := old(State()).journal.SetTag(tagId, itemId))
    {
      ops := ops + [TagOp(tagId, Get(tags, tagId))];
      tags := tags[tagId := itemId];
    }

    /** Pops ops until the log is no longer than `checkpoint`, undoing each. */
    method RollbackTo(checkpoint: nat)
      modifies this
      ensures State() == old(State()).(journal := old(State()).journal.Rollback(checkpoint))
    {
      while |ops| > checkpoint
        invariant Journal(recipes, tags, ops).Rollback(checkpoint) == old(State()).journal.Rollback(checkpoint)
        invariant stackHashes == old(stackHashes) && stackKeys == old(stackKeys)
        decreases |ops|
      {
        var op := ops[|ops| - 1];
        ops := ops[..|ops| - 1];
        match op {
          case RecipeOp(k, prev) =>
            if prev.None? {
              recipes := recipes - {k};
            } else {
              recipes := recipes[k := prev.value];
            }
          case TagOp(k, prev) =>
            if prev.None? {
              tags := tags - {k};
            } else {
              tags := tags[k := prev.value];
            }
        }
      }
    }

    /** `isLegalCycle(h)`: the growth factor of the path segment from the
      first occurrence of `h`, with the selected recipes. */
    method IsLegalCycle(h: string) returns (legal: bool)
      requires |stackHashes| == |stackKeys|
      ensures legal == IsLegal(c, State(), h)
    {
      var cycleStart := IndexOf(stackHashes, h);
      var cycleKeys := if cycleStart >= 0 then stackKeys[cycleStart..] else [];
      if |cycleKeys| == 0 {
        return false;
      }
      var valid, factor := ComputeGrowthFactor(c, recipes, cycleKeys, false);
      legal := valid && factor > LegalGrowth;
    }

    method PlanItem(key: ItemKey, depth: int) returns (ok: bool)
      requires |stackHashes| == |stackKeys|
      modifies this
      ensures (ok, State()) == PlanItemF(c, old(State()), key, depth)
      decreases Budget(c, depth), 3
    {
      if depth > c.maxDepth {
        return true;
      }
      var h := c.env.itemKeyHash(key);
      if h in stackHashes {
        ok := IsLegalCycle(h);
        return;
      }
      var options := c.env.recipesProducingItem(key);
      if |options| == 0 {
        return true;
      }
      ok := PlanOnPath(key, h, options, depth);
    }

    /** `planItem` between the push of `key` onto the path and its pop. */
    method PlanOnPath(key: ItemKey, h: string, options: seq<string>, depth: int) returns (ok: bool)
      requires |stackHashes| == |stackKeys| && depth <= c.maxDepth
      requires h == Hash(c, key) && h !in stackHashes && options == Producers(c, key) && |options| > 0
      modifies this
      ensures (ok, State()) == PlanOnPathF(c, old(State()), key, depth)
      decreases Budget(c, depth), 2, 2
    {
      PushPath(h, key);
      ok := ChooseRecipe(h, options, depth);
      PopPath();
    }

    /** `stackHashes.push(h); stackKeys.push(key)`. */
    method PushPath(h: string, key: ItemKey)
      modifies this
      ensures State() == Push(old(State()), h, key)
    {
      stackHashes := stackHashes + [h];
      stackKeys := stackKeys + [key];
    }

    /** `stackHashes.pop(); stackKeys.pop()`. */
    method PopPath()
      requires |stackHashes| > 0 && |stackKeys| > 0
      modifies this
      ensures State() == Pop(old(State()))
    {
      stackHashes := stackHashes[..|stackHashes| - 1];
      stackKeys := stackKeys[..|stackKeys| - 1];
    }

    method ChooseRecipe(h: string, options: seq<string>, depth: int) returns (ok: bool)
      requires depth <= c.maxDepth && |stackHashes| == |stackKeys| && h in stackHashes && |options| > 0
      modifies this
      ensures (ok, State()) == ChooseRecipeF(c, old(State()), h, options, depth)
      decreases Budget(c, depth), 2, 1
    {
      var chosen := Get(recipes, h);
      if chosen.Some? && chosen.value != "" {
        ok := UseRecipe(h, chosen.value, depth);
      } else {
        var sorted := SortCandidates(c, options);
        ok := TryCandidates(h, sorted, depth);
        if !ok {
          var checkpoint := |ops|;
          SetRecipe(h, sorted[0]);
          RollbackTo(checkpoint);
          ok := true;
        }
      }
    }

    /** The `for (const rid of sorted)` loop of `planItem`. */
    method TryCandidates(h: string, sorted: seq<string>, depth: int) returns (ok: bool)
      requires depth <= c.maxDepth && |stackHashes| == |stackKeys| && h in stackHashes
      requires !Truthy(Get(recipes, h))
      modifies this
      ensures (ok, State()) == TryCandidatesF(c, old(State()), h, sorted, 0, depth)
      decreases Budget(c, depth), 2, 0
    {
      ghost var s0 := State();
      ok := false;
      var j := 0;
      while j < |sorted|
        invariant 0 <= j <= |sorted|
        invariant State() == s0 && TryCandidatesF(c, s0, h, sorted, 0, depth) == TryCandidatesF(c, s0, h, sorted, j, depth)
      {
        ok := TryCandidate(h, sorted, j, depth, s0);
        if ok {
          break;
        }
        j := j + 1;
      }
      if !ok {
        TryCandidatesUnfold(c, s0, h, sorted, j, depth);
      }
    }

    /** One pass of the candidate loop: try `sorted[j]`, and roll back when it fails. */
    method TryCandidate(h: string, sorted: seq<string>, j: nat, depth: int, ghost s0: PlanState) returns (ok: bool)
      requires depth <= c.maxDepth && |stackHashes| == |stackKeys| && h in stackHashes && j < |sorted|
      requires State() == s0 && !Truthy(Get(recipes, h))
      modifies this
      ensures ok ==> (true, State()) == TryCandidatesF(c, s0, h, sorted, j, depth)
      ensures !ok ==> State() == s0 && TryCandidatesF(c, s0, h, sorted, j, depth) == TryCandidatesF(c, s0, h, sorted, j + 1, depth)
      decreases Budget(c, depth), 1, 1
    {
      TryCandidatesUnfold(c, s0, h, sorted, j, depth);
      var checkpoint := |ops|;
      ok := UseRecipe(h, sorted[j], depth);
      if !ok {
        RollbackTo(checkpoint);
        FailedAttemptRestores(c, s0, h, sorted[j], depth);
      }
    }

    method UseRecipe(h: string, recipeId: string, depth: int) returns (ok: bool)
      requires depth <= c.maxDepth && |stackHashes| == |stackKeys| && h in stackHashes
      modifies this
      ensures (ok, State()) == UseRecipeF(c, old(State()), h, recipeId, depth)
      decreases Budget(c, depth), 1, 0
    {
      var checkpoint := |ops|;
      SetRecipe(h, recipeId);
      if recipeId !in c.index.recipesById {
        RollbackTo(checkpoint);
        return false;
      }
      var recipe := c.index.recipesById[recipeId];
      var inputs, _, _ := ExtractRecipeStacks(recipe, TypeOf(c, recipe));
      ok := PlanInputs(inputs, depth, checkpoint);
    }

    /** The input loop of `useRecipe`. */
    method PlanInputs(inputs: seq<Stack>, depth: int, checkpoint: nat) returns (ok: bool)
      requires depth <= c.maxDepth && |stackHashes| == |stackKeys| && checkpoint <= |ops|
      modifies this
      ensures (ok, State()) == PlanInputsF(c, old(State()), inputs, 0, depth, checkpoint)
      decreases Budget(c, depth), 0, 1
    {
      ghost var s0 := State();
      var i := 0;
      while i < |inputs|
        invariant 0 <= i <= |inputs|
        invariant stackHashes == s0.hashes && stackKeys == s0.keys && checkpoint <= |ops|
        invariant PlanInputsF(c, s0, inputs, 0, depth, checkpoint) == PlanInputsF(c, State(), inputs, i, depth, checkpoint)
      {
        var planned := PlanInput(inputs, i, depth, checkpoint);
        if !planned {
          return false;
        }
        i := i + 1;
      }
      return true;
    }

    /** One pass of the input loop of `useRecipe`: on failure the log is
        rolled back to `checkpoint` and the loop's result is decided. */
    method PlanInput(inputs: seq<Stack>, i: nat, depth: int, checkpoint: nat) returns (ok: bool)
      requires depth <= c.maxDepth && |stackHashes| == |stackKeys| && checkpoint <= |ops| && i < |inputs|
      modifies this
      ensures stackHashes == old(stackHashes) && stackKeys == old(stackKeys)
      ensures ok ==> checkpoint <= |ops|
      ensures ok ==> PlanInputsF(c, old(State()), inputs, i, depth, checkpoint) == PlanInputsF(c, State(), inputs, i + 1, depth, checkpoint)
      ensures !ok ==> (false, State()) == PlanInputsF(c, old(State()), inputs, i, depth, checkpoint)
      decreases Budget(c, depth), 0, 0
    {
      ghost var s0 := State();
      PlanInputsUnfold(c, s0, inputs, i, depth, checkpoint);
      ok := true;
      match inputs[i] {
        case ItemStack(it) =>
          ok := PlanItem(StackItemToKey(it), depth + 1);
          if !ok {
            RollbackTo(checkpoint);
          }
        case TagStack(t, _) =>
          var normalized := c.env.normalizeTagId(t, c.defaultNs);
          var candidates := SortedCandidates(c, normalized);
          if |candidates| > 0 {
            var chosen := if normalized in tags then tags[normalized] else candidates[0];
            if normalized !in tags {
              SetTag(normalized, chosen);
            }
            ok := PlanItem(ItemKey(chosen, None, None), depth + 1);
            if !ok {
              RollbackTo(checkpoint);
            }
          }
        case FluidStack(_, _, _) =>
      }
    }
  }

  /** `autoPlanSelections`: plan from the root at depth 0 with empty
      selections and return the two maps. */
  method AutoPlanSelections(c: Ctx, root: ItemKey) returns (recipes: map<string, string>, tags: map<string, string>)
    ensures var r := PlanItemF(c, PlanState(Journal(map[], map[], []), [], []), root, 0);
      recipes == r.1.journal.recipes && tags == r.1.journal.tags
  {
    var p := new Planner(c);
    var _ := p.PlanItem(root, 0);
    recipes, tags := p.recipes, p.tags;
  }
}
