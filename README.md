# jei-web core, modelled in Dafny

jei-web is a browser recipe viewer ("Just Enough Items" for the web). It loads
a *pack* of items, recipe types, recipes and tags, and it offers a crafting
planner. This project models the parts of it that carry the logic:

- **Planner** (`planner.ts`). The model covers:
  - how a recipe's slots are split into inputs, outputs and catalysts, and how per-craft amounts are summed;
  - the decision scan that lists the items and tags still needing a choice;
  - the automatic planner: a depth-first search with an undo log, rollback and a cycle-growth test;
  - the requirement-tree builder, with its node counter and its leaf, fluid and catalyst totals.
- **Asset URLs** (`collectAssetUrls.ts`): icon URLs are collected into a set, filtered to the pack's base path and sorted.
- **Pack loader helpers** (`loader.ts`):
  - the pack base URL;
  - the item-key hash;
  - merging a recipe's inline items into the item list;
  - parsing `local:` selectors;
  - rewriting asset URLs to object URLs;
  - the zip asset filter.
- **AEF pack generator** (`generate-aef-pack.mjs`):
  - slot-grid layout;
  - per-category maximum slot counts;
  - recipe types sorted by display name;
  - recipe slot numbering;
  - tag grouping.
- **Circuit-puzzle sharing** (`url-share-options.ts`, `url-format-share.ts`): choosing the shortest URL encoding, and decoding with fallback.
- **Editor and pack-library stores** (`editor.ts`, `packManager.ts`): list bookkeeping, and the stored index of saved packs.

How the model is written:

- Code that changes state step by step is a class or a method with loops.
- Each such method is proved equal to a specification function. The lemmas are proved about that function.
- Collaborators whose code is not part of this model are parameters or fields of function type:
  - `itemKeyHash` and `recipesProducingItem`;
  - `normalizeTagId`;
  - `stableJsonStringify` and `encodeURIComponent`;
  - `JSON.parse`;
  - the puzzle encoders and decoders.
- A JavaScript `Map` or `Set` is a sequence of keys in insertion order plus a Dafny `map` (`InsertionSets`).
- `localeCompare` and the default `sort` comparison are both modelled as one fixed total order on strings, lexicographic by character (`Strings.StrLe`).
- Sorts are a stable insertion sort.

## Model

| member | source | states |
|---|---|---|
| StackExtractor.SlotIoFallback | src/jei/planner/planner.ts:55-59 | an undeclared slot is never a catalyst |
| StackExtractor.SlotIoFallbackOutputs | src/jei/planner/planner.ts:55-59 | an undeclared slot is an output exactly when its lower-cased id starts with `out` or contains `output`, and the case of the id does not matter |
| StackExtractor.SlotDefsById | src/jei/planner/planner.ts:61-65 | every entry is a declared slot stored under its own id, and the final slot of the list is stored under its id |
| StackExtractor.SlotDefsByIdLastWins | src/jei/planner/planner.ts:61-65 | every declared slot id is a key, and it maps to the last slot declared with that id |
| StackExtractor.SlotDefsByIdAt | src/jei/planner/planner.ts:61-65 | the same for one declared slot, by induction over the declarations |
| StackExtractor.DeclaredSlotRole | src/jei/planner/planner.ts:84-85 | a declared slot takes the role of its last declaration, so a slot declared as catalyst yields catalysts |
| StackExtractor.ItemsOnly | src/jei/planner/planner.ts:90 | the kept catalyst stacks are exactly the item stacks of the slot |
| StackExtractor.BucketsMembership | src/jei/planner/planner.ts:83-92 | a stack is an output (input) exactly when some slot of role output (input) holds it; a catalyst is an item stack of a catalyst slot |
| StackExtractor.UndeclaredSlotsAreNotCatalysts | src/jei/planner/planner.ts:84-85 | a slot the recipe type does not declare never yields catalysts |
| StackExtractor.StackMatchesOwnKey | src/jei/planner/planner.ts:97-115 | a stack matches the key made from it exactly when its data can be serialised |
| StackExtractor.BareKeyMatchesById | src/jei/planner/planner.ts:104-115 | a key without meta or data matches exactly the stacks with its id |
| StackExtractor.SumMatchingAppend | src/jei/planner/planner.ts:117-137 | per-craft amounts over concatenated stack lists add up |
| StackExtractor.SumMatchingNoMatch | src/jei/planner/planner.ts:120-123 | stacks that do not match the key contribute 0 |
| StackExtractor.ExtractRecipeStacks | src/jei/planner/planner.ts:73-95 | the three buckets the loop fills equal the specification `RecipeStacks` |
| StackExtractor.SumMatchingLoop | src/jei/planner/planner.ts:119-125 | the summing loop computes the sum of the finite amounts of the matching item stacks |
| StackExtractor.PerCraftOutputAmountFor | src/jei/planner/planner.ts:117-126 | the sum over the recipe's outputs that match the key |
| StackExtractor.PerCraftInputAmountFor | src/jei/planner/planner.ts:128-137 | the sum over the recipe's inputs that match the key |
| PlannerCore.SortedCandidates | src/jei/planner/planner.ts:196 | a tag's candidates are a permutation of its members |
| PlannerCore.SortedCandidatesSorted | src/jei/planner/planner.ts:196 | a tag's candidates come in ascending order |
| PlannerCore.ChosenRecipe | src/jei/planner/planner.ts:418-428 | a chosen recipe has a non-empty id present in the index, and the recipe stored under it |
| PlannerCore.IndexOf | src/jei/planner/planner.ts:244 | `indexOf` gives the first position of the hash, or -1 exactly when it is absent |
| PlannerCore.CycleSegment | src/jei/planner/planner.ts:244-246 | the cycle segment is non-empty exactly when the hash is on the path, and then it ends with the top of the path |
| PlannerCore.ComputeStepRatio | src/jei/planner/planner.ts:249-256 | one loop step yields out/in for the step's chosen recipe, or nothing when there is no recipe or an amount is not positive |
| PlannerCore.ComputeGrowthFactor | src/jei/planner/planner.ts:247-258 | the loop's factor is the product of all step ratios, and it is valid exactly when every step is |
| PlannerCore.GrowthStep | src/jei/planner/planner.ts:249-256 | one pass of the cycle loop: it goes on exactly when step `i` is valid, and then multiplies in that step's ratio; a failing step means the cycle has no growth factor |
| DecisionScanner.ScanItemWellFormed | src/jei/planner/planner.ts:154-190 | every item decision has several producers and no selection, and is not on the current path; every tag decision lists the sorted members, either none or several and unselected |
| DecisionScanner.ScanInputsWellFormed | src/jei/planner/planner.ts:181-187 | the same for the decisions of an input list |
| DecisionScanner.ScanTagWellFormed | src/jei/planner/planner.ts:192-208 | the same for the decisions of a tag |
| DecisionScanner.AllWellFormedShrink | src/jei/planner/planner.ts:158-189 | decisions valid for a longer path stay valid once `visiting` shrinks back |
| DecisionScanner.UnresolvedItemIsReported | src/jei/planner/planner.ts:161-165 | an item with several producers and no selection yields exactly one decision, listing its options in order, and its inputs are not visited |
| DecisionScanner.RevisitedItemIsPruned | src/jei/planner/planner.ts:157 | an item already on the path contributes nothing |
| DecisionScanner.ResolvedItemDescends | src/jei/planner/planner.ts:154-189 | an item within the depth limit, off the path and with a selection or at most one producer reports nothing itself: with no usable recipe the walk stops, otherwise it is exactly the walk of that recipe's inputs one level deeper with the item on the path |
| DecisionScanner.ScanInputsSplit | src/jei/planner/planner.ts:181-187 | the inputs are visited in order: the decisions of a list of inputs are those of the inputs before any position, then those of the inputs from it on |
| DecisionScanner.DepthCutOff | src/jei/planner/planner.ts:154-193 | past the depth limit, neither an item nor a tag reports anything |
| DecisionScanner.TagOutcomes | src/jei/planner/planner.ts:192-208 | a tag without members gives exactly one decision with no candidates; several unselected members give exactly one decision listing them in `SortedCandidates` order, without descending; otherwise the walk is exactly the visit of the selected member, or of the only member (nothing for an empty id) |
| DecisionScanner.Scanner.constructor | src/jei/planner/planner.ts:151-152 | the walk starts with no decisions and an empty path |
| DecisionScanner.Scanner.VisitItem | src/jei/planner/planner.ts:154-190 | appends `ScanItem`'s decisions and leaves `visiting` as it was |
| DecisionScanner.Scanner.VisitInputs | src/jei/planner/planner.ts:181-187 | appends `ScanInputs`'s decisions and leaves `visiting` as it was |
| DecisionScanner.Scanner.VisitInput | src/jei/planner/planner.ts:182-186 | one input appends exactly the decisions `ScanInput` lists for it and leaves `visiting` as it was |
| DecisionScanner.Scanner.VisitTag | src/jei/planner/planner.ts:192-208 | appends `ScanTag`'s decisions and leaves `visiting` as it was |
| DecisionScanner.ComputePlannerDecisions | src/jei/planner/planner.ts:139-212 | returns the decisions of a walk from the root at depth 0 with an empty path |
| DecisionScanner.ComputedDecisionsWellFormed | src/jei/planner/planner.ts:139-212 | every returned decision is well formed |
| AutoPlanner.Journal.Rollback | src/jei/planner/planner.ts:274-285 | the log is cut back to the checkpoint (or kept when shorter) and keeps its prefix |
| AutoPlanner.SetRecipeRestores | src/jei/planner/planner.ts:266-279 | undoing a `setRecipe` restores the recipe map, whether a previous value existed or not |
| AutoPlanner.SetTagRestores | src/jei/planner/planner.ts:270-282 | undoing a `setTag` restores the tag map |
| AutoPlanner.RollbackCompose | src/jei/planner/planner.ts:274-285 | rolling back to m and then to n ≤ m is rolling back to n |
| AutoPlanner.RestoresTransitive | src/jei/planner/planner.ts:274-285 | states reached by logged changes only compose |
| AutoPlanner.RollbackThrough | src/jei/planner/planner.ts:303-316 | rolling back past the start of a branch gives what rolling back the start gives |
| AutoPlanner.RollbackUndoesChanges | src/jei/planner/planner.ts:266-285 | after any sequence of logged changes, rolling back to the checkpoint gives both maps exactly as before |
| AutoPlanner.CostLeIsTotalPreorder | src/jei/planner/planner.ts:343-351 | the candidate order (fewer inputs, then id) is a total preorder |
| AutoPlanner.SortCandidates | src/jei/planner/planner.ts:343-351 | the candidates are a permutation of the options |
| AutoPlanner.SortCandidatesOrder | src/jei/planner/planner.ts:343-351 | the candidates are ordered by input count, then by id |
| AutoPlanner.PlanItemF | src/jei/planner/planner.ts:287-373 | `planItem` gives back the path, only logs changes, changes nothing on failure, and keeps the selections of the items on the path and those made before |
| AutoPlanner.PlanOnPathF | src/jei/planner/planner.ts:292-373 | between its push and pop, `planItem` keeps the same guarantees: the path is restored and no selection of another path item changes |
| AutoPlanner.ChooseRecipeF | src/jei/planner/planner.ts:334-369 | choosing the item's recipe only logs changes, changes nothing on failure, and touches no other path item's selection and no earlier selection |
| AutoPlanner.UseRecipeF | src/jei/planner/planner.ts:302-333 | `useRecipe` succeeds with the recipe selected and earlier choices kept, or fails with the state as it was |
| AutoPlanner.PlanInputsF | src/jei/planner/planner.ts:313-331 | the input loop either succeeds keeping selections, or rolls back to the checkpoint |
| AutoPlanner.PlanInputsNext | src/jei/planner/planner.ts:326-330 | after one input: a failed input rolls back to the checkpoint, a planned one goes on and keeps the selections |
| AutoPlanner.TryCandidatesF | src/jei/planner/planner.ts:353-361 | the candidate loop changes nothing on failure, and on success keeps the other path items' selections |
| AutoPlanner.TryCandidatesFirstSuccess | src/jei/planner/planner.ts:353-361 | the loop succeeds iff some candidate plans, and then it returns exactly the first such candidate's result |
| AutoPlanner.PlanItemOutcome | src/jei/planner/planner.ts:288-300 | past max depth, or with no producers, it succeeds unchanged; on the path it answers `isLegalCycle`; it fails only on an illegal cycle or an earlier selection that does not plan |
| AutoPlanner.SearchKeepsFirstWorkingCandidate | src/jei/planner/planner.ts:343-361 | `planItem` succeeds and selects the first candidate, in sorted order, whose recipe plans |
| AutoPlanner.AllCandidatesFailKeepsState | src/jei/planner/planner.ts:363-368 | when every recipe fails, the forced selection is undone at once, and `planItem` reports success with the state unchanged |
| AutoPlanner.Planner.constructor | src/jei/planner/planner.ts:227-231 | both selection maps, the undo log and the path start empty |
| AutoPlanner.Planner.SetRecipe | src/jei/planner/planner.ts:266-269 | logs the previous value and sets the selection |
| AutoPlanner.Planner.SetTag | src/jei/planner/planner.ts:270-273 | logs the previous value and sets the tag selection |
| AutoPlanner.Planner.RollbackTo | src/jei/planner/planner.ts:274-285 | the pop loop leaves the state `Journal.Rollback` describes |
| AutoPlanner.Planner.IsLegalCycle | src/jei/planner/planner.ts:243-259 | legal exactly when the cycle segment's growth factor exists and exceeds 1.000001 |
| AutoPlanner.Planner.PlanItem | src/jei/planner/planner.ts:287-373 | result and new state equal `PlanItemF` |
| AutoPlanner.Planner.PlanOnPath | src/jei/planner/planner.ts:292-373 | result and new state equal `PlanOnPathF` |
| AutoPlanner.Planner.ChooseRecipe | src/jei/planner/planner.ts:334-369 | result and new state equal `ChooseRecipeF` |
| AutoPlanner.Planner.TryCandidates | src/jei/planner/planner.ts:353-361 | result and new state equal `TryCandidatesF` |
| AutoPlanner.Planner.TryCandidate | src/jei/planner/planner.ts:355-360 | one candidate: success is the loop's result, and a failed one leaves the state exactly as it was |
| AutoPlanner.Planner.UseRecipe | src/jei/planner/planner.ts:302-333 | result and new state equal `UseRecipeF` |
| AutoPlanner.Planner.PlanInputs | src/jei/planner/planner.ts:313-331 | result and new state equal `PlanInputsF` |
| AutoPlanner.Planner.PlanInput | src/jei/planner/planner.ts:314-328 | one input of the loop: on failure the result is the rolled-back state, on success the loop goes on from the new state |
| AutoPlanner.AutoPlanSelections | src/jei/planner/planner.ts:214-380 | the returned maps are those `PlanItemF` leaves from the empty state |
| TreeBuilder.AddAmount | src/jei/planner/planner.ts:401-408 | adds the amount to one key's total and leaves the others |
| TreeBuilder.MaxAmount | src/jei/planner/planner.ts:409-412 | raises one key's catalyst total to the maximum |
| TreeBuilder.Multiplier | src/jei/planner/planner.ts:509-511 | multiplier times the yield is the needed amount, or 0 when the yield is not positive |
| TreeBuilder.AddCatalysts | src/jei/planner/planner.ts:513-514 | each catalyst total becomes the maximum of its old value and the recipe's largest stack |
| TreeBuilder.CycleLeaf | src/jei/planner/planner.ts:437-485 | a childless cycle node with the next id, added to the leaf totals with its amount; it is a seed exactly when the cycle grows; a seed carries what one craft of the recipe chosen for the top of the path consumes of the item, when that is positive, else the amount needed; any other cycle leaf keeps the amount needed |
| TreeBuilder.BuildF | src/jei/planner/planner.ts:430-558 | the node is the key's and takes the next ids; it carries the amount needed unless it is a cycle seed; it leaves the path as it was, adds exactly its leaves to the totals, and is positive when the amount is |
| TreeBuilder.Expand | src/jei/planner/planner.ts:486-557 | a node with a recipe keeps the amount, is neither a cycle nor a seed, records the recipe's id and catalysts, and accounts for its children |
| TreeBuilder.BuildOutcomes | src/jei/planner/planner.ts:430-557 | past the depth limit, and for an item off the path with no usable recipe, the node is a childless leaf with the whole amount added to the leaf totals; an item on the path becomes a cycle leaf; an item off the path with a chosen recipe is expanded with it and records its id |
| TreeBuilder.InputStep | src/jei/planner/planner.ts:517-539 | an input gets no child exactly when its declared amount times the multiplier is not positive or it is a tag with no chosen member, and then nothing changes; a child is positive and answers the input: a fluid node of that fluid and unit, or a node of the item (the tag's chosen member), with the declared amount times the multiplier unless it is a cycle seed |
| TreeBuilder.BuildInputsF | src/jei/planner/planner.ts:516-540 | the children account for the totals, and all are positive |
| TreeBuilder.KeptMembers | src/jei/planner/planner.ts:517-528 | the inputs that get a child are exactly those that are not skipped |
| TreeBuilder.InputsScaled | src/jei/planner/planner.ts:516-540 | the children of the input loop are one per kept input, in order, each answering its input scaled by the multiplier, and each is scaled throughout |
| TreeBuilder.ChildrenMeetCons | src/jei/planner/planner.ts:517-539 | one more kept input answered in front of the children |
| TreeBuilder.InputScaled | src/jei/planner/planner.ts:517-539 | the child of one input is scaled throughout |
| TreeBuilder.ExpandScaled | src/jei/planner/planner.ts:508-540 | the children of a node with a recipe answer the recipe's kept inputs, each needing its declared amount times the amount over the recipe's per-craft output of the item |
| TreeBuilder.BuildScaled | src/jei/planner/planner.ts:430-558 | every node `buildForItem` returns is scaled throughout: an expanded node's children answer its recipe's inputs scaled that way, and every other item node has no children |
| TreeBuilder.RequirementTree | src/jei/planner/planner.ts:382-562 | the root is the requested item, not a cycle, with the target (default 1); the node ids are 1..N in pre-order; leaf item, fluid and catalyst totals are the tree's sums and maxima; a positive target gives positive amounts throughout |
| TreeBuilder.RequirementTreeRoot | src/jei/planner/planner.ts:382-562 | a root with a chosen recipe (and a depth limit of at least 0) is expanded with it, its children answering the recipe's inputs scaled to the target; otherwise the root is a childless leaf carrying the target |
| TreeBuilder.RequirementTreeScaled | src/jei/planner/planner.ts:382-562 | the whole requirement tree is scaled: each input of each used recipe needs its declared amount times the node's amount over the recipe's yield |
| TreeBuilder.TreeIdsDistinct | src/jei/planner/planner.ts:431-534 | node ids are pairwise distinct |
| TreeBuilder.Builder.constructor | src/jei/planner/planner.ts:396-399 | the counter is 0 and every total and the path start empty |
| TreeBuilder.Builder.AddLeafItem | src/jei/planner/planner.ts:401-404 | updates the leaf item totals by `AddAmount` |
| TreeBuilder.Builder.AddLeafFluid | src/jei/planner/planner.ts:405-408 | updates the fluid totals by `AddAmount` |
| TreeBuilder.Builder.AddCatalyst | src/jei/planner/planner.ts:409-412 | updates the catalyst maxima by `MaxAmount` |
| TreeBuilder.Builder.CycleNode | src/jei/planner/planner.ts:437-485 | node and state equal `CycleLeaf` |
| TreeBuilder.Builder.BuildForItem | src/jei/planner/planner.ts:430-558 | node and state equal `BuildF` |
| TreeBuilder.Builder.ExpandItem | src/jei/planner/planner.ts:486-557 | node and state equal `Expand` |
| TreeBuilder.Builder.ExpandChildren | src/jei/planner/planner.ts:486-540 | after the push and the catalysts, the children and the state are those `BuildInputsF` gives from `ChildrenStart` |
| TreeBuilder.Builder.AddRecipeCatalysts | src/jei/planner/planner.ts:514 | updates the catalysts by `AddCatalysts` |
| TreeBuilder.Builder.BuildInput | src/jei/planner/planner.ts:518-539 | child and state equal `InputStep` |
| TreeBuilder.Builder.BuildInputs | src/jei/planner/planner.ts:516-540 | children and state equal `BuildInputsF` |
| TreeBuilder.BuildRequirementTree | src/jei/planner/planner.ts:382-562 | returns what `RequirementTree` describes |
| AssetUrls.ItemsUrls | src/jei/pack/collectAssetUrls.ts:33 | a URL is offered exactly when some item offers it |
| AssetUrls.MachineListUrls | src/jei/pack/collectAssetUrls.ts:11-14 | a URL is offered exactly when some listed machine has it as a non-empty icon |
| AssetUrls.KeepPrefixed | src/jei/pack/collectAssetUrls.ts:37 | keeps exactly the URLs under the prefix, without creating duplicates |
| AssetUrls.PackAssetUrls | src/jei/pack/collectAssetUrls.ts:25-39 | the result holds exactly the offered URLs under `/packs/<id>/`, each once, in ascending order |
| AssetUrls.ItemIconsCollected | src/jei/pack/collectAssetUrls.ts:3-6 | a set item icon or sprite URL under the base is in the result |
| AssetUrls.InlineIconsCollected | src/jei/pack/collectAssetUrls.ts:21-23 | so are the icons of a recipe's inline items |
| AssetUrls.MachineIconsCollected | src/jei/pack/collectAssetUrls.ts:8-19 | so are the icons of single and listed machines |
| AssetUrls.UrlSet.constructor | src/jei/pack/collectAssetUrls.ts:32 | `new Set()` is empty |
| AssetUrls.UrlSet.Add | src/jei/pack/collectAssetUrls.ts:4 | `Set.add` appends only a new element |
| AssetUrls.AddIfSet | src/jei/pack/collectAssetUrls.ts:4-5 | adds a URL only when it is set and non-empty |
| AssetUrls.CollectFromItem | src/jei/pack/collectAssetUrls.ts:3-6 | adds the item's URLs to the set, in order |
| AssetUrls.CollectFromItems | src/jei/pack/collectAssetUrls.ts:33 | the `forEach` over the items adds all their URLs in order |
| AssetUrls.CollectFromRecipeType | src/jei/pack/collectAssetUrls.ts:8-19 | adds the machine icons to the set, in order |
| AssetUrls.CollectFromRecipe | src/jei/pack/collectAssetUrls.ts:21-23 | adds the inline items' URLs to the set |
| AssetUrls.CollectPackAssetUrls | src/jei/pack/collectAssetUrls.ts:25-39 | returns `PackAssetUrls` |
| InsertionSets.AddAllAppend | src/jei/pack/collectAssetUrls.ts:33-35 | adding two lists one after the other is adding their concatenation |
| InsertionSets.Add | src/jei/pack/collectAssetUrls.ts:4 | the elements afterwards are the old ones and the new one, and no duplicate is created |
| InsertionSets.AddAll | src/jei/pack/collectAssetUrls.ts:33-35 | the elements afterwards are the old ones and the added ones, and no duplicate is created |
| InsertionSets.OrderedMap.Put | src/jei/pack/loader.ts:27 | `Map.set` keeps insertion order, appends a new key and replaces the value |
| InsertionSets.OrderedMap.Values | src/jei/pack/loader.ts:34 | `values()` lists one entry per key, in insertion order |
| PackLoader.PackBaseUrl | src/jei/pack/loader.ts:16-19 | starts with `/packs/`, followed by exactly as many characters as the encoded id |
| PackLoader.AssetBaseUnderPackBase | src/jei/pack/loader.ts:16-19 | the asset base is the pack base plus `/` |
| PackLoader.HashDeterminesFields | src/jei/pack/loader.ts:21-23 | for ids and meta without `:`, equal hashes mean equal id, meta and serialised data |
| PackLoader.PutItems | src/jei/pack/loader.ts:27 | the keys are the item hashes in order of first appearance |
| PackLoader.PutMissing | src/jei/pack/loader.ts:28-33 | the keys grow by the new inline hashes in order of first appearance |
| PackLoader.PutItemsKeepsLast | src/jei/pack/loader.ts:27 | after the pack items, each entry is the last pack item with its hash |
| PackLoader.PutMissingKeepsFirst | src/jei/pack/loader.ts:28-33 | inline items never replace an entry; each new entry is the first inline item with its hash |
| PackLoader.MergeInlineItemsOrder | src/jei/pack/loader.ts:25-35 | one item per distinct hash, in order of first appearance over pack items and then inline items |
| PackLoader.MergeInlineItemsWinners | src/jei/pack/loader.ts:25-35 | each kept item is the last pack item with its hash, or else the first inline item with it |
| PackLoader.PutItemsLoop | src/jei/pack/loader.ts:27 | the first `forEach` builds `PutItems` |
| PackLoader.PutMissingLoop | src/jei/pack/loader.ts:28-33 | the nested `forEach` builds `PutMissing` |
| PackLoader.MergeInlineItemsLoop | src/jei/pack/loader.ts:25-35 | returns `MergeInlineItems` |
| PackLoader.PutMissingAppend | src/jei/pack/loader.ts:28-33 | adding inline items recipe by recipe is adding them all at once |
| PackLoader.LocalSelectorToId | src/jei/pack/loader.ts:80-84 | an id exactly for `local:` followed by something non-blank, and it is the trimmed rest |
| PackLoader.LocalSelectorRoundTrip | src/jei/pack/loader.ts:80-84 | `local:` plus a trimmed non-empty id parses back to that id |
| PackLoader.RewriteUrl | src/jei/pack/loader.ts:161-164 | a URL changes only when it is under the base and mapped, and then it becomes the mapped URL |
| PackLoader.RewriteUrlIdempotent | src/jei/pack/loader.ts:161-164 | with object URLs outside the base, rewriting twice is rewriting once |
| PackLoader.AssetUrlMap | src/jei/pack/loader.ts:154-159 | keys are exactly base plus asset path, and the final asset's key maps to its object URL |
| PackLoader.AssetUrlMapLastWins | src/jei/pack/loader.ts:154-159 | each key maps to the object URL of the last asset with that path |
| PackLoader.FrontKeepsLast | src/jei/pack/loader.ts:154-159 | an asset that is last with its path stays so once the final asset is dropped |
| PackLoader.PrefixCancel | src/jei/pack/loader.ts:154 | different paths give different absolute URLs under one base |
| PackLoader.AssetUrlsAreRewritten | src/jei/pack/loader.ts:154-164 | every asset's absolute URL is rewritten to an object URL |
| PackLoader.RewriteField | src/jei/pack/loader.ts:167-171 | only a set, non-empty field is rewritten |
| PackLoader.RewriteItem | src/jei/pack/loader.ts:166-169 | the key and name stay as they were, and a sprite sheet stays present or absent |
| PackLoader.RewriteMachine | src/jei/pack/loader.ts:170-172 | the id and name stay as they were |
| PackLoader.RewriteRecipeType | src/jei/pack/loader.ts:176-180 | the key and slots stay as they were |
| PackLoader.RewriteRecipe | src/jei/pack/loader.ts:175 | the id, recipe type and slot contents stay as they were |
| PackLoader.RewriteItemIdempotent | src/jei/pack/loader.ts:166-169 | rewriting an item twice is rewriting it once |
| PackLoader.LocalPack.RewriteAssetUrls | src/jei/pack/loader.ts:174-180 | every item, recipe and recipe type is replaced by its rewritten form |
| PackLoader.LocalPack.constructor | src/jei/pack/loader.ts:174-180 | holds the loaded lists as given |
| PackLoader.AssetPath | src/jei/pack/loader.ts:127-135 | a zip entry is an asset exactly when it is a file under the base dir whose relative path is non-empty, not the manifest and not a declared data file |
| PackLoader.AssetPaths | src/jei/pack/loader.ts:125-137 | the assets are exactly the relative paths of the entries that pass |
| PackLoader.CollectAssetPaths | src/jei/pack/loader.ts:125-137 | the `forEach` pushes exactly `AssetPaths` |
| AefGenerator.NamespacedItemId | scripts/generate-aef-pack.mjs:25-27 | the id behind the `aef.vanilla.` prefix |
| AefGenerator.PrefixKeepsOrder | scripts/generate-aef-pack.mjs:165-187 | a common prefix does not change the string order |
| AefGenerator.ParseAmount | scripts/generate-aef-pack.mjs:33-43 | text is kept exactly when both parses fail; a finite number stays; any other value becomes 1 |
| AefGenerator.CeilDiv | scripts/generate-aef-pack.mjs:74 | `Math.ceil(a / b)` |
| AefGenerator.InCols | scripts/generate-aef-pack.mjs:48 | 1 to 3 input columns |
| AefGenerator.OutCols | scripts/generate-aef-pack.mjs:60 | 1 to 2 output columns |
| AefGenerator.BuildSlots | scripts/generate-aef-pack.mjs:45-87 | the three loops push exactly `SlotLayout` |
| AefGenerator.SlotLayoutOrder | scripts/generate-aef-pack.mjs:49-84 | inputs, then outputs, then catalysts, numbered `in1..`, `out1..`, `cat1..` |
| AefGenerator.SlotLayoutRegions | scripts/generate-aef-pack.mjs:48-84 | inputs in ≤3 columns, outputs right of them, catalysts from the row below both |
| AefGenerator.SlotLayoutNoOverlap | scripts/generate-aef-pack.mjs:45-87 | no two slots share a cell |
| AefGenerator.CategoryMaxima | scripts/generate-aef-pack.mjs:131-142 | the map after the loop is well formed |
| AefGenerator.Categories | scripts/generate-aef-pack.mjs:133 | the category of each recipe, in order |
| AefGenerator.CategoryMaximaKeys | scripts/generate-aef-pack.mjs:131-142 | one entry per category, in order of first appearance |
| AefGenerator.CategoryMaximaBound | scripts/generate-aef-pack.mjs:131-142 | a category's maxima bound the counts of each of its recipes |
| AefGenerator.CategoryMaximaAttained | scripts/generate-aef-pack.mjs:131-142 | each maximum is attained by a recipe of the category |
| AefGenerator.CategoryMaximaExact | scripts/generate-aef-pack.mjs:131-142 | bound and attained together |
| AefGenerator.MaxByCategory | scripts/generate-aef-pack.mjs:131-142 | the loop builds `CategoryMaxima` |
| AefGenerator.RecipeTypesUnsorted | scripts/generate-aef-pack.mjs:144-157 | one recipe type per category, in map order, built from that category's maxima |
| AefGenerator.RecipeTypes | scripts/generate-aef-pack.mjs:144-159 | one type per category: a permutation of the per-category types |
| AefGenerator.RecipeTypesSorted | scripts/generate-aef-pack.mjs:159 | the types come in ascending display-name order |
| AefGenerator.RecipeTypeOfEveryRecipe | scripts/generate-aef-pack.mjs:144-159 | every recipe's category has a type whose layout uses that category's maxima |
| AefGenerator.SortById | scripts/generate-aef-pack.mjs:165-185 | the sorted entries are a permutation of the entries |
| AefGenerator.SortByIdSorted | scripts/generate-aef-pack.mjs:165-185 | the sorted entries are in ascending id order |
| AefGenerator.NumberedSorted | scripts/generate-aef-pack.mjs:165-188 | slot numbers follow id order |
| AefGenerator.NumberedMembers | scripts/generate-aef-pack.mjs:166-187 | the numbered slots hold exactly the given entries |
| AefGenerator.NumberSlots | scripts/generate-aef-pack.mjs:166-168 | the `forEach` appends `Numbered` |
| AefGenerator.FillSlotContents | scripts/generate-aef-pack.mjs:163-188 | builds `SlotContents` |
| AefGenerator.SlotContentId | scripts/generate-aef-pack.mjs:165-188 | the k-th content is `in`, `out` or `cat` numbered from 1 |
| AefGenerator.RecipeSlotsInLayout | scripts/generate-aef-pack.mjs:131-201 | every slot a recipe fills exists in its category's layout |
| AefGenerator.Params | scripts/generate-aef-pack.mjs:190-193 | one entry per present field among time, usage and cost, with its parsed value, in that order; empty exactly when all three are absent, and then the recipe has no `params` |
| AefGenerator.ConvertRecipe | scripts/generate-aef-pack.mjs:195-200 | the id is `aef:` plus the source id, the type is `aef:category/` plus the category (default `unknown`), with the recipe's slot contents and parameters |
| AefGenerator.ConvertRecipes | scripts/generate-aef-pack.mjs:160-201 | the loop yields `ConvertAll`: one converted recipe per source recipe, in order |
| AefGenerator.ConvertAllAt | scripts/generate-aef-pack.mjs:160-201 | the k-th generated recipe is the k-th source recipe converted |
| AefGenerator.ParamsPresent | scripts/generate-aef-pack.mjs:190-193 | every present field among time, usage and cost has its entry with its parsed value |
| AefGenerator.ConvertedRecipeFitsItsType | scripts/generate-aef-pack.mjs:131-201 | every generated recipe names a generated recipe type, and each slot it fills is a slot of that type's layout |
| AefGenerator.TagGroupsMember | scripts/generate-aef-pack.mjs:203-210 | a tag lists exactly the namespaced ids of the items of its category |
| AefGenerator.Tags | scripts/generate-aef-pack.mjs:211-215 | one entry per tag, in the order the tags were first met |
| AefGenerator.TagsSpec | scripts/generate-aef-pack.mjs:203-215 | a tag's values are sorted and are exactly its category's items |
| AefGenerator.ItemTagged | scripts/generate-aef-pack.mjs:204-209 | every item with a category appears under its tag |
| AefGenerator.TagGroups | scripts/generate-aef-pack.mjs:203-210 | the map after the loop is well formed |
| AefGenerator.GroupTags | scripts/generate-aef-pack.mjs:203-215 | the loops build `Tags` |
| AefGenerator.SortTagValues | scripts/generate-aef-pack.mjs:212-215 | each tag, in order, with its values sorted |
| ShareOptions.BuildSharePayload | src/components/circuit-puzzle/url-share-options.ts:22-40 | each length equals its text's length; `auto` is v2 iff v2 is strictly shorter, so it names a shortest URL encoding and ties go to v1 |
| ShareOptions.ResolveShareMode | src/components/circuit-puzzle/url-share-options.ts:42-45 | `auto` resolves to the payload's choice, other modes stand, and the result is never `auto` |
| ShareOptions.GetShareValue | src/components/circuit-puzzle/url-share-options.ts:47-50 | the text of the resolved format |
| ShareOptions.AutoSharesShortest | src/components/circuit-puzzle/url-share-options.ts:22-50 | on a built payload, `auto` yields the shorter encoding (v1 on a tie) and each explicit mode yields its encoder's text |
| UrlFormatShare.EncodeForShortestUrl | src/components/circuit-puzzle/url-format-share.ts:16-33 | the encoded text is from the encoder `version` names; it is a shortest one, v2 only when strictly shorter; both lengths are recorded |
| UrlFormatShare.DecodeFromSharedUrl | src/components/circuit-puzzle/url-format-share.ts:35-49 | `v2-` text goes to v2 only; other text goes to v1, then v2; when both fail, the v1 error is reported |
| UrlFormatShare.ShortestUrlRoundTrip | src/components/circuit-puzzle/url-format-share.ts:16-49 | with round-tripping codecs and only v2 output marked `v2-`, decoding the shortest encoding gives the level back |
| EditorStore.DefaultManifest | src/stores/editor.ts:15-28 | pack id `new-pack`, game id `new-game`, default file names |
| EditorStore.SetAt | src/stores/editor.ts:96-98 | index assignment replaces only that element, and assignment at the length appends |
| EditorStore.SpliceStart | src/stores/editor.ts:100-102 | `splice`'s start: negative from the end, clamped to the list |
| EditorStore.SpliceOne | src/stores/editor.ts:100-102 | removes the element at the start if any, shifts later ones down, and shrinks by one |
| EditorStore.SpliceUndoesPush | src/stores/editor.ts:92-102 | deleting the element just pushed gives the list back |
| EditorStore.SetThenSplice | src/stores/editor.ts:96-102 | writing back an element is a no-op, and a write then a delete at an index is the delete |
| EditorStore.Editor.constructor | src/stores/editor.ts:30-35 | the store starts with the default manifest and empty lists and tags |
| EditorStore.Editor.LoadPack | src/stores/editor.ts:37-43 | every field comes from the data, and missing tags become `{}` |
| EditorStore.Editor.ResetPack | src/stores/editor.ts:45-51 | the default manifest, empty lists and tags |
| EditorStore.Editor.ExportPack | src/stores/editor.ts:53-61 | a value-equal copy of every field |
| EditorStore.Editor.AddItem | src/stores/editor.ts:92-94 | appends and changes nothing else |
| EditorStore.Editor.UpdateItem | src/stores/editor.ts:96-98 | replaces only that index, or appends at the length |
| EditorStore.Editor.DeleteItem | src/stores/editor.ts:100-102 | the list becomes `SpliceOne` of it |
| EditorStore.Editor.AddRecipeType | src/stores/editor.ts:105-107 | appends and changes nothing else |
| EditorStore.Editor.UpdateRecipeType | src/stores/editor.ts:109-111 | replaces only that index, or appends at the length |
| EditorStore.Editor.DeleteRecipeType | src/stores/editor.ts:113-115 | the list becomes `SpliceOne` of it |
| EditorStore.Editor.AddRecipe | src/stores/editor.ts:118-120 | appends and changes nothing else |
| EditorStore.Editor.UpdateRecipe | src/stores/editor.ts:122-124 | replaces only that index, or appends at the length |
| EditorStore.Editor.DeleteRecipe | src/stores/editor.ts:126-128 | the list becomes `SpliceOne` of it |
| PackManager.SafeParseIndex | src/stores/packManager.ts:29-41 | an empty version-1 index for no text, empty text, a parse failure, a version other than 1 or non-array entries; otherwise the entries, and the current id only when it is a non-empty string |
| PackManager.IndexOf | src/stores/packManager.ts:104-109 | the written index leaves out a null or empty current id |
| PackManager.PersistRoundTrip | src/stores/packManager.ts:104-109 | what `persist` writes, `safeParseIndex` reads back unchanged |
| PackManager.FindIndex | src/stores/packManager.ts:111-133 | the first entry with the id, or none exactly when no entry has it |
| PackManager.FindEntry | src/stores/packManager.ts:111 | `find(...) \|\| null`: an entry with the id, or null exactly when there is none |
| PackManager.RemoveId | src/stores/packManager.ts:164 | keeps exactly the entries with other ids |
| PackManager.RemoveKeepsFind | src/stores/packManager.ts:164-166 | removing other ids keeps the current entry current |
| PackManager.EntryName | src/stores/packManager.ts:139-152 | the given name, else the display name, else the pack id |
| PackManager.Resaved | src/stores/packManager.ts:138-140 | the same id, with the new pack id, name and time |
| PackManager.Library.constructor | src/stores/packManager.ts:101-102 | entries and current id come from `safeParseIndex` |
| PackManager.Library.CurrentEntry | src/stores/packManager.ts:111 | an entry with the current id, or null exactly when none has it |
| PackManager.Library.Persist | src/stores/packManager.ts:104-109 | writes `IndexOf` of the current state |
| PackManager.Library.SaveToExisting | src/stores/packManager.ts:130-143 | it fails, changing nothing, without a current id or without a matching entry; otherwise it updates only the first match and writes the index |
| PackManager.Library.SaveAs | src/stores/packManager.ts:145-160 | prepends one entry, makes it current, and writes the index |
| PackManager.Library.DeleteLocalPack | src/stores/packManager.ts:162-167 | removes every entry with the id; the current id is cleared iff it was that id, and any other current entry stays current |
| PackManager.Library.SelectCurrent | src/stores/packManager.ts:169-172 | sets the current id, keeps the entries, writes the index |

## Left out

- I/O is not modelled, nor the async plumbing around it:
  - fetch and the `load*` functions of `loader.ts`;
  - IndexedDB (`idb.ts`);
  - JSZip reads;
  - `Blob` and `URL.createObjectURL`/`revokeObjectURL`;
  - `localStorage`;
  - the filesystem parts of `generate-aef-pack.mjs`.
  
  Object URLs and asset paths are inputs. The stored pack index is the value last handed to `JSON.stringify`.
- Vue/Pinia reactivity is not modelled: the `watch` and the restore IIFE in `editor.ts`, and `computed`.
- `scripts/image_proxy.py`, `scripts/sync-temp-files.mjs`, `src/stores/settings.ts`, the router and the config files are not part of this model.
- `itemKeyHash`, `recipesProducingItem`, `normalizeTagId`, `stableJsonStringify`, `JSON.stringify` of item data, `encodeURIComponent`, `JSON.parse`, and the circuit-puzzle encoders and decoders are uninterpreted function parameters.
- Amounts are `real`. IEEE-754 rounding, infinities and NaN are not modelled. `Number(v)`/`parseFloat` coercion is a parse that may fail (`RawNumber`, `AefGenerator.Parsers`).
- String lengths count characters, not UTF-16 code units.
- `localeCompare` and the default sort comparison are both one code-point lexicographic order.
- AefGenerator: not modelled:
  - the item conversion (`generate-aef-pack.mjs:99-127`), which only builds records from constants;
  - the constant `renderer`/`paramSchema` fields;
  - the `version` and icon look-ups.
  
  Category display names are a `map<string, Option<string>>`.
- TreeBuilder.RequirementTree: a total is compared through `Get0` (absent reads as 0), so a key present with total 0 is not told apart from an absent key.
- TreeBuilder: a node id `n<k>` is modelled as the number k.
- BuildF: its own contract does not state when it expands or the amounts of the children; the lemma BuildOutcomes states the first, and the lemmas BuildScaled and RequirementTreeScaled state the second (declared amount times the multiplier, for every input of every used recipe). They are lemmas rather than clauses of the function so that the methods proved equal to it stay within the solver's budget.
- Expand: likewise, the scaling of its children by `Multiplier(amount, per-craft output)` is stated by the lemma ExpandScaled, not by its own contract.
- BuildInputsF: likewise, the amounts of its children are stated by the lemma InputsScaled, and for one input by InputStep's own contract.
- TreeBuilder.Meets: a cycle seed's amount is not the scaled input amount; CycleLeaf states what it is.
- The `args.maxDepth ?? 20` default of the three planner entry points is not modelled: `PlannerCore.Ctx` carries the resolved depth limit.
- TreeBuilder.Builder.BuildForItem: for an item without a usable recipe, the method skips the path push and pop, which have no net effect. The node and the totals are the same as in the source.
- PackLoader.LocalPack.RewriteAssetUrls: the lists are values, so the in-place mutation of objects shared between lists (aliasing) is not modelled.
- EditorStore.Editor.UpdateItem, EditorStore.Editor.UpdateRecipeType and EditorStore.Editor.UpdateRecipe: an index past the length is excluded, because it would make a sparse JavaScript array with holes. An index equal to the length appends. A negative index sets a non-element property, so the list elements are unchanged.
- PackManager.Library.SaveToExisting and PackManager.Library.SaveAs: the snapshot and zip export of the editor store are not modelled, nor the IndexedDB write and its failures. The snapshot's manifest, the new id (`makeId`) and the time (`Date.now`) are parameters.
- PackManager: `loadLocalPack` and the `zipToPackData` of `packManager.ts` are zip and IndexedDB I/O. The asset filter of `loader.ts` has the same shape and is modelled.
