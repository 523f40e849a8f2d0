/** The pack editor store (editor.ts): the manifest, the item, recipe-type
    and recipe lists and the tag map of the pack being edited, with the
    operations the editor pages call on them. */
module EditorStore {
  import opened Wrappers
  import opened PackTypes

  /** `makeDefaultManifest`. */
  function DefaultManifest(): (m: PackManifest)
    ensures m.packId == "new-pack" && m.gameId == "new-game"
    ensures m.files.items == Some("items.json") && m.files.tags == Some("tags.json")
  {
    PackManifest("new-pack", "new-game", "New Pack", "0.0.1",
                 PackFiles(Some("items.json"), Some("tags.json"), "recipeTypes.json", "recipes.json"))
  }

  /** `list[index] = x` for an index up to the length: an index in range
      replaces that element, the length itself appends `x`, and a negative
      index sets a property that is not an element, so the elements stay
      as they were. */
  function SetAt<T>(s: seq<T>, index: int, x: T): (r: seq<T>)
    requires index <= |s|
    ensures |r| == if index == |s| then |s| + 1 else |s|
    ensures forall k :: 0 <= k < |r| ==> r[k] == if k == index then x else s[k]
  {
    if index < 0 then s else if index == |s| then s + [x] else s[index := x]
  }

  /** Where `splice(index, 1)` starts: a negative index counts from the end
      and is clamped at 0, a large one is clamped at the length. */
  function SpliceStart(len: nat, index: int): (start: nat)
    ensures start <= len
    ensures 0 <= index <= len ==> start == index
    ensures index < 0 && 0 <= len + index ==> start == len + index
    ensures len + index < 0 ==> start == 0
    ensures len < index ==> start == len
  {
    if index < 0 then (if len + index < 0 then 0 else len + index)
    else if index < len then index else len
  }

  /** `list.splice(index, 1)`: the element at the start position, if there
      is one, is removed and the later ones move down by one. */
  function SpliceOne<T>(s: seq<T>, index: int): (r: seq<T>)
    ensures var start := SpliceStart(|s|, index);
      && |r| == (if start < |s| then |s| - 1 else |s|)
      && (forall k :: 0 <= k < start && k < |r| ==> r[k] == s[k])
      && (forall k :: start <= k < |r| ==> r[k] == s[k + 1])
  {
    var start := SpliceStart(|s|, index);
    if start < |s| then s[..start] + s[start + 1..] else s
  }

  /** Deleting what was just appended gives the list back. */
  lemma {:induction false} SpliceUndoesPush<T>(s: seq<T>, x: T)
    ensures SpliceOne(s + [x], |s|) == s
    ensures SpliceOne(s + [x], -1) == s
  {
    assert (s + [x])[..|s|] == s;
  }

  /** Writing back the element that is there changes nothing, and a write
      then a delete at the same index in range is the same as the delete. */
  lemma {:induction false} SetThenSplice<T>(s: seq<T>, index: nat, x: T)
    requires index < |s|
    ensures SetAt(s, index, s[index]) == s
    ensures SpliceOne(SetAt(s, index, x), index) == SpliceOne(s, index)
  {
    var a := SpliceOne(SetAt(s, index, x), index);
    var b := SpliceOne(s, index);
    assert |a| == |b|;
    forall k | 0 <= k < |a|
      ensures a[k] == b[k]
    {
      if k >= index {
        assert a[k] == SetAt(s, index, x)[k + 1];
      }
    }
  }

  class Editor {
    var manifest: PackManifest
    var items: seq<ItemDef>
    var recipeTypes: seq<RecipeTypeDef>
    var recipes: seq<Recipe>
    var tags: PackTags

    /** The pack as `exportPack` renders it: tags are always present. */
    function Snapshot(): (d: PackData)
      reads this
      ensures d.tags == Some(tags)
    {
      PackData(manifest, items, recipeTypes, recipes, Some(tags))
    }

    /** A new store holds the empty default pack. */
    constructor()
      ensures Snapshot() == PackData(DefaultManifest(), [], [], [], Some(map[]))
    {
      manifest := DefaultManifest();
      items := [];
      recipeTypes := [];
      recipes := [];
      tags := map[];
    }

    /** `loadPack`: every field is taken from the data and missing tags
        become empty, so loading an exported pack restores it exactly. */
    method LoadPack(data: PackData)
      modifies this
      ensures Snapshot() == data.(tags := Some(data.tags.GetOr(map[])))
      ensures data.tags.Some? ==> Snapshot() == data
    {
      manifest := data.manifest;
      items := data.items;
      recipeTypes := data.recipeTypes;
      recipes := data.recipes;
      tags := if data.tags.Some? then data.tags.value else map[];
    }

    /** `resetPack`: the default manifest and nothing else. */
    method ResetPack()
      modifies this
      ensures Snapshot() == PackData(DefaultManifest(), [], [], [], Some(map[]))
    {
      manifest := DefaultManifest();
      items := [];
      recipeTypes := [];
      recipes := [];
      tags := map[];
    }

    /** `exportPack`: a copy of every field, equal in value, with the store
        left as it was. */
    method ExportPack() returns (d: PackData)
      ensures d == Snapshot()
    {
      d := PackData(manifest, items, recipeTypes, recipes, Some(tags));
    }

    method AddItem(item: ItemDef)
      modifies this
      ensures items == old(items) + [item]
      ensures unchanged(this`manifest, this`recipeTypes, this`recipes, this`tags)
    {
      items := items + [item];
    }

    method UpdateItem(index: int, item: ItemDef)
      requires index <= |items|
      modifies this
      ensures items == SetAt(old(items), index, item)
      ensures unchanged(this`manifest, this`recipeTypes, this`recipes, this`tags)
    {
      items := SetAt(items, index, item);
    }

    method DeleteItem(index: int)
      modifies this
      ensures items == SpliceOne(old(items), index)
      ensures unchanged(this`manifest, this`recipeTypes, this`recipes, this`tags)
    {
      items := SpliceOne(items, index);
    }

    method AddRecipeType(rt: RecipeTypeDef)
      modifies this
      ensures recipeTypes == old(recipeTypes) + [rt]
      ensures unchanged(this`manifest, this`items, this`recipes, this`tags)
    {
      recipeTypes := recipeTypes + [rt];
    }

    method UpdateRecipeType(index: int, rt: RecipeTypeDef)
      requires index <= |recipeTypes|
      modifies this
      ensures recipeTypes == SetAt(old(recipeTypes), index, rt)
      ensures unchanged(this`manifest, this`items, this`recipes, this`tags)
    {
      recipeTypes := SetAt(recipeTypes, index, rt);
    }

    method DeleteRecipeType(index: int)
      modifies this
      ensures recipeTypes == SpliceOne(old(recipeTypes), index)
      ensures unchanged(this`manifest, this`items, this`recipes, this`tags)
    {
      recipeTypes := SpliceOne(recipeTypes, index);
    }

    method AddRecipe(recipe: Recipe)
      modifies this
      ensures recipes == old(recipes) + [recipe]
      ensures unchanged(this`manifest, this`items, this`recipeTypes, this`tags)
    {
      recipes := recipes + [recipe];
    }

    method UpdateRecipe(index: int, recipe: Recipe)
      requires index <= |recipes|
      modifies this
      ensures recipes == SetAt(old(recipes), index, recipe)
      ensures unchanged(this`manifest, this`items, this`recipeTypes, this`tags)
    {
      recipes := SetAt(recipes, index, recipe);
    }

    method DeleteRecipe(index: int)
      modifies this
      ensures recipes == SpliceOne(old(recipes), index)
      ensures unchanged(this`manifest, this`items, this`recipeTypes, this`tags)
    {
      recipes := SpliceOne(recipes, index);
    }
  }
}
