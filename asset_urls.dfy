/** `collectPackAssetUrls` (collectAssetUrls.ts): gather the icon URLs of a
    pack's items, machines and inline recipe items into a set, keep those
    under the pack's own base path, and sort them. */
module AssetUrls {
  import opened Wrappers
  import opened Strings
  import opened PackTypes
  import Sorting
  import opened InsertionSets

  /** The non-empty string of an optional field, as a zero- or one-element list. */
  function IfSet(u: Option<string>): (r: seq<string>)
    ensures forall x :: x in r <==> u == Some(x) && x != ""
  {
    if Truthy(u) then [u.value] else []
  }

  /** `collectFromItem`: the icon, then the sprite sheet URL. */
  function ItemUrls(item: ItemDef): seq<string> {
    IfSet(item.icon) + (if item.iconSprite.Some? then IfSet(item.iconSprite.value.url) else [])
  }

  /** The icons of a list of machines, in order. */
  function MachineListUrls(ms: seq<Machine>): (r: seq<string>)
    ensures forall x :: x in r <==> exists k :: 0 <= k < |ms| && ms[k].icon == Some(x) && x != ""
    decreases |ms|
  {
    if |ms| == 0 then []
    else
      var n := |ms| - 1;
      assert forall k :: 0 <= k < n ==> ms[..n][k] == ms[k];
      MachineListUrls(ms[..n]) + IfSet(ms[n].icon)
  }

  /** `collectFromRecipeType`: one machine's icon, or each machine's. */
  function RecipeTypeUrls(rt: RecipeTypeDef): seq<string> {
    match rt.machine
    case NoMachine => []
    case OneMachine(m) => IfSet(m.icon)
    case MachineList(ms) => MachineListUrls(ms)
  }

  function ItemsUrls(items: seq<ItemDef>): (r: seq<string>)
    ensures forall x :: x in r <==> exists k :: 0 <= k < |items| && x in ItemUrls(items[k])
    decreases |items|
  {
    if |items| == 0 then []
    else
      var n := |items| - 1;
      assert forall k :: 0 <= k < n ==> items[..n][k] == items[k];
      ItemsUrls(items[..n]) + ItemUrls(items[n])
  }

  /** `collectFromRecipe`: the URLs of the recipe's inline items. */
  function RecipeUrls(r: Recipe): seq<string> {
    match r.inlineItems
    case None => []
    case Some(items) => ItemsUrls(items)
  }

  function RecipeTypesUrls(rts: seq<RecipeTypeDef>): (r: seq<string>)
    ensures forall x :: x in r <==> exists k :: 0 <= k < |rts| && x in RecipeTypeUrls(rts[k])
    decreases |rts|
  {
    if |rts| == 0 then []
    else
      var n := |rts| - 1;
      assert forall k :: 0 <= k < n ==> rts[..n][k] == rts[k];
      RecipeTypesUrls(rts[..n]) + RecipeTypeUrls(rts[n])
  }

  function RecipesUrls(recipes: seq<Recipe>): (r: seq<string>)
    ensures forall x :: x in r <==> exists k :: 0 <= k < |recipes| && x in RecipeUrls(recipes[k])
    decreases |recipes|
  {
    if |recipes| == 0 then []
    else
      var n := |recipes| - 1;
      assert forall k :: 0 <= k < n ==> recipes[..n][k] == recipes[k];
      RecipesUrls(recipes[..n]) + RecipeUrls(recipes[n])
  }

  /** Every URL the three `forEach` passes offer to the set, in order. */
  function Offered(items: seq<ItemDef>, rts: seq<RecipeTypeDef>, recipes: seq<Recipe>): seq<string> {
    ItemsUrls(items) + RecipeTypesUrls(rts) + RecipesUrls(recipes)
  }

  /** `/packs/<encodeURIComponent(packId)>/`. */
  function AssetBase(encode: string -> string, packId: string): string {
    "/packs/" + encode(packId) + "/"
  }

  /** The elements that start with `prefix`, in order. */
  function KeepPrefixed(s: seq<string>, prefix: string): (r: seq<string>)
    ensures forall x :: x in r <==> x in s && StartsWith(x, prefix)
    ensures Sorting.Distinct(s) ==> Sorting.Distinct(r)
    decreases |s|
  {
    if |s| == 0 then []
    else
      var n := |s| - 1;
      assert s == s[..n] + [s[n]];
      KeepPrefixed(s[..n], prefix) + (if StartsWith(s[n], prefix) then [s[n]] else [])
  }

  /** `collectPackAssetUrls`: exactly the offered URLs under the pack's base,
      each once, in ascending order. */
  function PackAssetUrls(encode: string -> string, packId: string, items: seq<ItemDef>, rts: seq<RecipeTypeDef>,
                         recipes: seq<Recipe>): (r: seq<string>)
    ensures forall x :: x in r <==> x in Offered(items, rts, recipes) && StartsWith(x, AssetBase(encode, packId))
    ensures Sorting.Distinct(r)
    ensures Sorting.SortedBy(r, Strings.StrLe)
  {
    var kept := KeepPrefixed(AddAll([], Offered(items, rts, recipes)), AssetBase(encode, packId));
    var r := Sorting.SortStrings(kept);
    Sorting.SortStringsSorted(kept);
    Sorting.DistinctPermutation(kept, r);
    assert forall x :: x in r <==> x in kept by {
      forall x ensures x in r <==> x in kept {
        assert x in r <==> x in multiset(r);
        assert x in kept <==> x in multiset(kept);
      }
    }
    r
  }

  /** An item's icon and sprite URL are in the result exactly when they are
      set and under the base; so are machine icons, single or listed. */
  lemma ItemIconsCollected(encode: string -> string, packId: string, items: seq<ItemDef>, rts: seq<RecipeTypeDef>,
                           recipes: seq<Recipe>, k: nat)
    requires k < |items|
    ensures var out := PackAssetUrls(encode, packId, items, rts, recipes);
      && (Truthy(items[k].icon) && StartsWith(items[k].icon.value, AssetBase(encode, packId))
          ==> items[k].icon.value in out)
      && (items[k].iconSprite.Some? && Truthy(items[k].iconSprite.value.url)
          && StartsWith(items[k].iconSprite.value.url.value, AssetBase(encode, packId))
          ==> items[k].iconSprite.value.url.value in out)
  {
    assert forall x :: x in ItemUrls(items[k]) ==> x in ItemsUrls(items);
  }

  /** So are the icons of the items a recipe carries inline. */
  lemma InlineIconsCollected(encode: string -> string, packId: string, items: seq<ItemDef>, rts: seq<RecipeTypeDef>,
                             recipes: seq<Recipe>, k: nat, j: nat)
    requires k < |recipes| && recipes[k].inlineItems.Some? && j < |recipes[k].inlineItems.value|
    ensures var out := PackAssetUrls(encode, packId, items, rts, recipes);
      var it := recipes[k].inlineItems.value[j];
      && (Truthy(it.icon) && StartsWith(it.icon.value, AssetBase(encode, packId)) ==> it.icon.value in out)
      && (it.iconSprite.Some? && Truthy(it.iconSprite.value.url)
          && StartsWith(it.iconSprite.value.url.value, AssetBase(encode, packId))
          ==> it.iconSprite.value.url.value in out)
  {
    var inline := recipes[k].inlineItems.value;
    assert forall x :: x in ItemUrls(inline[j]) ==> x in RecipeUrls(recipes[k]);
  }

  lemma MachineIconsCollected(encode: string -> string, packId: string, items: seq<ItemDef>, rts: seq<RecipeTypeDef>,
                              recipes: seq<Recipe>, k: nat, m: Machine)
    requires k < |rts|
    requires rts[k].machine == OneMachine(m) || (rts[k].machine.MachineList? && m in rts[k].machine.machines)
    requires Truthy(m.icon) && StartsWith(m.icon.value, AssetBase(encode, packId))
    ensures m.icon.value in PackAssetUrls(encode, packId, items, rts, recipes)
  {
    assert m.icon.value in RecipeTypeUrls(rts[k]);
  }

  /** A set that only `add`s. */
  class UrlSet {
    var elems: seq<string>

    constructor()
      ensures elems == []
    {
      elems := [];
    }

    method Add(u: string)
      modifies this
      ensures elems == InsertionSets.Add(old(elems), u)
    {
      if u !in elems {
        elems := elems + [u];
      }
    }
  }

  /** `out.add(u)` for a field that is set. */
  method AddIfSet(out: UrlSet, u: Option<string>)
    modifies out
    ensures out.elems == AddAll(old(out.elems), IfSet(u))
  {
    if u.Some? && u.value != "" {
      out.Add(u.value);
      assert [u.value][..0] == [];
    }
  }

  method CollectFromItem(out: UrlSet, item: ItemDef)
    modifies out
    ensures out.elems == AddAll(old(out.elems), ItemUrls(item))
  {
    AddIfSet(out, item.icon);
    if item.iconSprite.Some? {
      AddIfSet(out, item.iconSprite.value.url);
    }
    AddAllAppend(old(out.elems), IfSet(item.icon),
                 if item.iconSprite.Some? then IfSet(item.iconSprite.value.url) else []);
  }

  method CollectFromRecipeType(out: UrlSet, rt: RecipeTypeDef)
    modifies out
    ensures out.elems == AddAll(old(out.elems), RecipeTypeUrls(rt))
  {
    match rt.machine {
      case NoMachine =>
      case OneMachine(m) => AddIfSet(out, m.icon);
      case MachineList(ms) =>
        for k := 0 to |ms|
          invariant out.elems == AddAll(old(out.elems), MachineListUrls(ms[..k]))
        {
          assert ms[..k + 1][..k] == ms[..k];
          AddIfSet(out, ms[k].icon);
          AddAllAppend(old(out.elems), MachineListUrls(ms[..k]), IfSet(ms[k].icon));
        }
        assert ms[..|ms|] == ms;
    }
  }

  method CollectFromItems(out: UrlSet, items: seq<ItemDef>)
    modifies out
    ensures out.elems == AddAll(old(out.elems), ItemsUrls(items))
  {
    for k := 0 to |items|
      invariant out.elems == AddAll(old(out.elems), ItemsUrls(items[..k]))
    {
      assert items[..k + 1][..k] == items[..k];
      CollectFromItem(out, items[k]);
      AddAllAppend(old(out.elems), ItemsUrls(items[..k]), ItemUrls(items[k]));
    }
    assert items[..|items|] == items;
  }

  method CollectFromRecipe(out: UrlSet, r: Recipe)
    modifies out
    ensures out.elems == AddAll(old(out.elems), RecipeUrls(r))
  {
    if r.inlineItems.Some? {
      CollectFromItems(out, r.inlineItems.value);
    }
  }

  /** `collectPackAssetUrls`. */
  method CollectPackAssetUrls(encode: string -> string, packId: string, items: seq<ItemDef>,
                              rts: seq<RecipeTypeDef>, recipes: seq<Recipe>) returns (urls: seq<string>)
    ensures urls == PackAssetUrls(encode, packId, items, rts, recipes)
  {
    var base := "/packs/" + encode(packId) + "/";
    var out := new UrlSet();
    CollectFromItems(out, items);
    ghost var afterItems := out.elems;
    for k := 0 to |rts|
      invariant out.elems == AddAll(afterItems, RecipeTypesUrls(rts[..k]))
    {
      assert rts[..k + 1][..k] == rts[..k];
      CollectFromRecipeType(out, rts[k]);
      AddAllAppend(afterItems, RecipeTypesUrls(rts[..k]), RecipeTypeUrls(rts[k]));
    }
    assert rts[..|rts|] == rts;
    ghost var afterTypes := out.elems;
    for k := 0 to |recipes|
      invariant out.elems == AddAll(afterTypes, RecipesUrls(recipes[..k]))
    {
      assert recipes[..k + 1][..k] == recipes[..k];
      CollectFromRecipe(out, recipes[k]);
      AddAllAppend(afterTypes, RecipesUrls(recipes[..k]), RecipeUrls(recipes[k]));
    }
    assert recipes[..|recipes|] == recipes;
    AddAllAppend([], ItemsUrls(items), RecipeTypesUrls(rts));
    AddAllAppend([], ItemsUrls(items) + RecipeTypesUrls(rts), RecipesUrls(recipes));
    urls := Sorting.SortStrings(KeepPrefixed(out.elems, base));
  }
}
