/** The pure helpers of the pack loader (loader.ts): base URLs, the item
    hash, merging inline recipe items into the item list, the `local:`
    selector, rewriting asset URLs of a local pack, and the choice of which
    zip entries are assets. */
module PackLoader {
  import opened Wrappers
  import opened Strings
  import opened PackTypes
  import opened InsertionSets
  import Sorting
  import AssetUrls

  /** `packBaseUrl`: `/packs/<encodeURIComponent(packId)>`. */
  function PackBaseUrl(encode: string -> string, packId: string): (r: string)
    ensures StartsWith(r, "/packs/") && |r| == 7 + |encode(packId)|
  {
    "/packs/" + encode(packId)
  }

  /** The base `collectPackAssetUrls` keeps is the pack base URL and a slash. */
  lemma AssetBaseUnderPackBase(encode: string -> string, packId: string)
    ensures AssetUrls.AssetBase(encode, packId) == PackBaseUrl(encode, packId) + "/"
    ensures StartsWith(AssetUrls.AssetBase(encode, packId), PackBaseUrl(encode, packId))
  {
    assert AssetUrls.AssetBase(encode, packId)[..|PackBaseUrl(encode, packId)|] == PackBaseUrl(encode, packId);
  }

  /** `${meta ?? ''}`: a number in decimal, a string as it is, nothing as "". */
  function MetaText(meta: Option<Meta>): string {
    match meta
    case None => ""
    case Some(MetaText(s)) => s
    case Some(MetaNumber(n)) => if n < 0 then "-" + NatToString(-n) else NatToString(n)
  }

  /** `itemKeyHash`: `id::meta::stableJson(nbt ?? null)`; `stableJson`
      receives `None` for `null`. */
  function ItemHash(stableJson: Option<Nbt> -> string, key: ItemKey): string {
    key.id + "::" + MetaText(key.meta) + "::" + stableJson(key.nbt)
  }

  /** Index of the first ':' (the length when there is none). */
  function ColonAt(s: string): (r: nat)
    ensures r <= |s|
    ensures forall i :: 0 <= i < r ==> s[i] != ':'
    ensures r < |s| ==> s[r] == ':'
  {
    if |s| == 0 || s[0] == ':' then 0 else 1 + ColonAt(s[1..])
  }

  lemma {:induction false} ColonAfter(a: string, rest: string)
    requires ':' !in a && |rest| > 0 && rest[0] == ':'
    ensures ColonAt(a + rest) == |a|
  {
    var s := a + rest;
    assert s[|a|] == ':';
    assert forall i :: 0 <= i < |a| ==> s[i] == a[i] && a[i] in a;
  }

  /** A "::" after a colon-free head can be found again: the head and the
      tail are determined by the joined text. */
  lemma SplitAtSeparator(a: string, x: string, c: string, y: string)
    requires ':' !in a && ':' !in c
    requires a + "::" + x == c + "::" + y
    ensures a == c && x == y
  {
    var l := a + "::" + x;
    ColonAfter(a, "::" + x);
    ColonAfter(c, "::" + y);
    assert a + ("::" + x) == l && c + ("::" + y) == l;
    assert a == l[..|a|] && c == l[..|c|];
    assert x == l[|a| + 2..] && y == l[|c| + 2..];
  }

  /** When ids and meta texts contain no ':', equal hashes mean equal ids,
      equal metas and equal serialised data. */
  lemma HashDeterminesFields(stableJson: Option<Nbt> -> string, k1: ItemKey, k2: ItemKey)
    requires ':' !in k1.id && ':' !in k2.id
    requires ':' !in MetaText(k1.meta) && ':' !in MetaText(k2.meta)
    requires ItemHash(stableJson, k1) == ItemHash(stableJson, k2)
    ensures k1.id == k2.id && MetaText(k1.meta) == MetaText(k2.meta) && stableJson(k1.nbt) == stableJson(k2.nbt)
  {
    var m1, m2 := MetaText(k1.meta), MetaText(k2.meta);
    var t1, t2 := m1 + "::" + stableJson(k1.nbt), m2 + "::" + stableJson(k2.nbt);
    assert k1.id + "::" + t1 == ItemHash(stableJson, k1);
    assert k2.id + "::" + t2 == ItemHash(stableJson, k2);
    SplitAtSeparator(k1.id, t1, k2.id, t2);
    SplitAtSeparator(m1, stableJson(k1.nbt), m2, stableJson(k2.nbt));
  }

  function HashOf(sj: Option<Nbt> -> string, it: ItemDef): string {
    ItemHash(sj, it.key)
  }

  function Hashes(sj: Option<Nbt> -> string, items: seq<ItemDef>): (r: seq<string>)
    ensures |r| == |items| && forall k :: 0 <= k < |items| ==> r[k] == HashOf(sj, items[k])
  {
    seq(|items|, k requires 0 <= k < |items| => HashOf(sj, items[k]))
  }

  /** The map from item hash to item. */
  type ItemMap = OrderedMap<string, ItemDef>

  /** Every pack item, by hash: a later item replaces an earlier one. */
  function PutItems(sj: Option<Nbt> -> string, m: ItemMap, items: seq<ItemDef>): (r: ItemMap)
    requires m.Valid()
    ensures r.Valid() && r.keys == AddAll(m.keys, Hashes(sj, items))
    decreases |items|
  {
    if |items| == 0 then m
    else
      var n := |items| - 1;
      assert Hashes(sj, items)[..n] == Hashes(sj, items[..n]);
      var q := PutItems(sj, m, items[..n]);
      q.Put(HashOf(sj, items[n]), items[n])
  }

  /** Every inline item whose hash is not yet a key. */
  function PutMissing(sj: Option<Nbt> -> string, m: ItemMap, items: seq<ItemDef>): (r: ItemMap)
    requires m.Valid()
    ensures r.Valid() && r.keys == AddAll(m.keys, Hashes(sj, items))
    decreases |items|
  {
    if |items| == 0 then m
    else
      var n := |items| - 1;
      assert Hashes(sj, items)[..n] == Hashes(sj, items[..n]);
      var q := PutMissing(sj, m, items[..n]);
      if HashOf(sj, items[n]) in q.entries then q else q.Put(HashOf(sj, items[n]), items[n])
  }

  /** The inline items of all recipes, in order. */
  function InlineItems(recipes: seq<Recipe>): seq<ItemDef>
    decreases |recipes|
  {
    if |recipes| == 0 then []
    else
      var n := |recipes| - 1;
      InlineItems(recipes[..n]) + (match recipes[n].inlineItems case Some(its) => its case None => [])
  }

  /** `mergeInlineItems`. */
  function MergeInlineItems(sj: Option<Nbt> -> string, items: seq<ItemDef>, recipes: seq<Recipe>): seq<ItemDef> {
    PutMissing(sj, PutItems(sj, OrderedMap([], map[]), items), InlineItems(recipes)).Values()
  }

  /** The last item of the list with hash `h`. */
  function LastWithHash(sj: Option<Nbt> -> string, items: seq<ItemDef>, h: string): (r: Option<ItemDef>)
    ensures r.None? <==> h !in Hashes(sj, items)
    ensures r.Some? ==> HashOf(sj, r.value) == h
    decreases |items|
  {
    if |items| == 0 then None
    else
      var n := |items| - 1;
      assert Hashes(sj, items) == Hashes(sj, items[..n]) + [HashOf(sj, items[n])];
      if HashOf(sj, items[n]) == h then Some(items[n]) else LastWithHash(sj, items[..n], h)
  }

  /** The first item of the list with hash `h`. */
  function FirstWithHash(sj: Option<Nbt> -> string, items: seq<ItemDef>, h: string): (r: Option<ItemDef>)
    ensures r.None? <==> h !in Hashes(sj, items)
    ensures r.Some? ==> HashOf(sj, r.value) == h
    decreases |items|
  {
    if |items| == 0 then None
    else
      var n := |items| - 1;
      assert Hashes(sj, items) == Hashes(sj, items[..n]) + [HashOf(sj, items[n])];
      var f := FirstWithHash(sj, items[..n], h);
      if f.Some? then f else if HashOf(sj, items[n]) == h then Some(items[n]) else None
  }

  /** After the pack items, each entry is the last pack item with its hash. */
  lemma {:induction false} PutItemsKeepsLast(sj: Option<Nbt> -> string, items: seq<ItemDef>)
    ensures var r := PutItems(sj, OrderedMap([], map[]), items);
      forall h :: h in r.entries ==> LastWithHash(sj, items, h) == Some(r.entries[h])
    decreases |items|
  {
    if |items| > 0 {
      PutItemsKeepsLast(sj, items[..|items| - 1]);
    }
  }

  /** Inline items never replace an entry; each new entry is the first
      inline item with its hash. */
  lemma {:induction false} PutMissingKeepsFirst(sj: Option<Nbt> -> string, m: ItemMap, inline: seq<ItemDef>)
    requires m.Valid()
    ensures var r := PutMissing(sj, m, inline);
      && (forall h :: h in m.entries ==> h in r.entries && r.entries[h] == m.entries[h])
      && (forall h :: h in r.entries && h !in m.entries ==> FirstWithHash(sj, inline, h) == Some(r.entries[h]))
    decreases |inline|
  {
    if |inline| > 0 {
      var n := |inline| - 1;
      PutMissingKeepsFirst(sj, m, inline[..n]);
      var q := PutMissing(sj, m, inline[..n]);
      var h := HashOf(sj, inline[n]);
      if h !in q.entries {
        assert h !in Hashes(sj, inline[..n]);
      }
    }
  }

  /** The item a merge keeps for hash `h`: the last pack item with it, or
      else the first inline item with it. */
  function Winner(sj: Option<Nbt> -> string, items: seq<ItemDef>, inline: seq<ItemDef>, h: string): Option<ItemDef> {
    var last := LastWithHash(sj, items, h);
    if last.Some? then last else FirstWithHash(sj, inline, h)
  }

  /** `mergeInlineItems` keeps one item per distinct hash, in order of
      first appearance across the pack items and then the inline items. */
  lemma MergeInlineItemsOrder(sj: Option<Nbt> -> string, items: seq<ItemDef>, recipes: seq<Recipe>)
    ensures var r := MergeInlineItems(sj, items, recipes);
      && Hashes(sj, r) == AddAll([], Hashes(sj, items + InlineItems(recipes)))
      && Sorting.Distinct(Hashes(sj, r))
  {
    var inline := InlineItems(recipes);
    var q := PutMissing(sj, PutItems(sj, OrderedMap([], map[]), items), inline);
    HashesAppend(sj, items, inline);
    AddAllAppend([], Hashes(sj, items), Hashes(sj, inline));
    assert Sorting.Distinct<string>([]);
    forall h | h in q.entries ensures HashOf(sj, q.entries[h]) == h {
      MergedEntryHash(sj, items, inline, h);
    }
    ValuesHashes(sj, q);
  }

  lemma HashesAppend(sj: Option<Nbt> -> string, a: seq<ItemDef>, b: seq<ItemDef>)
    ensures Hashes(sj, a + b) == Hashes(sj, a) + Hashes(sj, b)
  {
    var l, r := Hashes(sj, a + b), Hashes(sj, a) + Hashes(sj, b);
    forall k | 0 <= k < |l| ensures l[k] == r[k] {
      if k < |a| {
        assert (a + b)[k] == a[k];
      } else {
        assert (a + b)[k] == b[k - |a|];
      }
    }
  }

  /** When every entry is stored under its own hash, the hashes of the
      values are the keys. */
  lemma ValuesHashes(sj: Option<Nbt> -> string, q: ItemMap)
    requires q.Valid()
    requires forall h :: h in q.entries ==> HashOf(sj, q.entries[h]) == h
    ensures Hashes(sj, q.Values()) == q.keys
  {
    var r := q.Values();
    forall k | 0 <= k < |r| ensures Hashes(sj, r)[k] == q.keys[k] {
      assert q.keys[k] in q.entries;
    }
  }

  /** An entry of the merged map is stored under its own hash and is the winner for it. */
  lemma MergedEntryHash(sj: Option<Nbt> -> string, items: seq<ItemDef>, inline: seq<ItemDef>, h: string)
    requires h in PutMissing(sj, PutItems(sj, OrderedMap([], map[]), items), inline).entries
    ensures var e := PutMissing(sj, PutItems(sj, OrderedMap([], map[]), items), inline).entries[h];
      HashOf(sj, e) == h && Winner(sj, items, inline, h) == Some(e)
  {
    var m := PutItems(sj, OrderedMap([], map[]), items);
    PutItemsKeepsLast(sj, items);
    PutMissingKeepsFirst(sj, m, inline);
    if h !in m.entries {
      assert h !in Hashes(sj, items);
    }
  }

  /** A pack item beats an inline item, a later pack item beats an earlier
      one, and an earlier inline item beats a later one. */
  lemma MergeInlineItemsWinners(sj: Option<Nbt> -> string, items: seq<ItemDef>, recipes: seq<Recipe>)
    ensures var r := MergeInlineItems(sj, items, recipes);
      forall k :: 0 <= k < |r| ==> Winner(sj, items, InlineItems(recipes), HashOf(sj, r[k])) == Some(r[k])
  {
    var inline := InlineItems(recipes);
    var q := PutMissing(sj, PutItems(sj, OrderedMap([], map[]), items), inline);
    var r := q.Values();
    forall k | 0 <= k < |r| ensures Winner(sj, items, inline, HashOf(sj, r[k])) == Some(r[k]) {
      MergedEntryHash(sj, items, inline, q.keys[k]);
    }
  }

  /** The first `forEach`: every pack item, by hash. */
  method PutItemsLoop(sj: Option<Nbt> -> string, m: ItemMap, items: seq<ItemDef>) returns (r: ItemMap)
    requires m.Valid()
    ensures r == PutItems(sj, m, items)
  {
    r := m;
    for k := 0 to |items|
      invariant r.Valid() && r == PutItems(sj, m, items[..k])
    {
      PutItemsStep(sj, m, items, k);
      r := r.Put(HashOf(sj, items[k]), items[k]);
    }
    assert items[..|items|] == items;
  }

  lemma PutItemsStep(sj: Option<Nbt> -> string, m: ItemMap, items: seq<ItemDef>, k: nat)
    requires m.Valid() && k < |items|
    ensures PutItems(sj, m, items[..k + 1]) == PutItems(sj, m, items[..k]).Put(HashOf(sj, items[k]), items[k])
  {
    assert items[..k + 1][..k] == items[..k];
  }

  /** The inner `forEach` over one recipe's inline items. */
  method PutMissingLoop(sj: Option<Nbt> -> string, m: ItemMap, items: seq<ItemDef>) returns (r: ItemMap)
    requires m.Valid()
    ensures r == PutMissing(sj, m, items)
  {
    r := m;
    for k := 0 to |items|
      invariant r.Valid() && r == PutMissing(sj, m, items[..k])
    {
      var h := HashOf(sj, items[k]);
      PutMissingStep(sj, m, items, k);
      if h !in r.entries {
        r := r.Put(h, items[k]);
      }
    }
    assert items[..|items|] == items;
  }

  lemma PutMissingStep(sj: Option<Nbt> -> string, m: ItemMap, items: seq<ItemDef>, k: nat)
    requires m.Valid() && k < |items|
    ensures var q := PutMissing(sj, m, items[..k]);
      PutMissing(sj, m, items[..k + 1])
        == if HashOf(sj, items[k]) in q.entries then q else q.Put(HashOf(sj, items[k]), items[k])
  {
    assert items[..k + 1][..k] == items[..k];
  }

  /** `mergeInlineItems`, filling the map in the source's two passes. */
  method MergeInlineItemsLoop(sj: Option<Nbt> -> string, items: seq<ItemDef>, recipes: seq<Recipe>)
    returns (merged: seq<ItemDef>)
    ensures merged == MergeInlineItems(sj, items, recipes)
  {
    var byHash := PutItemsLoop(sj, OrderedMap([], map[]), items);
    ghost var afterItems := byHash;
    for j := 0 to |recipes|
      invariant byHash.Valid()
      invariant byHash == PutMissing(sj, afterItems, InlineItems(recipes[..j]))
    {
      assert recipes[..j + 1][..j] == recipes[..j];
      var its := match recipes[j].inlineItems case Some(its) => its case None => [];
      assert InlineItems(recipes[..j + 1]) == InlineItems(recipes[..j]) + its;
      byHash := PutMissingLoop(sj, byHash, its);
      PutMissingAppend(sj, afterItems, InlineItems(recipes[..j]), its);
    }
    assert recipes[..|recipes|] == recipes;
    merged := byHash.Values();
  }

  lemma {:induction false} PutMissingAppend(sj: Option<Nbt> -> string, m: ItemMap, a: seq<ItemDef>, b: seq<ItemDef>)
    requires m.Valid()
    ensures PutMissing(sj, PutMissing(sj, m, a), b) == PutMissing(sj, m, a + b)
    decreases |b|
  {
    if |b| == 0 {
      assert a + b == a;
    } else {
      var n := |b| - 1;
      var ab := a + b;
      assert ab[..|ab| - 1] == a + b[..n] && ab[|ab| - 1] == b[n];
      PutMissingAppend(sj, m, a, b[..n]);
      PutMissingLast(sj, PutMissing(sj, m, a), b);
      PutMissingLast(sj, m, ab);
    }
  }

  lemma PutMissingLast(sj: Option<Nbt> -> string, m: ItemMap, items: seq<ItemDef>)
    requires m.Valid() && |items| > 0
    ensures var n := |items| - 1;
      var q := PutMissing(sj, m, items[..n]);
      PutMissing(sj, m, items) == if HashOf(sj, items[n]) in q.entries then q else q.Put(HashOf(sj, items[n]), items[n])
  {
  }

  /** `localSelectorToId`: the trimmed text after `local:`, unless the
      prefix is missing or nothing but white space follows. */
  function LocalSelectorToId(sel: string): (r: Option<string>)
    ensures r.Some? <==> StartsWith(sel, "local:") && Trim(sel[6..]) != ""
    ensures r.Some? ==> r.value == Trim(sel[6..]) && IsTrimmed(r.value)
  {
    if !StartsWith(sel, "local:") then None
    else
      var id := Trim(sel[|"local:"|..]);
      TrimProperties(sel[6..]);
      if id != "" then Some(id) else None
  }

  /** A selector made from a trimmed, non-empty id gives that id back. */
  lemma LocalSelectorRoundTrip(id: string)
    requires id != "" && IsTrimmed(id)
    ensures LocalSelectorToId("local:" + id) == Some(id)
  {
    var sel := "local:" + id;
    assert sel[6..] == id;
    TrimProperties(id);
  }

  /** `rewriteUrl`: a URL under the pack base with an object URL in the map
      is replaced by it; every other URL is kept. */
  function RewriteUrl(base: string, urlByAbsolute: map<string, string>, u: string): (r: string)
    ensures r != u ==> StartsWith(u, base) && u in urlByAbsolute && r == urlByAbsolute[u]
    ensures StartsWith(u, base) && u in urlByAbsolute ==> r == urlByAbsolute[u]
  {
    if !StartsWith(u, base) then u
    else if u in urlByAbsolute then urlByAbsolute[u] else u
  }

  /** Object URLs never lie under the pack base (they are `blob:` URLs). */
  ghost predicate OutsideBase(base: string, urlByAbsolute: map<string, string>) {
    forall a :: a in urlByAbsolute ==> !StartsWith(urlByAbsolute[a], base)
  }

  /** Then rewriting twice is rewriting once. */
  lemma RewriteUrlIdempotent(base: string, urlByAbsolute: map<string, string>, u: string)
    requires OutsideBase(base, urlByAbsolute)
    ensures RewriteUrl(base, urlByAbsolute, RewriteUrl(base, urlByAbsolute, u)) == RewriteUrl(base, urlByAbsolute, u)
  {
  }

  /** `urlByAbsolute`: each asset's absolute path under the base maps to
      its object URL; for a repeated path the later asset wins. */
  function AssetUrlMap(base: string, assets: seq<(string, string)>): (m: map<string, string>)
    ensures forall a :: a in m <==> exists k :: 0 <= k < |assets| && a == base + assets[k].0
    ensures |assets| > 0 ==> m[base + assets[|assets| - 1].0] == assets[|assets| - 1].1
    decreases |assets|
  {
    if |assets| == 0 then map[]
    else
      var n := |assets| - 1;
      assert forall k :: 0 <= k < n ==> assets[..n][k] == assets[k];
      AssetUrlMap(base, assets[..n])[base + assets[n].0 := assets[n].1]
  }

  /** For each key, the later asset wins: the entry is the object URL of
      the last asset whose absolute path is that key. */
  lemma {:induction false} AssetUrlMapLastWins(base: string, assets: seq<(string, string)>, k: nat)
    requires k < |assets|
    requires forall j :: k < j < |assets| ==> assets[j].0 != assets[k].0
    ensures AssetUrlMap(base, assets)[base + assets[k].0] == assets[k].1
    decreases |assets|
  {
    var n := |assets| - 1;
    if k < n {
      var front := assets[..n];
      FrontKeepsLast(assets, front, k);
      AssetUrlMapLastWins(base, front, k);
      PrefixCancel(base, assets[n].0, assets[k].0);
      assert AssetUrlMap(base, assets) == AssetUrlMap(base, front)[base + assets[n].0 := assets[n].1];
    }
  }

  /** Asset `k`, last with its path, stays so without the final asset. */
  lemma FrontKeepsLast(assets: seq<(string, string)>, front: seq<(string, string)>, k: nat)
    requires k < |assets| - 1 && front == assets[..|assets| - 1]
    requires forall j :: k < j < |assets| ==> assets[j].0 != assets[k].0
    ensures front[k] == assets[k]
    ensures forall j :: k < j < |front| ==> front[j].0 != front[k].0
    ensures assets[|assets| - 1].0 != assets[k].0
  {
  }

  /** Different paths give different absolute URLs under one base. */
  lemma PrefixCancel(base: string, a: string, b: string)
    requires a != b
    ensures base + a != base + b
  {
    assert (base + a)[|base|..] == a && (base + b)[|base|..] == b;
  }

  /** Every asset's absolute URL is rewritten to an object URL. */
  lemma AssetUrlsAreRewritten(base: string, assets: seq<(string, string)>, k: nat)
    requires k < |assets|
    ensures var m := AssetUrlMap(base, assets);
      RewriteUrl(base, m, base + assets[k].0) == m[base + assets[k].0]
  {
    assert (base + assets[k].0)[..|base|] == base;
  }

  /** `if (field) field = rewriteUrl(field)`. */
  function RewriteField(base: string, m: map<string, string>, u: Option<string>): (r: Option<string>)
    ensures !Truthy(u) ==> r == u
    ensures Truthy(u) ==> r == Some(RewriteUrl(base, m, u.value))
  {
    if Truthy(u) then Some(RewriteUrl(base, m, u.value)) else u
  }

  /** `rewriteItem`: the icon and the sprite sheet URL, nothing else. */
  function RewriteItem(base: string, m: map<string, string>, it: ItemDef): (r: ItemDef)
    ensures r.key == it.key && r.name == it.name && r.iconSprite.Some? == it.iconSprite.Some?
  {
    it.(icon := RewriteField(base, m, it.icon),
        iconSprite := match it.iconSprite
                      case Some(sp) => Some(sp.(url := RewriteField(base, m, sp.url)))
                      case None => None)
  }

  /** `rewriteMachine`. */
  function RewriteMachine(base: string, m: map<string, string>, mc: Machine): (r: Machine)
    ensures r.id == mc.id && r.name == mc.name
  {
    mc.(icon := RewriteField(base, m, mc.icon))
  }

  function RewriteMachines(base: string, m: map<string, string>, ms: seq<Machine>): (r: seq<Machine>)
    ensures |r| == |ms| && forall k :: 0 <= k < |ms| ==> r[k] == RewriteMachine(base, m, ms[k])
  {
    seq(|ms|, k requires 0 <= k < |ms| => RewriteMachine(base, m, ms[k]))
  }

  function RewriteRecipeType(base: string, m: map<string, string>, rt: RecipeTypeDef): (r: RecipeTypeDef)
    ensures r.key == rt.key && r.slots == rt.slots
  {
    rt.(machine := match rt.machine
                   case NoMachine => NoMachine
                   case OneMachine(mc) => OneMachine(RewriteMachine(base, m, mc))
                   case MachineList(ms) => MachineList(RewriteMachines(base, m, ms)))
  }

  function RewriteItems(base: string, m: map<string, string>, items: seq<ItemDef>): (r: seq<ItemDef>)
    ensures |r| == |items| && forall k :: 0 <= k < |items| ==> r[k] == RewriteItem(base, m, items[k])
  {
    seq(|items|, k requires 0 <= k < |items| => RewriteItem(base, m, items[k]))
  }

  function RewriteRecipe(base: string, m: map<string, string>, rc: Recipe): (r: Recipe)
    ensures r.id == rc.id && r.recipeType == rc.recipeType && r.slotContents == rc.slotContents
  {
    match rc.inlineItems
    case None => rc
    case Some(its) => rc.(inlineItems := Some(RewriteItems(base, m, its)))
  }

  /** When object URLs lie outside the base, rewriting an item again changes nothing. */
  lemma RewriteItemIdempotent(base: string, m: map<string, string>, it: ItemDef)
    requires OutsideBase(base, m)
    ensures RewriteItem(base, m, RewriteItem(base, m, it)) == RewriteItem(base, m, it)
  {
    if Truthy(it.icon) {
      RewriteUrlIdempotent(base, m, it.icon.value);
    }
    if it.iconSprite.Some? && Truthy(it.iconSprite.value.url) {
      RewriteUrlIdempotent(base, m, it.iconSprite.value.url.value);
    }
  }

  /** The lists of a loaded local pack whose entries `resolveLocalPackAssetUrls` rewrites in place. */
  class LocalPack {
    var items: seq<ItemDef>
    var recipes: seq<Recipe>
    var recipeTypes: seq<RecipeTypeDef>

    constructor(items: seq<ItemDef>, recipes: seq<Recipe>, recipeTypes: seq<RecipeTypeDef>)
      ensures this.items == items && this.recipes == recipes && this.recipeTypes == recipeTypes
    {
      this.items, this.recipes, this.recipeTypes := items, recipes, recipeTypes;
    }

    /** The three `forEach` passes of `resolveLocalPackAssetUrls`. */
    method RewriteAssetUrls(base: string, urlByAbsolute: map<string, string>)
      modifies this
      ensures items == RewriteItems(base, urlByAbsolute, old(items))
      ensures |recipes| == |old(recipes)|
        && forall k :: 0 <= k < |recipes| ==> recipes[k] == RewriteRecipe(base, urlByAbsolute, old(recipes)[k])
      ensures |recipeTypes| == |old(recipeTypes)|
        && forall k :: 0 <= k < |recipeTypes| ==>
             recipeTypes[k] == RewriteRecipeType(base, urlByAbsolute, old(recipeTypes)[k])
    {
      for k := 0 to |items|
        invariant recipes == old(recipes) && recipeTypes == old(recipeTypes)
        invariant |items| == |old(items)|
        invariant forall j :: 0 <= j < k ==> items[j] == RewriteItem(base, urlByAbsolute, old(items)[j])
        invariant forall j :: k <= j < |items| ==> items[j] == old(items)[j]
      {
        items := items[k := RewriteItem(base, urlByAbsolute, items[k])];
      }
      for k := 0 to |recipes|
        invariant items == RewriteItems(base, urlByAbsolute, old(items)) && recipeTypes == old(recipeTypes)
        invariant |recipes| == |old(recipes)|
        invariant forall j :: 0 <= j < k ==> recipes[j] == RewriteRecipe(base, urlByAbsolute, old(recipes)[j])
        invariant forall j :: k <= j < |recipes| ==> recipes[j] == old(recipes)[j]
      {
        recipes := recipes[k := RewriteRecipe(base, urlByAbsolute, recipes[k])];
      }
      for k := 0 to |recipeTypes|
        invariant items == RewriteItems(base, urlByAbsolute, old(items))
        invariant |recipes| == |old(recipes)|
        invariant forall j :: 0 <= j < |recipes| ==> recipes[j] == RewriteRecipe(base, urlByAbsolute, old(recipes)[j])
        invariant |recipeTypes| == |old(recipeTypes)|
        invariant forall j :: 0 <= j < k ==> recipeTypes[j] == RewriteRecipeType(base, urlByAbsolute, old(recipeTypes)[j])
        invariant forall j :: k <= j < |recipeTypes| ==> recipeTypes[j] == old(recipeTypes)[j]
      {
        recipeTypes := recipeTypes[k := RewriteRecipeType(base, urlByAbsolute, recipeTypes[k])];
      }
    }
  }

  /** A zip entry: its path and whether it is a directory. */
  datatype ZipEntry = ZipEntry(path: string, dir: bool)

  /** The asset path of an entry, if it is one: a file under `baseDir`
      with a non-empty relative path that is neither the manifest nor one
      of the four declared data files. */
  function AssetPath(e: ZipEntry, baseDir: string, files: PackFiles): (r: Option<string>)
    ensures r.Some? <==>
      && !e.dir && StartsWith(e.path, baseDir)
      && var rel := e.path[|baseDir|..];
         rel != "" && rel != "manifest.json" && files.items != Some(rel) && files.tags != Some(rel)
         && rel != files.recipeTypes && rel != files.recipes
    ensures r.Some? ==> e.path == baseDir + r.value
  {
    if e.dir || !StartsWith(e.path, baseDir) then None
    else
      var rel := e.path[|baseDir|..];
      assert e.path == baseDir + rel;
      if rel == "" || rel == "manifest.json" || files.items == Some(rel) || files.tags == Some(rel)
         || rel == files.recipeTypes || rel == files.recipes
      then None
      else Some(rel)
  }

  function AssetPaths(entries: seq<ZipEntry>, baseDir: string, files: PackFiles): (r: seq<string>)
    ensures |r| <= |entries|
    ensures forall rel :: rel in r <==> exists k :: 0 <= k < |entries| && AssetPath(entries[k], baseDir, files) == Some(rel)
    decreases |entries|
  {
    if |entries| == 0 then []
    else
      var n := |entries| - 1;
      assert forall k :: 0 <= k < n ==> entries[..n][k] == entries[k];
      var p := AssetPath(entries[n], baseDir, files);
      AssetPaths(entries[..n], baseDir, files) + (if p.Some? then [p.value] else [])
  }

  /** The `zip.forEach` pass of `zipToPackData` that lists the assets. */
  method CollectAssetPaths(entries: seq<ZipEntry>, baseDir: string, files: PackFiles) returns (assets: seq<string>)
    ensures assets == AssetPaths(entries, baseDir, files)
  {
    assets := [];
    for k := 0 to |entries|
      invariant assets == AssetPaths(entries[..k], baseDir, files)
    {
      assert entries[..k + 1][..k] == entries[..k];
      var e := entries[k];
      if e.dir { continue; }
      if !StartsWith(e.path, baseDir) { continue; }
      var rel := e.path[|baseDir|..];
      if rel == "" { continue; }
      if rel == "manifest.json" { continue; }
      if files.items == Some(rel) { continue; }
      if files.tags == Some(rel) { continue; }
      if rel == files.recipeTypes { continue; }
      if rel == files.recipes { continue; }
      assets := assets + [rel];
    }
    assert entries[..|entries|] == entries;
  }
}
