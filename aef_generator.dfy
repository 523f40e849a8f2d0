/** The data-shaping part of the AEF pack generator (generate-aef-pack.mjs):
    namespaced item ids, amount parsing, the slot layout of a recipe type,
    the per-category slot maxima, the numbering of a recipe's slots and the
    grouping of items into category tags. */
module AefGenerator {
  import opened Wrappers
  import opened Strings
  import opened PackTypes
  import opened InsertionSets
  import Sorting

  const ItemPrefix := "aef.vanilla."

  /** `namespacedItemId`: the prefix, then the raw id, which can be read back. */
  function NamespacedItemId(id: string): (r: string)
    ensures StartsWith(r, ItemPrefix) && r[|ItemPrefix|..] == id
  {
    ItemPrefix + id
  }

  /** The prefix does not change how two ids compare. */
  lemma {:induction false} PrefixKeepsOrder(p: string, a: string, b: string)
    ensures StrLe(p + a, p + b) == StrLe(a, b)
    decreases |p|
  {
    if |p| == 0 {
      assert p + a == a && p + b == b;
    } else {
      assert (p + a)[0] == p[0] == (p + b)[0];
      assert (p + a)[1..] == p[1..] + a && (p + b)[1..] == p[1..] + b;
      PrefixKeepsOrder(p[1..], a, b);
    }
  }

  /** A JSON value where the source expects an amount. */
  datatype JsonValue = JNumber(n: RawNumber) | JString(s: string) | JOther

  /** What `parseAmount` returns: a number, or the string it could not read. */
  datatype Amount = AmountNumber(value: real) | AmountText(text: string)

  /** `Number(v)` and `Number.parseFloat(v)` on a string, failing when the
      result is not finite. */
  datatype Parsers = Parsers(toNumber: string -> Option<real>, parseFloat: string -> Option<real>)

  /** `parseAmount`: a finite number as it is; a string through `Number`,
      then `parseFloat`, else the string itself; anything else is 1. */
  function ParseAmount(p: Parsers, v: JsonValue): (r: Amount)
    ensures r.AmountText? <==> v.JString? && p.toNumber(v.s).None? && p.parseFloat(v.s).None?
    ensures r.AmountText? ==> r.text == v.s
    ensures v.JNumber? && v.n.Finite? ==> r == AmountNumber(v.n.value)
    ensures !v.JString? && !(v.JNumber? && v.n.Finite?) ==> r == AmountNumber(1.0)
  {
    match v
    case JNumber(Finite(x)) => AmountNumber(x)
    case JString(s) =>
      if p.toNumber(s).Some? then AmountNumber(p.toNumber(s).value)
      else if p.parseFloat(s).Some? then AmountNumber(p.parseFloat(s).value)
      else AmountText(s)
    case _ => AmountNumber(1.0)
  }

  // ----- slot layout -----

  function MaxNat(a: nat, b: nat): nat {
    if a >= b then a else b
  }

  function MinNat(a: nat, b: nat): nat {
    if a <= b then a else b
  }

  /** `n || 1` on a count. */
  function OrOne(n: nat): nat {
    if n == 0 then 1 else n
  }

  /** `Math.ceil(a / b)` on natural numbers. */
  function CeilDiv(a: nat, b: nat): (r: nat)
    requires b > 0
    ensures a <= r * b && r * b < a + b
  {
    var q := (a + b - 1) / b;
    assert a + b - 1 == q * b + (a + b - 1) % b;
    q
  }

  /** Input columns: as many as inputs, between 1 and 3. */
  function InCols(maxIn: nat): (r: nat)
    ensures 1 <= r <= 3 && (maxIn <= 3 ==> r == OrOne(maxIn))
  {
    MaxNat(1, MinNat(3, OrOne(maxIn)))
  }

  /** Output columns: as many as outputs, between 1 and 2. */
  function OutCols(maxOut: nat): (r: nat)
    ensures 1 <= r <= 2 && (maxOut <= 2 ==> r == OrOne(maxOut))
  {
    MaxNat(1, MinNat(2, OrOne(maxOut)))
  }

  const CatCols: nat := 3

  /** The first catalyst row: one below the taller of the input and output grids. */
  function BaseY(maxIn: nat, maxOut: nat): nat {
    MaxNat(CeilDiv(maxIn, InCols(maxIn)), CeilDiv(maxOut, OutCols(maxOut))) + 1
  }

  /** A slot of a generated recipe type. */
  datatype LayoutSlot = LayoutSlot(slotId: string, io: SlotIo, accept: seq<string>, x: int, y: int, slotLabel: string)

  /** Input `i`: `in<i+1>`, accepting items and tags, in row-major order. */
  function InputSlot(i: nat, inCols: nat): LayoutSlot
    requires inCols > 0
  {
    LayoutSlot("in" + NatToString(i + 1), Input, ["item", "tag"], i % inCols, i / inCols, "In")
  }

  /** Output `i`: `out<i+1>`, in a grid starting one column right of the inputs. */
  function OutputSlot(i: nat, inCols: nat, outCols: nat): LayoutSlot
    requires outCols > 0
  {
    LayoutSlot("out" + NatToString(i + 1), Output, ["item"], inCols + 1 + i % outCols, i / outCols, "Out")
  }

  /** Catalyst `i`: `cat<i+1>`, three to a row from `baseY` down. */
  function CatalystSlot(i: nat, baseY: nat): LayoutSlot {
    LayoutSlot("cat" + NatToString(i + 1), Catalyst, ["item"], i % CatCols, baseY + i / CatCols, "Machine")
  }

  /** Slot number `k` of the layout: inputs first, then outputs, then catalysts. */
  function SlotAt(maxIn: nat, maxOut: nat, k: nat): LayoutSlot {
    if k < maxIn then InputSlot(k, InCols(maxIn))
    else if k < maxIn + maxOut then OutputSlot(k - maxIn, InCols(maxIn), OutCols(maxOut))
    else CatalystSlot(k - maxIn - maxOut, BaseY(maxIn, maxOut))
  }

  /** The slots `buildSlots(maxIn, maxOut, maxCat)` returns. */
  function SlotLayout(maxIn: nat, maxOut: nat, maxCat: nat): seq<LayoutSlot> {
    seq(maxIn + maxOut + maxCat, k requires 0 <= k => SlotAt(maxIn, maxOut, k))
  }

  /** A slot list made of the inputs, then the outputs, then the
      catalysts, each in order, is the layout. */
  lemma LayoutFromParts(maxIn: nat, maxOut: nat, maxCat: nat, slots: seq<LayoutSlot>)
    requires |slots| == maxIn + maxOut + maxCat
    requires forall k :: 0 <= k < maxIn ==> slots[k] == InputSlot(k, InCols(maxIn))
    requires forall k :: 0 <= k < maxOut ==> slots[maxIn + k] == OutputSlot(k, InCols(maxIn), OutCols(maxOut))
    requires forall k :: 0 <= k < maxCat ==> slots[maxIn + maxOut + k] == CatalystSlot(k, BaseY(maxIn, maxOut))
    ensures slots == SlotLayout(maxIn, maxOut, maxCat)
  {
    var layout := SlotLayout(maxIn, maxOut, maxCat);
    forall k | 0 <= k < |slots|
      ensures slots[k] == layout[k]
    {
      if k < maxIn {
      } else if k < maxIn + maxOut {
        assert slots[maxIn + (k - maxIn)] == OutputSlot(k - maxIn, InCols(maxIn), OutCols(maxOut));
      } else {
        assert slots[maxIn + maxOut + (k - maxIn - maxOut)] == CatalystSlot(k - maxIn - maxOut, BaseY(maxIn, maxOut));
      }
    }
  }

  /** `buildSlots`: three counted loops pushing input, output and catalyst slots. */
  method BuildSlots(maxIn: nat, maxOut: nat, maxCat: nat) returns (slots: seq<LayoutSlot>)
    ensures slots == SlotLayout(maxIn, maxOut, maxCat)
  {
    slots := [];
    var inCols := MaxNat(1, MinNat(3, OrOne(maxIn)));
    for i := 0 to maxIn
      invariant |slots| == i
      invariant forall k :: 0 <= k < i ==> slots[k] == InputSlot(k, inCols)
    {
      slots := slots + [InputSlot(i, inCols)];
    }
    var outCols := MaxNat(1, MinNat(2, OrOne(maxOut)));
    for i := 0 to maxOut
      invariant |slots| == maxIn + i
      invariant forall k :: 0 <= k < maxIn ==> slots[k] == InputSlot(k, inCols)
      invariant forall k :: 0 <= k < i ==> slots[maxIn + k] == OutputSlot(k, inCols, outCols)
    {
      slots := slots + [OutputSlot(i, inCols, outCols)];
    }
    var baseY := MaxNat(CeilDiv(maxIn, inCols), CeilDiv(maxOut, outCols)) + 1;
    for i := 0 to maxCat
      invariant |slots| == maxIn + maxOut + i
      invariant forall k :: 0 <= k < maxIn ==> slots[k] == InputSlot(k, inCols)
      invariant forall k :: 0 <= k < maxOut ==> slots[maxIn + k] == OutputSlot(k, inCols, outCols)
      invariant forall k :: 0 <= k < i ==> slots[maxIn + maxOut + k] == CatalystSlot(k, baseY)
    {
      slots := slots + [CatalystSlot(i, baseY)];
    }
    LayoutFromParts(maxIn, maxOut, maxCat, slots);
  }



  /** A row index stays below the row count `ceil(n / c)`. */
  lemma RowBelowCeil(i: nat, n: nat, c: nat)
    requires i < n && c > 0
    ensures i / c < CeilDiv(n, c)
  {
    var q := i / c;
    var r := CeilDiv(n, c);
    assert q * c <= i by {
      assert i == q * c + i % c;
    }
    if q >= r {
      MulMonotone(r, q, c);
    }
  }

  lemma MulMonotone(a: nat, b: nat, c: nat)
    requires a <= b
    ensures a * c <= b * c
  {
    assert b * c == a * c + (b - a) * c;
  }

  /** Column and row determine the index in a grid of `c` columns. */
  lemma GridCellUnique(i: nat, j: nat, c: nat)
    requires c > 0 && i != j
    ensures i % c != j % c || i / c != j / c
  {
    assert i == (i / c) * c + i % c;
    assert j == (j / c) * c + j % c;
  }

  /** Cell `i` of a grid of `cols` columns and `n` cells lies in the
      first `ceil(n / cols)` rows. */
  lemma GridCellBounds(i: nat, n: nat, cols: nat)
    requires i < n && cols > 0
    ensures 0 <= i % cols < cols && 0 <= i / cols < CeilDiv(n, cols)
  {
    RowBelowCeil(i, n, cols);
  }

  /** Inputs fill a grid of at most three columns, outputs a grid of at most
      two columns one column to the right of it, and catalysts start on a
      row below both. */
  lemma SlotLayoutRegions(maxIn: nat, maxOut: nat, maxCat: nat, k: nat)
    requires k < maxIn + maxOut + maxCat
    ensures var s := SlotLayout(maxIn, maxOut, maxCat)[k];
      var inCols, baseY := InCols(maxIn), BaseY(maxIn, maxOut);
      && (k < maxIn ==> 0 <= s.x < inCols <= 3 && 0 <= s.y < baseY - 1)
      && (maxIn <= k < maxIn + maxOut ==>
            inCols + 1 <= s.x < inCols + 1 + OutCols(maxOut) && 0 <= s.y < baseY - 1)
      && (maxIn + maxOut <= k ==> 0 <= s.x < CatCols && s.y >= baseY)
  {
    var inCols, outCols := InCols(maxIn), OutCols(maxOut);
    assert SlotLayout(maxIn, maxOut, maxCat)[k] == SlotAt(maxIn, maxOut, k);
    if k < maxIn {
      GridCellBounds(k, maxIn, inCols);
      assert SlotAt(maxIn, maxOut, k) == InputSlot(k, inCols);
    } else if k < maxIn + maxOut {
      GridCellBounds(k - maxIn, maxOut, outCols);
      assert SlotAt(maxIn, maxOut, k) == OutputSlot(k - maxIn, inCols, outCols);
    } else {
      var i := k - maxIn - maxOut;
      assert 0 <= i % CatCols < CatCols && i / CatCols >= 0;
      assert SlotAt(maxIn, maxOut, k) == CatalystSlot(i, BaseY(maxIn, maxOut));
    }
  }

  /** No two slots of a layout share a cell. */
  lemma SlotLayoutNoOverlap(maxIn: nat, maxOut: nat, maxCat: nat, a: nat, b: nat)
    requires a < b < maxIn + maxOut + maxCat
    ensures var r := SlotLayout(maxIn, maxOut, maxCat);
      r[a].x != r[b].x || r[a].y != r[b].y
  {
    var r := SlotLayout(maxIn, maxOut, maxCat);
    var inCols, outCols := InCols(maxIn), OutCols(maxOut);
    assert r[a] == SlotAt(maxIn, maxOut, a) && r[b] == SlotAt(maxIn, maxOut, b);
    if b < maxIn {
      GridCellUnique(a, b, inCols);
      assert r[a] == InputSlot(a, inCols) && r[b] == InputSlot(b, inCols);
    } else if maxIn <= a && b < maxIn + maxOut {
      GridCellUnique(a - maxIn, b - maxIn, outCols);
      assert r[a] == OutputSlot(a - maxIn, inCols, outCols) && r[b] == OutputSlot(b - maxIn, inCols, outCols);
    } else if maxIn + maxOut <= a {
      GridCellUnique(a - maxIn - maxOut, b - maxIn - maxOut, CatCols);
      var baseY := BaseY(maxIn, maxOut);
      assert r[a] == CatalystSlot(a - maxIn - maxOut, baseY) && r[b] == CatalystSlot(b - maxIn - maxOut, baseY);
    } else {
      SlotLayoutRegions(maxIn, maxOut, maxCat, a);
      SlotLayoutRegions(maxIn, maxOut, maxCat, b);
    }
  }

  // ----- per-category slot maxima -----

  /** A recipe of the source data; an absent object field is `None`, and a
      JSON object is the list of its entries. */
  datatype SourceRecipe = SourceRecipe(
    id: string,
    category: Option<string>,
    ins: Option<seq<(string, JsonValue)>>,
    outs: Option<seq<(string, JsonValue)>>,
    catalyst: Option<seq<(string, JsonValue)>>,
    producers: Option<seq<string>>,
    time: Option<JsonValue>,
    usage: Option<JsonValue>,
    cost: Option<JsonValue>)

  /** `Object.entries(o ?? {})`. */
  function Entries(o: Option<seq<(string, JsonValue)>>): seq<(string, JsonValue)> {
    o.GetOr([])
  }

  /** `r.category ?? 'unknown'`. */
  function CategoryOf(r: SourceRecipe): string {
    r.category.GetOr("unknown")
  }

  datatype SlotCounts = SlotCounts(ins: nat, outs: nat, cats: nat)

  /** Inputs, outputs, and catalysts plus producers of one recipe. */
  function CountsOf(r: SourceRecipe): SlotCounts {
    SlotCounts(|Entries(r.ins)|, |Entries(r.outs)|, |Entries(r.catalyst)| + |r.producers.GetOr([])|)
  }

  function MaxCounts(a: SlotCounts, b: SlotCounts): SlotCounts {
    SlotCounts(MaxNat(a.ins, b.ins), MaxNat(a.outs, b.outs), MaxNat(a.cats, b.cats))
  }

  function Categories(recipes: seq<SourceRecipe>): (r: seq<string>)
    ensures |r| == |recipes| && forall k :: 0 <= k < |recipes| ==> r[k] == CategoryOf(recipes[k])
  {
    seq(|recipes|, k requires 0 <= k < |recipes| => CategoryOf(recipes[k]))
  }

  type CategoryMap = OrderedMap<string, SlotCounts>

  /** One step of the `maxByCategory` loop. */
  function RaiseMaxima(m: CategoryMap, r: SourceRecipe): (q: CategoryMap)
    requires m.Valid()
    ensures q.Valid() && q.keys == Add(m.keys, CategoryOf(r))
  {
    var cat := CategoryOf(r);
    var cur := if cat in m.entries then m.entries[cat] else SlotCounts(0, 0, 0);
    m.Put(cat, MaxCounts(cur, CountsOf(r)))
  }

  /** `maxByCategory` after the loop: categories in order of first use. */
  function CategoryMaxima(recipes: seq<SourceRecipe>): (m: CategoryMap)
    ensures m.Valid()
    decreases |recipes|
  {
    if |recipes| == 0 then OrderedMap([], map[])
    else RaiseMaxima(CategoryMaxima(recipes[..|recipes| - 1]), recipes[|recipes| - 1])
  }

  /** The categories appear in order of first use, each once. */
  lemma {:induction false} CategoryMaximaKeys(recipes: seq<SourceRecipe>)
    ensures CategoryMaxima(recipes).keys == AddAll([], Categories(recipes))
    decreases |recipes|
  {
    if |recipes| > 0 {
      var n := |recipes| - 1;
      var cats := Categories(recipes);
      assert cats[..n] == Categories(recipes[..n]);
      CategoryMaximaKeys(recipes[..n]);
      CategoryMaximaKeysStep(recipes);
    }
  }

  lemma CategoryMaximaKeysStep(recipes: seq<SourceRecipe>)
    requires |recipes| > 0
    ensures var n := |recipes| - 1;
      && CategoryMaxima(recipes).keys == Add(CategoryMaxima(recipes[..n]).keys, CategoryOf(recipes[n]))
      && AddAll([], Categories(recipes)) == Add(AddAll([], Categories(recipes)[..n]), CategoryOf(recipes[n]))
  {
  }

  /** `v` bounds the counts of every recipe of category `c`. */
  ghost predicate Bounds(recipes: seq<SourceRecipe>, c: string, v: SlotCounts) {
    forall k :: 0 <= k < |recipes| && CategoryOf(recipes[k]) == c ==>
      CountsOf(recipes[k]).ins <= v.ins && CountsOf(recipes[k]).outs <= v.outs && CountsOf(recipes[k]).cats <= v.cats
  }

  /** Each count of `v` is the count of some recipe of category `c`. */
  ghost predicate Attained(recipes: seq<SourceRecipe>, c: string, v: SlotCounts) {
    && (exists k :: 0 <= k < |recipes| && CategoryOf(recipes[k]) == c && CountsOf(recipes[k]).ins == v.ins)
    && (exists k :: 0 <= k < |recipes| && CategoryOf(recipes[k]) == c && CountsOf(recipes[k]).outs == v.outs)
    && (exists k :: 0 <= k < |recipes| && CategoryOf(recipes[k]) == c && CountsOf(recipes[k]).cats == v.cats)
  }

  /** Every recipe's category is a key. */
  lemma {:induction false} CategoryPresent(recipes: seq<SourceRecipe>, j: nat)
    requires j < |recipes|
    ensures CategoryOf(recipes[j]) in CategoryMaxima(recipes).keys
    ensures CategoryOf(recipes[j]) in CategoryMaxima(recipes).entries
  {
    CategoryMaximaKeys(recipes);
    assert Categories(recipes)[j] == CategoryOf(recipes[j]);
    assert CategoryOf(recipes[j]) in Categories(recipes);
  }

  /** One recipe more changes only its own category's entry. */
  lemma {:induction false} CategoryMaximaStep(recipes: seq<SourceRecipe>, c: string)
    requires |recipes| > 0
    ensures var n := |recipes| - 1;
      var q := CategoryMaxima(recipes[..n]);
      var m := CategoryMaxima(recipes);
      && (c in m.entries <==> c in q.entries || c == CategoryOf(recipes[n]))
      && (c in q.entries && c != CategoryOf(recipes[n]) ==> m.entries[c] == q.entries[c])
      && (c == CategoryOf(recipes[n]) && c in q.entries ==> m.entries[c] == MaxCounts(q.entries[c], CountsOf(recipes[n])))
      && (c == CategoryOf(recipes[n]) && c !in q.entries ==> m.entries[c] == CountsOf(recipes[n]))
  {
    var n := |recipes| - 1;
    assert CategoryMaxima(recipes) == RaiseMaxima(CategoryMaxima(recipes[..n]), recipes[n]);
  }

  /** The maxima of a category bound the counts of each of its recipes. */
  lemma {:induction false} CategoryMaximaBound(recipes: seq<SourceRecipe>, k: nat)
    requires k < |recipes|
    ensures var m := CategoryMaxima(recipes);
      var c := CategoryOf(recipes[k]);
      && c in m.entries
      && CountsOf(recipes[k]).ins <= m.entries[c].ins
      && CountsOf(recipes[k]).outs <= m.entries[c].outs
      && CountsOf(recipes[k]).cats <= m.entries[c].cats
    decreases |recipes|
  {
    var n := |recipes| - 1;
    if k < n {
      var front := recipes[..n];
      assert front[k] == recipes[k];
      CategoryMaximaBound(front, k);
      CategoryMaximaGrows(recipes, CategoryOf(recipes[k]));
    } else {
      CategoryMaximaLast(recipes);
    }
  }

  /** The last recipe's counts are bounded by its category's entry. */
  lemma CategoryMaximaLast(recipes: seq<SourceRecipe>)
    requires |recipes| > 0
    ensures var m := CategoryMaxima(recipes);
      var r := recipes[|recipes| - 1];
      && CategoryOf(r) in m.entries
      && CountsOf(r).ins <= m.entries[CategoryOf(r)].ins
      && CountsOf(r).outs <= m.entries[CategoryOf(r)].outs
      && CountsOf(r).cats <= m.entries[CategoryOf(r)].cats
  {
    var n := |recipes| - 1;
    var c := CategoryOf(recipes[n]);
    var q := CategoryMaxima(recipes[..n]);
    CategoryMaximaStep(recipes, c);
    if c in q.entries {
      MaxCountsBounds(q.entries[c], CountsOf(recipes[n]));
    }
  }

  /** One recipe more never lowers an existing entry. */
  lemma CategoryMaximaGrows(recipes: seq<SourceRecipe>, c: string)
    requires |recipes| > 0 && c in CategoryMaxima(recipes[..|recipes| - 1]).entries
    ensures var q := CategoryMaxima(recipes[..|recipes| - 1]).entries[c];
      var m := CategoryMaxima(recipes);
      && c in m.entries
      && q.ins <= m.entries[c].ins && q.outs <= m.entries[c].outs && q.cats <= m.entries[c].cats
  {
    var n := |recipes| - 1;
    var q := CategoryMaxima(recipes[..n]);
    CategoryMaximaStep(recipes, c);
    if c == CategoryOf(recipes[n]) {
      MaxCountsBounds(q.entries[c], CountsOf(recipes[n]));
    }
  }

  lemma MaxCountsBounds(a: SlotCounts, b: SlotCounts)
    ensures var m := MaxCounts(a, b);
      && a.ins <= m.ins && a.outs <= m.outs && a.cats <= m.cats
      && b.ins <= m.ins && b.outs <= m.outs && b.cats <= m.cats
  {
  }

  /** Each maximum is the count of one of the category's recipes. */
  lemma {:induction false} CategoryMaximaAttained(recipes: seq<SourceRecipe>, c: string)
    returns (ki: nat, ko: nat, kc: nat)
    requires c in CategoryMaxima(recipes).entries
    ensures var v := CategoryMaxima(recipes).entries[c];
      && ki < |recipes| && CategoryOf(recipes[ki]) == c && CountsOf(recipes[ki]).ins == v.ins
      && ko < |recipes| && CategoryOf(recipes[ko]) == c && CountsOf(recipes[ko]).outs == v.outs
      && kc < |recipes| && CategoryOf(recipes[kc]) == c && CountsOf(recipes[kc]).cats == v.cats
    decreases |recipes|
  {
    var n := |recipes| - 1;
    var front := recipes[..n];
    var q := CategoryMaxima(front);
    var last := CountsOf(recipes[n]);
    CategoryMaximaStep(recipes, c);
    if c in q.entries {
      var prev := q.entries[c];
      ki, ko, kc := CategoryMaximaAttained(front, c);
      assert front[ki] == recipes[ki] && front[ko] == recipes[ko] && front[kc] == recipes[kc];
      if c == CategoryOf(recipes[n]) {
        if last.ins >= prev.ins { ki := n; }
        if last.outs >= prev.outs { ko := n; }
        if last.cats >= prev.cats { kc := n; }
      }
    } else {
      ki, ko, kc := n, n, n;
    }
  }

  /** The maxima of each category are exactly the largest counts among its recipes. */
  lemma CategoryMaximaExact(recipes: seq<SourceRecipe>, c: string)
    requires c in CategoryMaxima(recipes).entries
    ensures Bounds(recipes, c, CategoryMaxima(recipes).entries[c])
    ensures Attained(recipes, c, CategoryMaxima(recipes).entries[c])
  {
    forall k | 0 <= k < |recipes| && CategoryOf(recipes[k]) == c {
      CategoryMaximaBound(recipes, k);
    }
    var ki, ko, kc := CategoryMaximaAttained(recipes, c);
  }

  /** The `maxByCategory` loop. */
  method MaxByCategory(recipes: seq<SourceRecipe>) returns (m: CategoryMap)
    ensures m == CategoryMaxima(recipes)
  {
    m := OrderedMap([], map[]);
    for k := 0 to |recipes|
      invariant m.Valid() && m == CategoryMaxima(recipes[..k])
    {
      assert recipes[..k + 1][..k] == recipes[..k];
      var r := recipes[k];
      var cat := r.category.GetOr("unknown");
      var cur := if cat in m.entries then m.entries[cat] else SlotCounts(0, 0, 0);
      var c := CountsOf(r);
      cur := SlotCounts(MaxNat(cur.ins, c.ins), MaxNat(cur.outs, c.outs), MaxNat(cur.cats, c.cats));
      m := m.Put(cat, cur);
    }
    assert recipes[..|recipes|] == recipes;
  }

  // ----- recipe types -----

  /** A generated recipe type; its renderer and parameter schema are constants. */
  datatype AefRecipeType = AefRecipeType(key: string, displayName: string, slots: seq<LayoutSlot>)

  function CategoryKey(cat: string): string {
    "aef:category/" + cat
  }

  /** `categoryNameById.get(cat) ?? cat`. */
  function DisplayName(names: map<string, Option<string>>, cat: string): string {
    if cat in names && names[cat].Some? then names[cat].value else cat
  }

  function RecipeTypeFor(names: map<string, Option<string>>, cat: string, max: SlotCounts): AefRecipeType {
    AefRecipeType(CategoryKey(cat), DisplayName(names, cat), SlotLayout(max.ins, max.outs, max.cats))
  }

  function TypeDisplayName(t: AefRecipeType): string {
    t.displayName
  }

  /** The recipe types in the order of the map, before sorting. */
  function RecipeTypesUnsorted(names: map<string, Option<string>>, m: CategoryMap): (r: seq<AefRecipeType>)
    requires m.Valid()
    ensures |r| == |m.keys|
    ensures forall i :: 0 <= i < |r| ==> r[i] == RecipeTypeFor(names, m.keys[i], m.entries[m.keys[i]])
  {
    seq(|m.keys|, i requires 0 <= i < |m.keys| => RecipeTypeFor(names, m.keys[i], m.entries[m.keys[i]]))
  }

  /** The recipe types, one per category, sorted by display name (stably,
      like `Array.prototype.sort`). */
  function RecipeTypes(names: map<string, Option<string>>, recipes: seq<SourceRecipe>): (r: seq<AefRecipeType>)
    ensures multiset(r) == multiset(RecipeTypesUnsorted(names, CategoryMaxima(recipes)))
  {
    Sorting.InsertionSort(RecipeTypesUnsorted(names, CategoryMaxima(recipes)), Sorting.ByKey(TypeDisplayName))
  }

  lemma RecipeTypesSorted(names: map<string, Option<string>>, recipes: seq<SourceRecipe>)
    ensures Sorting.SortedBy(RecipeTypes(names, recipes), Sorting.ByKey(TypeDisplayName))
  {
    Sorting.ByKeyIsTotalPreorder(TypeDisplayName);
    Sorting.InsertionSortSorted(RecipeTypesUnsorted(names, CategoryMaxima(recipes)), Sorting.ByKey(TypeDisplayName));
  }

  /** Every recipe's category has a recipe type, keyed by the category,
      whose layout is built from that category's maxima. */
  lemma {:induction false} RecipeTypeOfEveryRecipe(names: map<string, Option<string>>, recipes: seq<SourceRecipe>, j: nat)
    requires j < |recipes|
    ensures var m := CategoryMaxima(recipes);
      var cat := CategoryOf(recipes[j]);
      && cat in m.entries
      && RecipeTypeFor(names, cat, m.entries[cat]) in RecipeTypes(names, recipes)
  {
    var m := CategoryMaxima(recipes);
    var cat := CategoryOf(recipes[j]);
    CategoryPresent(recipes, j);
    var i :| 0 <= i < |m.keys| && m.keys[i] == cat;
    var u := RecipeTypesUnsorted(names, m);
    var r := RecipeTypes(names, recipes);
    Sorting.PermutationMembers(u, r);
    assert u[i] == RecipeTypeFor(names, cat, m.entries[cat]);
    assert u[i] in u;
  }

  // ----- recipes -----

  /** A slot's content: an item stack (`kind: 'item'`). */
  datatype SlotStack = SlotStack(id: string, amount: Amount)

  /** A generated recipe; `slotContents` and `params` list an object's entries in order. */
  datatype AefRecipe = AefRecipe(id: string, recipeType: string, slotContents: seq<(string, SlotStack)>,
                                 params: seq<(string, Amount)>)

  function EntryId(e: (string, JsonValue)): string {
    e.0
  }

  /** `sort(([a], [b]) => a.localeCompare(b))`, with the code-point order. */
  function SortById(es: seq<(string, JsonValue)>): (r: seq<(string, JsonValue)>)
    ensures |r| == |es| && multiset(r) == multiset(es)
  {
    Sorting.InsertionSort(es, Sorting.ByKey(EntryId))
  }

  /** The sorted entries are in ascending id order. */
  lemma SortByIdSorted(es: seq<(string, JsonValue)>)
    ensures Sorting.SortedBy(SortById(es), Sorting.ByKey(EntryId))
  {
    Sorting.ByKeyIsTotalPreorder(EntryId);
    Sorting.InsertionSortSorted(es, Sorting.ByKey(EntryId));
  }

  /** Catalyst entries, then each producer with amount 1. */
  function CatalystEntries(r: SourceRecipe): seq<(string, JsonValue)> {
    var ps := r.producers.GetOr([]);
    Entries(r.catalyst) + seq(|ps|, k requires 0 <= k < |ps| => (ps[k], JNumber(Finite(1.0))))
  }

  /** Slots `<prefix>1..` in order, each holding the namespaced item and its parsed amount. */
  function Numbered(p: Parsers, prefix: string, es: seq<(string, JsonValue)>): (r: seq<(string, SlotStack)>)
    ensures |r| == |es|
    ensures forall k :: 0 <= k < |es| ==>
      r[k] == (prefix + NatToString(k + 1), SlotStack(NamespacedItemId(es[k].0), ParseAmount(p, es[k].1)))
  {
    seq(|es|, k requires 0 <= k < |es| =>
      (prefix + NatToString(k + 1), SlotStack(NamespacedItemId(es[k].0), ParseAmount(p, es[k].1))))
  }

  /** The slot contents of a recipe: sorted inputs, sorted outputs, then
      sorted catalysts and producers. */
  function SlotContents(p: Parsers, r: SourceRecipe): seq<(string, SlotStack)> {
    Numbered(p, "in", SortById(Entries(r.ins)))
    + Numbered(p, "out", SortById(Entries(r.outs)))
    + Numbered(p, "cat", SortById(CatalystEntries(r)))
  }

  /** Where a parameter comes first in the `params` object: `time`,
      `usage`, then `cost`. */
  function ParamRank(name: string): nat {
    if name == "time" then 0 else if name == "usage" then 1 else if name == "cost" then 2 else 3
  }

  /** The parsed value of the recipe field a parameter is read from, if the
      field is present. */
  function ParamValue(p: Parsers, r: SourceRecipe, name: string): Option<Amount> {
    var field := if name == "time" then r.time else if name == "usage" then r.usage
                 else if name == "cost" then r.cost else None;
    match field
    case None => None
    case Some(v) => Some(ParseAmount(p, v))
  }

  /** The `params` entries: one per present field among time, usage and
      cost, with its parsed value, in that order; none exactly when all
      three are absent (the recipe then has no `params`). */
  function Params(p: Parsers, r: SourceRecipe): (ps: seq<(string, Amount)>)
    ensures |ps| == 0 <==> r.time.None? && r.usage.None? && r.cost.None?
    ensures forall k :: 0 <= k < |ps| ==> ParamValue(p, r, ps[k].0) == Some(ps[k].1)
    ensures forall a, b :: 0 <= a < b < |ps| ==> ParamRank(ps[a].0) < ParamRank(ps[b].0)
  {
    (if r.time.Some? then [("time", ParseAmount(p, r.time.value))] else [])
    + (if r.usage.Some? then [("usage", ParseAmount(p, r.usage.value))] else [])
    + (if r.cost.Some? then [("cost", ParseAmount(p, r.cost.value))] else [])
  }

  /** Every present field among time, usage and cost has its entry in `params`. */
  lemma ParamsPresent(p: Parsers, r: SourceRecipe, name: string)
    requires ParamValue(p, r, name).Some?
    ensures (name, ParamValue(p, r, name).value) in Params(p, r)
  {
    var ps := Params(p, r);
    var t := if r.time.Some? then [("time", ParseAmount(p, r.time.value))] else [];
    var u := if r.usage.Some? then [("usage", ParseAmount(p, r.usage.value))] else [];
    assert ps == t + u + (if r.cost.Some? then [("cost", ParseAmount(p, r.cost.value))] else []);
  }

  /** The generated recipe: the `aef:` id, the type of its category, its
      slot contents and its parameters. */
  function ConvertRecipe(p: Parsers, r: SourceRecipe): (rec: AefRecipe)
    ensures rec.id == "aef:" + r.id && rec.recipeType == CategoryKey(CategoryOf(r))
    ensures rec.slotContents == SlotContents(p, r) && rec.params == Params(p, r)
  {
    AefRecipe("aef:" + r.id, CategoryKey(CategoryOf(r)), SlotContents(p, r), Params(p, r))
  }

  /** `layout` has a slot with id `slotId`. */
  predicate HasSlot(layout: seq<LayoutSlot>, slotId: string) {
    exists i :: 0 <= i < |layout| && layout[i].slotId == slotId
  }

  /** Each filled slot of `contents` is a slot of `layout`. */
  predicate SlotsInLayout(layout: seq<LayoutSlot>, contents: seq<(string, SlotStack)>) {
    forall k :: 0 <= k < |contents| ==> HasSlot(layout, contents[k].0)
  }

  /** Every generated recipe names a generated recipe type, and each slot
      it fills is a slot of that type's layout. */
  lemma {:induction false} ConvertedRecipeFitsItsType(names: map<string, Option<string>>, p: Parsers,
                                                      recipes: seq<SourceRecipe>, j: nat)
    requires j < |recipes|
    ensures CategoryOf(recipes[j]) in CategoryMaxima(recipes).entries
    ensures var t := RecipeTypeFor(names, CategoryOf(recipes[j]), CategoryMaxima(recipes).entries[CategoryOf(recipes[j])]);
      && t in RecipeTypes(names, recipes)
      && t.key == ConvertRecipe(p, recipes[j]).recipeType
      && SlotsInLayout(t.slots, ConvertRecipe(p, recipes[j]).slotContents)
  {
    RecipeTypeOfEveryRecipe(names, recipes, j);
    var rec := ConvertRecipe(p, recipes[j]);
    var m := CategoryMaxima(recipes);
    var t := RecipeTypeFor(names, CategoryOf(recipes[j]), m.entries[CategoryOf(recipes[j])]);
    forall k | 0 <= k < |rec.slotContents|
      ensures HasSlot(t.slots, rec.slotContents[k].0)
    {
      var i := RecipeSlotsInLayout(p, recipes, j, k);
      assert 0 <= i < |t.slots| && t.slots[i].slotId == rec.slotContents[k].0;
    }
  }

  /** One `forEach((e, idx) => slotContents[prefix + (idx + 1)] = ...)` pass. */
  method NumberSlots(contents: seq<(string, SlotStack)>, p: Parsers, prefix: string, es: seq<(string, JsonValue)>)
    returns (out: seq<(string, SlotStack)>)
    ensures out == contents + Numbered(p, prefix, es)
  {
    out := contents;
    for idx := 0 to |es|
      invariant |out| == |contents| + idx && out[..|contents|] == contents
      invariant forall k :: 0 <= k < idx ==>
        out[|contents| + k] == (prefix + NatToString(k + 1), SlotStack(NamespacedItemId(es[k].0), ParseAmount(p, es[k].1)))
    {
      out := out + [(prefix + NatToString(idx + 1), SlotStack(NamespacedItemId(es[idx].0), ParseAmount(p, es[idx].1)))];
    }
    assert out == contents + Numbered(p, prefix, es) by {
      var want := contents + Numbered(p, prefix, es);
      forall k | 0 <= k < |out| ensures out[k] == want[k] {
        if k < |contents| {
          assert out[k] == out[..|contents|][k];
        }
      }
    }
  }

  /** The three passes that fill `slotContents`. */
  method FillSlotContents(p: Parsers, r: SourceRecipe) returns (contents: seq<(string, SlotStack)>)
    ensures contents == SlotContents(p, r)
  {
    var ins := SortById(Entries(r.ins));
    contents := NumberSlots([], p, "in", ins);
    assert contents == Numbered(p, "in", ins);
    contents := NumberSlots(contents, p, "out", SortById(Entries(r.outs)));
    contents := NumberSlots(contents, p, "cat", SortById(CatalystEntries(r)));
  }
  /** `f` applied to each element of `s`, in order. */
  function MapSeq<A, B>(f: A -> B, s: seq<A>): (r: seq<B>)
    ensures |r| == |s|
  {
    if |s| == 0 then [] else MapSeq(f, s[..|s| - 1]) + [f(s[|s| - 1])]
  }

  /** The k-th element of `MapSeq(f, s)` is `f` of the k-th element of `s`. */
  lemma {:induction false} MapSeqAt<A, B>(f: A -> B, s: seq<A>, k: nat)
    requires k < |s|
    ensures MapSeq(f, s)[k] == f(s[k])
  {
    var front := s[..|s| - 1];
    if k < |s| - 1 {
      MapSeqAt(f, front, k);
      assert front[k] == s[k];
    }
  }

  /** The generated recipes of `recipesRaw`, in order. */
  function ConvertAll(p: Parsers, recipesRaw: seq<SourceRecipe>): seq<AefRecipe> {
    MapSeq(r => ConvertRecipe(p, r), recipesRaw)
  }

  /** The k-th generated recipe is the k-th source recipe converted. */
  lemma ConvertAllAt(p: Parsers, recipesRaw: seq<SourceRecipe>, k: nat)
    requires k < |recipesRaw|
    ensures |ConvertAll(p, recipesRaw)| == |recipesRaw|
    ensures ConvertAll(p, recipesRaw)[k] == ConvertRecipe(p, recipesRaw[k])
  {
    MapSeqAt(r => ConvertRecipe(p, r), recipesRaw, k);
  }

  /** The `for (const r of recipesRaw)` loop: one generated recipe per
      source recipe, in order. */
  method ConvertRecipes(p: Parsers, recipesRaw: seq<SourceRecipe>) returns (recipes: seq<AefRecipe>)
    ensures recipes == ConvertAll(p, recipesRaw)
  {
    recipes := [];
    for i := 0 to |recipesRaw|
      invariant recipes == ConvertAll(p, recipesRaw[..i])
    {
      var r := recipesRaw[i];
      var contents := FillSlotContents(p, r);
      var rec := AefRecipe("aef:" + r.id, CategoryKey(CategoryOf(r)), contents, Params(p, r));
      assert recipesRaw[..i + 1][..i] == recipesRaw[..i];
      recipes := recipes + [rec];
    }
    assert recipesRaw[..|recipesRaw|] == recipesRaw;
  }



  /** Numbered slots list their items in ascending id order. */
  lemma {:induction false} NumberedSorted(p: Parsers, prefix: string, es: seq<(string, JsonValue)>, a: nat, b: nat)
    requires a < b < |es|
    ensures var r := Numbered(p, prefix, SortById(es));
      StrLe(r[a].1.id, r[b].1.id)
  {
    var s := SortById(es);
    var le := Sorting.ByKey(EntryId);
    SortByIdSorted(es);
    assert le(s[a], s[b]);
    assert le(s[a], s[b]) == StrLe(EntryId(s[a]), EntryId(s[b]));
    assert StrLe(s[a].0, s[b].0);
    PrefixKeepsOrder(ItemPrefix, s[a].0, s[b].0);
    var r := Numbered(p, prefix, s);
    assert r[a].1.id == ItemPrefix + s[a].0 && r[b].1.id == ItemPrefix + s[b].0;
  }

  /** The stack an entry becomes. */
  function EntryStack(p: Parsers, e: (string, JsonValue)): SlotStack {
    SlotStack(NamespacedItemId(e.0), ParseAmount(p, e.1))
  }

  /** Numbered slots hold exactly the given entries. */
  lemma {:induction false} NumberedMembers(p: Parsers, prefix: string, es: seq<(string, JsonValue)>)
    ensures var r := Numbered(p, prefix, SortById(es));
      && |r| == |es|
      && (forall e :: e in es ==> exists k :: 0 <= k < |r| && r[k].1 == EntryStack(p, e))
      && (forall k :: 0 <= k < |r| ==> r[k].1 in EntryStacks(p, es))
  {
    var s := SortById(es);
    var r := Numbered(p, prefix, s);
    forall e | e in es ensures exists k :: 0 <= k < |r| && r[k].1 == EntryStack(p, e) {
      var k := NumberedHolds(p, prefix, s, es, e);
    }
    forall k | 0 <= k < |r| ensures r[k].1 in EntryStacks(p, es) {
      NumberedFrom(p, prefix, s, es, k);
      var j :| 0 <= j < |es| && es[j] == s[k];
      assert EntryStacks(p, es)[j] == r[k].1;
    }
  }

  /** The stacks the entries become, in entry order. */
  function EntryStacks(p: Parsers, es: seq<(string, JsonValue)>): (r: seq<SlotStack>)
    ensures |r| == |es| && forall i :: 0 <= i < |es| ==> r[i] == EntryStack(p, es[i])
  {
    seq(|es|, i requires 0 <= i < |es| => EntryStack(p, es[i]))
  }

  /** An entry of a permutation `s` of `es` has a slot. */
  lemma NumberedHolds(p: Parsers, prefix: string, s: seq<(string, JsonValue)>, es: seq<(string, JsonValue)>, e: (string, JsonValue))
    returns (k: nat)
    requires multiset(s) == multiset(es) && e in es
    ensures k < |Numbered(p, prefix, s)| && Numbered(p, prefix, s)[k].1 == EntryStack(p, e)
  {
    Sorting.PermutationMembers(s, es);
    k :| 0 <= k < |s| && s[k] == e;
  }

  /** Slot `k` of a permutation `s` of `es` holds an entry of `es`. */
  lemma NumberedFrom(p: Parsers, prefix: string, s: seq<(string, JsonValue)>, es: seq<(string, JsonValue)>, k: nat)
    requires multiset(s) == multiset(es) && k < |s|
    ensures s[k] in es && Numbered(p, prefix, s)[k].1 == EntryStack(p, s[k])
  {
    Sorting.PermutationMembers(s, es);
  }

  /** The slot id a recipe gives its `k`-th slot content. */
  lemma {:induction false} SlotContentId(p: Parsers, r: SourceRecipe, k: nat)
    requires k < |SlotContents(p, r)|
    ensures var ni, no := |Entries(r.ins)|, |Entries(r.outs)|;
      var id := SlotContents(p, r)[k].0;
      && |SlotContents(p, r)| == ni + no + |CatalystEntries(r)|
      && (k < ni ==> id == "in" + NatToString(k + 1))
      && (ni <= k < ni + no ==> id == "out" + NatToString(k - ni + 1))
      && (ni + no <= k ==> id == "cat" + NatToString(k - ni - no + 1))
  {
    var a := Numbered(p, "in", SortById(Entries(r.ins)));
    var b := Numbered(p, "out", SortById(Entries(r.outs)));
    var c := Numbered(p, "cat", SortById(CatalystEntries(r)));
    assert SlotContents(p, r) == a + b + c;
    ConcatAt(a, b, c, k);
  }

  /** Position `k` of three sequences joined. */
  lemma ConcatAt<T>(a: seq<T>, b: seq<T>, c: seq<T>, k: nat)
    requires k < |a| + |b| + |c|
    ensures |a + b + c| == |a| + |b| + |c|
    ensures k < |a| ==> (a + b + c)[k] == a[k]
    ensures |a| <= k < |a| + |b| ==> (a + b + c)[k] == b[k - |a|]
    ensures |a| + |b| <= k ==> (a + b + c)[k] == c[k - |a| - |b|]
  {
  }

  /** The layout has one slot per input, output and catalyst, in that
      order, numbered from 1 within each kind. */
  lemma {:induction false} SlotLayoutOrder(maxIn: nat, maxOut: nat, maxCat: nat, k: nat)
    requires k < maxIn + maxOut + maxCat
    ensures |SlotLayout(maxIn, maxOut, maxCat)| == maxIn + maxOut + maxCat
    ensures var s := SlotLayout(maxIn, maxOut, maxCat)[k];
      && (k < maxIn ==> s.io == Input && s.slotId == "in" + NatToString(k + 1))
      && (maxIn <= k < maxIn + maxOut ==> s.io == Output && s.slotId == "out" + NatToString(k - maxIn + 1))
      && (maxIn + maxOut <= k ==> s.io == Catalyst && s.slotId == "cat" + NatToString(k - maxIn - maxOut + 1))
  {
    if k < maxIn {
      InputSlotId(maxIn, maxOut, maxCat, k);
    } else if k < maxIn + maxOut {
      OutputSlotId(maxIn, maxOut, maxCat, k - maxIn);
    } else {
      CatalystSlotId(maxIn, maxOut, maxCat, k - maxIn - maxOut);
    }
  }

  /** Every slot a recipe fills is a slot of its category's layout. */
  lemma {:induction false} RecipeSlotsInLayout(p: Parsers, recipes: seq<SourceRecipe>, j: nat, k: nat)
    returns (i: nat)
    requires j < |recipes| && k < |SlotContents(p, recipes[j])|
    ensures var m := CategoryMaxima(recipes);
      var cat := CategoryOf(recipes[j]);
      && cat in m.entries
      && var layout := SlotLayout(m.entries[cat].ins, m.entries[cat].outs, m.entries[cat].cats);
         i < |layout| && layout[i].slotId == SlotContents(p, recipes[j])[k].0
  {
    var r := recipes[j];
    CategoryMaximaBound(recipes, j);
    var v := CategoryMaxima(recipes).entries[CategoryOf(r)];
    SlotContentId(p, r, k);
    i := LayoutIndex(v, |Entries(r.ins)|, |Entries(r.outs)|, |CatalystEntries(r)|, k, SlotContents(p, r)[k].0);
    SlotLayoutId(v.ins, v.outs, v.cats, i);
  }

  /** The id `buildSlots` gives its `k`-th slot. */
  function SlotIdAt(maxIn: nat, maxOut: nat, k: nat): string {
    if k < maxIn then "in" + NatToString(k + 1)
    else if k < maxIn + maxOut then "out" + NatToString(k - maxIn + 1)
    else "cat" + NatToString(k - maxIn - maxOut + 1)
  }

  lemma SlotLayoutId(maxIn: nat, maxOut: nat, maxCat: nat, k: nat)
    requires k < maxIn + maxOut + maxCat
    ensures k < |SlotLayout(maxIn, maxOut, maxCat)| && SlotLayout(maxIn, maxOut, maxCat)[k].slotId == SlotIdAt(maxIn, maxOut, k)
  {
    SlotLayoutOrder(maxIn, maxOut, maxCat, k);
  }

  /** A slot numbered within the counts `ni`, `no`, `nc` exists in a layout
      sized by counts at least as large. */
  lemma LayoutIndex(v: SlotCounts, ni: nat, no: nat, nc: nat, k: nat, id: string) returns (i: nat)
    requires ni <= v.ins && no <= v.outs && nc <= v.cats && k < ni + no + nc
    requires k < ni ==> id == "in" + NatToString(k + 1)
    requires ni <= k < ni + no ==> id == "out" + NatToString(k - ni + 1)
    requires ni + no <= k ==> id == "cat" + NatToString(k - ni - no + 1)
    ensures i < v.ins + v.outs + v.cats && SlotIdAt(v.ins, v.outs, i) == id
  {
    if k < ni {
      i := k;
    } else if k < ni + no {
      i := v.ins + (k - ni);
    } else {
      i := v.ins + v.outs + (k - ni - no);
    }
  }

  lemma InputSlotId(maxIn: nat, maxOut: nat, maxCat: nat, j: nat)
    requires j < maxIn
    ensures var layout := SlotLayout(maxIn, maxOut, maxCat);
      j < |layout| && layout[j].io == Input && layout[j].slotId == "in" + NatToString(j + 1)
  {
  }

  lemma OutputSlotId(maxIn: nat, maxOut: nat, maxCat: nat, j: nat)
    requires j < maxOut
    ensures var layout := SlotLayout(maxIn, maxOut, maxCat);
      maxIn + j < |layout| && layout[maxIn + j].io == Output && layout[maxIn + j].slotId == "out" + NatToString(j + 1)
  {
  }

  lemma CatalystSlotId(maxIn: nat, maxOut: nat, maxCat: nat, j: nat)
    requires j < maxCat
    ensures var layout := SlotLayout(maxIn, maxOut, maxCat);
      && maxIn + maxOut + j < |layout| && layout[maxIn + maxOut + j].io == Catalyst
      && layout[maxIn + maxOut + j].slotId == "cat" + NatToString(j + 1)
  {
  }

  // ----- tags -----

  /** An item of the source data: its id and category. */
  datatype SourceItem = SourceItem(id: string, category: Option<string>)

  function TagId(cat: string): string {
    "aef:" + cat
  }

  type TagMap = OrderedMap<string, seq<string>>

  /** `tagValuesByTagId` after its loop: items with a category, grouped by tag, in item order. */
  function TagGroups(items: seq<SourceItem>): (m: TagMap)
    ensures m.Valid()
    decreases |items|
  {
    if |items| == 0 then OrderedMap([], map[])
    else AddTagged(TagGroups(items[..|items| - 1]), items[|items| - 1])
  }

  /** One step of the grouping loop: an item with a category is appended to its tag. */
  function AddTagged(q: TagMap, it: SourceItem): (m: TagMap)
    requires q.Valid()
    ensures m.Valid()
  {
    if !Truthy(it.category) then q
    else
      var t := TagId(it.category.value);
      var list := if t in q.entries then q.entries[t] else [];
      q.Put(t, list + [NamespacedItemId(it.id)])
  }

  lemma TagGroupsUnfold(items: seq<SourceItem>, k: nat)
    requires k < |items|
    ensures TagGroups(items[..k + 1]) == AddTagged(TagGroups(items[..k]), items[k])
  {
    assert items[..k + 1][..k] == items[..k];
  }

  /** Item `k` belongs to tag `t`. */
  ghost predicate InTag(items: seq<SourceItem>, k: int, t: string) {
    0 <= k < |items| && Truthy(items[k].category) && TagId(items[k].category.value) == t
  }

  /** A tag lists exactly the items of its category. */
  lemma {:induction false} TagGroupsMember(items: seq<SourceItem>, t: string, v: string)
    ensures var m := TagGroups(items);
      (t in m.entries && v in m.entries[t]) <==> exists k :: InTag(items, k, t) && v == NamespacedItemId(items[k].id)
    decreases |items|
  {
    if |items| > 0 {
      var n := |items| - 1;
      var front := items[..n];
      TagGroupsMember(front, t, v);
      assert forall k :: 0 <= k < n ==> front[k] == items[k];
      assert forall k :: InTag(front, k, t) <==> 0 <= k < n && InTag(items, k, t);
      var q := TagGroups(front);
      var m := TagGroups(items);
      assert m == AddTagged(q, items[n]);
      if InTag(items, n, t) {
        var list := if t in q.entries then q.entries[t] else [];
        assert m.entries[t] == list + [NamespacedItemId(items[n].id)];
      } else {
        assert m.entries == q.entries || m.entries == q.entries[TagId(items[n].category.value) := m.entries[TagId(items[n].category.value)]];
      }
    }
  }

  /** `tags.item`: each tag, in order of first use, with its values sorted. */
  function Tags(items: seq<SourceItem>): (r: seq<(string, seq<string>)>)
    ensures var m := TagGroups(items);
      |r| == |m.keys| && forall i :: 0 <= i < |r| ==> r[i].0 == m.keys[i]
  {
    var m := TagGroups(items);
    SortedTagsOf(m, m.keys)
  }

  /** The tags `keys` of `m`, each with its values sorted. */
  function SortedTagsOf(m: TagMap, keys: seq<string>): (r: seq<(string, seq<string>)>)
    requires forall t :: t in keys ==> t in m.entries
    ensures |r| == |keys| && forall i :: 0 <= i < |r| ==> r[i] == (keys[i], Sorting.SortStrings(m.entries[keys[i]]))
    decreases |keys|
  {
    if |keys| == 0 then []
    else
      var n := |keys| - 1;
      SortedTagsOf(m, keys[..n]) + [(keys[n], Sorting.SortStrings(m.entries[keys[n]]))]
  }

  /** The tag grouping: each tag's values are sorted and are exactly the
      namespaced ids of the items of its category. */
  lemma {:induction false} TagsSpec(items: seq<SourceItem>, i: nat, v: string)
    requires i < |Tags(items)|
    ensures var tag := Tags(items)[i];
      && Sorting.SortedBy(tag.1, StrLe)
      && (v in tag.1 <==> exists k :: InTag(items, k, tag.0) && v == NamespacedItemId(items[k].id))
  {
    var m := TagGroups(items);
    var t := m.keys[i];
    TagGroupsMember(items, t, v);
    Sorting.PermutationMembers(Sorting.SortStrings(m.entries[t]), m.entries[t]);
    Sorting.SortStringsSorted(m.entries[t]);
  }

  /** Every item with a category is listed under its tag. */
  lemma {:induction false} ItemTagged(items: seq<SourceItem>, k: nat)
    requires k < |items| && Truthy(items[k].category)
    ensures exists i :: 0 <= i < |Tags(items)| && Tags(items)[i].0 == TagId(items[k].category.value)
                        && NamespacedItemId(items[k].id) in Tags(items)[i].1
  {
    var m := TagGroups(items);
    var t := TagId(items[k].category.value);
    var v := NamespacedItemId(items[k].id);
    TagGroupsMember(items, t, v);
    assert InTag(items, k, t);
    var i :| 0 <= i < |m.keys| && m.keys[i] == t;
    TagsSpec(items, i, v);
  }

  lemma SortedTagsOfUnfold(m: TagMap, keys: seq<string>, i: nat)
    requires forall t :: t in keys ==> t in m.entries
    requires i < |keys|
    ensures SortedTagsOf(m, keys[..i + 1]) == SortedTagsOf(m, keys[..i]) + [(keys[i], Sorting.SortStrings(m.entries[keys[i]]))]
  {
    assert keys[..i + 1][..i] == keys[..i];
  }

  /** The two loops that group and then sort the tag values. */
  method GroupTags(items: seq<SourceItem>) returns (tags: seq<(string, seq<string>)>)
    ensures tags == Tags(items)
  {
    var byTag: TagMap := OrderedMap([], map[]);
    for k := 0 to |items|
      invariant byTag.Valid() && byTag == TagGroups(items[..k])
    {
      TagGroupsUnfold(items, k);
      var it := items[k];
      if !(it.category.Some? && it.category.value != "") {
        continue;
      }
      var tagId := "aef:" + it.category.value;
      var list := if tagId in byTag.entries then byTag.entries[tagId] else [];
      byTag := byTag.Put(tagId, list + [NamespacedItemId(it.id)]);
    }
    assert items[..|items|] == items;
    tags := SortTagValues(byTag);
  }

  /** The second loop: each tag's values sorted, in key order. */
  method SortTagValues(byTag: TagMap) returns (tags: seq<(string, seq<string>)>)
    requires byTag.Valid()
    ensures tags == SortedTagsOf(byTag, byTag.keys)
  {
    tags := [];
    for i := 0 to |byTag.keys|
      invariant tags == SortedTagsOf(byTag, byTag.keys[..i])
    {
      SortedTagsOfUnfold(byTag, byTag.keys, i);
      tags := tags + [(byTag.keys[i], Sorting.SortStrings(byTag.entries[byTag.keys[i]]))];
    }
    assert byTag.keys[..|byTag.keys|] == byTag.keys;
  }
}
