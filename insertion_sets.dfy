/** A JavaScript `Set` (or a `Map`'s key order) kept as its elements in
    insertion order: adding an element already present changes nothing. */
module InsertionSets {
  import Sorting

  function Add<T(==,!new)>(s: seq<T>, x: T): (r: seq<T>)
    ensures forall y :: y in r <==> y in s || y == x
    ensures Sorting.Distinct(s) ==> Sorting.Distinct(r)
  {
    if x in s then s else s + [x]
  }

  /** Adding the elements of `xs` in order. */
  function AddAll<T(==,!new)>(s: seq<T>, xs: seq<T>): (r: seq<T>)
    ensures forall y :: y in r <==> y in s || y in xs
    ensures Sorting.Distinct(s) ==> Sorting.Distinct(r)
    decreases |xs|
  {
    if |xs| == 0 then s
    else
      var front := xs[..|xs| - 1];
      assert forall y :: y in xs <==> y in front || y == xs[|xs| - 1] by {
        assert xs == front + [xs[|xs| - 1]];
      }
      Add(AddAll(s, front), xs[|xs| - 1])
  }

  /** Adding two runs one after the other is adding their concatenation. */
  lemma {:induction false} AddAllAppend<T(!new)>(s: seq<T>, a: seq<T>, b: seq<T>)
    ensures AddAll(AddAll(s, a), b) == AddAll(s, a + b)
    decreases |b|
  {
    if |b| == 0 {
      assert a + b == a;
    } else {
      assert (a + b)[..|a + b| - 1] == a + b[..|b| - 1];
      AddAllAppend(s, a, b[..|b| - 1]);
    }
  }

  /** A JavaScript `Map`: its keys in insertion order and its entries. */
  datatype OrderedMap<K(==,!new), V> = OrderedMap(keys: seq<K>, entries: map<K, V>) {
    ghost predicate Valid() {
      forall k :: k in entries <==> k in keys
    }

    /** `set(k, v)`: a new key goes last, an existing one keeps its place. */
    function Put(k: K, v: V): (r: OrderedMap<K, V>)
      requires Valid()
      ensures r.Valid() && r.keys == Add(keys, k) && r.entries == entries[k := v]
    {
      OrderedMap(Add(keys, k), entries[k := v])
    }

    /** `values()`: the entries in key order. */
    function Values(): (r: seq<V>)
      requires Valid()
      ensures |r| == |keys| && forall i :: 0 <= i < |keys| ==> r[i] == entries[keys[i]]
    {
      seq(|keys|, i requires 0 <= i < |keys| => entries[keys[i]])
    }
  }
}
