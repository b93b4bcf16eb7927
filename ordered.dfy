/** The `OrderedDict` the collection keeps its devices in: a map whose keys
    remember the order they were first stored in. */
module OrderedDicts {

  import opened Rows

  /** The keys in first-insertion order and the value each key holds. */
  datatype Ordered<V> = Ordered(order: seq<string>, items: map<string, V>)

  /** No key twice in the order, and the order lists exactly the map's keys. */
  predicate WellOrdered<V>(od: Ordered<V>) {
    && Distinct(od.order)
    && (forall k :: k in od.items ==> k in od.order)
    && (forall k :: k in od.order ==> k in od.items)
  }

  /** `od[k] = v`: a new key goes to the end, a key already there keeps its
      place and gets the new value. */
  function Store<V>(od: Ordered<V>, k: string, v: V): Ordered<V> {
    Ordered(if k in od.items then od.order else od.order + [k], od.items[k := v])
  }

  /** The dict after storing `vals[i]` under `keys[i]` for each `i` in turn,
      starting from an empty one. */
  function Build<V>(keys: seq<string>, vals: seq<V>): (od: Ordered<V>)
    requires |keys| == |vals|
    ensures forall k :: k in od.items <==> k in keys
    decreases |keys|
  {
    if keys == [] then Ordered([], map[])
    else
      var n := |keys| - 1;
      assert keys == keys[..n] + [keys[n]];
      Store(Build(keys[..n], vals[..n]), keys[n], vals[n])
  }

  /** The elements of `s` at their first occurrence, in that order. */
  function Dedup(s: seq<string>): seq<string>
    decreases |s|
  {
    if s == [] then []
    else
      var n := |s| - 1;
      Dedup(s[..n]) + (if s[n] in s[..n] then [] else [s[n]])
  }

  /** The last position at which `k` occurs in `s`. */
  function LastIndex(s: seq<string>, k: string): (i: nat)
    requires k in s
    ensures i < |s| && s[i] == k
    ensures forall j :: i < j < |s| ==> s[j] != k
    decreases |s|
  {
    var n := |s| - 1;
    if s[n] == k then n
    else
      assert k in s[..n] by {
        var j :| 0 <= j < |s| && s[j] == k;
        assert s[..n][j] == k;
      }
      LastIndex(s[..n], k)
  }

  // ---------------------------------------------------------------- lemmas

  /** The first occurrences of `s` hold every element of `s` once. */
  lemma {:induction false} DedupElements(s: seq<string>)
    ensures Distinct(Dedup(s))
    ensures forall x :: x in Dedup(s) <==> x in s
    decreases |s|
  {
    if s != [] {
      var n := |s| - 1;
      DedupElements(s[..n]);
      assert s == s[..n] + [s[n]];
    }
  }

  /** The dict built from a list holds a key exactly when the list does, under
      the value stored last for that key. */
  lemma {:induction false} BuildItems<V>(keys: seq<string>, vals: seq<V>)
    requires |keys| == |vals|
    ensures var od := Build(keys, vals);
      && (forall k :: k in od.items <==> k in keys)
      && (forall k :: k in od.items ==> od.items[k] == vals[LastIndex(keys, k)])
    decreases |keys|
  {
    if keys != [] {
      var n := |keys| - 1;
      BuildItems(keys[..n], vals[..n]);
      assert keys == keys[..n] + [keys[n]];
      var od := Build(keys, vals);
      forall k | k in od.items
        ensures od.items[k] == vals[LastIndex(keys, k)]
      {
        if k != keys[n] {
          assert LastIndex(keys, k) == LastIndex(keys[..n], k);
        }
      }
    }
  }

  /** The keys of the built dict come in first-insertion order. */
  lemma {:induction false} BuildOrder<V>(keys: seq<string>, vals: seq<V>)
    requires |keys| == |vals|
    ensures Build(keys, vals).order == Dedup(keys)
    decreases |keys|
  {
    if keys != [] {
      var n := |keys| - 1;
      BuildOrder(keys[..n], vals[..n]);
      BuildItems(keys[..n], vals[..n]);
    }
  }

  /** The built dict is well ordered. */
  lemma BuildWellOrdered<V>(keys: seq<string>, vals: seq<V>)
    requires |keys| == |vals|
    ensures WellOrdered(Build(keys, vals))
  {
    BuildOrder(keys, vals);
    BuildItems(keys, vals);
    DedupElements(keys);
  }

  /** Storing keeps a dict well ordered. */
  lemma StoreWellOrdered<V>(od: Ordered<V>, k: string, v: V)
    requires WellOrdered(od)
    ensures WellOrdered(Store(od, k, v))
  {
  }

  /** A well-ordered dict has as many entries as its order has keys. */
  lemma WellOrderedSize<V>(od: Ordered<V>)
    requires WellOrdered(od)
    ensures |od.items| == |od.order|
  {
    DistinctCard(od.order);
    assert od.items.Keys == set k | k in od.order;
  }

  /** A sequence without repeats has as many distinct elements as positions. */
  lemma {:induction false} DistinctCard(s: seq<string>)
    requires Distinct(s)
    ensures |set k | k in s| == |s|
    decreases |s|
  {
    if s != [] {
      var n := |s| - 1;
      assert Distinct(s[..n]);
      DistinctCard(s[..n]);
      assert (set k | k in s) == (set k | k in s[..n]) + {s[n]};
    }
  }
}
