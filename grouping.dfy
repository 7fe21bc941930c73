/** Grouping a list by a key the way a JavaScript `Map` filled in list order
    does: the keys in the order of their first insertion, each holding its
    elements in list order. */
module Grouping {
  import opened Seqs

  /** The key of every element. */
  function KeysOf<T, K>(xs: seq<T>, key: T -> K): (r: seq<K>)
    ensures |r| == |xs| && forall i :: 0 <= i < |xs| ==> r[i] == key(xs[i])
  {
    if xs == [] then [] else KeysOf(xs[..|xs| - 1], key) + [key(xs[|xs| - 1])]
  }

  /** The elements with key `k`, in list order. */
  function Members<T, K(==)>(xs: seq<T>, key: T -> K, k: K): (r: seq<T>)
    ensures |r| <= |xs|
  {
    if xs == [] then []
    else Members(xs[..|xs| - 1], key, k) + (if key(xs[|xs| - 1]) == k then [xs[|xs| - 1]] else [])
  }

  /** A group holds exactly the elements with its key. */
  lemma {:induction false} MembersIn<T, K>(xs: seq<T>, key: T -> K, k: K)
    ensures forall x :: x in Members(xs, key, k) <==> x in xs && key(x) == k
  {
    if xs != [] {
      var init := xs[..|xs| - 1];
      MembersIn(init, key, k);
      assert xs == init + [xs[|xs| - 1]];
    }
  }

  lemma MembersSnoc<T, K>(xs: seq<T>, key: T -> K, x: T)
    ensures (xs + [x])[..|xs|] == xs
    ensures KeysOf(xs + [x], key) == KeysOf(xs, key) + [key(x)]
    ensures forall k :: (Members(xs + [x], key, k) == Members(xs, key, k) + (if key(x) == k then [x] else []))
  {
    assert (xs + [x])[..|xs|] == xs;
  }

  /** A key that occurs has a non-empty group. */
  lemma KeyHasMembers<T, K>(xs: seq<T>, key: T -> K, k: K)
    requires k in Dedup(KeysOf(xs, key))
    ensures Members(xs, key, k) != []
  {
    var keys := KeysOf(xs, key);
    var i :| 0 <= i < |keys| && keys[i] == k;
    MembersIn(xs, key, k);
    assert xs[i] in Members(xs, key, k);
  }

  /** A key that does not occur has an empty group. */
  lemma AbsentKeyNoMembers<T, K>(xs: seq<T>, key: T -> K, k: K)
    requires k !in Dedup(KeysOf(xs, key))
    ensures Members(xs, key, k) == []
  {
    MembersIn(xs, key, k);
  }

  /** The `Map` from key to elements after adding the elements of `xs` in
      order to an empty one. */
  function MapOf<T, K(==)>(xs: seq<T>, key: T -> K): map<K, seq<T>> {
    if xs == [] then map[]
    else
      var m := MapOf(xs[..|xs| - 1], key);
      var x := xs[|xs| - 1];
      m[key(x) := (if key(x) in m then m[key(x)] else []) + [x]]
  }

  /** The `Map` has exactly the keys that occur, and under each the elements
      with that key in list order. */
  lemma {:induction false} MapOfMembers<T, K>(xs: seq<T>, key: T -> K, k: K)
    ensures k in MapOf(xs, key) <==> k in KeysOf(xs, key)
    ensures k in MapOf(xs, key) ==> MapOf(xs, key)[k] == Members(xs, key, k)
  {
    if xs != [] {
      var init := xs[..|xs| - 1];
      var x := xs[|xs| - 1];
      MapOfMembers(init, key, k);
      MembersSnoc(init, key, x);
      assert init + [x] == xs;
      if k != key(x) && k in MapOf(init, key) {
        assert Members(init, key, k) + [] == Members(init, key, k);
      }
      if k == key(x) && k !in MapOf(init, key) {
        AbsentKeyNoMembers(init, key, k);
      }
    }
  }

  /** The keys of the `Map` in insertion order. */
  function InsertionOrder<T, K(==)>(xs: seq<T>, key: T -> K): seq<K> {
    if xs == [] then []
    else
      var o := InsertionOrder(xs[..|xs| - 1], key);
      var k := key(xs[|xs| - 1]);
      if k in o then o else o + [k]
  }

  /** The insertion order lists every key that occurs once, in the order of
      its first occurrence. */
  lemma {:induction false} InsertionOrderDedup<T, K>(xs: seq<T>, key: T -> K)
    ensures InsertionOrder(xs, key) == Dedup(KeysOf(xs, key))
  {
    if xs != [] {
      var init := xs[..|xs| - 1];
      var x := xs[|xs| - 1];
      InsertionOrderDedup(init, key);
      assert init + [x] == xs;
      MembersSnoc(init, key, x);
      DedupSnoc(KeysOf(init, key), key(x));
    }
  }

  /** The insertion order holds exactly the keys of the `Map`. */
  lemma {:induction false} InsertionOrderDomain<T, K>(xs: seq<T>, key: T -> K, k: K)
    ensures k in InsertionOrder(xs, key) <==> k in MapOf(xs, key)
  {
    if xs != [] {
      InsertionOrderDomain(xs[..|xs| - 1], key, k);
    }
  }

  /** `xs.forEach(x => { const e = m.get(key(x)) || []; m.set(key(x), [...e, x]) })`
      on an empty `Map`: its keys in insertion order and its contents. */
  method GroupMap<T, K(==)>(xs: seq<T>, key: T -> K) returns (order: seq<K>, byKey: map<K, seq<T>>)
    ensures order == InsertionOrder(xs, key)
    ensures byKey == MapOf(xs, key)
  {
    order := [];
    byKey := map[];
    var i := 0;
    while i < |xs|
      invariant 0 <= i <= |xs|
      invariant order == InsertionOrder(xs[..i], key)
      invariant byKey == MapOf(xs[..i], key)
    {
      var x := xs[i];
      var k := key(x);
      InsertionOrderDomain(xs[..i], key, k);
      assert xs[..i + 1] == xs[..i] + [x];
      assert (xs[..i] + [x])[..i] == xs[..i];
      var existing := if k in byKey then byKey[k] else [];
      if k !in byKey {
        order := order + [k];
      }
      byKey := byKey[k := existing + [x]];
      i := i + 1;
    }
    assert xs[..|xs|] == xs;
  }

  /** The total size of the groups of the given keys. */
  function GroupSizes<T, K(==)>(keys: seq<K>, xs: seq<T>, key: T -> K): nat {
    if keys == [] then 0 else GroupSizes(keys[..|keys| - 1], xs, key) + |Members(xs, key, keys[|keys| - 1])|
  }

  lemma {:induction false} GroupSizesSnoc<T, K>(keys: seq<K>, xs: seq<T>, key: T -> K, x: T)
    requires Distinct(keys)
    ensures GroupSizes(keys, xs + [x], key) == GroupSizes(keys, xs, key) + (if key(x) in keys then 1 else 0)
  {
    MembersSnoc(xs, key, x);
    if keys != [] {
      var init := keys[..|keys| - 1];
      assert Distinct(init);
      GroupSizesSnoc(init, xs, key, x);
      assert key(x) in keys <==> key(x) in init || key(x) == keys[|keys| - 1];
      assert key(x) == keys[|keys| - 1] ==> key(x) !in init;
    }
  }

  lemma GroupSizesNew<T, K>(d: seq<K>, xs: seq<T>, key: T -> K, x: T)
    requires d == Dedup(KeysOf(xs, key)) && key(x) !in d
    ensures GroupSizes(d + [key(x)], xs + [x], key) == GroupSizes(d, xs + [x], key) + 1
  {
    AbsentKeyNoMembers(xs, key, key(x));
    MembersSnoc(xs, key, x);
    assert (d + [key(x)])[..|d|] == d;
  }

  /** The groups partition the list: their sizes add up to its length. */
  lemma {:induction false} GroupsPartition<T, K>(xs: seq<T>, key: T -> K)
    ensures GroupSizes(Dedup(KeysOf(xs, key)), xs, key) == |xs|
  {
    if xs != [] {
      var init := xs[..|xs| - 1];
      var x := xs[|xs| - 1];
      assert init + [x] == xs;
      GroupsPartition(init, key);
      var d := Dedup(KeysOf(init, key));
      MembersSnoc(init, key, x);
      DedupSnoc(KeysOf(init, key), key(x));
      GroupSizesSnoc(d, init, key, x);
      if key(x) !in d {
        GroupSizesNew(d, init, key, x);
      }
    }
  }
}
