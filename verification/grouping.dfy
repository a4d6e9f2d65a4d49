/**
  Grouping by category, as the site does it four times: the skills section,
  both CV generators and the backend's skills endpoint each walk a list once,
  open an empty group the first time a category is seen, and push the item
  onto its category's group. The result is the categories in order of first
  appearance together with a table from category to its items.
 */
module Grouping {

  /** The distinct keys of `keys`, in order of first appearance. */
  function Categories<K(==,!new)>(keys: seq<K>): seq<K>
  {
    if keys == [] then []
    else
      var prev := Categories(keys[..|keys| - 1]);
      var k := keys[|keys| - 1];
      assert keys == keys[..|keys| - 1] + [k];
      if k in prev then prev else prev + [k]
  }

  /** The values whose key is `k`, in their original order. */
  function Members<K(==,!new), V>(keys: seq<K>, values: seq<V>, k: K): seq<V>
    requires |keys| == |values|
  {
    if keys == [] then []
    else
      var n := |keys| - 1;
      Members(keys[..n], values[..n], k) + (if keys[n] == k then [values[n]] else [])
  }

  predicate Distinct<K(==,!new)>(xs: seq<K>) {
    forall i, j :: 0 <= i < j < |xs| ==> xs[i] != xs[j]
  }

  /** The groups of `cats` laid end to end. */
  function Flatten<K(==,!new), V>(keys: seq<K>, values: seq<V>, cats: seq<K>): seq<V>
    requires |keys| == |values|
  {
    if cats == [] then [] else Flatten(keys, values, cats[..|cats| - 1]) + Members(keys, values, cats[|cats| - 1])
  }

  /** Walks the list once: a category seen for the first time gets an empty
      group at the end of `order`, then the value is pushed onto its group. */
  method GroupBy<K(==,!new), V>(keys: seq<K>, values: seq<V>) returns (order: seq<K>, table: map<K, seq<V>>)
    requires |keys| == |values|
    ensures order == Categories(keys)
    ensures forall k :: k in table <==> k in keys
    ensures forall k :: k in table ==> table[k] == Members(keys, values, k)
  {
    order, table := [], map[];
    for i := 0 to |keys|
      invariant order == Categories(keys[..i])
      invariant forall k :: k in table <==> k in keys[..i]
      invariant forall k :: k in table ==> table[k] == Members(keys[..i], values[..i], k)
    {
      var k := keys[i];
      CategoriesStep(keys, i);
      InPrefixStep(keys, i);
      var group := if k in table then table[k] else [];
      if k !in table {
        MembersAbsent(keys[..i], values[..i], k);
        order := order + [k];
      }
      table := table[k := group + [values[i]]];
      forall c | c in table
        ensures table[c] == Members(keys[..i + 1], values[..i + 1], c)
      {
        MembersStep(keys, values, i, c);
      }
    }
    assert keys[..|keys|] == keys && values[..|values|] == values;
  }

  lemma CategoriesStep<K(!new)>(keys: seq<K>, i: nat)
    requires i < |keys|
    ensures Categories(keys[..i + 1])
         == if keys[i] in keys[..i] then Categories(keys[..i]) else Categories(keys[..i]) + [keys[i]]
  {
    assert keys[..i + 1][..i] == keys[..i];
    CategoriesAreKeys(keys[..i], keys[i]);
  }

  lemma MembersStep<K(!new), V>(keys: seq<K>, values: seq<V>, i: nat, k: K)
    requires |keys| == |values| && i < |keys|
    ensures Members(keys[..i + 1], values[..i + 1], k)
         == Members(keys[..i], values[..i], k) + (if keys[i] == k then [values[i]] else [])
  {
    assert keys[..i + 1][..i] == keys[..i] && values[..i + 1][..i] == values[..i];
  }

  lemma InPrefixStep<K(!new)>(keys: seq<K>, i: nat)
    requires i < |keys|
    ensures forall k :: k in keys[..i + 1] <==> k in keys[..i] || k == keys[i]
  {
    assert keys[..i + 1] == keys[..i] + [keys[i]];
  }

  // ---------------------------------------------------------------------
  // Properties
  // ---------------------------------------------------------------------

  /** Each category is listed once. */
  lemma {:induction false} CategoriesDistinct<K(!new)>(keys: seq<K>)
    ensures Distinct(Categories(keys))
  {
    if keys != [] {
      CategoriesDistinct(keys[..|keys| - 1]);
    }
  }

  /** The categories are exactly the keys that occur. */
  lemma {:induction false} CategoriesAreKeys<K(!new)>(keys: seq<K>, k: K)
    ensures k in Categories(keys) <==> k in keys
  {
    if keys != [] {
      var n := |keys| - 1;
      CategoriesAreKeys(keys[..n], k);
      assert keys == keys[..n] + [keys[n]];
    }
  }

  /** A category opens at the position of its first occurrence: of two
      categories, the one whose first occurrence comes first is listed first. */
  lemma {:induction false} CategoriesFirstAppearance<K(!new)>(keys: seq<K>, i: nat, j: nat)
    requires i < j < |keys|
    requires keys[j] !in keys[..j]
    ensures keys[i] in Categories(keys[..j])
    ensures Categories(keys[..j + 1]) == Categories(keys[..j]) + [keys[j]]
  {
    CategoriesStep(keys, j);
    assert keys[i] == keys[..j][i];
    CategoriesAreKeys(keys[..j], keys[i]);
  }

  /** A key's group has one item per occurrence of the key. */
  lemma {:induction false} MembersCount<K(!new), V>(keys: seq<K>, values: seq<V>, k: K)
    requires |keys| == |values|
    ensures |Members(keys, values, k)| == multiset(keys)[k]
  {
    if keys != [] {
      var n := |keys| - 1;
      MembersCount(keys[..n], values[..n], k);
      assert keys == keys[..n] + [keys[n]];
      assert multiset(keys) == multiset(keys[..n]) + multiset{keys[n]};
    }
  }

  /** Every item of a group carries that group's key, in list order: the
      group is the values at the positions of the key, taken in order. */
  lemma {:induction false} MembersFrom<K(!new), V>(keys: seq<K>, values: seq<V>, k: K, m: nat)
    requires |keys| == |values|
    requires m < |Members(keys, values, k)|
    ensures exists i :: 0 <= i < |keys| && keys[i] == k && values[i] == Members(keys, values, k)[m]
  {
    var n := |keys| - 1;
    var prev := Members(keys[..n], values[..n], k);
    if m < |prev| {
      MembersFrom(keys[..n], values[..n], k, m);
      var i :| 0 <= i < n && keys[..n][i] == k && values[..n][i] == prev[m];
      assert keys[i] == k && values[i] == prev[m];
    } else {
      assert keys[n] == k && values[n] == Members(keys, values, k)[m];
    }
  }

  /** The groups together hold every item exactly once. */
  lemma {:induction false} GroupsPartition<K(!new), V>(keys: seq<K>, values: seq<V>)
    requires |keys| == |values|
    ensures multiset(Flatten(keys, values, Categories(keys))) == multiset(values)
  {
    if keys != [] {
      var n := |keys| - 1;
      var k, v := keys[n], values[n];
      var ks, vs := keys[..n], values[..n];
      var prev := Categories(ks);
      GroupsPartition(ks, vs);
      CategoriesDistinct(ks);
      assert values == vs + [v];
      if k in prev {
        FlattenStep(keys, values, prev, k);
      } else {
        CategoriesAreKeys(ks, k);
        MembersAbsent(ks, vs, k);
        FlattenOthers(keys, values, prev);
        assert (prev + [k])[..|prev|] == prev;
      }
    }
  }

  /** Without the key, the group is empty. */
  lemma {:induction false} MembersAbsent<K(!new), V>(keys: seq<K>, values: seq<V>, k: K)
    requires |keys| == |values| && k !in keys
    ensures Members(keys, values, k) == []
  {
    MembersCount(keys, values, k);
  }

  /** Adding an item whose key is not among `cats` leaves their groups alone. */
  lemma {:induction false} FlattenOthers<K(!new), V>(keys: seq<K>, values: seq<V>, cats: seq<K>)
    requires |keys| == |values| && keys != []
    requires keys[|keys| - 1] !in cats
    ensures Flatten(keys, values, cats) == Flatten(keys[..|keys| - 1], values[..|values| - 1], cats)
  {
    if cats != [] {
      FlattenOthers(keys, values, cats[..|cats| - 1]);
    }
  }

  /** Adding an item whose key is among `cats` (each listed once) adds
      exactly that item to the groups laid end to end. */
  lemma {:induction false} FlattenStep<K(!new), V>(keys: seq<K>, values: seq<V>, cats: seq<K>, k: K)
    requires |keys| == |values| && keys != [] && keys[|keys| - 1] == k
    requires k in cats && Distinct(cats)
    ensures multiset(Flatten(keys, values, cats))
         == multiset(Flatten(keys[..|keys| - 1], values[..|values| - 1], cats)) + multiset{values[|values| - 1]}
  {
    var n := |keys| - 1;
    var c := cats[|cats| - 1];
    var rest := cats[..|cats| - 1];
    if c == k {
      assert k !in rest;
      FlattenOthers(keys, values, rest);
    } else {
      assert k in rest;
      FlattenStep(keys, values, rest, k);
    }
  }

  /** No more groups than items. */
  lemma {:induction false} CategoriesBound<K(!new)>(keys: seq<K>)
    ensures |Categories(keys)| <= |keys|
  {
    if keys != [] {
      CategoriesBound(keys[..|keys| - 1]);
    }
  }

  /** As many groups as distinct categories. */
  lemma GroupCount<K(!new)>(keys: seq<K>)
    ensures |Categories(keys)| == |set k | k in keys|
  {
    CategoriesDistinct(keys);
    DistinctCardinality(Categories(keys));
    forall k {
      CategoriesAreKeys(keys, k);
    }
    assert (set k | k in Categories(keys)) == (set k | k in keys);
  }

  lemma {:induction false} DistinctCardinality<K(!new)>(xs: seq<K>)
    requires Distinct(xs)
    ensures |set k | k in xs| == |xs|
  {
    if xs != [] {
      var n := |xs| - 1;
      DistinctCardinality(xs[..n]);
      assert (set k | k in xs) == (set k | k in xs[..n]) + {xs[n]};
      assert xs[n] !in xs[..n];
    }
  }
}
