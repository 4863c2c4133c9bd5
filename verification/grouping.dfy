/**
 * Keys in first-appearance order: the order in which a JavaScript object used
 * as a dictionary (`Record<string, …>`) enumerates keys that were added one by
 * one, as both grouping passes of the CSV normaliser do.
 */
module Grouping {
  import opened Wrappers
  import opened Strings

  /** The distinct values of `ks`, each once, in order of first appearance. */
  function Distinct<K(==)>(ks: seq<K>): seq<K> {
    if ks == [] then []
    else
      var r := Distinct(ks[..|ks| - 1]);
      var k := ks[|ks| - 1];
      if k in r then r else r + [k]
  }

  /** `Distinct` keeps exactly the keys that occur. */
  lemma {:induction false} DistinctMembers<K>(ks: seq<K>, x: K)
    ensures x in Distinct(ks) <==> x in ks
  {
    if ks != [] {
      var init, k := ks[..|ks| - 1], ks[|ks| - 1];
      assert ks == init + [k];
      DistinctMembers(init, x);
    }
  }

  /** No key occurs twice in `Distinct(ks)`. */
  lemma {:induction false} DistinctNoDuplicates<K>(ks: seq<K>)
    ensures forall i, j :: 0 <= i < j < |Distinct(ks)| ==> Distinct(ks)[i] != Distinct(ks)[j]
  {
    if ks != [] {
      var init, k := ks[..|ks| - 1], ks[|ks| - 1];
      DistinctNoDuplicates(init);
      var r := Distinct(init);
      if k !in r {
        assert Distinct(ks) == r + [k];
      }
    }
  }

  /** Adding one key extends the distinct list only when the key is new. */
  lemma DistinctSnoc<K>(ks: seq<K>, k: K)
    ensures Distinct(ks + [k]) == if k in ks then Distinct(ks) else Distinct(ks) + [k]
  {
    assert (ks + [k])[..|ks|] == ks;
    DistinctMembers(ks, k);
  }

  /** Every key of `ks` occurs exactly once in `Distinct(ks)`, and nothing else occurs. */
  lemma {:induction false} DistinctMultiplicity<K>(ks: seq<K>, x: K)
    ensures multiset(Distinct(ks))[x] == if x in ks then 1 else 0
  {
    if ks != [] {
      var init, k := ks[..|ks| - 1], ks[|ks| - 1];
      assert ks == init + [k];
      DistinctMultiplicity(init, x);
      DistinctSnoc(init, k);
    }
  }

  /** `indexOf` in an extended list is unchanged for keys already present. */
  lemma FirstIndexSnoc<K>(ks: seq<K>, k: K, x: K)
    ensures x in ks ==> FirstIndex(ks + [k], x) == FirstIndex(ks, x)
    ensures x !in ks && x == k ==> FirstIndex(ks + [k], x) == Some(|ks|)
  {
    var i := FirstIndex(ks + [k], x);
    if x in ks {
      var j := FirstIndex(ks, x).value;
      assert (ks + [k])[..j] == ks[..j];
    } else if x == k {
      assert (ks + [k])[..|ks|] == ks;
    }
  }

  /** Keys appear in `Distinct(ks)` in the order of their first occurrence in `ks`. */
  lemma {:induction false} DistinctFirstAppearanceOrder<K>(ks: seq<K>, i: nat, j: nat)
    requires i < j < |Distinct(ks)|
    ensures Distinct(ks)[i] in ks && Distinct(ks)[j] in ks
    ensures FirstIndex(ks, Distinct(ks)[i]).value < FirstIndex(ks, Distinct(ks)[j]).value
  {
    var init, k := ks[..|ks| - 1], ks[|ks| - 1];
    assert ks == init + [k];
    DistinctSnoc(init, k);
    var r := Distinct(ks);
    DistinctMembers(ks, r[i]);
    DistinctMembers(ks, r[j]);
    DistinctMembers(init, r[i]);
    DistinctNoDuplicates(ks);
    FirstIndexSnoc(init, k, r[i]);
    FirstIndexSnoc(init, k, r[j]);
    if j < |Distinct(init)| {
      DistinctFirstAppearanceOrder(init, i, j);
    } else {
      assert r[j] == k && k !in init;
      assert r[i] in init;
    }
  }
}
