/** Cardinalities of preimages, the arithmetic behind every "how many hold it" ledger. */
module Counting {

  datatype Option<T> = None | Some(value: T)

  /** 1 when the condition holds, 0 otherwise. */
  function One(b: bool): nat {
    if b then 1 else 0
  }

  /** The keys that map to v. */
  function Preimage<K, V(==)>(m: map<K, V>, v: V): set<K> {
    set k | k in m && m[k] == v
  }

  lemma PreimageInsert<K, V>(m: map<K, V>, k: K, v: V, x: V)
    requires k !in m
    ensures |Preimage(m[k := v], x)| == |Preimage(m, x)| + One(v == x)
  {
    if v == x {
      assert Preimage(m[k := v], x) == Preimage(m, x) + {k};
    } else {
      assert Preimage(m[k := v], x) == Preimage(m, x);
    }
  }

  lemma PreimageRemove<K, V>(m: map<K, V>, k: K, x: V)
    requires k in m
    ensures |Preimage(m - {k}, x)| == |Preimage(m, x)| - One(m[k] == x)
  {
    if m[k] == x {
      assert Preimage(m - {k}, x) == Preimage(m, x) - {k};
    } else {
      assert Preimage(m - {k}, x) == Preimage(m, x);
    }
  }

  /** Two sets that agree everywhere but perhaps on t. */
  lemma ChangedAt<K(!new)>(before: set<K>, after: set<K>, t: K)
    requires forall u :: u != t ==> (u in before <==> u in after)
    ensures |after| == |before| - One(t in before) + One(t in after)
  {
    assert before - {t} == after - {t};
    assert |before - {t}| == |before| - One(t in before) by {
      if t !in before { assert before - {t} == before; }
    }
    assert |after - {t}| == |after| - One(t in after) by {
      if t !in after { assert after - {t} == after; }
    }
  }
}
