/** Python dictionaries as insertion-ordered association lists: the model of the
    `dict`s and `defaultdict`s the analysis scripts fill in loops. */
module PyDict {
  type Dict<K, V> = seq<(K, V)>

  function Keys<K(==), V>(d: Dict<K, V>): (ks: set<K>)
    ensures forall i :: 0 <= i < |d| ==> d[i].0 in ks
    ensures forall k :: k in ks ==> exists i :: 0 <= i < |d| && d[i].0 == k
  {
    if d == [] then {} else {d[0].0} + Keys(d[1..])
  }

  predicate DistinctKeys<K(==), V>(d: Dict<K, V>)
  {
    forall i, j :: 0 <= i < j < |d| ==> d[i].0 != d[j].0
  }

  /** `d.get(k, default)`. */
  function Get<K(==), V>(d: Dict<K, V>, k: K, default: V): V
  {
    if d == [] then default
    else if d[0].0 == k then d[0].1
    else Get(d[1..], k, default)
  }

  /** `d[k] = v`: overwrite in place when present, append otherwise. */
  function Set<K(==), V>(d: Dict<K, V>, k: K, v: V): Dict<K, V>
  {
    if d == [] then [(k, v)]
    else if d[0].0 == k then [(k, v)] + d[1..]
    else [d[0]] + Set(d[1..], k, v)
  }

  /** `d[k] += delta` on a `defaultdict(int)`. */
  function Add<K(==)>(d: Dict<K, int>, k: K, delta: int): Dict<K, int>
  {
    Set(d, k, Get(d, k, 0) + delta)
  }

  /** `sum(d.values())`. */
  function Sum<K>(d: Dict<K, int>): int
  {
    if d == [] then 0 else d[0].1 + Sum(d[1..])
  }

  lemma {:induction false} GetSet<K, V>(d: Dict<K, V>, k: K, v: V, k': K, default: V)
    ensures Get(Set(d, k, v), k', default) == if k == k' then v else Get(d, k', default)
  {
    if d != [] && d[0].0 != k {
      GetSet(d[1..], k, v, k', default);
    }
  }

  lemma {:induction false} KeysSet<K, V>(d: Dict<K, V>, k: K, v: V)
    ensures Keys(Set(d, k, v)) == Keys(d) + {k}
    ensures |Set(d, k, v)| == if k in Keys(d) then |d| else |d| + 1
  {
    if d != [] {
      if d[0].0 != k {
        KeysSet(d[1..], k, v);
        assert Keys(d) == {d[0].0} + Keys(d[1..]);
      } else {
        assert Set(d, k, v)[1..] == d[1..];
      }
    }
  }

  lemma {:induction false} DistinctSet<K, V>(d: Dict<K, V>, k: K, v: V)
    requires DistinctKeys(d)
    ensures DistinctKeys(Set(d, k, v))
  {
    if d != [] && d[0].0 != k {
      DistinctSet(d[1..], k, v);
      KeysSet(d[1..], k, v);
      var t := Set(d[1..], k, v);
      assert d[0].0 !in Keys(d[1..]);
      forall j | 0 <= j < |t| ensures t[j].0 != d[0].0 {
        assert t[j].0 in Keys(t);
      }
    }
  }

  lemma {:induction false} SumSet(d: Dict<string, int>, k: string, v: int)
    ensures Sum(Set(d, k, v)) == Sum(d) - Get(d, k, 0) + v
  {
    if d != [] && d[0].0 != k {
      SumSet(d[1..], k, v);
    } else if d != [] {
      assert Set(d, k, v)[1..] == d[1..];
    }
  }

  lemma {:induction false} GetNotKey<K, V>(d: Dict<K, V>, k: K, default: V)
    requires k !in Keys(d)
    ensures Get(d, k, default) == default
  {
    if d != [] {
      GetNotKey(d[1..], k, default);
    }
  }
}
