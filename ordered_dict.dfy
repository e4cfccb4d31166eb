/** A Python `dict` as the list of its items in insertion order. Assigning to a
    key that is already present replaces the value where it stands; a new key
    goes to the end; `del` removes the item and keeps the order of the rest. */
module OrderedDict {
  import opened Common

  type Dict<K, V> = seq<(K, V)>

  /** `list(d.keys())`. */
  function Keys<K(==), V>(d: Dict<K, V>): (ks: seq<K>)
    ensures |ks| == |d|
    ensures forall i :: 0 <= i < |d| ==> ks[i] == d[i].0
  {
    if d == [] then [] else [d[0].0] + Keys(d[1..])
  }

  /** `list(d.values())`. */
  function Values<K(==), V>(d: Dict<K, V>): (vs: seq<V>)
    ensures |vs| == |d|
    ensures forall i :: 0 <= i < |d| ==> vs[i] == d[i].1
  {
    if d == [] then [] else [d[0].1] + Values(d[1..])
  }

  /** No key occurs twice, which every Python dict satisfies. */
  predicate DistinctKeys<K(==), V>(d: Dict<K, V>) {
    forall i, j :: 0 <= i < j < |d| ==> d[i].0 != d[j].0
  }

  predicate HasKey<K(==), V>(d: Dict<K, V>, k: K) {
    exists i :: 0 <= i < |d| && d[i].0 == k
  }

  /** `d.get(k)`. */
  function Get<K(==), V>(d: Dict<K, V>, k: K): (r: Option<V>)
    ensures r.Some? <==> HasKey(d, k)
    ensures r.Some? ==> exists i :: 0 <= i < |d| && d[i] == (k, r.value)
  {
    if d == [] then None
    else if d[0].0 == k then Some(d[0].1)
    else
      var r := Get(d[1..], k);
      assert r.Some? ==> exists i :: 0 <= i < |d[1..]| && d[1..][i] == (k, r.value);
      r
  }

  /** `d[k] = v`. */
  function Put<K(==), V>(d: Dict<K, V>, k: K, v: V): (r: Dict<K, V>)
  {
    if d == [] then [(k, v)]
    else if d[0].0 == k then [(k, v)] + d[1..]
    else [d[0]] + Put(d[1..], k, v)
  }

  /** `del d[k]` when `k` is present; no change otherwise. */
  function Remove<K(==), V>(d: Dict<K, V>, k: K): (r: Dict<K, V>)
  {
    if d == [] then []
    else if d[0].0 == k then Remove(d[1..], k)
    else [d[0]] + Remove(d[1..], k)
  }

  lemma {:induction false} GetIndex<K, V>(d: Dict<K, V>, i: nat)
    requires DistinctKeys(d) && i < |d|
    ensures Get(d, d[i].0) == Some(d[i].1)
  {
    if i > 0 {
      assert DistinctKeys(d[1..]) by {
        forall a, b | 0 <= a < b < |d[1..]| ensures d[1..][a].0 != d[1..][b].0 {
          assert d[1..][a] == d[a + 1] && d[1..][b] == d[b + 1];
        }
      }
      assert d[0].0 != d[i].0;
      GetIndex(d[1..], i - 1);
    }
  }

  /** Assignment keeps the order of the keys already present and appends a new one. */
  lemma {:induction false} PutKeys<K, V>(d: Dict<K, V>, k: K, v: V)
    requires DistinctKeys(d)
    ensures Keys(Put(d, k, v)) == if k in Keys(d) then Keys(d) else Keys(d) + [k]
    ensures DistinctKeys(Put(d, k, v))
  {
    if d == [] {
    } else if d[0].0 == k {
      assert Keys(Put(d, k, v)) == [k] + Keys(d[1..]) == Keys(d);
    } else {
      var t := d[1..];
      assert DistinctKeys(t) by {
        forall a, b | 0 <= a < b < |t| ensures t[a].0 != t[b].0 {
          assert t[a] == d[a + 1] && t[b] == d[b + 1];
        }
      }
      PutKeys(t, k, v);
      assert Keys(d) == [d[0].0] + Keys(t);
      assert Keys(Put(d, k, v)) == [d[0].0] + Keys(Put(t, k, v));
      assert d[0].0 !in Keys(t) by {
        forall a | 0 <= a < |t| ensures Keys(t)[a] != d[0].0 {
          assert t[a] == d[a + 1];
        }
      }
      var r := Put(d, k, v);
      assert r == [d[0]] + Put(t, k, v);
      assert Keys(r) == Keys([d[0]] + Put(t, k, v));
      forall a, b | 0 <= a < b < |r| ensures r[a].0 != r[b].0 {
        if a == 0 {
          assert r[b].0 == Keys(Put(t, k, v))[b - 1];
          if k in Keys(t) {
          } else {
            assert Keys(Put(t, k, v)) == Keys(t) + [k];
          }
        } else {
          assert r[a] == Put(t, k, v)[a - 1] && r[b] == Put(t, k, v)[b - 1];
        }
      }
    }
  }

  /** After `d[k] = v`, `k` maps to `v` and every other key keeps its value. */
  lemma {:induction false} GetPut<K, V>(d: Dict<K, V>, k: K, v: V, k': K)
    ensures Get(Put(d, k, v), k') == if k' == k then Some(v) else Get(d, k')
  {
    if d != [] && d[0].0 != k {
      GetPut(d[1..], k, v, k');
    }
  }

  /** Assignment introduces no item other than the one assigned. */
  lemma {:induction false} PutMembers<K, V>(d: Dict<K, V>, k: K, v: V)
    ensures forall x :: x in Put(d, k, v) ==> x in d || x == (k, v)
  {
    if d != [] && d[0].0 != k {
      PutMembers(d[1..], k, v);
      assert forall x :: x in d[1..] ==> x in d;
    }
  }

  /** `del d[k]` removes exactly `k`. */
  lemma {:induction false} GetRemove<K, V>(d: Dict<K, V>, k: K, k': K)
    ensures Get(Remove(d, k), k') == if k' == k then None else Get(d, k')
  {
    if d != [] {
      GetRemove(d[1..], k, k');
    }
  }

  /** Removal keeps the remaining items in their order and drops nothing else. */
  lemma {:induction false} RemoveKeys<K, V>(d: Dict<K, V>, k: K)
    ensures forall i :: 0 <= i < |Remove(d, k)| ==> Remove(d, k)[i].0 != k && Remove(d, k)[i] in d
    ensures forall x :: x in d && x.0 != k ==> x in Remove(d, k)
  {
    if d != [] {
      RemoveKeys(d[1..], k);
      assert forall x :: x in d <==> x == d[0] || x in d[1..];
    }
  }

  lemma {:induction false} RemoveDistinct<K, V>(d: Dict<K, V>, k: K)
    requires DistinctKeys(d)
    ensures DistinctKeys(Remove(d, k))
  {
    if d != [] {
      var t := d[1..];
      assert DistinctKeys(t) by {
        forall a, b | 0 <= a < b < |t| ensures t[a].0 != t[b].0 {
          assert t[a] == d[a + 1] && t[b] == d[b + 1];
        }
      }
      RemoveDistinct(t, k);
      RemoveKeys(t, k);
      if d[0].0 != k {
        var r := [d[0]] + Remove(t, k);
        forall a, b | 0 <= a < b < |r| ensures r[a].0 != r[b].0 {
          if a == 0 {
            var x := Remove(t, k)[b - 1];
            assert r[b] == x;
            assert x in Remove(t, k);
            assert x in t;
            var j :| 0 <= j < |t| && t[j] == x;
            assert t[j] == d[j + 1];
          } else {
            assert r[a] == Remove(t, k)[a - 1] && r[b] == Remove(t, k)[b - 1];
          }
        }
      }
    }
  }
}
