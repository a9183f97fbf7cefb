/** Insertion-ordered records: the model of a JavaScript object's own
    enumerable properties (and of a `Map`), as a sequence of entries with
    distinct keys. `Set` is `r[k] = v` / `map.set(k, v)`, `Assign` is the
    object spread `{...r, ...s}`, `Delete` is `map.delete(k)`. */
module Records {
  import opened Wrappers

  type Record<K, V> = seq<(K, V)>

  function Keys<K, V>(r: Record<K, V>): (ks: seq<K>)
    ensures |ks| == |r| && forall i :: 0 <= i < |r| ==> ks[i] == r[i].0
  {
    seq(|r|, i requires 0 <= i < |r| => r[i].0)
  }

  function Values<K, V>(r: Record<K, V>): (vs: seq<V>)
    ensures |vs| == |r| && forall i :: 0 <= i < |r| ==> vs[i] == r[i].1
  {
    seq(|r|, i requires 0 <= i < |r| => r[i].1)
  }

  ghost predicate UniqueKeys<K, V>(r: Record<K, V>) {
    forall i, j :: 0 <= i < j < |r| ==> r[i].0 != r[j].0
  }

  /** The value stored under `k`, if any. */
  function Get<K(==), V>(r: Record<K, V>, k: K): (o: Option<V>)
    ensures o.Some? <==> k in Keys(r)
    decreases |r|
  {
    if r == [] then None
    else if r[0].0 == k then Some(r[0].1)
    else
      assert Keys(r) == [r[0].0] + Keys(r[1..]);
      Get(r[1..], k)
  }

  /** `r[k] = v`: overwrites in place when `k` is present, else appends. */
  function Set<K(==), V>(r: Record<K, V>, k: K, v: V): Record<K, V>
    decreases |r|
  {
    if r == [] then [(k, v)]
    else if r[0].0 == k then [(k, v)] + r[1..]
    else [r[0]] + Set(r[1..], k, v)
  }

  /** Removes the entry stored under `k`. */
  function Delete<K(==), V>(r: Record<K, V>, k: K): Record<K, V>
    decreases |r|
  {
    if r == [] then []
    else if r[0].0 == k then Delete(r[1..], k)
    else [r[0]] + Delete(r[1..], k)
  }

  /** `{...r, ...s}`: the entries of `s` are set onto `r` in order. */
  function Assign<K(==), V>(r: Record<K, V>, s: Record<K, V>): Record<K, V>
    decreases |s|
  {
    if s == [] then r else Assign(Set(r, s[0].0, s[0].1), s[1..])
  }

  lemma {:induction false} GetSet<K, V>(r: Record<K, V>, k: K, v: V, j: K)
    ensures Get(Set(r, k, v), j) == if j == k then Some(v) else Get(r, j)
    decreases |r|
  {
    if r != [] && r[0].0 != k {
      GetSet(r[1..], k, v, j);
    }
  }

  /** The keys of a non-empty record: its first key, then the rest. */
  lemma KeysCons<K, V>(r: Record<K, V>)
    requires r != []
    ensures Keys(r) == [r[0].0] + Keys(r[1..])
  {
    assert Keys(r) == [r[0].0] + Keys(r[1..]);
  }

  /** Setting an existing key keeps the key order; a new key goes last. */
  lemma {:induction false} KeysSet<K, V>(r: Record<K, V>, k: K, v: V)
    ensures Keys(Set(r, k, v)) == if k in Keys(r) then Keys(r) else Keys(r) + [k]
    decreases |r|
  {
    if r != [] {
      KeysCons(r);
      var t := Set(r, k, v);
      KeysCons(t);
      if r[0].0 != k {
        assert t[1..] == Set(r[1..], k, v);
        KeysSet(r[1..], k, v);
      } else {
        assert t[1..] == r[1..];
      }
    }
  }

  lemma {:induction false} SetUniqueKeys<K, V>(r: Record<K, V>, k: K, v: V)
    requires UniqueKeys(r)
    ensures UniqueKeys(Set(r, k, v))
    decreases |r|
  {
    if r != [] && r[0].0 != k {
      SetUniqueKeys(r[1..], k, v);
      KeysSet(r[1..], k, v);
      KeysCons(r);
      var t := Set(r[1..], k, v);
      assert Set(r, k, v) == [r[0]] + t;
      forall i | 0 <= i < |t|
        ensures t[i].0 != r[0].0
      {
        assert t[i].0 == Keys(t)[i];
      }
    }
  }

  lemma {:induction false} GetDelete<K, V>(r: Record<K, V>, k: K, j: K)
    ensures Get(Delete(r, k), j) == if j == k then None else Get(r, j)
    decreases |r|
  {
    if r != [] {
      GetDelete(r[1..], k, j);
    }
  }

  /** With distinct keys, deleting the key at position `p` removes exactly
      that entry and keeps the others in their order. */
  lemma {:induction false} DeleteAt<K, V>(r: Record<K, V>, p: nat)
    requires UniqueKeys(r) && p < |r|
    ensures Delete(r, r[p].0) == r[..p] + r[p + 1..]
    decreases |r|
  {
    if p == 0 {
      DeleteAbsent(r[1..], r[0].0);
    } else {
      DeleteAt(r[1..], p - 1);
      assert r[1..][..p - 1] == r[1..p];
    }
  }

  lemma {:induction false} DeleteAbsent<K, V>(r: Record<K, V>, k: K)
    requires k !in Keys(r)
    ensures Delete(r, k) == r
    decreases |r|
  {
    if r != [] {
      assert Keys(r) == [r[0].0] + Keys(r[1..]);
      DeleteAbsent(r[1..], k);
    }
  }

  /** Deleting keeps only keys that were there, and never `k`. */
  lemma {:induction false} DeleteKeys<K, V>(r: Record<K, V>, k: K)
    ensures forall i | 0 <= i < |Delete(r, k)| :: Delete(r, k)[i].0 in Keys(r) && Delete(r, k)[i].0 != k
    decreases |r|
  {
    if r != [] {
      DeleteKeys(r[1..], k);
      KeysCons(r);
    }
  }

  lemma {:induction false} DeleteUniqueKeys<K, V>(r: Record<K, V>, k: K)
    requires UniqueKeys(r)
    ensures UniqueKeys(Delete(r, k))
    ensures |Delete(r, k)| == if k in Keys(r) then |r| - 1 else |r|
    decreases |r|
  {
    if r != [] {
      var t := Delete(r[1..], k);
      assert UniqueKeys(r[1..]) && r[0].0 !in Keys(r[1..]) by {
        KeysCons(r);
      }
      DeleteUniqueKeys(r[1..], k);
      if r[0].0 == k {
        assert Delete(r, k) == t;
      } else {
        assert r[0].0 !in Keys(t) by {
          DeleteKeys(r[1..], k);
        }
        ConsUniqueKeys(r[0], t);
        assert Delete(r, k) == [r[0]] + t;
      }
    }
  }

  /** An entry whose key is not among those of a unique-keyed record can go in front. */
  lemma ConsUniqueKeys<K, V>(e: (K, V), t: Record<K, V>)
    requires UniqueKeys(t) && e.0 !in Keys(t)
    ensures UniqueKeys([e] + t)
  {
    var r := [e] + t;
    forall i, j | 0 <= i < j < |r| ensures r[i].0 != r[j].0 {
      if i == 0 { assert r[j].0 == Keys(t)[j - 1]; }
    }
  }

  /** Spread precedence: a key of `s` takes its value from `s`; any other key
      keeps its value from `r`. */
  lemma {:induction false} GetAssign<K, V>(r: Record<K, V>, s: Record<K, V>, j: K)
    requires UniqueKeys(s)
    ensures Get(Assign(r, s), j) == if j in Keys(s) then Get(s, j) else Get(r, j)
    decreases |s|
  {
    if s != [] {
      assert Keys(s) == [s[0].0] + Keys(s[1..]);
      GetAssign(Set(r, s[0].0, s[0].1), s[1..], j);
      GetSet(r, s[0].0, s[0].1, j);
    }
  }

  lemma {:induction false} AssignUniqueKeys<K, V>(r: Record<K, V>, s: Record<K, V>)
    requires UniqueKeys(r)
    ensures UniqueKeys(Assign(r, s))
    decreases |s|
  {
    if s != [] {
      SetUniqueKeys(r, s[0].0, s[0].1);
      AssignUniqueKeys(Set(r, s[0].0, s[0].1), s[1..]);
    }
  }
}
