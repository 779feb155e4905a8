/** Insertion-ordered dictionaries (Python's dict, a JavaScript object used
    as a map) as association lists. Assigning to an existing key keeps its
    position; assigning to a new key appends it; `del` removes it. */
module Dict {
  import opened Wrappers

  function Get<K(==,!new), V>(d: seq<(K, V)>, k: K): Option<V>
  {
    if d == [] then None else if d[0].0 == k then Some(d[0].1) else Get(d[1..], k)
  }

  predicate HasKey<K(==,!new), V>(d: seq<(K, V)>, k: K) { Get(d, k).Some? }

  predicate DistinctKeys<K(==,!new), V>(d: seq<(K, V)>)
  {
    d == [] || (!HasKey(d[1..], d[0].0) && DistinctKeys(d[1..]))
  }

  function Keys<K(==,!new), V>(d: seq<(K, V)>): (ks: seq<K>)
    ensures |ks| == |d| && forall i | 0 <= i < |d| :: ks[i] == d[i].0
  {
    if d == [] then [] else [d[0].0] + Keys(d[1..])
  }

  lemma {:induction false} GetIsAt<K(!new), V>(d: seq<(K, V)>, i: nat)
    requires DistinctKeys(d) && i < |d|
    ensures Get(d, d[i].0) == Some(d[i].1)
  {
    if i > 0 {
      GetIsAt(d[1..], i - 1);
      assert d[1..][i - 1] == d[i];
    }
  }

  /** `d[k] = v`. */
  function Put<K(==,!new), V>(d: seq<(K, V)>, k: K, v: V): (r: seq<(K, V)>)
    ensures Get(r, k) == Some(v)
    ensures forall k' | k' != k :: Get(r, k') == Get(d, k')
    ensures |r| == if HasKey(d, k) then |d| else |d| + 1
  {
    if d == [] then [(k, v)]
    else if d[0].0 == k then [(k, v)] + d[1..]
    else [d[0]] + Put(d[1..], k, v)
  }

  /** `del d[k]` (a no-op for an absent key). */
  function Remove<K(==,!new), V>(d: seq<(K, V)>, k: K): (r: seq<(K, V)>)
    ensures Get(r, k) == None
    ensures forall k' | k' != k :: Get(r, k') == Get(d, k')
    ensures |r| <= |d|
  {
    if d == [] then []
    else if d[0].0 == k then Remove(d[1..], k)
    else [d[0]] + Remove(d[1..], k)
  }

  lemma {:induction false} PutDistinct<K(!new), V>(d: seq<(K, V)>, k: K, v: V)
    requires DistinctKeys(d)
    ensures DistinctKeys(Put(d, k, v))
  {
    if d != [] && d[0].0 != k {
      PutDistinct(d[1..], k, v);
    }
  }

  lemma {:induction false} RemoveDistinct<K(!new), V>(d: seq<(K, V)>, k: K)
    requires DistinctKeys(d)
    ensures DistinctKeys(Remove(d, k))
  {
    if d != [] {
      RemoveDistinct(d[1..], k);
    }
  }

  /** Entries other than k keep their relative order under `d[k] = v`. */
  lemma {:induction false} PutKeepsOrder<K(!new), V>(d: seq<(K, V)>, k: K, v: V)
    requires HasKey(d, k)
    ensures Keys(Put(d, k, v)) == Keys(d)
  {
    if d[0].0 != k {
      PutKeepsOrder(d[1..], k, v);
    }
  }

  /** A lookup in a concatenation finds the first part's entry first. */
  lemma {:induction false} GetAppend<K(!new), V>(a: seq<(K, V)>, b: seq<(K, V)>, k: K)
    ensures Get(a + b, k) == if HasKey(a, k) then Get(a, k) else Get(b, k)
  {
    if a == [] {
      assert a + b == b;
    } else {
      assert (a + b)[0] == a[0] && (a + b)[1..] == a[1..] + b;
      GetAppend(a[1..], b, k);
    }
  }

  /** Assigning to a key the dict does not have appends the entry. */
  lemma {:induction false} PutAbsentAppends<K(!new), V>(d: seq<(K, V)>, k: K, v: V)
    requires !HasKey(d, k)
    ensures Put(d, k, v) == d + [(k, v)]
  {
    if d != [] {
      PutAbsentAppends(d[1..], k, v);
    }
  }

  /** `del d[k]` of an absent key changes nothing. */
  lemma {:induction false} RemoveAbsent<K(!new), V>(d: seq<(K, V)>, k: K)
    requires !HasKey(d, k)
    ensures Remove(d, k) == d
  {
    if d != [] {
      RemoveAbsent(d[1..], k);
    }
  }

  /** Writing back the value a key already has changes nothing. */
  lemma {:induction false} PutSame<K(!new), V>(d: seq<(K, V)>, k: K)
    requires HasKey(d, k)
    ensures Put(d, k, Get(d, k).value) == d
  {
    if d[0].0 != k {
      PutSame(d[1..], k);
    }
  }

  /** The second of two writes to one key wins. */
  lemma {:induction false} PutPut<K(!new), V>(d: seq<(K, V)>, k: K, a: V, b: V)
    ensures Put(Put(d, k, a), k, b) == Put(d, k, b)
  {
    if d != [] && d[0].0 != k {
      PutPut(d[1..], k, a, b);
    }
  }

  /** Deleting a key just written is deleting it from the original. */
  lemma {:induction false} RemovePut<K(!new), V>(d: seq<(K, V)>, k: K, v: V)
    ensures Remove(Put(d, k, v), k) == Remove(d, k)
  {
    if d != [] && d[0].0 != k {
      RemovePut(d[1..], k, v);
    }
  }

  /** Σ f(key, value) over the entries, in order. */
  function SumValues<K, V>(d: seq<(K, V)>, f: (K, V) -> real): real
  {
    if d == [] then 0.0 else f(d[0].0, d[0].1) + SumValues(d[1..], f)
  }

  /** The weight of k's entry, 0 when k is absent. */
  function ValueAt<K(==,!new), V>(d: seq<(K, V)>, k: K, f: (K, V) -> real): real
  {
    match Get(d, k)
    case None => 0.0
    case Some(v) => f(k, v)
  }

  lemma {:induction false} SumAbsent<K(!new), V>(d: seq<(K, V)>, k: K, f: (K, V) -> real)
    requires !HasKey(d, k)
    ensures SumValues(Remove(d, k), f) == SumValues(d, f)
  {
    if d != [] { SumAbsent(d[1..], k, f); }
  }

  /** Overwriting or appending k changes the sum by the new value's weight
      less the old one's. */
  lemma {:induction false} SumPut<K(!new), V>(d: seq<(K, V)>, k: K, v: V, f: (K, V) -> real)
    requires DistinctKeys(d)
    ensures SumValues(Put(d, k, v), f) == SumValues(d, f) - ValueAt(d, k, f) + f(k, v)
  {
    if d != [] && d[0].0 != k {
      SumPut(d[1..], k, v, f);
    }
  }

  /** Deleting k lowers the sum by exactly k's weight. */
  lemma {:induction false} SumRemove<K(!new), V>(d: seq<(K, V)>, k: K, f: (K, V) -> real)
    requires DistinctKeys(d)
    ensures SumValues(Remove(d, k), f) == SumValues(d, f) - ValueAt(d, k, f)
  {
    if d != [] {
      if d[0].0 == k {
        SumAbsent(d[1..], k, f);
      } else {
        SumRemove(d[1..], k, f);
      }
    }
  }

  /** Every entry of `d[k] = v` is the new one or an entry of d. */
  lemma {:induction false} PutEntries<K(!new), V>(d: seq<(K, V)>, k: K, v: V)
    ensures forall e | e in Put(d, k, v) :: e.0 == k || e in d
  {
    if d != [] && d[0].0 != k {
      PutEntries(d[1..], k, v);
    }
  }

  /** A key the lookup finds is held by an entry of the dict. */
  lemma {:induction false} GetIn<K(!new), V>(d: seq<(K, V)>, k: K)
    requires HasKey(d, k)
    ensures (k, Get(d, k).value) in d
  {
    if d[0].0 != k {
      GetIn(d[1..], k);
    }
  }
}
