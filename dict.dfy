/**
 * An insertion-ordered dictionary, as Python's `dict`: a sequence of entries with distinct keys.
 * Assigning to a present key keeps its position, a new key goes last, and deleting drops the entry;
 * iteration (`.items()`) visits the entries in sequence order.
 */
module Dict {
  import opened Wrappers

  /** No key occurs twice. */
  predicate DistinctKeys<K(==,!new), V>(s: seq<(K, V)>) {
    s == [] || (!HasKey(s[1..], s[0].0) && DistinctKeys(s[1..]))
  }

  type Dict<K(==,!new), V> = s: seq<(K, V)> | DistinctKeys(s) witness []

  /** `d.get(k)`. */
  function Get<K(==,!new), V>(d: seq<(K, V)>, k: K): Option<V> {
    if d == [] then None else if d[0].0 == k then Some(d[0].1) else Get(d[1..], k)
  }

  /** `k in d`. */
  predicate HasKey<K(==,!new), V>(d: seq<(K, V)>, k: K) {
    Get(d, k).Some?
  }

  /** `list(d)`: the keys in iteration order. */
  function Keys<K(==,!new), V>(d: seq<(K, V)>): seq<K> {
    if d == [] then [] else [d[0].0] + Keys(d[1..])
  }

  /** The keys are the first components of the entries. */
  lemma {:induction false} KeysAt<K(!new), V>(d: seq<(K, V)>)
    ensures |Keys(d)| == |d|
    ensures forall i | 0 <= i < |d| :: Keys(d)[i] == d[i].0
  {
    if d != [] {
      KeysAt(d[1..]);
    }
  }

  /** A key is present exactly when some entry carries it. */
  lemma {:induction false} HasKeyAt<K(!new), V>(d: seq<(K, V)>, k: K)
    ensures HasKey(d, k) <==> exists i | 0 <= i < |d| :: d[i].0 == k
    ensures HasKey(d, k) <==> k in Keys(d)
  {
    KeysAt(d);
    if d != [] {
      HasKeyAt(d[1..], k);
      if d[0].0 != k && HasKey(d, k) {
        var i :| 0 <= i < |d[1..]| && d[1..][i].0 == k;
        assert d[i + 1].0 == k;
      }
      if !HasKey(d, k) {
        forall i | 0 <= i < |d| ensures d[i].0 != k {
          if i > 0 {
            assert d[i] == d[1..][i - 1];
          }
        }
      }
      assert Keys(d) == [d[0].0] + Keys(d[1..]);
    }
  }

  /** The entry at position `i` is what `Get` finds for its key. */
  lemma {:induction false} GetAt<K(!new), V>(d: Dict<K, V>, i: nat)
    requires i < |d|
    ensures Get(d, d[i].0) == Some(d[i].1)
  {
    if i > 0 {
      GetAt(d[1..], i - 1);
      assert d[1..][i - 1] == d[i];
    }
  }

  /** Entries at different positions carry different keys. */
  lemma {:induction false} KeysDistinctAt<K(!new), V>(d: Dict<K, V>, i: nat, j: nat)
    requires i < j < |d|
    ensures d[i].0 != d[j].0
  {
    if i == 0 {
      FirstKeyUnique(d);
      GetAt(d[1..], j - 1);
      assert d[1..][j - 1] == d[j];
    } else {
      KeysDistinctAt(d[1..], i - 1, j - 1);
      assert d[1..][i - 1] == d[i] && d[1..][j - 1] == d[j];
    }
  }

  /** Looking up in a dictionary with one more entry at the end. */
  lemma {:induction false} GetSnoc<K(!new), V>(d: seq<(K, V)>, e: (K, V), k: K)
    ensures Get(d + [e], k) == if HasKey(d, k) then Get(d, k) else if e.0 == k then Some(e.1) else None
  {
    if d != [] {
      assert (d + [e])[1..] == d[1..] + [e];
      GetSnoc(d[1..], e, k);
    }
  }

  /** A prefix of a dictionary is a dictionary, with no key the whole lacks. */
  lemma {:induction false} PrefixDistinct<K(!new), V>(d: Dict<K, V>, n: nat)
    requires n <= |d|
    ensures DistinctKeys(d[..n])
    ensures forall k :: HasKey(d[..n], k) ==> HasKey(d, k)
  {
    if n > 0 {
      PrefixDistinct(d[1..], n - 1);
      assert d[..n][1..] == d[1..][..n - 1];
      assert d[..n][0] == d[0];
      forall k ensures HasKey(d[..n], k) ==> HasKey(d, k) {
        if d[0].0 != k {
          assert Get(d[..n], k) == Get(d[1..][..n - 1], k);
          assert Get(d, k) == Get(d[1..], k);
          assert HasKey(d[1..][..n - 1], k) ==> HasKey(d[1..], k);
        } else {
          assert Get(d, k) == Some(d[0].1);
        }
      }
    }
  }

  /** The last key of a dictionary does not occur before it. */
  lemma {:induction false} LastKeyUnique<K(!new), V>(d: Dict<K, V>)
    requires d != []
    ensures !HasKey(d[..|d| - 1], d[|d| - 1].0)
  {
    if |d| > 1 {
      var n := |d|;
      LastKeyUnique(d[1..]);
      assert d[1..][..n - 2] == d[..n - 1][1..];
      GetAt(d[1..], n - 2);
      assert d[1..][n - 2] == d[n - 1];
      assert d[..n - 1][0] == d[0];
    }
  }

  /** The first key of a dictionary does not occur again in the rest. */
  lemma FirstKeyUnique<K(!new), V>(d: Dict<K, V>)
    requires d != []
    ensures !HasKey(d[1..], d[0].0)
  {
  }

  /** A one-entry dictionary. */
  lemma SingletonDistinct<K(!new), V>(k: K, v: V)
    ensures DistinctKeys([(k, v)])
  {
    assert [(k, v)][1..] == [];
  }

  /** Putting an entry in front of a dictionary that lacks its key gives a dictionary. */
  lemma ConsDistinct<K(!new), V>(e: (K, V), d: Dict<K, V>)
    requires !HasKey(d, e.0)
    ensures DistinctKeys([e] + d)
  {
    assert ([e] + d)[1..] == d;
  }

  /** `d[k] = v`. */
  function Set<K(==,!new), V>(d: Dict<K, V>, k: K, v: V): (r: Dict<K, V>)
    ensures forall k' :: Get(r, k') == if k' == k then Some(v) else Get(d, k')
    decreases |d|
  {
    if d == [] then
      assert [(k, v)][1..] == [];
      [(k, v)]
    else if d[0].0 == k then
      FirstKeyUnique(d);
      ConsDistinct((k, v), d[1..]);
      [(k, v)] + d[1..]
    else
      var rest := Set(d[1..], k, v);
      FirstKeyUnique(d);
      ConsDistinct(d[0], rest);
      [d[0]] + rest
  }

  /** Assigning keeps the position of a present key and appends a new one. */
  lemma {:induction false} SetShape<K(!new), V>(d: Dict<K, V>, k: K, v: V)
    ensures HasKey(d, k) ==> Keys(Set(d, k, v)) == Keys(d)
    ensures !HasKey(d, k) ==> Set(d, k, v) == d + [(k, v)]
    ensures |Set(d, k, v)| == if HasKey(d, k) then |d| else |d| + 1
    decreases |d|
  {
    if d != [] && d[0].0 != k {
      SetShape(d[1..], k, v);
      assert d == [d[0]] + d[1..];
    }
  }

  /** Assigning to the key at position `i` replaces that entry's value and nothing else. */
  lemma {:induction false} SetAt<K(!new), V>(d: Dict<K, V>, i: nat, v: V)
    requires i < |d|
    ensures Set(d, d[i].0, v) == d[i := (d[i].0, v)]
    decreases |d|
  {
    if i > 0 {
      KeysDistinctAt(d, 0, i);
      assert d[1..][i - 1] == d[i];
      SetAt(d[1..], i - 1, v);
      assert d[i := (d[i].0, v)] == [d[0]] + d[1..][i - 1 := (d[i].0, v)];
    }
  }

  /** `d.pop(k, None)` / `del d[k]`. */
  function Remove<K(==,!new), V>(d: Dict<K, V>, k: K): (r: Dict<K, V>)
    ensures forall k' :: Get(r, k') == if k' == k then None else Get(d, k')
    decreases |d|
  {
    if d == [] then d
    else if d[0].0 == k then
      FirstKeyUnique(d);
      d[1..]
    else
      var rest := Remove(d[1..], k);
      FirstKeyUnique(d);
      ConsDistinct(d[0], rest);
      [d[0]] + rest
  }

  /** Deleting keeps the order of the other keys and leaves a dictionary without `k` untouched. */
  lemma {:induction false} RemoveShape<K(!new), V>(d: Dict<K, V>, k: K)
    ensures Keys(Remove(d, k)) == KeysWithout(Keys(d), k)
    ensures !HasKey(d, k) ==> Remove(d, k) == d
    ensures |Remove(d, k)| <= |d|
    decreases |d|
  {
    if d != [] {
      RemoveShape(d[1..], k);
      if d[0].0 == k {
        FirstKeyUnique(d);
        RemoveShape(d[1..], k);
      }
    }
  }

  /** Deleting a key that was just added to a dictionary lacking it gives the dictionary back. */
  lemma {:induction false} RemoveSetFresh<K(!new), V>(d: Dict<K, V>, k: K, v: V)
    requires !HasKey(d, k)
    ensures Remove(Set(d, k, v), k) == d
    decreases |d|
  {
    if d != [] {
      assert d[0].0 != k;
      RemoveSetFresh(d[1..], k, v);
      var rest := Set(d[1..], k, v);
      assert Set(d, k, v) == [d[0]] + rest;
      assert ([d[0]] + rest)[1..] == rest;
    }
  }

  /** The keys of `ks` other than `k`, in order. */
  function KeysWithout<K(==)>(ks: seq<K>, k: K): seq<K> {
    if ks == [] then [] else (if ks[0] == k then [] else [ks[0]]) + KeysWithout(ks[1..], k)
  }

  /** `{**a, **b}`: a copy of `a` with every entry of `b` assigned in turn. */
  function Merge<K(==,!new), V>(a: Dict<K, V>, b: Dict<K, V>): (r: Dict<K, V>)
    ensures forall k :: Get(r, k) == if HasKey(b, k) then Get(b, k) else Get(a, k)
    decreases |b|
  {
    if b == [] then a
    else
      FirstKeyUnique(b);
      Merge(Set(a, b[0].0, b[0].1), b[1..])
  }
}
