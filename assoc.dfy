/**
 * PHP's ordered arrays with string keys: a list of key/value pairs whose
 * keys are distinct, kept in insertion order.
 */
module Assoc {
  import opened Wrappers

  function Keys<K, V>(a: seq<(K, V)>): (ks: seq<K>)
    ensures |ks| == |a|
    ensures forall i :: 0 <= i < |a| ==> ks[i] == a[i].0
  {
    if a == [] then [] else [a[0].0] + Keys(a[1..])
  }

  predicate DistinctKeys<K(==), V>(a: seq<(K, V)>) {
    forall i, j :: 0 <= i < j < |a| ==> a[i].0 != a[j].0
  }

  predicate HasKey<K(==), V>(a: seq<(K, V)>, k: K) {
    exists i :: 0 <= i < |a| && a[i].0 == k
  }

  /** `$a[$k] ?? null`. */
  function Get<K(==), V>(a: seq<(K, V)>, k: K): (r: Option<V>)
    ensures r.Some? <==> HasKey(a, k)
    ensures r.Some? ==> exists i :: 0 <= i < |a| && a[i] == (k, r.value)
  {
    if a == [] then None
    else if a[0].0 == k then Some(a[0].1)
    else Get(a[1..], k)
  }

  /**
   * `$a[$k] = $v`: an existing key keeps its position and takes the new
   * value; a new key is appended at the end.
   */
  function Put<K(==), V>(a: seq<(K, V)>, k: K, v: V): (r: seq<(K, V)>)
    ensures HasKey(a, k) ==> |r| == |a|
    ensures !HasKey(a, k) ==> r == a + [(k, v)]
  {
    if a == [] then [(k, v)]
    else if a[0].0 == k then [(k, v)] + a[1..]
    else
      assert HasKey(a, k) <==> HasKey(a[1..], k) by {
        if HasKey(a, k) {
          var i :| 0 <= i < |a| && a[i].0 == k;
          assert a[1..][i - 1].0 == k;
        }
        if HasKey(a[1..], k) {
          var i :| 0 <= i < |a[1..]| && a[1..][i].0 == k;
          assert a[i + 1].0 == k;
        }
      }
      [a[0]] + Put(a[1..], k, v)
  }

  /** `unset($a[$k])`: the pair with key `k` is removed, the others keep their order. */
  function Remove<K(==), V>(a: seq<(K, V)>, k: K): (r: seq<(K, V)>)
    ensures |r| <= |a|
  {
    if a == [] then []
    else if a[0].0 == k then Remove(a[1..], k)
    else [a[0]] + Remove(a[1..], k)
  }

  /** The position of key `k`, when it is present. */
  function IndexOf<K(==), V>(a: seq<(K, V)>, k: K): (r: Option<nat>)
    ensures r.Some? ==> r.value < |a| && a[r.value].0 == k
    ensures r.None? ==> !HasKey(a, k)
  {
    if a == [] then None
    else if a[0].0 == k then Some(0)
    else
      match IndexOf(a[1..], k)
      case None => None
      case Some(i) => Some(i + 1)
  }

  /** After `$a[$k] = $v`, reading `k` gives `v` and every other key reads as before. */
  lemma {:induction false} GetPut<K, V>(a: seq<(K, V)>, k: K, v: V, k': K)
    ensures Get(Put(a, k, v), k') == if k' == k then Some(v) else Get(a, k')
  {
    if a != [] && a[0].0 != k {
      GetPut(a[1..], k, v, k');
    }
  }

  /** A key that is not the first one is present exactly when it is present in the rest. */
  lemma HasKeyTail<K, V>(a: seq<(K, V)>, k: K)
    requires a != [] && a[0].0 != k
    ensures HasKey(a, k) <==> HasKey(a[1..], k)
  {
    if HasKey(a, k) {
      var i :| 0 <= i < |a| && a[i].0 == k;
      assert a[1..][i - 1].0 == k;
    }
  }

  /** `$a[$k] = $v` leaves the keys in place and appends a new key at the end. */
  lemma {:induction false} PutKeys<K, V>(a: seq<(K, V)>, k: K, v: V)
    ensures Keys(Put(a, k, v)) == if HasKey(a, k) then Keys(a) else Keys(a) + [k]
  {
    if a != [] && a[0].0 != k {
      var r := Put(a[1..], k, v);
      PutKeys(a[1..], k, v);
      HasKeyTail(a, k);
      assert Keys([a[0]] + r) == [a[0].0] + Keys(r);
    }
  }

  lemma PutKeepsKeysDistinct<K, V>(a: seq<(K, V)>, k: K, v: V)
    requires DistinctKeys(a)
    ensures DistinctKeys(Put(a, k, v))
    ensures Keys(Put(a, k, v)) == if HasKey(a, k) then Keys(a) else Keys(a) + [k]
  {
    PutKeys(a, k, v);
    var r := Put(a, k, v);
    if HasKey(a, k) {
      forall i, j | 0 <= i < j < |r| ensures r[i].0 != r[j].0 {
        assert r[i].0 == Keys(r)[i] == Keys(a)[i] == a[i].0;
        assert r[j].0 == Keys(r)[j] == Keys(a)[j] == a[j].0;
      }
    }
  }

  /** After `unset($a[$k])` the key is gone and every other key reads as before. */
  lemma {:induction false} GetRemove<K, V>(a: seq<(K, V)>, k: K, k': K)
    ensures Get(Remove(a, k), k') == if k' == k then None else Get(a, k')
  {
    if a != [] {
      GetRemove(a[1..], k, k');
    }
  }

  /** In a list with distinct keys the first key does not come back later. */
  lemma HeadKeyNotInTail<K, V>(a: seq<(K, V)>)
    requires a != [] && DistinctKeys(a)
    ensures a[0].0 !in Keys(a[1..])
  {
    var ks := Keys(a[1..]);
    forall j | 0 <= j < |ks|
      ensures ks[j] != a[0].0
    {
      assert ks[j] == a[j + 1].0;
    }
  }

  /** A pair whose key is new keeps the keys distinct when put in front. */
  lemma ConsKeepsKeysDistinct<K, V>(h: (K, V), r: seq<(K, V)>)
    requires DistinctKeys(r) && h.0 !in Keys(r)
    ensures DistinctKeys([h] + r)
  {
    forall j | 0 < j < |[h] + r| ensures ([h] + r)[j].0 != h.0 {
      assert ([h] + r)[j].0 == Keys(r)[j - 1];
    }
  }

  lemma {:induction false} RemoveKeepsKeysDistinct<K, V>(a: seq<(K, V)>, k: K)
    requires DistinctKeys(a)
    ensures DistinctKeys(Remove(a, k))
    ensures forall x :: x in Keys(Remove(a, k)) ==> x in Keys(a)
  {
    if a != [] {
      var r := Remove(a[1..], k);
      RemoveKeepsKeysDistinct(a[1..], k);
      assert Keys(a) == [a[0].0] + Keys(a[1..]);
      if a[0].0 != k {
        HeadKeyNotInTail(a);
        ConsKeepsKeysDistinct(a[0], r);
        assert Keys([a[0]] + r) == [a[0].0] + Keys(r);
      }
    }
  }

  /** Removing the key at position `i` of a list with distinct keys drops exactly that pair. */
  lemma {:induction false} RemoveAt<K, V>(a: seq<(K, V)>, i: nat)
    requires DistinctKeys(a) && i < |a|
    ensures Remove(a, a[i].0) == a[..i] + a[i + 1..]
  {
    if i == 0 {
      RemoveAbsent(a[1..], a[0].0);
    } else {
      RemoveAt(a[1..], i - 1);
      assert a[1..][..i - 1] == a[1..i];
      assert a[..i] == [a[0]] + a[1..i];
      assert a[1..][i - 1 + 1..] == a[i + 1..];
    }
  }

  lemma {:induction false} RemoveAbsent<K, V>(a: seq<(K, V)>, k: K)
    requires forall j :: 0 <= j < |a| ==> a[j].0 != k
    ensures Remove(a, k) == a
  {
    if a != [] {
      RemoveAbsent(a[1..], k);
    }
  }

  /** A key is in a list extended by one pair when it was there before or is that pair's key. */
  lemma HasKeyAppend<K, V>(a: seq<(K, V)>, p: (K, V), k: K)
    ensures HasKey(a + [p], k) <==> HasKey(a, k) || p.0 == k
  {
    if HasKey(a + [p], k) {
      var i :| 0 <= i < |a + [p]| && (a + [p])[i].0 == k;
      if i < |a| {
        assert a[i].0 == k;
      }
    }
    if HasKey(a, k) {
      var i :| 0 <= i < |a| && a[i].0 == k;
      assert (a + [p])[i].0 == k;
    }
    if p.0 == k {
      assert (a + [p])[|a|].0 == k;
    }
  }

  /** Every pair after `$a[$k] = $v` is the new pair or was there before. */
  lemma {:induction false} PutElements<K, V>(a: seq<(K, V)>, k: K, v: V)
    ensures forall p :: p in Put(a, k, v) ==> p == (k, v) || p in a
  {
    if a != [] && a[0].0 != k {
      PutElements(a[1..], k, v);
    }
  }
}
