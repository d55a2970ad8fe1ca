/**
 * A Python `dict` modelled as the sequence of its items in insertion order.
 * Assigning to an existing key keeps its position; a new key goes to the end.
 */
module OrderedDicts {
  import opened Wrappers

  /** The keys of `d`, in iteration order. */
  function Keys<K, V>(d: seq<(K, V)>): (ks: seq<K>)
    ensures |ks| == |d|
  {
    if d == [] then [] else [d[0].0] + Keys(d[1..])
  }

  lemma {:induction false} KeysAt<K, V>(d: seq<(K, V)>, i: nat)
    requires i < |d|
    ensures Keys(d)[i] == d[i].0
  {
    if i > 0 { KeysAt(d[1..], i - 1); }
  }

  lemma {:induction false} KeysAppend<K, V>(a: seq<(K, V)>, b: seq<(K, V)>)
    ensures Keys(a + b) == Keys(a) + Keys(b)
  {
    if a != [] {
      assert (a + b)[1..] == a[1..] + b;
      KeysAppend(a[1..], b);
    } else {
      assert a + b == b;
    }
  }

  /** The invariant every Python dict keeps: no key occurs twice. */
  ghost predicate UniqueKeys<K, V>(d: seq<(K, V)>)
  {
    forall i, j :: 0 <= i < j < |d| ==> d[i].0 != d[j].0
  }

  /** `d.get(k)`: the value stored under `k`, or `None`. */
  function Get<K(==), V>(d: seq<(K, V)>, k: K): (r: Option<V>)
    ensures r.Some? <==> k in Keys(d)
  {
    if d == [] then None
    else if d[0].0 == k then Some(d[0].1)
    else Get(d[1..], k)
  }

  /** In a dict, the value `get` finds is the one stored beside the key. */
  lemma {:induction false} GetAt<K, V>(d: seq<(K, V)>, i: nat)
    requires UniqueKeys(d) && i < |d|
    ensures Get(d, d[i].0) == Some(d[i].1)
  {
    if i > 0 {
      assert d[0].0 != d[i].0;
      assert UniqueKeys(d[1..]) by {
        forall a, b | 0 <= a < b < |d| - 1 ensures d[1..][a].0 != d[1..][b].0 {
          assert d[1..][a] == d[a + 1] && d[1..][b] == d[b + 1];
        }
      }
      GetAt(d[1..], i - 1);
    }
  }

  /** `d[k] = v`. */
  function Put<K(==), V>(d: seq<(K, V)>, k: K, v: V): (r: seq<(K, V)>)
  {
    if d == [] then [(k, v)]
    else if d[0].0 == k then [(k, v)] + d[1..]
    else [d[0]] + Put(d[1..], k, v)
  }

  /** Assigning to a present key keeps the key order; assigning to a new key appends one item. */
  lemma {:induction false} PutKeys<K, V>(d: seq<(K, V)>, k: K, v: V)
    ensures k in Keys(d) ==> Keys(Put(d, k, v)) == Keys(d)
    ensures k !in Keys(d) ==> Put(d, k, v) == d + [(k, v)]
  {
    if d != [] && d[0].0 != k {
      PutKeys(d[1..], k, v);
    }
  }

  /** After `d[k] = v`, `get(k)` is `v` and every other key reads as before. */
  lemma {:induction false} PutGet<K, V>(d: seq<(K, V)>, k: K, v: V, k': K)
    ensures Get(Put(d, k, v), k') == if k' == k then Some(v) else Get(d, k')
  {
    if d != [] && d[0].0 != k {
      PutGet(d[1..], k, v, k');
    }
  }

  /** Assignment keeps the keys unique. */
  lemma PutUnique<K, V>(d: seq<(K, V)>, k: K, v: V)
    requires UniqueKeys(d)
    ensures UniqueKeys(Put(d, k, v))
  {
    PutKeys(d, k, v);
    var r := Put(d, k, v);
    forall i, j | 0 <= i < j < |r| ensures r[i].0 != r[j].0 {
      KeysAt(r, i);
      KeysAt(r, j);
      if k in Keys(d) {
        KeysAt(d, i);
        KeysAt(d, j);
      } else if j == |d| {
        KeysAt(d, i);
      }
    }
  }

  /** In a dict, assigning to the key of item `i` rewrites that item in place. */
  lemma {:induction false} PutAt<K, V>(d: seq<(K, V)>, i: nat, v: V)
    requires UniqueKeys(d) && i < |d|
    ensures Put(d, d[i].0, v) == d[i := (d[i].0, v)]
  {
    if i > 0 {
      assert d[0].0 != d[i].0;
      UniqueTail(d);
      PutAt(d[1..], i - 1, v);
      assert d[1..][i - 1] == d[i];
      assert [d[0]] + d[1..][i - 1 := (d[i].0, v)] == d[i := (d[i].0, v)];
    }
  }

  /** The second of two assignments to one key wins, and no item is duplicated. */
  lemma {:induction false} PutPut<K, V>(d: seq<(K, V)>, k: K, v1: V, v2: V)
    ensures Put(Put(d, k, v1), k, v2) == Put(d, k, v2)
  {
    if d != [] && d[0].0 != k {
      PutPut(d[1..], k, v1, v2);
    }
  }

  /** In a dict, an item's key does not occur among the items before it. */
  lemma UniquePrefix<K, V>(d: seq<(K, V)>, i: nat)
    requires UniqueKeys(d) && i < |d|
    ensures d[i].0 !in Keys(d[..i])
  {
    forall j | 0 <= j < i ensures Keys(d[..i])[j] != d[i].0 {
      KeysAt(d[..i], j);
    }
  }

  /** Dropping the first item of a dict leaves a dict. */
  lemma UniqueTail<K, V>(d: seq<(K, V)>)
    requires UniqueKeys(d) && d != []
    ensures UniqueKeys(d[1..])
  {
    forall a, b | 0 <= a < b < |d| - 1 ensures d[1..][a].0 != d[1..][b].0 {
      assert d[1..][a] == d[a + 1] && d[1..][b] == d[b + 1];
    }
  }

  /** Putting an item in front of a dict keeps it a dict exactly when its key is new. */
  lemma UniqueCons<K, V>(h: (K, V), t: seq<(K, V)>)
    requires UniqueKeys(t) && h.0 !in Keys(t)
    ensures UniqueKeys([h] + t)
  {
    var d := [h] + t;
    forall i, j | 0 <= i < j < |d| ensures d[i].0 != d[j].0 {
      assert d[j] == t[j - 1];
      KeysAt(t, j - 1);
      if i > 0 { assert d[i] == t[i - 1]; }
    }
  }

  /** `del d[k]` for a key that is present: its item goes, the others keep their order. */
  function Remove<K(==), V>(d: seq<(K, V)>, k: K): (r: seq<(K, V)>)
  {
    if d == [] then []
    else if d[0].0 == k then d[1..]
    else [d[0]] + Remove(d[1..], k)
  }

  /** Deleting a present key shortens the dict by one item; an absent key changes nothing. */
  lemma {:induction false} RemoveSize<K, V>(d: seq<(K, V)>, k: K)
    ensures k !in Keys(d) ==> Remove(d, k) == d
    ensures k in Keys(d) ==> |Remove(d, k)| == |d| - 1
  {
    if d != [] && d[0].0 != k {
      RemoveSize(d[1..], k);
    }
  }

  /** After `del d[k]` the key is gone and every other key reads as before. */
  lemma {:induction false} RemoveGet<K, V>(d: seq<(K, V)>, k: K, k': K)
    requires UniqueKeys(d)
    ensures Get(Remove(d, k), k') == if k' == k then None else Get(d, k')
  {
    if d != [] {
      UniqueTail(d);
      if d[0].0 == k {
        if k' == k {
          assert k !in Keys(d[1..]) by {
            forall i | 0 <= i < |d| - 1 ensures Keys(d[1..])[i] != k {
              KeysAt(d[1..], i);
              assert d[1..][i] == d[i + 1];
            }
          }
        }
      } else {
        RemoveGet(d[1..], k, k');
      }
    }
  }

  /** Deletion keeps the keys unique. */
  lemma {:induction false} RemoveUnique<K, V>(d: seq<(K, V)>, k: K)
    requires UniqueKeys(d)
    ensures UniqueKeys(Remove(d, k))
  {
    if d != [] {
      UniqueTail(d);
      if d[0].0 != k {
        RemoveUnique(d[1..], k);
        RemoveGet(d[1..], k, d[0].0);
        assert d[0].0 !in Keys(d[1..]) by {
          forall i | 0 <= i < |d| - 1 ensures Keys(d[1..])[i] != d[0].0 {
            KeysAt(d[1..], i);
            assert d[1..][i] == d[i + 1];
          }
        }
        UniqueCons(d[0], Remove(d[1..], k));
      }
    }
  }
}
