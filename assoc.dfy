/**
 * Insertion-ordered key/value lists: the model of a JavaScript object used as a dictionary
 * (`obj[k] = v`, `Object.assign`, `{...a, ...b}`), where the order of keys is observable.
 */
module Assoc {
  import opened Wrappers

  /** The keys that occur in `kvs`. */
  function Keys<K(==), V>(kvs: seq<(K, V)>): set<K>
    decreases |kvs|
  {
    if |kvs| == 0 then {} else {kvs[0].0} + Keys(kvs[1..])
  }

  /** The keys of a concatenation are the keys of both parts. */
  lemma {:induction false} KeysAppend<K, V>(a: seq<(K, V)>, b: seq<(K, V)>)
    ensures Keys(a + b) == Keys(a) + Keys(b)
    decreases |a|
  {
    if |a| == 0 {
      assert a + b == b;
    } else {
      KeysAppend(a[1..], b);
      assert (a + b)[1..] == a[1..] + b;
    }
  }

  /** The keys of all but the last pair, plus the last key. */
  lemma KeysSnoc<K, V>(kvs: seq<(K, V)>)
    requires |kvs| > 0
    ensures Keys(kvs) == Keys(kvs[..|kvs| - 1]) + {kvs[|kvs| - 1].0}
  {
    KeysAppend(kvs[..|kvs| - 1], [kvs[|kvs| - 1]]);
    assert kvs[..|kvs| - 1] + [kvs[|kvs| - 1]] == kvs;
  }

  /** A key occurs in a list of pairs exactly when some pair carries it. */
  lemma {:induction false} KeysIndex<K, V>(kvs: seq<(K, V)>, k: K)
    ensures k in Keys(kvs) <==> exists i :: 0 <= i < |kvs| && kvs[i].0 == k
    decreases |kvs|
  {
    if |kvs| > 0 {
      KeysIndex(kvs[1..], k);
      if exists i :: 0 <= i < |kvs[1..]| && kvs[1..][i].0 == k {
        var i :| 0 <= i < |kvs[1..]| && kvs[1..][i].0 == k;
        assert kvs[i + 1].0 == k;
      }
      if exists i :: 0 <= i < |kvs| && kvs[i].0 == k {
        var i :| 0 <= i < |kvs| && kvs[i].0 == k;
        if i > 0 {
          assert kvs[1..][i - 1].0 == k;
        }
      }
    }
  }

  /** No key occurs twice, as in a JavaScript object. */
  predicate DistinctKeys<K(==), V>(kvs: seq<(K, V)>)
    decreases |kvs|
  {
    |kvs| == 0 || (kvs[0].0 !in Keys(kvs[1..]) && DistinctKeys(kvs[1..]))
  }

  /** `obj[k]`: the value of the first pair with key `k`. */
  function Lookup<K(==), V>(kvs: seq<(K, V)>, k: K): (r: Option<V>)
    ensures r.None? <==> k !in Keys(kvs)
    decreases |kvs|
  {
    if |kvs| == 0 then None
    else if kvs[0].0 == k then Some(kvs[0].1)
    else Lookup(kvs[1..], k)
  }

  /** `obj[k] = v`: replaces the value of an existing key in place, or appends a new key at the end. */
  function SetKey<K(==), V>(kvs: seq<(K, V)>, k: K, v: V): (r: seq<(K, V)>)
    ensures Keys(r) == Keys(kvs) + {k}
    ensures |r| == if k in Keys(kvs) then |kvs| else |kvs| + 1
    decreases |kvs|
  {
    if |kvs| == 0 then [(k, v)]
    else if kvs[0].0 == k then
      assert ([(k, v)] + kvs[1..])[1..] == kvs[1..];
      [(k, v)] + kvs[1..]
    else
      var r := [kvs[0]] + SetKey(kvs[1..], k, v);
      assert r[1..] == SetKey(kvs[1..], k, v);
      r
  }

  /** After `obj[k] = v`, `obj[k]` is `v` and every other key keeps its value. */
  lemma {:induction false} LookupSetKey<K, V>(kvs: seq<(K, V)>, k: K, v: V, j: K)
    ensures Lookup(SetKey(kvs, k, v), j) == if j == k then Some(v) else Lookup(kvs, j)
    decreases |kvs|
  {
    if |kvs| > 0 && kvs[0].0 != k {
      LookupSetKey(kvs[1..], k, v, j);
      assert SetKey(kvs, k, v)[1..] == SetKey(kvs[1..], k, v);
    }
  }

  /** Setting a key to the value it already looks up to changes nothing. */
  lemma {:induction false} SetKeySame<K, V>(kvs: seq<(K, V)>, k: K, v: V)
    requires Lookup(kvs, k) == Some(v)
    ensures SetKey(kvs, k, v) == kvs
    decreases |kvs|
  {
    if kvs[0].0 != k {
      SetKeySame(kvs[1..], k, v);
      assert [kvs[0]] + kvs[1..] == kvs;
    } else {
      assert [(k, v)] + kvs[1..] == kvs;
    }
  }

  /** Setting a key keeps the keys distinct. */
  lemma {:induction false} SetKeyDistinct<K, V>(kvs: seq<(K, V)>, k: K, v: V)
    requires DistinctKeys(kvs)
    ensures DistinctKeys(SetKey(kvs, k, v))
    decreases |kvs|
  {
    if |kvs| > 0 {
      var r := SetKey(kvs, k, v);
      if kvs[0].0 == k {
        assert r[1..] == kvs[1..];
      } else {
        SetKeyDistinct(kvs[1..], k, v);
        assert r[1..] == SetKey(kvs[1..], k, v);
      }
    }
  }

  /** `Object.assign(target, source)`: sets every pair of `source` into `target`, left to right. */
  function Assign<K(==), V>(target: seq<(K, V)>, source: seq<(K, V)>): seq<(K, V)>
    decreases |source|
  {
    if |source| == 0 then target
    else
      var last := source[|source| - 1];
      SetKey(Assign(target, source[..|source| - 1]), last.0, last.1)
  }

  /** Assigning one more pair is setting its key in the earlier result. */
  lemma AssignSnoc<K, V>(target: seq<(K, V)>, source: seq<(K, V)>, kv: (K, V))
    ensures Assign(target, source + [kv]) == SetKey(Assign(target, source), kv.0, kv.1)
  {
    assert (source + [kv])[..|source|] == source;
  }

  /** The value of the last pair with key `k`: the one a left-to-right overlay keeps. */
  function LastValue<K(==), V>(kvs: seq<(K, V)>, k: K): V
    requires k in Keys(kvs)
    decreases |kvs|
  {
    var last := kvs[|kvs| - 1];
    if last.0 == k then last.1
    else
      assert k in Keys(kvs[..|kvs| - 1]) by {
        KeysSnoc(kvs);
      }
      LastValue(kvs[..|kvs| - 1], k)
  }

  /** After `Object.assign`, a key takes its last value in `source`, or keeps its value in `target`. */
  lemma {:induction false} LookupAssign<K, V>(target: seq<(K, V)>, source: seq<(K, V)>, k: K)
    ensures Lookup(Assign(target, source), k)
      == if k in Keys(source) then Some(LastValue(source, k)) else Lookup(target, k)
    ensures Keys(Assign(target, source)) == Keys(target) + Keys(source)
    decreases |source|
  {
    if |source| > 0 {
      var init := source[..|source| - 1];
      var last := source[|source| - 1];
      LookupAssign(target, init, k);
      LookupSetKey(Assign(target, init), last.0, last.1, k);
      KeysSnoc(source);
    }
  }

  /** `Assign` keeps the keys distinct. */
  lemma {:induction false} AssignDistinct<K, V>(target: seq<(K, V)>, source: seq<(K, V)>)
    requires DistinctKeys(target)
    ensures DistinctKeys(Assign(target, source))
    decreases |source|
  {
    if |source| > 0 {
      var init := source[..|source| - 1];
      AssignDistinct(target, init);
      var last := source[|source| - 1];
      SetKeyDistinct(Assign(target, init), last.0, last.1);
    }
  }

  /** `{...m, ...kvs}` on maps: `m` overlaid with the pairs of `kvs`, later pairs winning. */
  function Overlay<K(==), V>(m: map<K, V>, kvs: seq<(K, V)>): map<K, V>
    decreases |kvs|
  {
    if |kvs| == 0 then m
    else
      var last := kvs[|kvs| - 1];
      Overlay(m, kvs[..|kvs| - 1])[last.0 := last.1]
  }

  /** The overlay holds every key of both, the last value from `kvs` or else the value in `m`. */
  lemma {:induction false} OverlayValues<K, V>(m: map<K, V>, kvs: seq<(K, V)>)
    ensures Overlay(m, kvs).Keys == m.Keys + Keys(kvs)
    ensures forall k :: k in Overlay(m, kvs) ==>
      Overlay(m, kvs)[k] == if k in Keys(kvs) then LastValue(kvs, k) else m[k]
    decreases |kvs|
  {
    if |kvs| > 0 {
      var init := kvs[..|kvs| - 1];
      var last := kvs[|kvs| - 1];
      OverlayValues(m, init);
      KeysSnoc(kvs);
    }
  }

  /** A JavaScript object read as a map: each key with its value. */
  function ToMap<K(==), V>(kvs: seq<(K, V)>): (m: map<K, V>)
    ensures m.Keys == Keys(kvs)
  {
    OverlayValues(map[], kvs);
    Overlay(map[], kvs)
  }
}
