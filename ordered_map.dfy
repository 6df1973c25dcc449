/**
 * An ordered map from natural-number keys (std::map<size_t, V>), kept as a
 * sequence of key/value pairs in strictly ascending key order. Iterating the
 * map visits the pairs in that order.
 */
module OrderedMap {
  import opened GfxTypes

  type Entries<V> = seq<(nat, V)>

  ghost predicate StrictlySorted<V>(s: Entries<V>) {
    forall i, j | 0 <= i < j < |s| :: s[i].0 < s[j].0
  }

  function Keys<V>(s: Entries<V>): set<nat> {
    if s == [] then {} else {s[0].0} + Keys(s[1..])
  }

  /** Looks a key up: the value of the first pair with that key. */
  function Get<V>(s: Entries<V>, k: nat): Option<V> {
    if s == [] then None
    else if s[0].0 == k then Some(s[0].1)
    else Get(s[1..], k)
  }

  /** `m[k] = v`: inserts the pair in key order, overwriting an existing key. */
  function Put<V>(s: Entries<V>, k: nat, v: V): (r: Entries<V>)
    requires StrictlySorted(s)
    ensures StrictlySorted(r)
    ensures Keys(r) == Keys(s) + {k}
    ensures r[0].0 == k || (s != [] && r[0].0 == s[0].0)
    ensures forall p | p in r :: p in s || p == (k, v)
  {
    if s == [] then [(k, v)]
    else if k < s[0].0 then [(k, v)] + s
    else if k == s[0].0 then [(k, v)] + s[1..]
    else
      var rest := Put(s[1..], k, v);
      var r := [s[0]] + rest;
      assert r[1..] == rest;
      r
  }

  /** The values of the map in ascending key order. */
  function Values<V>(s: Entries<V>): (r: seq<V>)
    ensures |r| == |s|
    ensures forall i | 0 <= i < |s| :: r[i] == s[i].1
  {
    if s == [] then [] else [s[0].1] + Values(s[1..])
  }

  lemma {:induction false} GetAbsent<V>(s: Entries<V>, k: nat)
    requires k !in Keys(s)
    ensures Get(s, k) == None
  {
    if s != [] {
      assert s[0].0 in Keys(s);
      assert Keys(s[1..]) <= Keys(s);
      GetAbsent(s[1..], k);
    }
  }

  /** After `m[k] = v`, key k maps to v and every other key keeps its value. */
  lemma {:induction false} GetPut<V>(s: Entries<V>, k: nat, v: V, j: nat)
    requires StrictlySorted(s)
    ensures Get(Put(s, k, v), j) == if j == k then Some(v) else Get(s, j)
  {
    if s == [] {
    } else if k < s[0].0 {
    } else if k == s[0].0 {
      if j != k {
        assert Get(s, j) == Get(s[1..], j);
      }
    } else {
      GetPut(s[1..], k, v, j);
      var r := Put(s, k, v);
      assert r == [s[0]] + Put(s[1..], k, v);
      assert r[1..] == Put(s[1..], k, v);
    }
  }
}
