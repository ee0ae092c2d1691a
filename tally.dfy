/**
 * Keyed lookups and tallies over lists, as the diff engine uses them:
 * a dict comprehension `{key(x): x for x in xs}` (the last element with a key
 * wins) and counters that go up by one per appended entry of a kind.
 */
module Tally {

  /** The keys that occur in `s`. */
  function KeysOf<T, K(==)>(s: seq<T>, key: T -> K): set<K>
  {
    set i | 0 <= i < |s| :: key(s[i])
  }

  /** `{key(x): x for x in s}`: each key maps to the last element carrying it. */
  function LastByKey<T, K(==)>(s: seq<T>, key: T -> K): (m: map<K, T>)
    ensures m.Keys == KeysOf(s, key)
    ensures forall k :: k in m ==> key(m[k]) == k && m[k] in s
    decreases |s|
  {
    if s == [] then map[]
    else
      var init := s[..|s| - 1];
      var m := LastByKey(init, key)[key(s[|s| - 1]) := s[|s| - 1]];
      assert forall i :: 0 <= i < |init| ==> key(init[i]) == key(s[i]);
      assert KeysOf(s, key) == KeysOf(init, key) + {key(s[|s| - 1])};
      m
  }

  /** The element stored under `k` is the one at the last position whose key is `k`. */
  lemma {:induction false} LastByKeyIsLast<T, K>(s: seq<T>, key: T -> K, i: nat)
    requires i < |s|
    requires forall j :: i < j < |s| ==> key(s[j]) != key(s[i])
    ensures key(s[i]) in LastByKey(s, key) && LastByKey(s, key)[key(s[i])] == s[i]
    decreases |s|
  {
    if i < |s| - 1 {
      var init := s[..|s| - 1];
      assert init[i] == s[i];
      LastByKeyIsLast(init, key, i);
    }
  }

  /** No two entries of `s` share a key. */
  ghost predicate DistinctKeys<T, K>(s: seq<T>, key: T -> K)
  {
    forall i, j :: 0 <= i < j < |s| ==> key(s[i]) != key(s[j])
  }

  /** Appending an entry adds its key; appending a new key keeps the keys distinct. */
  lemma AppendKey<T, K>(s: seq<T>, x: T, key: T -> K)
    ensures KeysOf(s + [x], key) == KeysOf(s, key) + {key(x)}
    ensures DistinctKeys(s, key) && key(x) !in KeysOf(s, key) ==> DistinctKeys(s + [x], key)
  {
    assert forall i :: 0 <= i < |s| ==> (s + [x])[i] == s[i];
    assert (s + [x])[|s|] == x;
    if DistinctKeys(s, key) && key(x) !in KeysOf(s, key) {
      forall i, j | 0 <= i < j < |s| + 1 ensures key((s + [x])[i]) != key((s + [x])[j]) {
        if j == |s| {
          assert key(s[i]) in KeysOf(s, key);
        }
      }
    }
  }

  /** How many entries of `s` are of kind `c`. */
  function Count<T, C(==)>(s: seq<T>, kind: T -> C, c: C): (n: nat)
    ensures n <= |s|
    decreases |s|
  {
    if s == [] then 0
    else Count(s[..|s| - 1], kind, c) + (if kind(s[|s| - 1]) == c then 1 else 0)
  }

  /** Appending one entry raises the count of its kind by one and no other. */
  lemma CountAppend<T, C>(s: seq<T>, x: T, kind: T -> C, c: C)
    ensures Count(s + [x], kind, c) == Count(s, kind, c) + (if kind(x) == c then 1 else 0)
  {
    assert (s + [x])[..|s|] == s;
  }

  /** The keys of the entries of kind `c`. */
  function KeysWhere<T, K(==), C(==)>(s: seq<T>, key: T -> K, kind: T -> C, c: C): set<K>
  {
    set i | 0 <= i < |s| && kind(s[i]) == c :: key(s[i])
  }

  /** The keys of kind `c` of a non-empty list: those of its prefix, plus the last key when the last entry is of kind `c`. */
  lemma KeysWhereSplit<T, K, C>(s: seq<T>, key: T -> K, kind: T -> C, c: C)
    requires s != []
    ensures var n := |s| - 1;
            KeysWhere(s, key, kind, c) == KeysWhere(s[..n], key, kind, c) + (if kind(s[n]) == c then {key(s[n])} else {})
  {
    var n := |s| - 1;
    assert forall i :: 0 <= i < n ==> s[..n][i] == s[i];
  }

  /** When keys are distinct, counting entries of a kind counts their keys. */
  lemma {:induction false} CountIsCardinality<T, K, C>(s: seq<T>, key: T -> K, kind: T -> C, c: C)
    requires DistinctKeys(s, key)
    ensures Count(s, kind, c) == |KeysWhere(s, key, kind, c)|
    decreases |s|
  {
    if s != [] {
      var n := |s| - 1;
      var init := s[..n];
      assert forall i :: 0 <= i < n ==> init[i] == s[i];
      CountIsCardinality(init, key, kind, c);
      KeysWhereSplit(s, key, kind, c);
      forall k | k in KeysWhere(init, key, kind, c) ensures k != key(s[n]) {
        var i :| 0 <= i < n && kind(init[i]) == c && key(init[i]) == k;
        assert key(s[i]) != key(s[n]);
      }
    }
  }

  /** With distinct keys, there are exactly as many entries as keys. */
  lemma {:induction false} LengthIsCardinality<T, K>(s: seq<T>, key: T -> K)
    requires DistinctKeys(s, key)
    ensures |s| == |KeysOf(s, key)|
    decreases |s|
  {
    if s != [] {
      var n := |s| - 1;
      var init := s[..n];
      assert forall i :: 0 <= i < n ==> init[i] == s[i];
      LengthIsCardinality(init, key);
      assert key(s[n]) !in KeysOf(init, key);
      assert KeysOf(s, key) == KeysOf(init, key) + {key(s[n])};
    }
  }
}
