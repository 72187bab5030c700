/** Positional lookup in an insertion-ordered dictionary (`get_nth_key`).
    A dictionary is represented by the sequence of its keys in iteration order;
    a Python dictionary never holds the same key twice, which `Distinct` states
    where a property depends on it. The sequence is a value, so a lookup cannot
    change the dictionary. */
module DictIndex {

  /** What `get_nth_key` yields: a key, or the `IndexError` it raises. */
  datatype Lookup<K> = Ok(key: K) | IndexError

  predicate Distinct<K(==)>(keys: seq<K>)
  {
    forall i, j :: 0 <= i < j < |keys| ==> keys[i] != keys[j]
  }

  /** Reference definition: Python-style indexing, where a negative index
      counts from the end. */
  function NthKey<K>(keys: seq<K>, n: int := 0): (r: Lookup<K>)
    ensures r.Ok? <==> -|keys| <= n < |keys|
    ensures r.Ok? ==> r.key in keys
  {
    var m := if n < 0 then n + |keys| else n;
    if 0 <= m < |keys| then Ok(keys[m]) else IndexError
  }

  /** The lookup as the source performs it: shift a negative index once by
      the length, then scan the keys with a counter and return on a match. */
  method GetNthKey<K>(keys: seq<K>, n: int := 0) returns (r: Lookup<K>)
    ensures 0 <= n < |keys| ==> r == Ok(keys[n])
    ensures -|keys| <= n < 0 ==> r == Ok(keys[n + |keys|])
    ensures n < -|keys| || |keys| <= n ==> r == IndexError
    ensures r == NthKey(keys, n)
  {
    var m := n;
    if m < 0 {
      m := m + |keys|;
    }
    var i := 0;
    while i < |keys|
      invariant 0 <= i <= |keys|
      invariant m < 0 || i <= m
    {
      if i == m {
        return Ok(keys[i]);
      }
      i := i + 1;
    }
    return IndexError;
  }

  /** Position of a key in iteration order. */
  function IndexOf<K(==)>(keys: seq<K>, k: K): (i: nat)
    requires k in keys
    ensures i < |keys| && keys[i] == k
    ensures forall j :: 0 <= j < i ==> keys[j] != k
  {
    if keys[0] == k then 0 else 1 + IndexOf(keys[1..], k)
  }

  /** Every key is reached by its own position, and by that position less the
      length (its negative index). */
  lemma {:induction false} LookupByOwnIndex<K>(keys: seq<K>, k: K)
    requires k in keys
    ensures NthKey(keys, IndexOf(keys, k)) == Ok(k)
    ensures NthKey(keys, IndexOf(keys, k) - |keys|) == Ok(k)
  {
    var i := IndexOf(keys, k);
    assert keys[i] == k;
  }

  /** With distinct keys, a key comes back for exactly two indices: its
      position and its negative counterpart. */
  lemma {:induction false} LookupIndicesOfKey<K>(keys: seq<K>, n: int, k: K)
    requires Distinct(keys)
    ensures NthKey(keys, n) == Ok(k) <==>
            k in keys && (n == IndexOf(keys, k) || n == IndexOf(keys, k) - |keys|)
  {
    if NthKey(keys, n) == Ok(k) {
      var m := if n < 0 then n + |keys| else n;
      assert keys[m] == k;
      var i := IndexOf(keys, k);
      assert keys[i] == keys[m];
    } else if k in keys {
      LookupByOwnIndex(keys, k);
    }
  }

  /** A negative index names the same key as that index plus the length. */
  lemma NegativeIndexAliases<K>(keys: seq<K>, n: int)
    requires -|keys| <= n < 0
    ensures NthKey(keys, n) == NthKey(keys, n + |keys|) == Ok(keys[n + |keys|])
  {
  }

  /** An empty dictionary raises for every index, including the default 0. */
  lemma EmptyDictionaryRaises<K>(keys: seq<K>, n: int)
    requires keys == []
    ensures NthKey(keys, n) == IndexError
    ensures NthKey(keys) == IndexError
  {
  }

  /** The default index picks the first key of a non-empty dictionary. */
  lemma DefaultIsFirstKey<K>(keys: seq<K>)
    requires keys != []
    ensures NthKey(keys) == Ok(keys[0])
  {
  }
}
