/** Sums over the values of a map, and sequences of keyed amounts added up per key. */
module Tally {

  ghost function Sum<K(!new)>(m: map<K, int>): int {
    if m == map[] then 0 else var key :| key in m; m[key] + Sum(m - {key})
  }

  lemma {:induction false} SumWithout<K(!new)>(m: map<K, int>, key: K)
    requires key in m
    ensures Sum(m) == m[key] + Sum(m - {key})
    decreases |m|
  {
    var k :| k in m && Sum(m) == m[k] + Sum(m - {k});
    if k != key {
      SumWithout(m - {k}, key);
      SumWithout(m - {key}, k);
      assert m - {k} - {key} == m - {key} - {k};
    }
  }

  function Get<K>(m: map<K, int>, key: K): int { if key in m then m[key] else 0 }

  function Add<K>(m: map<K, int>, key: K, n: int): map<K, int> { m[key := Get(m, key) + n] }

  lemma SumAfterAdd<K(!new)>(m: map<K, int>, key: K, n: int)
    ensures Sum(Add(m, key, n)) == Sum(m) + n
  {
    var more := Add(m, key, n);
    SumWithout(more, key);
    assert more - {key} == m - {key};
    if key in m {
      SumWithout(m, key);
    } else {
      assert m - {key} == m;
    }
  }

  /** The values of the listed keys, added up. */
  function SumOf<K>(keys: seq<K>, m: map<K, int>): int {
    if keys == [] then 0 else SumOf(keys[..|keys| - 1], m) + Get(m, keys[|keys| - 1])
  }

  lemma {:induction false} SumOfUnlisted<K>(keys: seq<K>, m: map<K, int>, key: K)
    requires key !in keys
    ensures SumOf(keys, m - {key}) == SumOf(keys, m)
  {
    if keys != [] {
      SumOfUnlisted(keys[..|keys| - 1], m, key);
    }
  }

  lemma OneKeyLess<K>(keys: set<K>, key: K)
    requires key in keys
    ensures multiset(keys - {key}) == multiset(keys) - multiset{key}
  {
  }

  lemma ListOneMore<K>(listed: seq<K>, keys: set<K>, key: K)
    requires multiset(listed) == multiset(keys) && key !in keys
    ensures multiset(listed + [key]) == multiset(keys + {key})
  {
    OneKeyLess(keys + {key}, key);
    assert keys + {key} - {key} == keys;
  }

  /** Listing every key once, in any order, gives the sum of the map. */
  lemma {:induction false} ListedOnce<K(!new)>(keys: seq<K>, m: map<K, int>)
    requires multiset(keys) == multiset(m.Keys)
    ensures SumOf(keys, m) == Sum(m)
    decreases |keys|
  {
    if keys == [] {
      assert m.Keys == {} by {
        assert |multiset(m.Keys)| == 0;
      }
      assert m == map[];
    } else {
      var init, key := keys[..|keys| - 1], keys[|keys| - 1];
      assert keys == init + [key];
      assert multiset(init) == multiset(keys) - multiset{key};
      assert key in multiset(m.Keys);
      OneKeyLess(m.Keys, key);
      assert (m - {key}).Keys == m.Keys - {key};
      ListedOnce(init, m - {key});
      SumWithout(m, key);
      SumOfUnlisted(init, m, key);
    }
  }
}
