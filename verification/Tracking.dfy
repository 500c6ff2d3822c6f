/** Maps keyed by values anyone may choose, kept within a bound by forgetting. */
module Tracking {
  import opened Options

  const MAX_TRACKED := 4096

  function Forgotten<K>(forgot: Option<K>): set<K> {
    if forgot.Some? then {forgot.value} else {}
  }

  /** Of the live entries, one is forgotten exactly when they alone fill the map, and
      then one of the lowest rank. */
  ghost predicate EvictionOk<K, V>(live: map<K, V>, rank: V -> int, forgot: Option<K>) {
    && (forgot.Some? <==> MAX_TRACKED <= |live|)
    && (forgot.Some? ==> forgot.value in live && forall k :: k in live ==> rank(live[forgot.value]) <= rank(live[k]))
  }

  lemma Inserted<K, V>(m: map<K, V>, k: K, v: V)
    ensures |m[k := v]| == if k in m then |m| else |m| + 1
  {
    assert m[k := v].Keys == m.Keys + {k};
  }

  lemma Subset<T>(a: set<T>, b: set<T>)
    requires a <= b
    ensures |a| <= |b|
  {
    assert b == a + (b - a);
  }

  /** An eviction makes room for one more. */
  lemma EvictionShrinks<K, V>(m: map<K, V>, live: map<K, V>, rank: V -> int, forgot: Option<K>)
    requires live.Keys <= m.Keys && |m| <= MAX_TRACKED && EvictionOk(live, rank, forgot)
    ensures |live - Forgotten(forgot)| < MAX_TRACKED
  {
    Subset(live.Keys, m.Keys);
    if forgot.Some? {
      assert (live - Forgotten(forgot)).Keys == live.Keys - {forgot.value};
    } else {
      assert live - Forgotten(forgot) == live;
    }
  }
}
