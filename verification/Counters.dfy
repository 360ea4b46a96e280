/** Counter tables: a map from keys to positive counts, kept by one increment per arrival
    and one decrement per departure. */
module Counters {
  import opened MapSums

  function CountAt<K>(m: map<K, nat>, k: K): nat {
    if k in m then m[k] else 0
  }

  function Increment<K>(m: map<K, nat>, k: K): map<K, nat> {
    m[k := CountAt(m, k) + 1]
  }

  /** `decrement_counter`: saturating, and an entry that reaches zero is removed. */
  function Decrement<K>(m: map<K, nat>, k: K): map<K, nat> {
    if k !in m then m
    else
      var left := if m[k] > 0 then m[k] - 1 else 0;
      if left == 0 then m - {k} else m[k := left]
  }

  ghost function Holders<K(!new)>(live: map<nat, K>, k: K): set<nat> {
    set id | id in live && live[id] == k
  }

  /** The table counts exactly the live holders, with no entry for a key without any. */
  ghost predicate Counts<K(!new)>(m: map<K, nat>, live: map<nat, K>) {
    && (forall k :: CountAt(m, k) == |Holders(live, k)|)
    && (forall k :: k in m ==> m[k] > 0)
  }

  lemma EmptyCounts<K(!new)>()
    ensures Counts<K>(map[], map[])
  {
    forall k: K
      ensures |Holders(map[], k)| == 0
    {
      assert Holders(map[], k) == {};
    }
  }

  lemma HoldersGrow<K(!new)>(live: map<nat, K>, id: nat, k: K, j: K)
    requires id !in live
    ensures |Holders(live[id := k], j)| == |Holders(live, j)| + (if j == k then 1 else 0)
  {
    if j == k {
      assert Holders(live[id := k], j) == Holders(live, j) + {id};
    } else {
      assert Holders(live[id := k], j) == Holders(live, j);
    }
  }

  lemma IncrementCounts<K(!new)>(m: map<K, nat>, live: map<nat, K>, id: nat, k: K)
    requires Counts(m, live) && id !in live
    ensures Counts(Increment(m, k), live[id := k])
  {
    forall j
      ensures CountAt(Increment(m, k), j) == |Holders(live[id := k], j)|
    {
      HoldersGrow(live, id, k, j);
    }
  }

  lemma DecrementCounts<K(!new)>(m: map<K, nat>, live: map<nat, K>, id: nat)
    requires Counts(m, live) && id in live
    ensures live[id] in m && Counts(Decrement(m, live[id]), live - {id})
  {
    var k := live[id];
    assert id in Holders(live, k);
    assert |Holders(live, k)| > 0 by {
      assert |Holders(live, k)| == |Holders(live, k) - {id}| + 1;
    }
    forall j
      ensures CountAt(Decrement(m, k), j) == |Holders(live - {id}, j)|
    {
      if j == k {
        assert Holders(live - {id}, j) == Holders(live, j) - {id};
      } else {
        assert Holders(live - {id}, j) == Holders(live, j);
      }
    }
  }

  lemma IncrementSum<K(!new)>(m: map<K, nat>, k: K)
    ensures Sum(Increment(m, k)) == Sum(m) + 1
  {
    SumSet(m, k, CountAt(m, k) + 1);
  }

  lemma DecrementSum<K(!new)>(m: map<K, nat>, k: K)
    requires k in m && m[k] > 0
    ensures Sum(Decrement(m, k)) + 1 == Sum(m)
  {
    SumSet(m, k, m[k] - 1);
    SumRemove(m, k);
  }

  /** Taking a key and giving it back leaves the table as it was. */
  lemma IncrementDecrement<K(!new)>(m: map<K, nat>, k: K)
    requires forall j :: j in m ==> m[j] > 0
    ensures Decrement(Increment(m, k), k) == m
  {
    if k !in m { assert Increment(m, k) - {k} == m; }
  }
}
