/**
 * Building a dictionary from records in order, each record stored under its key, so that a
 * later record with the same key replaces an earlier one (`d[key(r)] = r` in a loop).
 */
module Index {

  function IndexBy<K(==), V>(records: seq<V>, key: V -> K): map<K, V>
    decreases |records|
  {
    if records == [] then map[]
    else
      var last := records[|records| - 1];
      IndexBy(records[..|records| - 1], key)[key(last) := last]
  }

  /** Record `i` has key `k` and no later record does. */
  predicate LastWithKey<K(==), V>(records: seq<V>, key: V -> K, k: K, i: int) {
    && 0 <= i < |records|
    && key(records[i]) == k
    && forall j | i < j < |records| :: key(records[j]) != k
  }

  /** A key is present exactly when some record has it. */
  lemma {:induction false} IndexByKeys<K, V>(records: seq<V>, key: V -> K, k: K)
    ensures k in IndexBy(records, key) <==> exists i | 0 <= i < |records| :: key(records[i]) == k
    decreases |records|
  {
    if records != [] {
      var n := |records| - 1;
      var init := records[..n];
      IndexByKeys(init, key, k);
      if exists i | 0 <= i < |init| :: key(init[i]) == k {
        var i :| 0 <= i < |init| && key(init[i]) == k;
        assert key(records[i]) == k;
      }
      forall i | 0 <= i < n && key(records[i]) == k ensures key(init[i]) == k {
        assert records[i] == init[i];
      }
    }
  }

  /** A present key holds the last record that has it. */
  lemma {:induction false} IndexByLastWins<K, V>(records: seq<V>, key: V -> K, k: K)
    requires k in IndexBy(records, key)
    ensures exists i | 0 <= i < |records| :: LastWithKey(records, key, k, i) && IndexBy(records, key)[k] == records[i]
    decreases |records|
  {
    var n := |records| - 1;
    var init := records[..n];
    if key(records[n]) == k {
      assert LastWithKey(records, key, k, n);
    } else {
      IndexByLastWins(init, key, k);
      var i :| 0 <= i < |init| && LastWithKey(init, key, k, i) && IndexBy(init, key)[k] == init[i];
      forall j | i < j < |records| ensures key(records[j]) != k {
        if j < n { assert records[j] == init[j]; }
      }
      assert LastWithKey(records, key, k, i);
    }
  }

  /** Appending one record stores it under its key over whatever was there. */
  lemma IndexBySnoc<K, V>(records: seq<V>, r: V, key: V -> K)
    ensures IndexBy(records + [r], key) == IndexBy(records, key)[key(r) := r]
  {
    assert (records + [r])[..|records|] == records;
  }
}
