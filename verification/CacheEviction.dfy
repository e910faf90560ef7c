/** Least-recently-used eviction (pkg/service/cache.go, evictOverCapacity). */
module CacheEviction {
  import opened CacheTable

  /** The number of rows one round of the byte limit deletes at most. */
  const BATCH: nat := 50

  /**
   * `u` is `t` after evictions: only deletions, and in every store each deleted row was
   * accessed no later than each row that is left.
   */
  ghost predicate Trimmed(t: Table, u: Table) {
    && SubTable(u, t)
    && forall r, q | r in t && r !in u && q in u && q.store == r.store :: t[r].accessedAt <= t[q].accessedAt
  }

  lemma TrimmedTransitive(t: Table, u: Table, v: Table)
    requires Trimmed(t, u) && Trimmed(u, v)
    ensures Trimmed(t, v)
  {
    forall r, q | r in t && r !in v && q in v && q.store == r.store
      ensures t[r].accessedAt <= t[q].accessedAt
    {
      assert q in u;
    }
  }

  /** Eviction touched one store only. */
  ghost predicate OnlyStore(t: Table, u: Table, store: string) {
    forall k | k in t && k.store != store :: k in u
  }

  /** What `ORDER BY accessed_at LIMIT n` may return, whatever it does with ties. */
  ghost predicate Oldest(t: Table, store: string, n: nat, ks: set<Key>) {
    && ks <= StoreKeys(t, store)
    && |ks| == (if n < |StoreKeys(t, store)| then n else |StoreKeys(t, store)|)
    && forall r, q | r in ks && q in StoreKeys(t, store) - ks :: t[r].accessedAt <= t[q].accessedAt
  }

  lemma {:induction false} MinimumExists(t: Table, ks: set<Key>)
    requires ks != {} && ks <= t.Keys
    ensures exists k :: k in ks && forall q | q in ks :: t[k].accessedAt <= t[q].accessedAt
    decreases ks
  {
    var k :| k in ks;
    if ks - {k} != {} {
      MinimumExists(t, ks - {k});
      var m :| m in ks - {k} && forall q | q in ks - {k} :: t[m].accessedAt <= t[q].accessedAt;
      if t[k].accessedAt <= t[m].accessedAt {
        assert forall q | q in ks :: q == k || q in ks - {k};
        assert k in ks && forall q | q in ks :: t[k].accessedAt <= t[q].accessedAt;
      } else {
        assert forall q | q in ks :: q == k || q in ks - {k};
        assert m in ks && forall q | q in ks :: t[m].accessedAt <= t[q].accessedAt;
      }
    } else {
      assert ks == {k};
    }
  }

  /** The store's rows, their number and their size after its oldest rows are deleted. */
  lemma DeleteOldestCounts(t: Table, store: string, ks: set<Key>)
    requires ks <= StoreKeys(t, store)
    ensures var u := Without(t, ks);
      && StoreKeys(u, store) == StoreKeys(t, store) - ks
      && |StoreKeys(u, store)| + |ks| == |StoreKeys(t, store)|
      && SumSize(u, StoreKeys(u, store)) + SumSize(t, ks) == SumSize(t, StoreKeys(t, store))
  {
    var u, s := Without(t, ks), StoreKeys(t, store);
    assert StoreKeys(u, store) == s - ks;
    assert s == (s - ks) + ks;
    SumUnion(t, s - ks, ks);
    SumAgree(t, u, s - ks);
    SizeUnion(s - ks, ks);
  }

  /** Deleting a store's oldest rows trims the table. */
  lemma DeleteOldestTrims(t: Table, store: string, n: nat, ks: set<Key>)
    requires Oldest(t, store, n, ks)
    ensures var u := Without(t, ks);
      && Trimmed(t, u) && OnlyStore(t, u, store)
      && StoreKeys(u, store) == StoreKeys(t, store) - ks
      && |StoreKeys(u, store)| + |ks| == |StoreKeys(t, store)|
      && SumSize(u, StoreKeys(u, store)) + SumSize(t, ks) == SumSize(t, StoreKeys(t, store))
  {
    DeleteOldestCounts(t, store, ks);
    var u := Without(t, ks);
    forall r, q | r in t && r !in u && q in u && q.store == r.store
      ensures t[r].accessedAt <= t[q].accessedAt
    {
      assert r in ks && q in StoreKeys(t, store) - ks;
    }
  }

  /** The cache's table and limits. */
  class Evictor {
    var rows: Table
    var maxEntries: map<string, int>
    var maxBytes: map<string, int>

    constructor (rows: Table, maxEntries: map<string, int>, maxBytes: map<string, int>)
      ensures this.rows == rows && this.maxEntries == maxEntries && this.maxBytes == maxBytes
    {
      this.rows, this.maxEntries, this.maxBytes := rows, maxEntries, maxBytes;
    }

    /** SELECT ... ORDER BY accessed_at LIMIT n: repeatedly some row that was accessed first. */
    method OldestRows(store: string, n: nat) returns (ks: set<Key>)
      ensures Oldest(rows, store, n, ks)
    {
      ks := {};
      var rest := StoreKeys(rows, store);
      while |ks| < n && rest != {}
        invariant ks !! rest && ks + rest == StoreKeys(rows, store)
        invariant |ks| <= n
        invariant forall r, q | r in ks && q in rest :: rows[r].accessedAt <= rows[q].accessedAt
        decreases rest
      {
        MinimumExists(rows, rest);
        var k :| k in rest && forall q | q in rest :: rows[k].accessedAt <= rows[q].accessedAt;
        ks := ks + {k};
        rest := rest - {k};
      }
      assert rest == StoreKeys(rows, store) - ks;
      SizeUnion(ks, rest);
    }

    /** SELECT SUM(size): adds up the sizes of some rows. */
    method TotalSize(ks: set<Key>) returns (total: nat)
      requires ks <= rows.Keys
      ensures total == SumSize(rows, ks)
    {
      total := 0;
      var rest := ks;
      while rest != {}
        invariant rest <= ks && total + SumSize(rows, rest) == SumSize(rows, ks)
        decreases rest
      {
        var k :| k in rest;
        SumPick(rows, rest, k);
        total := total + rows[k].size;
        rest := rest - {k};
      }
    }

    /** The entry limit of one store: deletes exactly the excess, oldest first. */
    method EnforceEntries(store: string, limit: int)
      requires limit > 0
      modifies this`rows
      ensures Trimmed(old(rows), rows) && OnlyStore(old(rows), rows, store)
      ensures |StoreKeys(old(rows), store)| <= limit ==> rows == old(rows)
      ensures |StoreKeys(old(rows), store)| > limit ==> |StoreKeys(rows, store)| == limit
    {
      var count := |StoreKeys(rows, store)|;
      if count <= limit {
        return;
      }
      var ks := OldestRows(store, count - limit);
      DeleteOldestTrims(rows, store, count - limit, ks);
      rows := Without(rows, ks);
    }

    /**
     * The byte limit of one store: deletes batches of the oldest rows until the store
     * fits.  `last` is the final batch: with it restored the store would be too large.
     */
    method EnforceBytes(store: string, limit: int) returns (ghost last: set<Key>)
      requires limit > 0
      modifies this`rows
      ensures Trimmed(old(rows), rows) && OnlyStore(old(rows), rows, store)
      ensures SumSize(rows, StoreKeys(rows, store)) <= limit
      ensures SumSize(old(rows), StoreKeys(old(rows), store)) <= limit ==> rows == old(rows)
      ensures SumSize(old(rows), StoreKeys(old(rows), store)) > limit ==> LastBatch(old(rows), rows, store, limit, last)
    {
      last := {};
      var totalSize: int := TotalSize(StoreKeys(rows, store));
      if totalSize <= limit {
        return;
      }
      while totalSize > limit
        invariant Trimmed(old(rows), rows) && OnlyStore(old(rows), rows, store)
        invariant totalSize == SumSize(rows, StoreKeys(rows, store))
        invariant totalSize > limit || LastBatch(old(rows), rows, store, limit, last)
        decreases |StoreKeys(rows, store)|
      {
        var batch := OldestRows(store, BATCH);
        if batch == {} {
          break;
        }
        var batchSize := TotalSize(batch);
        var left := Without(rows, batch);
        DeleteOldestTrims(rows, store, BATCH, batch);
        TrimmedTransitive(old(rows), rows, left);
        LastBatchHolds(old(rows), rows, store, limit, batch);
        assert totalSize - batchSize == SumSize(left, StoreKeys(left, store));
        last := batch;
        rows := left;
        totalSize := totalSize - batchSize;
      }
    }

    /**
     * One pass with no concurrent writers: first every entry limit, then every byte
     * limit, the stores of each kind in any order.
     */
    method EvictOverCapacity()
      modifies this`rows
      ensures Trimmed(old(rows), rows)
      ensures forall store :: MeetsEntries(rows, maxEntries, store) && MeetsBytes(rows, maxBytes, store)
      ensures forall k | k in old(rows) && k !in rows ::
        !MeetsEntries(old(rows), maxEntries, k.store) || !MeetsBytes(old(rows), maxBytes, k.store)
    {
      ghost var t := rows;
      var todo := maxEntries.Keys;
      while todo != {}
        invariant todo <= maxEntries.Keys && Trimmed(t, rows) && KeepsFitting(t, rows, maxEntries, maxBytes)
        invariant forall store | store !in todo :: MeetsEntries(rows, maxEntries, store)
        decreases todo
      {
        var store :| store in todo;
        if maxEntries[store] > 0 {
          ghost var u := rows;
          if MeetsEntries(t, maxEntries, store) && MeetsBytes(t, maxBytes, store) {
            FittingStoreUnchanged(t, u, maxEntries, maxBytes, store);
          }
          EnforceEntries(store, maxEntries[store]);
          TrimmedTransitive(t, u, rows);
          KeepsAfter(t, u, rows, maxEntries, maxBytes, store);
          LimitsAfter(u, rows, maxEntries, maxBytes);
        }
        todo := todo - {store};
      }
      todo := maxBytes.Keys;
      while todo != {}
        invariant todo <= maxBytes.Keys && Trimmed(t, rows) && KeepsFitting(t, rows, maxEntries, maxBytes)
        invariant forall store :: MeetsEntries(rows, maxEntries, store)
        invariant forall store | store !in todo :: MeetsBytes(rows, maxBytes, store)
        decreases todo
      {
        var store :| store in todo;
        if maxBytes[store] > 0 {
          ghost var u := rows;
          if MeetsEntries(t, maxEntries, store) && MeetsBytes(t, maxBytes, store) {
            FittingStoreUnchanged(t, u, maxEntries, maxBytes, store);
          }
          ghost var last := EnforceBytes(store, maxBytes[store]);
          TrimmedTransitive(t, u, rows);
          KeepsAfter(t, u, rows, maxEntries, maxBytes, store);
          LimitsAfter(u, rows, maxEntries, maxBytes);
        }
        todo := todo - {store};
      }
    }
  }

  /** The store has no positive entry limit or is within it. */
  ghost predicate MeetsEntries(t: Table, limits: map<string, int>, store: string) {
    store in limits && limits[store] > 0 ==> |StoreKeys(t, store)| <= limits[store]
  }

  /** The store has no positive byte limit or is within it. */
  ghost predicate MeetsBytes(t: Table, limits: map<string, int>, store: string) {
    store in limits && limits[store] > 0 ==> SumSize(t, StoreKeys(t, store)) <= limits[store]
  }

  /** Stores that met their limits from the start have lost nothing. */
  ghost predicate KeepsFitting(t: Table, u: Table, entries: map<string, int>, bytes: map<string, int>) {
    forall k | k in t && k !in u :: !MeetsEntries(t, entries, k.store) || !MeetsBytes(t, bytes, k.store)
  }

  /** A store that met its limits from the start still looks as it did. */
  lemma FittingStoreUnchanged(t: Table, u: Table, entries: map<string, int>, bytes: map<string, int>, store: string)
    requires SubTable(u, t) && KeepsFitting(t, u, entries, bytes)
    requires MeetsEntries(t, entries, store) && MeetsBytes(t, bytes, store)
    ensures StoreKeys(u, store) == StoreKeys(t, store)
    ensures MeetsEntries(u, entries, store) && MeetsBytes(u, bytes, store)
  {
    assert forall k | k in StoreKeys(t, store) :: k in u;
    assert StoreKeys(u, store) == StoreKeys(t, store);
    SumAgree(t, u, StoreKeys(t, store));
  }

  lemma KeepsAfter(t: Table, u: Table, v: Table, entries: map<string, int>, bytes: map<string, int>, store: string)
    requires SubTable(u, t) && SubTable(v, u) && KeepsFitting(t, u, entries, bytes) && OnlyStore(u, v, store)
    requires MeetsEntries(t, entries, store) && MeetsBytes(t, bytes, store) ==> v == u
    ensures KeepsFitting(t, v, entries, bytes)
  {
  }

  /** Evicting from one store keeps every limit that was met. */
  lemma LimitsAfter(u: Table, v: Table, entries: map<string, int>, bytes: map<string, int>)
    requires SubTable(v, u)
    ensures forall store :: MeetsEntries(u, entries, store) ==> MeetsEntries(v, entries, store)
    ensures forall store :: MeetsBytes(u, bytes, store) ==> MeetsBytes(v, bytes, store)
  {
    forall store
      ensures MeetsEntries(u, entries, store) ==> MeetsEntries(v, entries, store)
      ensures MeetsBytes(u, bytes, store) ==> MeetsBytes(v, bytes, store)
    {
      SubTableShrinks(v, u, store);
    }
  }

  /** `batch` is the last one deleted on the way from `t` to `u`: with it restored the store is too large. */
  ghost predicate LastBatch(t: Table, u: Table, store: string, limit: int, batch: set<Key>) {
    && batch <= StoreKeys(t, store) - StoreKeys(u, store) && |batch| <= BATCH
    && StoreKeys(u, store) + batch <= t.Keys
    && SumSize(t, StoreKeys(u, store) + batch) > limit
    && (forall r, q | r in StoreKeys(t, store) && r !in u && r !in batch && q in batch ::
          t[r].accessedAt <= t[q].accessedAt)
  }

  lemma LastBatchHolds(t: Table, before: Table, store: string, limit: int, batch: set<Key>)
    requires Trimmed(t, before) && Oldest(before, store, BATCH, batch)
    requires SumSize(before, StoreKeys(before, store)) > limit
    ensures LastBatch(t, Without(before, batch), store, limit, batch)
  {
    var u := Without(before, batch);
    assert StoreKeys(u, store) + batch == StoreKeys(before, store);
    SumAgree(t, before, StoreKeys(before, store));
    forall r, q | r in StoreKeys(t, store) && r !in u && r !in batch && q in batch
      ensures t[r].accessedAt <= t[q].accessedAt
    {
      assert r !in before && q in before;
    }
  }
}
