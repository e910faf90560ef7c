/**
 * The table behind the cache (pkg/service/cache.go): rows with a unique (store, key),
 * and the meaning of each SQL statement on them.
 */
module CacheTable {
  import opened Basics

  datatype Key = Key(store: string, key: string)

  /** `expiresAt` in seconds, 0 for never; `accessedAt` in nanoseconds. */
  datatype Row = Row(value: Bytes, expiresAt: int64, accessedAt: int, size: nat)

  type Table = map<Key, Row>

  /** A deferred LRU update. */
  datatype Update = Update(store: string, key: string, accessedAt: int) {
    function Target(): Key {
      Key(store, key)
    }
  }

  /** The capacity of the channel of deferred updates. */
  const ACCESS_CAPACITY: nat := 4096

  function StoreKeys(t: Table, store: string): set<Key> {
    set k | k in t && k.store == store
  }

  /** DELETE of a set of rows. */
  function Without(t: Table, ks: set<Key>): Table {
    map k | k in t && k !in ks :: t[k]
  }

  /** UPDATE ... SET accessed_at: no effect when the row does not exist. */
  function Touch(t: Table, k: Key, at: int): Table {
    if k in t then t[k := t[k].(accessedAt := at)] else t
  }

  /** DELETE ... WHERE expires_at > 0 AND expires_at < now. */
  function CleanupExpired(t: Table, now: int): Table {
    map k | k in t && !(t[k].expiresAt > 0 && t[k].expiresAt < now) :: t[k]
  }

  /** SUM(size) over a set of rows. */
  ghost function SumSize(t: Table, ks: set<Key>): nat
    requires ks <= t.Keys
  {
    if ks == {} then 0
    else
      var k :| k in ks;
      t[k].size + SumSize(t, ks - {k})
  }

  /** The sum does not depend on the order in which rows are added. */
  lemma {:induction false} SumPick(t: Table, ks: set<Key>, k: Key)
    requires ks <= t.Keys && k in ks
    ensures SumSize(t, ks) == t[k].size + SumSize(t, ks - {k})
    decreases ks
  {
    var j :| j in ks && SumSize(t, ks) == t[j].size + SumSize(t, ks - {j});
    if j != k {
      SumPick(t, ks - {j}, k);
      SumPick(t, ks - {k}, j);
      assert ks - {j} - {k} == ks - {k} - {j};
    }
  }

  lemma {:induction false} SumUnion(t: Table, a: set<Key>, b: set<Key>)
    requires a + b <= t.Keys && a !! b
    ensures SumSize(t, a + b) == SumSize(t, a) + SumSize(t, b)
    decreases a
  {
    if a == {} {
      assert a + b == b;
    } else {
      var k :| k in a;
      SumPick(t, a, k);
      SumPick(t, a + b, k);
      assert (a + b) - {k} == (a - {k}) + b;
      SumUnion(t, a - {k}, b);
    }
  }

  /** Sums over rows that two tables share agree. */
  lemma {:induction false} SumAgree(t: Table, u: Table, ks: set<Key>)
    requires ks <= t.Keys && ks <= u.Keys && forall k | k in ks :: t[k] == u[k]
    ensures SumSize(t, ks) == SumSize(u, ks)
    decreases ks
  {
    if ks != {} {
      var k :| k in ks;
      SumPick(t, ks, k);
      SumPick(u, ks, k);
      SumAgree(t, u, ks - {k});
    }
  }

  /** `u` is `t` with some rows deleted. */
  predicate SubTable(u: Table, t: Table) {
    u.Keys <= t.Keys && forall k | k in u :: u[k] == t[k]
  }

  /** Deleting rows of any store raises neither its count nor its total size. */
  lemma SubTableShrinks(u: Table, t: Table, store: string)
    requires SubTable(u, t)
    ensures |StoreKeys(u, store)| <= |StoreKeys(t, store)|
    ensures SumSize(u, StoreKeys(u, store)) <= SumSize(t, StoreKeys(t, store))
  {
    var a, b := StoreKeys(u, store), StoreKeys(t, store);
    assert a <= b && b == a + (b - a);
    SumAgree(u, t, a);
    SumUnion(t, a, b - a);
    SizeUnion(a, b - a);
  }

  lemma SizeUnion(a: set<Key>, b: set<Key>)
    requires a !! b
    ensures |a + b| == |a| + |b|
  {
  }
}
