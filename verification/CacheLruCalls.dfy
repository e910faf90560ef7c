/**
 * The steps of CacheLruRuns are those of the cache's calls: a call that nothing disturbs
 * does there what CacheTtl says of it, on the same rows.
 */
module CacheLruCalls {
  import opened Basics
  import opened CacheTable
  import opened CacheLruRuns
  import Ttl = CacheTtl

  /** The queue after a Get that answered `a`. */
  function QueueAfter(s: Lru, k: Key, nanos: int, a: Ttl.Answer): seq<Update>
    requires a.Value?
  {
    Updates(s.queue) + (if a.queuesAccess && |s.queue| < ACCESS_CAPACITY then [Update(k.store, k.key, nanos)] else [])
  }

  function Updates(queue: seq<Item>): (r: seq<Update>)
    ensures |r| == |queue|
  {
    seq(|queue|, i requires 0 <= i < |queue| => queue[i].u)
  }

  lemma UpdatesSnoc(queue: seq<Item>, i: Item)
    ensures Updates(queue + [i]) == Updates(queue) + [i.u]
  {
  }

  /** A Get by itself queues the update that CacheTtl says it does, room permitting, and changes no row. */
  lemma LoneGet(s: Lru, k: Key, now: int64, nanos: int) returns (events: seq<Event>, n: Lru)
    requires s.clock <= nanos
    ensures Exec(s, events) == Some(n) && n.rows == s.rows
    ensures Updates(n.queue) == QueueAfter(s, k, nanos, Ttl.Apply(s.rows, Ttl.Call(Ttl.Get(k), now, nanos)).1)
    ensures |n.callers| == |s.callers| + 1 && n.callers[|s.callers|] == Finished
  {
    var call := |s.callers|;
    n, events := Extend(s, s, [], GetQuery(k));
    if k in s.rows {
      n, events := Extend(s, n, events, GetClock(call, now, nanos));
      if n.callers[call].Queueing? {
        UpdatesSnoc(s.queue, Item(Update(k.store, k.key, nanos), |n.log|));
        n, events := Extend(s, n, events, GetSend(call));
      }
    }
  }

  /** A Put by itself leaves the rows that CacheTtl says it does. */
  lemma LonePut(s: Lru, put: Ttl.Call) returns (events: seq<Event>, n: Lru)
    requires put.op.Put? && s.clock <= put.nanos
    ensures Exec(s, events) == Some(n) && n.rows == Ttl.Apply(s.rows, put).0 && n.queue == s.queue
    ensures |n.callers| == |s.callers| + 1 && n.callers[|s.callers|] == Finished
  {
    var row := Ttl.RowOf(put);
    n, events := Extend(s, s, [], PutClock(put.op.k, put.op.value, row.expiresAt, row.size, put.nanos));
    n, events := Extend(s, n, events, PutWrite(|s.callers|));
  }

  /** The rows that a deleting call removes. */
  function Removed(t: Table, c: Ttl.Call): set<Key> {
    match c.op
    case Delete(k) => {k}
    case Clear(store) => StoreKeys(t, store)
    case Cleanup => set k | k in t && 0 < t[k].expiresAt < c.now
    case _ => {}
  }

  /** The deleting calls are one step. */
  lemma LoneRemoval(s: Lru, c: Ttl.Call)
    requires c.op.Delete? || c.op.Clear? || c.op.Cleanup?
    ensures Do(s, Remove(Removed(s.rows, c))).rows == Ttl.Apply(s.rows, c).0
  {
  }

  /** Writing one update of a batch is the deferred access of CacheTtl: that row's access time and nothing else. */
  lemma LoneUpdate(s: Lru, c: string)
    requires c in s.flushing
    ensures var u, n := s.flushing[c].u, Do(s, WriteOne(c));
      && n.rows == Ttl.Apply(s.rows, Ttl.Call(Ttl.AccessFlush(u.Target(), u.accessedAt), 0, 0)).0
      && n.rows.Keys == s.rows.Keys
      && forall k | k in s.rows ::
           n.rows[k] == if k == u.Target() then s.rows[k].(accessedAt := u.accessedAt) else s.rows[k]
  {
  }
}
