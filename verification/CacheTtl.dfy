/**
 * The cache's calls and time-to-live (pkg/service/cache.go): every call as a function
 * of the table and the clock, and the background clean-up as one more call, which no
 * caller can notice.
 */
module CacheTtl {
  import opened Basics
  import opened CacheTable
  import opened Channels

  const MINUTE: int := 60 * 1_000_000_000

  datatype Op =
    | Put(k: Key, value: Bytes, ttl: int64, cost: int)
    | Delete(k: Key)
    | Clear(store: string)
    | Get(k: Key)
    | Contains(k: Key)
    | Keys(store: string)
    | AccessFlush(k: Key, at: int)  // a deferred LRU update reaches the table
    | Cleanup

  /** A call with the readings of the clock during it: seconds, and nanoseconds for LRU. */
  datatype Call = Call(op: Op, now: int64, nanos: int)

  datatype Answer =
    | Done
    | Value(value: Bytes, queuesAccess: bool)
    | Present(exists_: bool)
    | KeyList(keys: set<string>)

  function RowOf(c: Call): Row
    requires c.op.Put?
  {
    Row(c.op.value,
        if c.op.ttl > 0 then Add64(c.now, c.op.ttl) else 0,
        c.nanos,
        if c.op.cost > 0 then c.op.cost else |c.op.value|)
  }

  /** Get serves the row: it exists and is not past its time. */
  predicate Serves(t: Table, k: Key, now: int) {
    k in t && !(t[k].expiresAt > 0 && t[k].expiresAt < now)
  }

  /** The condition of the Contains and Keys queries. */
  predicate Lists(t: Table, k: Key, now: int) {
    k in t && (t[k].expiresAt == 0 || t[k].expiresAt > now)
  }

  function ListedKeys(t: Table, store: string, now: int): set<string> {
    set k | k in t && k.store == store && Lists(t, k, now) :: k.key
  }

  function Apply(t: Table, c: Call): (Table, Answer) {
    match c.op
    case Put(k, _, _, _) => (t[k := RowOf(c)], Done)
    case Delete(k) => (Without(t, {k}), Done)
    case Clear(store) => (Without(t, StoreKeys(t, store)), Done)
    case Get(k) =>
      (t, if Serves(t, k, c.now) then Value(t[k].value, c.nanos - t[k].accessedAt > MINUTE) else Value([], false))
    case Contains(k) => (t, Present(Lists(t, k, c.now)))
    case Keys(store) => (t, KeyList(ListedKeys(t, store, c.now)))
    case AccessFlush(k, at) => (Touch(t, k, at), Done)
    case Cleanup => (CleanupExpired(t, c.now), Done)
  }

  /** The answers of a list of calls, clean-ups answering nothing. */
  function Answers(t: Table, calls: seq<Call>): seq<Answer>
    decreases |calls|
  {
    if calls == [] then []
    else
      var (u, a) := Apply(t, calls[0]);
      (if calls[0].op.Cleanup? then [] else [a]) + Answers(u, calls[1..])
  }

  function WithoutCleanups(calls: seq<Call>): seq<Call> {
    if calls == [] then []
    else (if calls[0].op.Cleanup? then [] else [calls[0]]) + WithoutCleanups(calls[1..])
  }

  predicate Queries(op: Op) {
    op.Get? || op.Contains? || op.Keys?
  }

  /**
   * Calls may overlap: a call stands in the list where it meets the table, and may have
   * read the clock before calls that stand in front of it.  No query has read it before
   * a clean-up in front of it did.  Get reads the clock after its query, so only
   * Contains and Keys can fail this.
   */
  predicate NoneOvertaken(calls: seq<Call>) {
    forall i, j | 0 <= i < j < |calls| && calls[i].op.Cleanup? && Queries(calls[j].op) :: calls[i].now <= calls[j].now
  }

  /** `t` is `u` except that some rows past their time are already gone. */
  predicate CleanedVersion(t: Table, u: Table, now: int) {
    && SubTable(t, u)
    && forall k | k in u && k !in t :: 0 < u[k].expiresAt < now
  }

  /** One call, not a clean-up, on the two tables: same answer, and still versions of each other. */
  lemma SameAnswer(t: Table, u: Table, c: Call, now: int)
    requires CleanedVersion(t, u, now) && !c.op.Cleanup? && (Queries(c.op) ==> now <= c.now)
    ensures Apply(t, c).1 == Apply(u, c).1
    ensures CleanedVersion(Apply(t, c).0, Apply(u, c).0, now)
  {
    if c.op.Keys? {
      var a, b := ListedKeys(t, c.op.store, c.now), ListedKeys(u, c.op.store, c.now);
      forall x
        ensures x in a <==> x in b
      {
        if x in b {
          var k :| k in u && k.store == c.op.store && Lists(u, k, c.now) && k.key == x;
          assert Lists(t, k, c.now);
        }
        if x in a {
          var k :| k in t && k.store == c.op.store && Lists(t, k, c.now) && k.key == x;
          assert Lists(u, k, c.now);
        }
      }
    }
  }

  lemma {:induction false} CleanedRunsAgree(t: Table, u: Table, calls: seq<Call>, now: int)
    requires CleanedVersion(t, u, now) && NoneOvertaken(calls)
    requires forall i | 0 <= i < |calls| && Queries(calls[i].op) :: now <= calls[i].now
    ensures Answers(t, calls) == Answers(u, WithoutCleanups(calls))
    decreases |calls|
  {
    if calls != [] {
      var c, rest := calls[0], calls[1..];
      assert forall i | 0 <= i < |rest| :: rest[i] == calls[i + 1];
      if c.op.Cleanup? {
        CleanedRunsAgree(Apply(t, c).0, u, rest, if now < c.now then c.now else now);
        assert WithoutCleanups(calls) == WithoutCleanups(rest);
      } else {
        SameAnswer(t, u, c, now);
        CleanedRunsAgree(Apply(t, c).0, Apply(u, c).0, rest, now);
        var left := WithoutCleanups(rest);
        assert WithoutCleanups(calls) == [c] + left;
        assert ([c] + left)[1..] == left;
      }
    }
  }

  /**
   * The clean-up is invisible: on any table and for any calls, if no query used a
   * reading of the clock from before a clean-up that came in front of it, all callers
   * get the same answers with and without the clean-ups.
   */
  lemma CleanupIsInvisible(t: Table, calls: seq<Call>)
    requires NoneOvertaken(calls)
    ensures Answers(t, calls) == Answers(t, WithoutCleanups(calls))
  {
    CleanedRunsAgree(t, t, calls, -MAX_INT64 - 1);
  }

  /**
   * Exactly what an overtaken query can notice: a clean-up between its reading of the
   * clock and its query turns a yes of Contains into a no if and only if the row expires
   * after the one reading and before the other.
   */
  lemma CleanupNoticedIff(t: Table, k: Key, cleanup: int64, now: int64)
    ensures
      var u := Apply(t, Call(Cleanup, cleanup, 0)).0;
      Apply(u, Call(Contains(k), now, 0)).1 != Apply(t, Call(Contains(k), now, 0)).1
      <==> k in t && 0 < t[k].expiresAt && now < t[k].expiresAt < cleanup
  {
  }

  /** It happens: Contains reads the clock, the row expires and is cleaned up, and Contains queries. */
  lemma OvertakenQueryNotices(k: Key, value: Bytes) returns (calls: seq<Call>)
    ensures calls == [Call(Put(k, value, 1, 0), 10, 0), Call(Cleanup, 12, 0), Call(Contains(k), 10, 0)]
    ensures Answers(map[], calls) == [Done, Present(false)]
    ensures Answers(map[], WithoutCleanups(calls)) == [Done, Present(true)]
  {
    var put, clean, ask := Call(Put(k, value, 1, 0), 10, 0), Call(Cleanup, 12, 0), Call(Contains(k), 10, 0);
    var t := Apply(map[], put).0;
    assert CleanupExpired(t, 12) == map[];
    calls := [put] + ([clean] + [ask]);
    AnswersCons(map[], put, [clean] + [ask]);
    AnswersCons(t, clean, [ask]);
    AnswersCons(map[], put, [ask]);
    assert Apply(map[], ask).1 == Present(false) && Apply(t, ask).1 == Present(true);
    AnswersOne(map[], ask);
    AnswersOne(t, ask);
    DropsTheSecond(put, clean, ask);
  }

  lemma DropsTheSecond(a: Call, clean: Call, b: Call)
    requires !a.op.Cleanup? && clean.op.Cleanup? && !b.op.Cleanup?
    ensures WithoutCleanups([a] + ([clean] + [b])) == [a] + [b]
  {
    assert [b][1..] == [] && ([clean] + [b])[1..] == [b] && ([a] + ([clean] + [b]))[1..] == [clean] + [b];
    assert WithoutCleanups([b]) == [b];
    assert WithoutCleanups([clean] + [b]) == [b];
  }

  lemma AnswersCons(t: Table, c: Call, rest: seq<Call>)
    ensures Answers(t, [c] + rest) == (if c.op.Cleanup? then [] else [Apply(t, c).1]) + Answers(Apply(t, c).0, rest)
  {
    assert ([c] + rest)[1..] == rest;
  }

  lemma AnswersOne(t: Table, c: Call)
    requires !c.op.Cleanup?
    ensures Answers(t, [c]) == [Apply(t, c).1]
  {
    assert [c][1..] == [];
  }

  /** If Contains says yes then Get serves the stored value within the same second. */
  lemma ContainsImpliesGet(t: Table, k: Key, now: int64, nanos: int)
    requires Apply(t, Call(Contains(k), now, nanos)).1 == Present(true)
    ensures k in t && Apply(t, Call(Get(k), now, nanos)).1.value == t[k].value
    ensures Serves(t, k, now)
  {
  }

  /**
   * Get and Contains disagree about a row exactly in the second in which it expires, and
   * about a row whose time to live was too large for the sum with the clock: its expiry
   * time is negative.
   */
  lemma GetAndContainsDisagree(t: Table, k: Key, now: int64)
    ensures Serves(t, k, now) != Lists(t, k, now) <==>
      k in t && ((t[k].expiresAt == now && now > 0) || (t[k].expiresAt < 0 && t[k].expiresAt <= now))
  {
  }

  /** A Put writes a negative expiry time exactly when the sum does not fit. */
  lemma ExpiryWrapsIff(c: Call)
    requires c.op.Put? && c.now >= 0
    ensures RowOf(c).expiresAt < 0 <==> c.op.ttl > 0 && c.now + c.op.ttl > MAX_INT64
    ensures RowOf(c).expiresAt >= 0 ==> RowOf(c).expiresAt == if c.op.ttl > 0 then c.now + c.op.ttl else 0
  {
  }

  /**
   * The largest time to live: from then on Get serves the value, Contains and Keys deny
   * it, and no clean-up removes it.
   */
  lemma WrappedRowStaysAndIsDenied(k: Key, value: Bytes, put: int64, now: int64)
    requires 0 < put <= now
    ensures var t := Apply(map[], Call(Put(k, value, MAX_INT64, 0), put, 0)).0;
      && Apply(t, Call(Get(k), now, 0)).1.value == value
      && Apply(t, Call(Contains(k), now, 0)).1 == Present(false)
      && k.key !in Apply(t, Call(Keys(k.store), now, 0)).1.keys
      && Apply(t, Call(Cleanup, now, 0)).0 == t
  {
    var t := Apply(map[], Call(Put(k, value, MAX_INT64, 0), put, 0)).0;
    assert forall j | j in t :: j == k;
    assert CleanupExpired(t, now) == t;
  }

  /** A second in which that happens: Get serves the value, Contains denies it. */
  lemma DisagreementInTheLastSecond(k: Key, value: Bytes, now: int64, ttl: int64)
    requires now >= 0 && ttl > 0 && now + ttl <= MAX_INT64
    ensures var t := Apply(map[], Call(Put(k, value, ttl, 0), now, 0)).0;
      && Apply(t, Call(Get(k), now + ttl, 0)).1.value == value
      && Apply(t, Call(Contains(k), now + ttl, 0)).1 == Present(false)
  {
  }

  /** Keys lists exactly the keys of the store that Contains accepts. */
  lemma KeysAreWhatContainsAccepts(t: Table, store: string, key: string, now: int64, nanos: int)
    ensures key in Apply(t, Call(Keys(store), now, nanos)).1.keys
      <==> Apply(t, Call(Contains(Key(store, key)), now, nanos)).1 == Present(true)
  {
    if Lists(t, Key(store, key), now) {
      assert Key(store, key).key in ListedKeys(t, store, now);
    }
  }

  /** A value is served from the moment it is put until its time is over, if no later call writes its key. */
  lemma PutThenGet(t: Table, put: Call, others: seq<Call>, get: Call)
    requires put.op.Put? && get.op == Get(put.op.k) && 0 <= put.now <= get.now
    requires forall c | c in others :: LeavesRow(c.op, put.op.k) && put.now <= c.now <= get.now
    ensures Apply(After(Apply(t, put).0, others), get).1.value
      == if put.op.ttl > 0 && get.now > put.now + put.op.ttl then [] else put.op.value
  {
    RowSurvives(Apply(t, put).0, others, put.op.k, get.now);
  }

  /** The call does not write the row of `k`, clean-ups and deferred accesses aside. */
  predicate LeavesRow(op: Op, k: Key) {
    match op
    case Put(j, _, _, _) => j != k
    case Delete(j) => j != k
    case Clear(store) => store != k.store
    case _ => true
  }

  function After(t: Table, calls: seq<Call>): Table
    decreases |calls|
  {
    if calls == [] then t else After(Apply(t, calls[0]).0, calls[1..])
  }

  lemma {:induction false} RowSurvives(t: Table, calls: seq<Call>, k: Key, now: int)
    requires forall c | c in calls :: LeavesRow(c.op, k) && c.now <= now
    ensures k !in t ==> k !in After(t, calls)
    ensures k in t ==>
      var u := After(t, calls);
      if k in u then u[k].value == t[k].value && u[k].expiresAt == t[k].expiresAt
      else 0 < t[k].expiresAt < now
    decreases |calls|
  {
    if calls != [] {
      assert calls[0] in calls;
      RowSurvives(Apply(t, calls[0]).0, calls[1..], k, now);
    }
  }

  // ----- what each writing call does to the rows -----

  /** A row that is gone: Get serves nothing, Contains says no, Keys does not list it. */
  predicate Unseen(t: Table, k: Key, now: int64) {
    && Apply(t, Call(Get(k), now, 0)).1 == Value([], false)
    && Apply(t, Call(Contains(k), now, 0)).1 == Present(false)
    && k.key !in Apply(t, Call(Keys(k.store), now, 0)).1.keys
  }

  lemma GoneIsUnseen(t: Table, k: Key, now: int64)
    requires k !in t
    ensures Unseen(t, k, now)
  {
    assert forall j | j in t && j.store == k.store && j.key == k.key :: j == k;
  }

  lemma {:induction false} StaysGone(t: Table, calls: seq<Call>, k: Key)
    requires k !in t && forall c | c in calls :: !(c.op.Put? && c.op.k == k)
    ensures k !in After(t, calls)
    decreases |calls|
  {
    if calls != [] {
      assert calls[0] in calls;
      StaysGone(Apply(t, calls[0]).0, calls[1..], k);
    }
  }

  /**
   * A deleted row is gone, whatever calls follow, until its key is put again, and the
   * deletion has touched no other row.
   */
  lemma DeletedIsGone(t: Table, delete: Call, others: seq<Call>, k: Key, now: int64)
    requires delete.op == Delete(k) && forall c | c in others :: !(c.op.Put? && c.op.k == k)
    ensures Unseen(After(Apply(t, delete).0, others), k, now)
    ensures var u := Apply(t, delete).0; forall j | j != k :: (j in u <==> j in t) && (j in t ==> u[j] == t[j])
  {
    StaysGone(Apply(t, delete).0, others, k);
    GoneIsUnseen(After(Apply(t, delete).0, others), k, now);
  }

  /** The same for all rows of a store that is cleared. */
  lemma ClearedIsGone(t: Table, clear: Call, others: seq<Call>, k: Key, now: int64)
    requires clear.op == Clear(k.store) && forall c | c in others :: !(c.op.Put? && c.op.k == k)
    ensures Unseen(After(Apply(t, clear).0, others), k, now)
    ensures var u := Apply(t, clear).0;
      forall j: Key | j.store != k.store :: (j in u <==> j in t) && (j in t ==> u[j] == t[j])
  {
    StaysGone(Apply(t, clear).0, others, k);
    GoneIsUnseen(After(Apply(t, clear).0, others), k, now);
  }

  /** The calls that change the access time of the row of `k`, or the row. */
  predicate LeavesAccess(op: Op, k: Key) {
    LeavesRow(op, k) && !(op.AccessFlush? && op.k == k)
  }

  lemma {:induction false} AccessSurvives(t: Table, calls: seq<Call>, k: Key)
    requires forall c | c in calls :: LeavesAccess(c.op, k)
    ensures k in t && k in After(t, calls) ==> After(t, calls)[k] == t[k]
    ensures k in After(t, calls) ==> k in t
    decreases |calls|
  {
    if calls != [] {
      assert calls[0] in calls;
      AccessSurvives(Apply(t, calls[0]).0, calls[1..], k);
    }
  }

  /**
   * What a Put leaves behind, as long as the row is there and nobody writes it: the value,
   * the moment of the Put as its last access, and as its size the cost, or else the length
   * of the value.  A Get that serves it queues an update if and only if that access is
   * more than a minute old; and no other row has changed.
   */
  lemma PutLeaves(t: Table, put: Call, others: seq<Call>, get: Call)
    requires put.op.Put? && get.op == Get(put.op.k)
    requires forall c | c in others :: LeavesAccess(c.op, put.op.k)
    ensures var k, u := put.op.k, After(Apply(t, put).0, others);
      k in u ==>
        && u[k].value == put.op.value && u[k].accessedAt == put.nanos
        && u[k].size == (if put.op.cost > 0 then put.op.cost else |put.op.value|)
        && (Serves(u, k, get.now) ==> Apply(u, get).1 == Value(put.op.value, get.nanos > put.nanos + MINUTE))
    ensures var k, u := put.op.k, Apply(t, put).0;
      k in u && forall j | j != k :: (j in u <==> j in t) && (j in t ==> u[j] == t[j])
  {
    AccessSurvives(Apply(t, put).0, others, put.op.k);
  }

  // ----- the source's form -----

  class CacheService {
    var rows: Table
    var closed: bool
    var accessChan: Chan<Update>

    constructor ()
      ensures rows == map[] && !closed && accessChan == MakeChan(ACCESS_CAPACITY)
    {
      rows, closed, accessChan := map[], false, MakeChan(ACCESS_CAPACITY);
    }

    method Put(k: Key, value: Bytes, ttl: int64, cost: int, now: int64, nanos: int)
      modifies this`rows
      ensures rows == if closed then old(rows) else Apply(old(rows), Call(Op.Put(k, value, ttl, cost), now, nanos)).0
      ensures !closed ==> rows == old(rows)[k := Row(value, if ttl > 0 then Add64(now, ttl) else 0, nanos,
                                                     if cost > 0 then cost else |value|)]
    {
      if closed {
        return;
      }
      var expiresAt: int64 := 0;
      if ttl > 0 {
        expiresAt := Add64(now, ttl);
      }
      var size: nat := |value|;
      if cost > 0 {
        size := cost;
      }
      rows := rows[k := Row(value, expiresAt, nanos, size)];
    }

    /** An access update that finds the channel full is dropped. */
    method Get(k: Key, now: int64, nanos: int) returns (value: Bytes)
      modifies this`accessChan
      ensures var answer := if closed then Value([], false) else Apply(rows, Call(Op.Get(k), now, nanos)).1;
        && value == answer.value
        && accessChan == if answer.queuesAccess && old(accessChan).CanSend()
                         then old(accessChan).Send(Update(k.store, k.key, nanos)) else old(accessChan)
      ensures value == if closed || k !in rows || 0 < rows[k].expiresAt < now then [] else rows[k].value
      ensures accessChan != old(accessChan) <==>
        && !closed && k in rows && !(0 < rows[k].expiresAt < now)
        && nanos > rows[k].accessedAt + MINUTE && old(accessChan).CanSend()
    {
      if closed || k !in rows {
        return [];
      }
      var row := rows[k];
      if row.expiresAt > 0 && row.expiresAt < now {
        return [];
      }
      if nanos - row.accessedAt > MINUTE {
        if accessChan.CanSend() {
          accessChan := accessChan.Send(Update(k.store, k.key, nanos));
        }
      }
      return row.value;
    }

    method Contains(k: Key, now: int64) returns (present: bool)
      ensures Present(present) == if closed then Present(false) else Apply(rows, Call(Op.Contains(k), now, 0)).1
      ensures present <==> !closed && k in rows && (rows[k].expiresAt == 0 || rows[k].expiresAt > now)
    {
      if closed {
        return false;
      }
      return k in rows && (rows[k].expiresAt == 0 || rows[k].expiresAt > now);
    }

    /** The query's rows are visited in any order; the answer is the set of their keys. */
    method Keys(store: string, now: int64) returns (keys: seq<string>)
      ensures closed ==> keys == []
      ensures !closed ==> KeyList(set x | x in keys) == Apply(rows, Call(Op.Keys(store), now, 0)).1
      ensures forall i, j | 0 <= i < j < |keys| :: keys[i] != keys[j]
      ensures !closed ==> forall x :: x in keys <==>
        Key(store, x) in rows && (rows[Key(store, x)].expiresAt == 0 || rows[Key(store, x)].expiresAt > now)
    {
      keys := [];
      if closed {
        return;
      }
      var todo := rows.Keys;
      while todo != {}
        invariant todo <= rows.Keys
        invariant forall x :: x in keys <==>
          exists k :: k in rows && k !in todo && k.store == store && Lists(rows, k, now) && k.key == x
        invariant forall i, j | 0 <= i < j < |keys| :: keys[i] != keys[j]
        decreases todo
      {
        var k :| k in todo;
        assert k.store == store ==> k.key !in keys by {
          assert forall j: Key :: j.store == k.store && j.key == k.key ==> j == k;
        }
        todo := todo - {k};
        if k.store == store && (rows[k].expiresAt == 0 || rows[k].expiresAt > now) {
          keys := keys + [k.key];
        }
      }
    }

    method Delete(k: Key)
      modifies this`rows
      ensures rows == if closed then old(rows) else Apply(old(rows), Call(Op.Delete(k), 0, 0)).0
      ensures rows == if closed then old(rows) else old(rows) - {k}
    {
      if !closed {
        rows := Without(rows, {k});
      }
    }

    method Clear(store: string)
      modifies this`rows
      ensures rows == if closed then old(rows) else Apply(old(rows), Call(Op.Clear(store), 0, 0)).0
      ensures forall k :: k in rows <==> k in old(rows) && (closed || k.store != store)
      ensures forall k | k in rows :: rows[k] == old(rows)[k]
    {
      if !closed {
        rows := Without(rows, StoreKeys(rows, store));
      }
    }

    /** The clean-up: visits the rows in any order and deletes the expired ones. */
    method CleanupExpired(now: int64)
      modifies this`rows
      ensures rows == Apply(old(rows), Call(Op.Cleanup, now, 0)).0
      ensures forall k :: k in rows <==> k in old(rows) && !(0 < old(rows)[k].expiresAt < now)
      ensures forall k | k in rows :: rows[k] == old(rows)[k]
    {
      var todo := rows.Keys;
      while todo != {}
        invariant todo <= rows.Keys <= old(rows).Keys
        invariant forall k | k in rows :: rows[k] == old(rows)[k]
        invariant forall k | k in old(rows) ::
          k in rows <==> k in todo || !(old(rows)[k].expiresAt > 0 && old(rows)[k].expiresAt < now)
        decreases todo
      {
        var k :| k in todo;
        todo := todo - {k};
        if rows[k].expiresAt > 0 && rows[k].expiresAt < now {
          rows := Without(rows, {k});
        }
      }
    }
  }
}
