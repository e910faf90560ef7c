/**
 * Deferred LRU updates among concurrent calls (pkg/service/cache.go): any number of
 * callers inside Get and Put, the channel of updates, and the loop that collects a batch
 * and writes it row by row.  A call reads the clock in one step and takes effect in
 * another, and anything may happen in between.
 */
module CacheLruRuns {
  import opened Basics
  import opened CacheTable
  import opened CacheAccessBatch
  import Ttl = CacheTtl

  /** An update on its way to the table; `g` is where the log says that it was queued (history). */
  datatype Item = Item(u: Update, g: nat)

  /** What happened so far that matters to access times. */
  datatype Logged =
    | Read(call: nat, at: int)            // a call reads the clock
    | Queued(call: nat, u: Update)        // a Get puts its update on the channel
    | Wrote(call: nat, k: Key, at: int)   // a Put writes its row
    | Touched(item: Item)                 // the loop writes an update to its row

  /** Where a call stands; calls are known by their position among the callers. */
  datatype Caller =
    | Queried(k: Key, expiresAt: int64, accessedAt: int)
    | Queueing(u: Update)
    | Putting(k: Key, value: Bytes, expiresAt: int64, size: nat, at: int)
    | Finished

  /**
   * `pending` is the batch, `flushing` what is left of the batch that is being written.
   * `clock` is the last reading.  History: `log`; `start`, the clock at the beginning;
   * `lo`, `mid` and `hi` bound the log positions of what was taken from the channel
   * before the batch being written, before the present batch, and at all.
   */
  datatype Lru = Lru(
    rows: Table, callers: seq<Caller>, queue: seq<Item>, pending: map<string, Item>, flushing: map<string, Item>,
    clock: int, log: seq<Logged>, start: int, lo: nat, mid: nat, hi: nat)

  datatype Event =
    | GetQuery(k: Key)
    | GetClock(call: nat, now: int64, nanos: int)
    | GetSend(call: nat)
    | PutClock(k: Key, value: Bytes, expiresAt: int64, size: nat, nanos: int)
    | PutWrite(call: nat)
    | Remove(ks: set<Key>)  // Delete, Clear, the clean-up or an eviction
    | TakeUpdate
    | BeginFlush
    | WriteOne(c: string)

  /** The clock does not go back; a full batch is flushed before the next update is taken. */
  predicate Enabled(s: Lru, e: Event) {
    match e
    case GetQuery(_) => true
    case GetClock(call, _, nanos) => call < |s.callers| && s.callers[call].Queried? && s.clock <= nanos
    case GetSend(call) => call < |s.callers| && s.callers[call].Queueing?
    case PutClock(_, _, _, _, nanos) => s.clock <= nanos
    case PutWrite(call) => call < |s.callers| && s.callers[call].Putting?
    case Remove(_) => true
    case TakeUpdate => s.queue != [] && s.flushing == map[] && |s.pending| < FLUSH_AT
    case BeginFlush => s.pending != map[] && s.flushing == map[]
    case WriteOne(c) => c in s.flushing
  }

  function Do(s: Lru, e: Event): Lru
    requires Enabled(s, e)
  {
    match e
    case GetQuery(k) =>
      s.(callers := s.callers +
           [if k in s.rows then Queried(k, s.rows[k].expiresAt, s.rows[k].accessedAt) else Finished])
    case GetClock(call, now, nanos) =>
      var q := s.callers[call];
      if 0 < q.expiresAt < now then s.(callers := s.callers[call := Finished])
      else
        s.(clock := nanos, log := s.log + [Read(call, nanos)],
           callers := s.callers[call :=
             if nanos - q.accessedAt > Ttl.MINUTE then Queueing(Update(q.k.store, q.k.key, nanos)) else Finished])
    case GetSend(call) =>
      var u := s.callers[call].u;
      if |s.queue| < ACCESS_CAPACITY then
        s.(queue := s.queue + [Item(u, |s.log|)], log := s.log + [Queued(call, u)],
           callers := s.callers[call := Finished])
      else s.(callers := s.callers[call := Finished])
    case PutClock(k, value, expiresAt, size, nanos) =>
      s.(clock := nanos, log := s.log + [Read(|s.callers|, nanos)],
         callers := s.callers + [Putting(k, value, expiresAt, size, nanos)])
    case PutWrite(call) =>
      var p := s.callers[call];
      s.(rows := s.rows[p.k := Row(p.value, p.expiresAt, p.at, p.size)], log := s.log + [Wrote(call, p.k, p.at)],
         callers := s.callers[call := Finished])
    case Remove(ks) => s.(rows := Without(s.rows, ks))
    case TakeUpdate =>
      var i := s.queue[0];
      s.(queue := s.queue[1..], pending := s.pending[Composite(i.u.Target()) := i], hi := i.g + 1)
    case BeginFlush => s.(flushing := s.pending, pending := map[], lo := s.mid, mid := s.hi)
    case WriteOne(c) =>
      var i := s.flushing[c];
      s.(rows := Touch(s.rows, i.u.Target(), i.u.accessedAt), flushing := s.flushing - {c}, log := s.log + [Touched(i)])
  }

  function Exec(s: Lru, events: seq<Event>): Option<Lru>
    decreases |events|
  {
    if events == [] then Some(s)
    else if Enabled(s, events[0]) then Exec(Do(s, events[0]), events[1..])
    else None
  }

  /** Any table whose rows were accessed before now. */
  predicate Init(s: Lru) {
    && s.callers == [] && s.queue == [] && s.pending == map[] && s.flushing == map[] && s.log == []
    && s.start == s.clock && s.lo == s.mid == s.hi == 0
    && forall k | k in s.rows :: s.rows[k].accessedAt <= s.start
  }

  /** The access time that an entry of the log gave the row of `k`, if it wrote it. */
  function WriteOf(l: Logged, k: Key): Option<int> {
    if l.Wrote? && l.k == k then Some(l.at)
    else if l.Touched? && l.item.u.Target() == k then Some(l.item.u.accessedAt)
    else None
  }

  /** The access time that the last write of the row of `k` gave it. */
  function LastWrite(log: seq<Logged>, k: Key): Option<int> {
    if log == [] then None
    else if WriteOf(log[|log|-1], k).Some? then WriteOf(log[|log|-1], k)
    else LastWrite(log[..|log|-1], k)
  }

  lemma LastWriteSnoc(log: seq<Logged>, l: Logged, k: Key)
    ensures LastWrite(log + [l], k) == if WriteOf(l, k).Some? then WriteOf(l, k) else LastWrite(log, k)
  {
    assert (log + [l])[..|log|] == log;
  }

  // ----- the invariant -----

  /** A row has the time of its last write, or one from before the start. */
  predicate RowOk(s: Lru, k: Key)
    requires k in s.rows
  {
    var last := LastWrite(s.log, k);
    if last.Some? then s.rows[k].accessedAt == last.value else s.rows[k].accessedAt <= s.start
  }

  predicate RowsOk(s: Lru) {
    forall k | k in s.rows :: RowOk(s, k)
  }

  /** Readings are logged in order. */
  predicate Ordered(log: seq<Logged>, start: int, clock: int) {
    && (forall i, j | 0 <= i < j < |log| && log[i].Read? && log[j].Read? :: log[i].at <= log[j].at)
    && (forall i | 0 <= i < |log| && log[i].Read? :: start <= log[i].at <= clock)
  }

  /** Call `c` read `at` from the clock before position `n` of the log. */
  predicate ReadBefore(log: seq<Logged>, n: nat, c: nat, at: int) {
    exists r :: 0 <= r < n && r < |log| && log[r] == Read(c, at)
  }

  /** The entry's effect carries a reading that its call made before. */
  predicate Backed(log: seq<Logged>, i: nat)
    requires i < |log|
  {
    match log[i]
    case Read(_, _) => true
    case Queued(c, u) => ReadBefore(log, i, c, u.accessedAt)
    case Wrote(c, _, at) => ReadBefore(log, i, c, at)
    case Touched(item) => item.g < i && log[item.g].Queued? && log[item.g].u == item.u
  }

  predicate Origins(s: Lru) {
    && (forall i | 0 <= i < |s.log| :: Backed(s.log, i))
    && (forall c | 0 <= c < |s.callers| && s.callers[c].Queueing? :: ReadBefore(s.log, |s.log|, c, s.callers[c].u.accessedAt))
    && (forall c | 0 <= c < |s.callers| && s.callers[c].Putting? :: ReadBefore(s.log, |s.log|, c, s.callers[c].at))
  }

  predicate ItemOk(log: seq<Logged>, item: Item) {
    item.g < |log| && log[item.g].Queued? && log[item.g].u == item.u
  }

  predicate QueueOk(log: seq<Logged>, queue: seq<Item>, hi: nat) {
    && (forall i | 0 <= i < |queue| :: ItemOk(log, queue[i]) && hi <= queue[i].g)
    && (forall i, j | 0 <= i < j < |queue| :: queue[i].g < queue[j].g)
  }

  predicate BatchOk(log: seq<Logged>, batch: map<string, Item>, lo: nat, hi: nat) {
    forall c | c in batch ::
      ItemOk(log, batch[c]) && lo <= batch[c].g < hi && Composite(batch[c].u.Target()) == c
  }

  /** What was written belongs to an earlier batch, or is gone from this one. */
  predicate TouchedOk(log: seq<Logged>, flushing: map<string, Item>, lo: nat, mid: nat) {
    forall i | 0 <= i < |log| && log[i].Touched? ::
      var item := log[i].item;
      item.g < lo || (item.g < mid && Composite(item.u.Target()) !in flushing)
  }

  /** Updates pass through channel, batch and table in the order in which they were queued. */
  predicate InOrder(s: Lru) {
    && s.lo <= s.mid <= s.hi <= |s.log|
    && QueueOk(s.log, s.queue, s.hi)
    && BatchOk(s.log, s.pending, s.mid, s.hi)
    && BatchOk(s.log, s.flushing, s.lo, s.mid)
    && TouchedOk(s.log, s.flushing, s.lo, s.mid)
  }

  predicate Inv(s: Lru) {
    RowsOk(s) && Ordered(s.log, s.start, s.clock) && Origins(s) && InOrder(s)
  }

  /** A new entry of the log, if there is one, is the last write of the rows that it writes. */
  lemma RowsLogged(s: Lru, n: Lru, l: Logged)
    requires RowsOk(s) && n.start == s.start && n.log == s.log + [l]
    requires forall k | k in n.rows ::
      if WriteOf(l, k).Some? then n.rows[k].accessedAt == WriteOf(l, k).value
      else k in s.rows && n.rows[k].accessedAt == s.rows[k].accessedAt
    ensures RowsOk(n)
  {
    forall k | k in n.rows
      ensures RowOk(n, k)
    {
      assert k in s.rows ==> RowOk(s, k);
      LastWriteSnoc(s.log, l, k);
    }
  }

  lemma RowsKept(s: Lru, n: Lru)
    requires RowsOk(s) && n.start == s.start && n.log == s.log
    requires forall k | k in n.rows :: k in s.rows && n.rows[k] == s.rows[k]
    ensures RowsOk(n)
  {
    forall k | k in n.rows
      ensures RowOk(n, k)
    {
      assert RowOk(s, k);
    }
  }

  lemma RowsStep(s: Lru, e: Event)
    requires RowsOk(s) && Enabled(s, e)
    ensures RowsOk(Do(s, e))
  {
    match e
    case PutWrite(c) => RowsLogged(s, Do(s, e), Wrote(c, s.callers[c].k, s.callers[c].at));
    case WriteOne(c) => RowsLogged(s, Do(s, e), Touched(s.flushing[c]));
    case PutClock(_, _, _, _, nanos) => RowsLogged(s, Do(s, e), Read(|s.callers|, nanos));
    case GetClock(c, now, nanos) =>
      if 0 < s.callers[c].expiresAt < now {
        RowsKept(s, Do(s, e));
      } else {
        RowsLogged(s, Do(s, e), Read(c, nanos));
      }
    case GetSend(c) =>
      if |s.queue| < ACCESS_CAPACITY {
        RowsLogged(s, Do(s, e), Queued(c, s.callers[c].u));
      } else {
        RowsKept(s, Do(s, e));
      }
    case _ => RowsKept(s, Do(s, e));
  }

  lemma OrderSnoc(log: seq<Logged>, l: Logged, start: int, clock: int, clock': int)
    requires Ordered(log, start, clock) && start <= clock <= clock' && (l.Read? ==> l.at == clock')
    ensures Ordered(log + [l], start, clock') && Ordered(log, start, clock')
  {
  }

  lemma OrderStep(s: Lru, e: Event)
    requires Ordered(s.log, s.start, s.clock) && s.start <= s.clock && Enabled(s, e)
    ensures Ordered(Do(s, e).log, s.start, Do(s, e).clock) && s.start <= Do(s, e).clock && Do(s, e).start == s.start
  {
    var n := Do(s, e);
    if |n.log| > |s.log| {
      assert n.log == s.log + [n.log[|s.log|]];
      OrderSnoc(s.log, n.log[|s.log|], s.start, s.clock, n.clock);
    }
  }

  /** What an entry rests on stays where it is. */
  lemma BackedStays(log: seq<Logged>, more: seq<Logged>, i: nat)
    requires i < |log| && log <= more && Backed(log, i)
    ensures Backed(more, i)
  {
    if log[i].Queued? {
      ReadStays(log, more, i, log[i].call, log[i].u.accessedAt);
    } else if log[i].Wrote? {
      ReadStays(log, more, i, log[i].call, log[i].at);
    }
  }

  lemma ReadStays(log: seq<Logged>, more: seq<Logged>, n: nat, c: nat, at: int)
    requires log <= more && n <= |log| && ReadBefore(log, n, c, at)
    ensures ReadBefore(more, n, c, at) && ReadBefore(more, |more|, c, at)
  {
    var r :| 0 <= r < n && r < |log| && log[r] == Read(c, at);
    assert more[r] == Read(c, at);
  }

  lemma LogGrows(s: Lru, e: Event)
    requires Enabled(s, e)
    ensures s.log <= Do(s, e).log && |Do(s, e).log| <= |s.log| + 1
  {
  }

  /** The new entry of the log, if there is one. */
  lemma NewBacked(s: Lru, e: Event)
    requires Origins(s) && InOrder(s) && Enabled(s, e) && |Do(s, e).log| > |s.log|
    ensures Backed(Do(s, e).log, |s.log|)
  {
    var n := Do(s, e);
    LogGrows(s, e);
    match e
    case GetSend(c) => ReadStays(s.log, n.log, |s.log|, c, s.callers[c].u.accessedAt);
    case PutWrite(c) => ReadStays(s.log, n.log, |s.log|, c, s.callers[c].at);
    case _ =>
  }

  /** A call that stands before its effect has read the clock. */
  lemma CallerBacked(s: Lru, e: Event, c: nat)
    requires Origins(s) && Enabled(s, e) && c < |Do(s, e).callers|
    ensures var n := Do(s, e);
      && (n.callers[c].Queueing? ==> ReadBefore(n.log, |n.log|, c, n.callers[c].u.accessedAt))
      && (n.callers[c].Putting? ==> ReadBefore(n.log, |n.log|, c, n.callers[c].at))
  {
    var n := Do(s, e);
    LogGrows(s, e);
    if c < |s.callers| && n.callers[c] == s.callers[c] {
      if n.callers[c].Queueing? {
        ReadStays(s.log, n.log, |s.log|, c, s.callers[c].u.accessedAt);
      } else if n.callers[c].Putting? {
        ReadStays(s.log, n.log, |s.log|, c, s.callers[c].at);
      }
    } else if n.callers[c].Queueing? || n.callers[c].Putting? {
      assert n.log[|s.log|] == Read(c, n.clock);
    }
  }

  lemma OriginsStep(s: Lru, e: Event)
    requires Origins(s) && InOrder(s) && Enabled(s, e)
    ensures Origins(Do(s, e))
  {
    var n := Do(s, e);
    LogGrows(s, e);
    forall i | 0 <= i < |n.log|
      ensures Backed(n.log, i)
    {
      if i < |s.log| {
        BackedStays(s.log, n.log, i);
      } else {
        NewBacked(s, e);
      }
    }
    forall c | 0 <= c < |n.callers|
      ensures n.callers[c].Queueing? ==> ReadBefore(n.log, |n.log|, c, n.callers[c].u.accessedAt)
      ensures n.callers[c].Putting? ==> ReadBefore(n.log, |n.log|, c, n.callers[c].at)
    {
      CallerBacked(s, e, c);
    }
  }

  lemma OrderStays(log: seq<Logged>, more: seq<Logged>, queue: seq<Item>, batch: map<string, Item>, lo: nat, hi: nat)
    requires log <= more
    ensures QueueOk(log, queue, hi) ==> QueueOk(more, queue, hi)
    ensures BatchOk(log, batch, lo, hi) ==> BatchOk(more, batch, lo, hi)
  {
  }

  lemma TakeKeepsOrder(s: Lru)
    requires InOrder(s) && Enabled(s, TakeUpdate)
    ensures InOrder(Do(s, TakeUpdate))
  {
    var first, rest := s.queue[0], s.queue[1..];
    assert ItemOk(s.log, first);
    forall i | 0 <= i < |rest|
      ensures rest[i] == s.queue[i + 1] && first.g < rest[i].g
    {
    }
    assert QueueOk(s.log, rest, first.g + 1);
  }

  lemma WriteKeepsOrder(s: Lru, c: string)
    requires InOrder(s) && Enabled(s, WriteOne(c))
    ensures InOrder(Do(s, WriteOne(c)))
  {
    var item, left := s.flushing[c], s.flushing - {c};
    var log := s.log + [Touched(item)];
    OrderStays(s.log, log, s.queue, s.pending, s.mid, s.hi);
    OrderStays(s.log, log, s.queue, s.flushing, s.lo, s.mid);
    assert BatchOk(log, left, s.lo, s.mid) && item.g < s.mid && Composite(item.u.Target()) == c;
    assert TouchedOk(log, left, s.lo, s.mid);
  }

  lemma QueueSnoc(log: seq<Logged>, queue: seq<Item>, hi: nat, call: nat, u: Update)
    requires QueueOk(log, queue, hi) && hi <= |log|
    ensures QueueOk(log + [Queued(call, u)], queue + [Item(u, |log|)], hi)
  {
    var more := log + [Queued(call, u)];
    assert forall i | 0 <= i < |queue| :: ItemOk(more, queue[i]);
    assert ItemOk(more, Item(u, |log|));
  }

  lemma SendKeepsOrder(s: Lru, call: nat)
    requires InOrder(s) && Enabled(s, GetSend(call))
    ensures InOrder(Do(s, GetSend(call)))
  {
    var u := s.callers[call].u;
    var log := s.log + [Queued(call, u)];
    OrderStays(s.log, log, s.queue, s.pending, s.mid, s.hi);
    OrderStays(s.log, log, s.queue, s.flushing, s.lo, s.mid);
    QueueSnoc(s.log, s.queue, s.hi, call, u);
    assert TouchedOk(log, s.flushing, s.lo, s.mid);
  }

  /** Readings and writes of calls. */
  lemma CallKeepsOrder(s: Lru, n: Lru, l: Logged)
    requires InOrder(s) && (l.Read? || l.Wrote?) && n.log == s.log + [l]
    requires n.queue == s.queue && n.pending == s.pending && n.flushing == s.flushing
    requires n.lo == s.lo && n.mid == s.mid && n.hi == s.hi
    ensures InOrder(n)
  {
    OrderStays(s.log, n.log, s.queue, s.pending, s.mid, s.hi);
    OrderStays(s.log, n.log, s.queue, s.flushing, s.lo, s.mid);
  }

  /** Queries, removals, calls that end without an effect, and a batch set aside to be written. */
  lemma QuietKeepsOrder(s: Lru, n: Lru)
    requires InOrder(s) && n.log == s.log && n.queue == s.queue && n.hi == s.hi
    requires
      || (n.pending == s.pending && n.flushing == s.flushing && n.lo == s.lo && n.mid == s.mid)
      || (s.flushing == map[] && n.flushing == s.pending && n.pending == map[] && n.lo == s.mid && n.mid == s.hi)
    ensures InOrder(n)
  {
  }

  lemma ClockKeepsOrder(s: Lru, call: nat, now: int64, nanos: int)
    requires InOrder(s) && Enabled(s, GetClock(call, now, nanos))
    ensures InOrder(Do(s, GetClock(call, now, nanos)))
  {
    var n := Do(s, GetClock(call, now, nanos));
    if 0 < s.callers[call].expiresAt < now {
      QuietKeepsOrder(s, n);
    } else {
      CallKeepsOrder(s, n, Read(call, nanos));
    }
  }

  lemma InOrderStep(s: Lru, e: Event)
    requires InOrder(s) && Enabled(s, e)
    ensures InOrder(Do(s, e))
  {
    match e
    case TakeUpdate => TakeKeepsOrder(s);
    case WriteOne(c) => WriteKeepsOrder(s, c);
    case GetSend(call) => SendKeepsOrder(s, call);
    case GetClock(call, now, nanos) => ClockKeepsOrder(s, call, now, nanos);
    case PutClock(_, _, _, _, nanos) => CallKeepsOrder(s, Do(s, e), Read(|s.callers|, nanos));
    case PutWrite(call) => CallKeepsOrder(s, Do(s, e), Wrote(call, s.callers[call].k, s.callers[call].at));
    case _ => QuietKeepsOrder(s, Do(s, e));
  }

  lemma {:induction false} ExecInv(s: Lru, events: seq<Event>)
    requires Inv(s) && s.start <= s.clock && Exec(s, events).Some?
    ensures Inv(Exec(s, events).value)
    decreases |events|
  {
    if events != [] {
      RowsStep(s, events[0]);
      OrderStep(s, events[0]);
      OriginsStep(s, events[0]);
      InOrderStep(s, events[0]);
      ExecInv(Do(s, events[0]), events[1..]);
    }
  }

  // ----- when a flush sets an access time back -----

  /** The entry at `p` is the last write of the row of `k`, and its time is later than `at`. */
  predicate LaterLastWrite(log: seq<Logged>, p: nat, k: Key, at: int) {
    && p < |log| && WriteOf(log[p], k).Some? && WriteOf(log[p], k).value > at
    && forall i | p < i < |log| :: WriteOf(log[i], k).None?
  }

  /** The clock reading of the Get that queued the item, and where it was made. */
  predicate ReadingOf(log: seq<Logged>, r: nat, item: Item) {
    && r < item.g < |log| && log[item.g].Queued? && log[item.g].u == item.u
    && log[r] == Read(log[item.g].call, item.u.accessedAt)
  }

  /** The row was last written by a Put that read the clock after the item's Get did. */
  ghost predicate OvertakenByPut(log: seq<Logged>, item: Item) {
    exists p: nat, r: nat, w: nat ::
      && LaterLastWrite(log, p, item.u.Target(), item.u.accessedAt)
      && log[p].Wrote? && r < w < p && ReadingOf(log, r, item) && log[w] == Read(log[p].call, log[p].at)
  }

  /**
   * The row was last written with the update of another Get, and that Get read the clock
   * and queued its update while the item's Get stood between the one and the other.
   */
  ghost predicate OvertakenByGet(log: seq<Logged>, item: Item) {
    exists p: nat, r: nat, w: nat ::
      && LaterLastWrite(log, p, item.u.Target(), item.u.accessedAt)
      && log[p].Touched? && r < w < log[p].item.g < item.g && ReadingOf(log, r, item) && ReadingOf(log, w, log[p].item)
  }

  /** The last write is somewhere in the log. */
  lemma {:induction false} LastWriteWhere(log: seq<Logged>, k: Key) returns (p: nat)
    requires LastWrite(log, k).Some?
    ensures p < |log| && WriteOf(log[p], k) == LastWrite(log, k)
    ensures forall i | p < i < |log| :: WriteOf(log[i], k).None?
  {
    var last, front := log[|log|-1], log[..|log|-1];
    if WriteOf(last, k).Some? {
      p := |log| - 1;
    } else {
      p := LastWriteWhere(front, k);
      assert forall i | 0 <= i < |front| :: front[i] == log[i];
    }
  }

  /** The entry after which nothing writes the row is the last write. */
  lemma {:induction false} LastWriteIs(log: seq<Logged>, p: nat, k: Key)
    requires p < |log| && WriteOf(log[p], k).Some? && forall i | p < i < |log| :: WriteOf(log[i], k).None?
    ensures LastWrite(log, k) == WriteOf(log[p], k)
  {
    if p < |log| - 1 {
      var front := log[..|log|-1];
      assert forall i | 0 <= i < |front| :: front[i] == log[i];
      LastWriteIs(front, p, k);
    }
  }

  /** Of two readings the later one was made later. */
  lemma LaterReading(log: seq<Logged>, start: int, clock: int, i: nat, j: nat)
    requires Ordered(log, start, clock) && i < |log| && j < |log| && log[i].Read? && log[j].Read?
    requires log[i].at < log[j].at
    ensures i < j
  {
  }

  lemma FindReading(log: seq<Logged>, item: Item) returns (r: nat)
    requires ItemOk(log, item) && Backed(log, item.g)
    ensures ReadingOf(log, r, item)
  {
    r :| 0 <= r < item.g && log[r] == Read(log[item.g].call, item.u.accessedAt);
  }

  /** Another update that was written to the same row before was queued before. */
  lemma EarlierInQueue(s: Lru, c: string, p: nat)
    requires InOrder(s) && c in s.flushing && p < |s.log| && s.log[p].Touched?
    requires s.log[p].item.u.Target() == s.flushing[c].u.Target()
    ensures s.log[p].item.g < s.flushing[c].g
  {
    assert Composite(s.flushing[c].u.Target()) == c;
  }

  lemma SetBackIsOvertaken(s: Lru, c: string)
    requires Inv(s) && c in s.flushing && s.flushing[c].u.Target() in s.rows
    requires s.flushing[c].u.accessedAt < s.rows[s.flushing[c].u.Target()].accessedAt
    ensures OvertakenByPut(s.log, s.flushing[c]) || OvertakenByGet(s.log, s.flushing[c])
  {
    var item := s.flushing[c];
    var k := item.u.Target();
    var r := FindReading(s.log, item);
    assert RowOk(s, k) && s.start <= s.log[r].at;
    var p := LastWriteWhere(s.log, k);
    assert LaterLastWrite(s.log, p, k, item.u.accessedAt) && Backed(s.log, p);
    if s.log[p].Wrote? {
      var w :| 0 <= w < p && s.log[w] == Read(s.log[p].call, s.log[p].at);
      LaterReading(s.log, s.start, s.clock, r, w);
    } else {
      EarlierInQueue(s, c, p);
      var w := FindReading(s.log, s.log[p].item);
      LaterReading(s.log, s.start, s.clock, r, w);
    }
  }

  /**
   * In every run, with any number of calls at a time: writing an update sets the access
   * time of its row back exactly when the row was last written with a later time - by a
   * Put that read the clock after the update's Get did, or with the update of another Get
   * that read the clock and queued its update in the middle of that Get.
   */
  lemma FlushSetsBackIffOvertaken(s0: Lru, events: seq<Event>, s: Lru, c: string)
    requires Init(s0) && Exec(s0, events) == Some(s) && Enabled(s, WriteOne(c)) && s.flushing[c].u.Target() in s.rows
    ensures var k := s.flushing[c].u.Target();
      Do(s, WriteOne(c)).rows[k].accessedAt < s.rows[k].accessedAt
      <==> OvertakenByPut(s.log, s.flushing[c]) || OvertakenByGet(s.log, s.flushing[c])
  {
    ExecInv(s0, events);
    SetsBackIff(s, c);
  }

  lemma SetsBackIff(s: Lru, c: string)
    requires Inv(s) && c in s.flushing && s.flushing[c].u.Target() in s.rows
    ensures s.flushing[c].u.accessedAt < s.rows[s.flushing[c].u.Target()].accessedAt
      <==> OvertakenByPut(s.log, s.flushing[c]) || OvertakenByGet(s.log, s.flushing[c])
  {
    var item, k := s.flushing[c], s.flushing[c].u.Target();
    forall p: nat | LaterLastWrite(s.log, p, k, item.u.accessedAt)
      ensures item.u.accessedAt < s.rows[k].accessedAt
    {
      LaterWriteShows(s, k, p, item.u.accessedAt);
    }
    if item.u.accessedAt < s.rows[k].accessedAt {
      SetBackIsOvertaken(s, c);
    }
  }

  lemma LaterWriteShows(s: Lru, k: Key, p: nat, at: int)
    requires RowsOk(s) && k in s.rows && LaterLastWrite(s.log, p, k, at)
    ensures at < s.rows[k].accessedAt
  {
    LastWriteIs(s.log, p, k);
    assert RowOk(s, k);
  }

  /** Between a call's reading of the clock and its effect no call reads the clock. */
  predicate NoOverlap(log: seq<Logged>) {
    forall r, m, e | 0 <= r < m < e < |log| && log[r].Read? && (log[e].Queued? || log[e].Wrote?) && log[e].call == log[r].call ::
      !log[m].Read?
  }

  /**
   * For calls that do not overlap: a time is set back exactly when a Put with a later
   * reading wrote the row after the Get queued its update, and nothing has since.
   */
  lemma WithoutOverlapOnlyPutOvertakes(s0: Lru, events: seq<Event>, s: Lru, c: string)
    requires Init(s0) && Exec(s0, events) == Some(s) && Enabled(s, WriteOne(c)) && s.flushing[c].u.Target() in s.rows
    requires NoOverlap(s.log)
    ensures var item, k := s.flushing[c], s.flushing[c].u.Target();
      Do(s, WriteOne(c)).rows[k].accessedAt < s.rows[k].accessedAt
      <==> exists p: nat :: item.g < p < |s.log| && s.log[p].Wrote? && LaterLastWrite(s.log, p, k, item.u.accessedAt)
  {
    ExecInv(s0, events);
    FlushSetsBackIffOvertaken(s0, events, s, c);
    var item, k := s.flushing[c], s.flushing[c].u.Target();
    NoGetInside(s.log, item);
    if OvertakenByPut(s.log, item) {
      PutComesAfter(s.log, item);
    }
    forall p: nat | LaterLastWrite(s.log, p, k, item.u.accessedAt)
      ensures item.u.accessedAt < s.rows[k].accessedAt
    {
      LaterWriteShows(s, k, p, item.u.accessedAt);
    }
  }

  lemma NoGetInside(log: seq<Logged>, item: Item)
    requires NoOverlap(log)
    ensures !OvertakenByGet(log, item)
  {
    forall r: nat, w: nat | r < w < item.g && ReadingOf(log, r, item)
      ensures !log[w].Read?
    {
    }
  }

  lemma PutComesAfter(log: seq<Logged>, item: Item)
    requires NoOverlap(log) && OvertakenByPut(log, item)
    ensures exists p: nat ::
      item.g < p < |log| && log[p].Wrote? && LaterLastWrite(log, p, item.u.Target(), item.u.accessedAt)
  {
    var p: nat, r: nat, w: nat :| LaterLastWrite(log, p, item.u.Target(), item.u.accessedAt)
      && log[p].Wrote? && r < w < p && ReadingOf(log, r, item) && log[w] == Read(log[p].call, log[p].at);
    forall m | r < m < item.g
      ensures !log[m].Read?
    {
    }
  }

  // ----- runs that show it -----

  lemma {:induction false} ExecSnoc(s: Lru, events: seq<Event>, e: Event)
    requires Exec(s, events).Some? && Enabled(Exec(s, events).value, e)
    ensures Exec(s, events + [e]) == Some(Do(Exec(s, events).value, e))
    decreases |events|
  {
    if events == [] {
      assert [e][1..] == [];
    } else {
      ExecSnoc(Do(s, events[0]), events[1..], e);
      assert (events + [e])[1..] == events[1..] + [e];
    }
  }

  lemma Extend(s0: Lru, s: Lru, events: seq<Event>, e: Event) returns (n: Lru, events': seq<Event>)
    requires Exec(s0, events) == Some(s) && Enabled(s, e)
    ensures n == Do(s, e) && events' == events + [e] && Exec(s0, events') == Some(n)
  {
    ExecSnoc(s0, events, e);
    n, events' := Do(s, e), events + [e];
  }

  /** One row, last accessed at the beginning of time. */
  function OldRow(k: Key): Lru {
    Lru(map[k := Row([], 0, 0, 0)], [], [], map[], map[], 0, [], 0, 0, 0, 0)
  }

  /** A Get and a Put of the same key a nanosecond later, one after the other, then the flush. */
  lemma PutIsSetBack(k: Key) returns (events: seq<Event>, s: Lru, c: string)
    ensures Init(OldRow(k)) && Exec(OldRow(k), events) == Some(s) && Enabled(s, WriteOne(c)) && k in s.rows
    ensures s.rows[k].accessedAt == Ttl.MINUTE + 2 && Do(s, WriteOne(c)).rows[k].accessedAt == Ttl.MINUTE + 1
  {
    var s0 := OldRow(k);
    assert Key(k.store, k.key) == k;
    c := Composite(k);
    s, events := OneIsQueued(k);
    s, events := Extend(s0, s, events, PutClock(k, [], 0, 0, Ttl.MINUTE + 2));
    s, events := Extend(s0, s, events, PutWrite(1));
    s, events := Extend(s0, s, events, TakeUpdate);
    s, events := Extend(s0, s, events, BeginFlush);
  }

  /** A Get has queued its update. */
  lemma OneIsQueued(k: Key) returns (s: Lru, events: seq<Event>)
    ensures Exec(OldRow(k), events) == Some(s)
    ensures var u := Update(k.store, k.key, Ttl.MINUTE + 1);
      s == OldRow(k).(clock := Ttl.MINUTE + 1, callers := [Finished], queue := [Item(u, 1)],
                      log := [Read(0, Ttl.MINUTE + 1), Queued(0, u)])
  {
    var s0 := OldRow(k);
    s, events := Extend(s0, s0, [], GetQuery(k));
    s, events := Extend(s0, s, events, GetClock(0, 0, Ttl.MINUTE + 1));
    s, events := Extend(s0, s, events, GetSend(0));
  }

  /** No Put takes part. */
  predicate NoPut(events: seq<Event>) {
    forall e | e in events :: !e.PutClock? && !e.PutWrite?
  }

  /** Two Gets that overlap, and no Put: the update with the earlier reading is written last. */
  lemma GetIsSetBack(k: Key) returns (events: seq<Event>, s: Lru, c: string)
    ensures Init(OldRow(k)) && Exec(OldRow(k), events) == Some(s) && Enabled(s, WriteOne(c)) && k in s.rows
    ensures s.rows[k].accessedAt == Ttl.MINUTE + 2 && Do(s, WriteOne(c)).rows[k].accessedAt == Ttl.MINUTE + 1
    ensures NoPut(events)
  {
    var s0 := OldRow(k);
    assert Key(k.store, k.key) == k;
    c := Composite(k);
    s, events := FirstIsTaken(k);
    s, events := Extend(s0, s, events, BeginFlush);
  }

  /** Only then the Get with the earlier reading queues its update. */
  lemma FirstIsTaken(k: Key) returns (s: Lru, events: seq<Event>)
    ensures Exec(OldRow(k), events) == Some(s) && NoPut(events)
    ensures s.flushing == map[] && k in s.rows && s.rows[k].accessedAt == Ttl.MINUTE + 2
    ensures Composite(k) in s.pending && s.pending[Composite(k)].u == Update(k.store, k.key, Ttl.MINUTE + 1)
  {
    var s0 := OldRow(k);
    assert Key(k.store, k.key) == k;
    s, events := SecondIsWritten(k);
    s, events := Extend(s0, s, events, GetSend(0));
    s, events := Extend(s0, s, events, TakeUpdate);
  }

  /** The Get with the later reading queues its update first, and the loop writes it. */
  lemma SecondIsWritten(k: Key) returns (s: Lru, events: seq<Event>)
    ensures Exec(OldRow(k), events) == Some(s) && NoPut(events)
    ensures s.queue == [] && s.pending == map[] && s.flushing == map[] && |s.callers| == 2
    ensures s.callers[0] == Queueing(Update(k.store, k.key, Ttl.MINUTE + 1))
    ensures k in s.rows && s.rows[k].accessedAt == Ttl.MINUTE + 2
  {
    var s0, c := OldRow(k), Composite(k);
    assert Key(k.store, k.key) == k;
    s, events := SecondIsTaken(k);
    s, events := Extend(s0, s, events, BeginFlush);
    assert s.flushing - {c} == map[];
    s, events := Extend(s0, s, events, WriteOne(c));
  }

  lemma SecondIsTaken(k: Key) returns (s: Lru, events: seq<Event>)
    ensures Exec(OldRow(k), events) == Some(s) && NoPut(events)
    ensures s.queue == [] && s.flushing == map[] && |s.callers| == 2 && s.rows == OldRow(k).rows
    ensures s.callers[0] == Queueing(Update(k.store, k.key, Ttl.MINUTE + 1))
    ensures s.pending == map[Composite(k) := Item(Update(k.store, k.key, Ttl.MINUTE + 2), 2)]
  {
    var s0 := OldRow(k);
    assert Key(k.store, k.key) == k;
    s, events := TwoReadings(k);
    s, events := Extend(s0, s, events, GetSend(1));
    s, events := Extend(s0, s, events, TakeUpdate);
  }

  /** Both Gets have read the clock, and neither has queued its update. */
  lemma TwoReadings(k: Key) returns (s: Lru, events: seq<Event>)
    ensures Exec(OldRow(k), events) == Some(s) && NoPut(events)
    ensures s == OldRow(k).(
      clock := Ttl.MINUTE + 2, log := [Read(0, Ttl.MINUTE + 1), Read(1, Ttl.MINUTE + 2)],
      callers := [Queueing(Update(k.store, k.key, Ttl.MINUTE + 1)), Queueing(Update(k.store, k.key, Ttl.MINUTE + 2))])
  {
    var s0 := OldRow(k);
    s, events := Extend(s0, s0, [], GetQuery(k));
    s, events := Extend(s0, s, events, GetQuery(k));
    s, events := Extend(s0, s, events, GetClock(0, 0, Ttl.MINUTE + 1));
    s, events := Extend(s0, s, events, GetClock(1, 0, Ttl.MINUTE + 2));
  }
}
