/**
 * Deferred LRU updates (pkg/service/cache.go, accessUpdateLoop and flushAccessUpdates):
 * a deduplicating batch that does what one-at-a-time updates would do.
 */
module CacheAccessBatch {
  import opened CacheTable

  const FLUSH_AT: nat := 250

  function Composite(k: Key): string {
    k.store + "|" + k.key
  }

  /** Applying updates one by one, in order. */
  function ApplyAll(t: Table, us: seq<Update>): (r: Table)
    ensures r.Keys == t.Keys
  {
    if us == [] then t
    else Touch(ApplyAll(t, us[..|us|-1]), us[|us|-1].Target(), us[|us|-1].accessedAt)
  }

  /** The table after a batch has been written, in whatever order. */
  function Flushed(t: Table, pending: map<string, Update>): Table {
    map k | k in t ::
      if Composite(k) in pending && pending[Composite(k)].Target() == k
      then t[k].(accessedAt := pending[Composite(k)].accessedAt) else t[k]
  }

  /** Every batch entry is filed under its own composite key. */
  predicate Filed(pending: map<string, Update>) {
    forall c | c in pending :: Composite(pending[c].Target()) == c
  }

  /** No two updates for different rows share a composite key. */
  predicate NoCollision(us: seq<Update>) {
    forall i, j | 0 <= i < |us| && 0 <= j < |us| && Composite(us[i].Target()) == Composite(us[j].Target()) ::
      us[i].Target() == us[j].Target()
  }

  /** In a separator-free store name the first separator ends the store. */
  lemma FirstSeparator(k: Key)
    requires '|' !in k.store
    ensures var s, n := Composite(k), |k.store|;
      && n < |s| && s[n] == '|' && (forall i | 0 <= i < n :: s[i] != '|')
      && k.store == s[..n] && k.key == s[n + 1..]
  {
  }

  /** Store names without the separator never collide. */
  lemma CompositeInjective(a: Key, b: Key)
    requires '|' !in a.store && '|' !in b.store && Composite(a) == Composite(b)
    ensures a == b
  {
    FirstSeparator(a);
    FirstSeparator(b);
    assert |a.store| == |b.store|;
  }

  lemma SeparatorFreeNamesDoNotCollide(us: seq<Update>)
    requires forall u | u in us :: '|' !in u.store
    ensures NoCollision(us)
  {
    forall i, j | 0 <= i < |us| && 0 <= j < |us| && Composite(us[i].Target()) == Composite(us[j].Target())
      ensures us[i].Target() == us[j].Target()
    {
      CompositeInjective(us[i].Target(), us[j].Target());
    }
  }

  /** flushAccessUpdates: one UPDATE per entry, in any order. */
  method FlushAccessUpdates(t: Table, pending: map<string, Update>) returns (rows: Table)
    requires Filed(pending)
    ensures rows == Flushed(t, pending)
  {
    rows := t;
    var todo := pending.Keys;
    while todo != {}
      invariant todo <= pending.Keys
      invariant rows == Flushed(t, pending - todo)
      decreases todo
    {
      var c :| c in todo;
      ghost var before := pending - todo;
      todo := todo - {c};
      FlushOneMore(t, before, c, pending[c]);
      assert pending - todo == before[c := pending[c]];
      rows := Touch(rows, pending[c].Target(), pending[c].accessedAt);
    }
    assert pending - todo == pending;
  }

  lemma FlushOneMore(t: Table, pending: map<string, Update>, c: string, u: Update)
    requires Filed(pending) && Composite(u.Target()) == c
    requires c in pending ==> pending[c].Target() == u.Target()
    ensures Touch(Flushed(t, pending), u.Target(), u.accessedAt) == Flushed(t, pending[c := u])
  {
    var a, b := Touch(Flushed(t, pending), u.Target(), u.accessedAt), Flushed(t, pending[c := u]);
    assert a.Keys == b.Keys;
    forall k | k in t
      ensures a[k] == b[k]
    {
    }
  }

  /** What wakes the loop: an update from the channel, or its timer. */
  datatype Wake = Take(update: Update) | TimerFired

  /** The updates taken from the channel, in order. */
  function Taken(wakes: seq<Wake>): seq<Update> {
    if wakes == [] then []
    else Taken(wakes[..|wakes|-1]) + (if wakes[|wakes|-1].Take? then [wakes[|wakes|-1].update] else [])
  }

  lemma ApplyAllSnoc(t: Table, us: seq<Update>, u: Update)
    ensures ApplyAll(t, us + [u]) == Touch(ApplyAll(t, us), u.Target(), u.accessedAt)
  {
    assert (us + [u])[..|us|] == us;
  }

  /** Every entry of the batch is one of the updates taken, filed under its composite key. */
  predicate FromTaken(pending: map<string, Update>, us: seq<Update>) {
    Filed(pending) && forall c | c in pending :: pending[c] in us
  }

  lemma BatchOne(t: Table, t0: Table, pending: map<string, Update>, us: seq<Update>, u: Update)
    requires FromTaken(pending, us) && NoCollision(us + [u]) && Flushed(t, pending) == ApplyAll(t0, us)
    ensures var c := Composite(u.Target());
      FromTaken(pending[c := u], us + [u]) && Flushed(t, pending[c := u]) == ApplyAll(t0, us + [u])
  {
    var c := Composite(u.Target());
    if c in pending {
      var i :| 0 <= i < |us| && us[i] == pending[c];
      assert (us + [u])[i] == pending[c] && (us + [u])[|us|] == u;
    }
    FlushOneMore(t, pending, c, u);
    ApplyAllSnoc(t0, us, u);
  }

  lemma FlushedNothing(t: Table)
    ensures Flushed(t, map[]) == t
  {
  }

  lemma NoCollisionPrefix(us: seq<Update>, vs: seq<Update>)
    requires us <= vs && NoCollision(vs)
    ensures NoCollision(us)
  {
    forall i, j | 0 <= i < |us| && 0 <= j < |us| && Composite(us[i].Target()) == Composite(us[j].Target())
      ensures us[i].Target() == us[j].Target()
    {
      assert vs[i] == us[i] && vs[j] == us[j];
    }
  }

  /** What the loop holds when it waits for the next wake-up, and the rows. */
  datatype LoopState = LoopState(rows: Table, pending: map<string, Update>, timerArmed: bool)

  /** One wake-up.  A timer that is not armed is a nil channel and never wakes the loop. */
  function LoopStep(l: LoopState, w: Wake): LoopState {
    match w
    case Take(u) =>
      var pending := l.pending[Composite(u.Target()) := u];
      if |pending| >= FLUSH_AT then LoopState(Flushed(l.rows, pending), map[], false)
      else LoopState(l.rows, pending, true)
    case TimerFired =>
      if l.timerArmed then LoopState(Flushed(l.rows, l.pending), map[], false) else l
  }

  /** The state after some wake-ups. */
  function LoopAfter(t0: Table, wakes: seq<Wake>): LoopState {
    if wakes == [] then LoopState(t0, map[], false)
    else LoopStep(LoopAfter(t0, wakes[..|wakes|-1]), wakes[|wakes|-1])
  }

  lemma LoopSnoc(t0: Table, wakes: seq<Wake>, n: nat)
    requires n < |wakes|
    ensures LoopAfter(t0, wakes[..n + 1]) == LoopStep(LoopAfter(t0, wakes[..n]), wakes[n])
  {
    assert wakes[..n + 1][..n] == wakes[..n];
  }

  /**
   * Whatever has woken the loop so far: fewer updates wait than make a flush, each under
   * its own composite key, and the timer is armed exactly when one does.
   */
  lemma {:induction false} TimerArmedIffPending(t0: Table, wakes: seq<Wake>)
    ensures var l := LoopAfter(t0, wakes);
      |l.pending| < FLUSH_AT && (l.timerArmed <==> l.pending != map[]) && Filed(l.pending)
  {
    if wakes != [] {
      TimerArmedIffPending(t0, wakes[..|wakes|-1]);
    }
  }

  /** The rows and the batch together are what the updates taken so far amount to. */
  predicate Amounts(l: LoopState, t0: Table, us: seq<Update>) {
    FromTaken(l.pending, us) && Flushed(l.rows, l.pending) == ApplyAll(t0, us)
  }

  lemma FlushAmounts(t: Table, pending: map<string, Update>, t0: Table, us: seq<Update>)
    requires Flushed(t, pending) == ApplyAll(t0, us)
    ensures Amounts(LoopState(Flushed(t, pending), map[], false), t0, us)
  {
    FlushedNothing(Flushed(t, pending));
  }

  lemma TakeAmounts(l: LoopState, t0: Table, us: seq<Update>, u: Update)
    requires Amounts(l, t0, us) && NoCollision(us + [u])
    ensures Amounts(LoopStep(l, Take(u)), t0, us + [u])
  {
    BatchOne(l.rows, t0, l.pending, us, u);
    FlushAmounts(l.rows, l.pending[Composite(u.Target()) := u], t0, us + [u]);
  }

  lemma {:induction false} LoopIsOneByOne(t0: Table, wakes: seq<Wake>)
    requires NoCollision(Taken(wakes))
    ensures Amounts(LoopAfter(t0, wakes), t0, Taken(wakes))
  {
    if wakes == [] {
      FlushedNothing(t0);
    } else {
      var front, last := wakes[..|wakes|-1], wakes[|wakes|-1];
      NoCollisionPrefix(Taken(front), Taken(wakes));
      LoopIsOneByOne(t0, front);
      if last.Take? {
        TakeAmounts(LoopAfter(t0, front), t0, Taken(front), last.update);
      } else {
        assert Taken(wakes) == Taken(front);
        FlushAmounts(LoopAfter(t0, front).rows, LoopAfter(t0, front).pending, t0, Taken(front));
      }
    }
  }

  /**
   * accessUpdateLoop until shutdown, with no other writer of the rows: for any wake-ups,
   * any flush boundaries they cause and any order of writing a batch, the table ends as
   * if every update taken from the channel had been applied by itself, in order, unless
   * two of them collide; in any case as the specified states say.
   */
  method AccessUpdateLoop(t0: Table, wakes: seq<Wake>) returns (rows: Table)
    ensures var l := LoopAfter(t0, wakes); rows == Flushed(l.rows, l.pending)
    ensures NoCollision(Taken(wakes)) ==> rows == ApplyAll(t0, Taken(wakes))
  {
    rows := t0;
    var pending: map<string, Update> := map[];
    var timerArmed := false;
    for n := 0 to |wakes|
      invariant LoopState(rows, pending, timerArmed) == LoopAfter(t0, wakes[..n])
    {
      LoopSnoc(t0, wakes, n);
      TimerArmedIffPending(t0, wakes[..n]);
      match wakes[n]
      case Take(u) =>
        pending := pending[Composite(u.Target()) := u];
        if !timerArmed {
          timerArmed := true;
        }
        if |pending| >= FLUSH_AT {
          rows := FlushAccessUpdates(rows, pending);
          pending := map[];
          timerArmed := false;
        }
      case TimerFired =>
        if timerArmed {
          if |pending| > 0 {
            rows := FlushAccessUpdates(rows, pending);
            pending := map[];
          }
          timerArmed := false;
        }
    }
    assert wakes[..|wakes|] == wakes;
    TimerArmedIffPending(t0, wakes);
    rows := FlushAccessUpdates(rows, pending);
    if NoCollision(Taken(wakes)) {
      LoopIsOneByOne(t0, wakes);
    }
  }

  /** The batch after some updates and no flush: the last update per composite key. */
  function Batch(us: seq<Update>): map<string, Update> {
    if us == [] then map[]
    else Batch(us[..|us|-1])[Composite(us[|us|-1].Target()) := us[|us|-1]]
  }

  lemma {:induction false} BatchIsOneByOne(t: Table, us: seq<Update>)
    requires NoCollision(us)
    ensures FromTaken(Batch(us), us) && Flushed(t, Batch(us)) == ApplyAll(t, us)
  {
    if us == [] {
      FlushedNothing(t);
    } else {
      var front := us[..|us|-1];
      assert us == front + [us[|us|-1]];
      NoCollisionPrefix(front, us);
      BatchIsOneByOne(t, front);
      BatchOne(t, t, Batch(front), front, us[|us|-1]);
    }
  }

  /** A row that some update targets ends with a time that does not depend on its old one. */
  lemma {:induction false} UpdatesDecide(t: Table, u: Table, us: seq<Update>, i: nat)
    requires i < |us| && us[i].Target() in t && us[i].Target() in u
    ensures ApplyAll(t, us)[us[i].Target()].accessedAt == ApplyAll(u, us)[us[i].Target()].accessedAt
  {
    if us[|us|-1].Target() != us[i].Target() {
      UpdatesDecide(t, u, us[..|us|-1], i);
    }
  }

  /** The update of a row whose composite key the batch gives to another row has no effect. */
  lemma OtherEntryWins(t: Table, pending: map<string, Update>, k: Key)
    requires k in t && Composite(k) in pending && pending[Composite(k)].Target() != k
    ensures Flushed(t, pending)[k] == t[k]
  {
  }

  lemma {:induction false} BatchHas(us: seq<Update>, i: nat)
    requires i < |us|
    ensures Composite(us[i].Target()) in Batch(us)
  {
    if i < |us| - 1 {
      BatchHas(us[..|us|-1], i);
    }
  }

  /**
   * Exactly when deduplication is harmless: flushing the batch equals applying the
   * updates one by one, on every table, if and only if no two of them collide.
   */
  lemma BatchHarmlessIffNoCollision(us: seq<Update>)
    ensures (forall t: Table :: Flushed(t, Batch(us)) == ApplyAll(t, us)) <==> NoCollision(us)
  {
    if NoCollision(us) {
      forall t: Table
        ensures Flushed(t, Batch(us)) == ApplyAll(t, us)
      {
        BatchIsOneByOne(t, us);
      }
    } else {
      var i, j :| 0 <= i < |us| && 0 <= j < |us|
        && Composite(us[i].Target()) == Composite(us[j].Target()) && us[i].Target() != us[j].Target();
      BatchHas(us, i);
      var loser := if Batch(us)[Composite(us[i].Target())].Target() == us[i].Target() then j else i;
      var k := us[loser].Target();
      var t, u: Table := map[k := Row([], 0, 0, 0)], map[k := Row([], 0, 1, 0)];
      OtherEntryWins(t, Batch(us), k);
      OtherEntryWins(u, Batch(us), k);
      UpdatesDecide(t, u, us, loser);
      assert Flushed(t, Batch(us)) != ApplyAll(t, us) || Flushed(u, Batch(us)) != ApplyAll(u, us);
    }
  }

  /** With the separator in a store name two rows can share an entry, and one update is lost. */
  lemma CollisionLosesUpdate()
    ensures var a, b := Update("a|b", "c", 5), Update("a", "b|c", 7);
      var t := map[a.Target() := Row([], 0, 0, 0), b.Target() := Row([], 0, 0, 0)];
      && Composite(a.Target()) == Composite(b.Target()) && a.Target() in t
      && ApplyAll(t, [a, b])[a.Target()].accessedAt == 5
      && Flushed(t, map[Composite(a.Target()) := a][Composite(b.Target()) := b])[a.Target()].accessedAt == 0
  {
    var a, b := Update("a|b", "c", 5), Update("a", "b|c", 7);
    var t := map[a.Target() := Row([], 0, 0, 0), b.Target() := Row([], 0, 0, 0)];
    assert Composite(a.Target()) == "a|b|c" == Composite(b.Target());
    ApplyAllSnoc(t, [], a);
    ApplyAllSnoc(t, [a], b);
    assert [] + [a] == [a] && [a] + [b] == [a, b];
    assert a.Target() != b.Target() by {
      assert |a.store| != |b.store|;
    }
  }
}
