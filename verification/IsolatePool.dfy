/**
 * The pool of worker isolates (lib/synurang.dart, _CoreIsolateManager): least-pending
 * scheduling and the bookkeeping of requests, one event of the main isolate at a time,
 * from the moment the pool is up until it is reset.
 */
module IsolatePool {
  import opened Basics
  import Sums

  datatype Worker = Worker(pending: int, completed: nat)

  datatype Outcome = Answered | Errored | TimedOut | ShutDown

  /**
   * `requests` are the ids with an open completer, `workerOf` maps ids to workers.
   * History: `outcomes` lists, per id, how its completer was completed; `peak` is the
   * largest number of requests ever in flight.
   */
  datatype Pool = Pool(
    requests: set<nat>, workerOf: map<nat, nat>, workers: seq<Worker>, nextId: nat,
    outcomes: map<nat, seq<Outcome>>, peak: nat)

  datatype Event = Send | Response(id: nat) | ErrorResponse(id: nat) | Timeout(id: nat)

  /** The first of the workers before `n` that has the fewest pending requests. */
  function Least(ws: seq<Worker>, n: nat): (r: nat)
    requires 0 < n <= |ws|
    ensures r < n
  {
    if n == 1 then 0
    else
      var best := Least(ws, n - 1);
      if ws[n - 1].pending < ws[best].pending then n - 1 else best
  }

  lemma {:induction false} LeastIsLeast(ws: seq<Worker>, n: nat)
    requires 0 < n <= |ws|
    ensures forall i | 0 <= i < n :: ws[Least(ws, n)].pending <= ws[i].pending
    ensures forall i | 0 <= i < Least(ws, n) :: ws[Least(ws, n)].pending < ws[i].pending
  {
    if n > 1 {
      LeastIsLeast(ws, n - 1);
    }
  }

  function SendRequest(p: Pool): Pool
    requires p.workers != []
  {
    var w := Least(p.workers, |p.workers|);
    var requests := p.requests + {p.nextId};
    Pool(requests, p.workerOf[p.nextId := w],
         p.workers[w := p.workers[w].(pending := p.workers[w].pending + 1)], p.nextId + 1,
         p.outcomes[p.nextId := []], if |requests| > p.peak then |requests| else p.peak)
  }

  /** _updateWorkerStats, and the part of the time-out that does the same without counting a completion. */
  function Release(p: Pool, id: nat, completes: nat): Pool {
    if id !in p.workerOf then p
    else
      var w := p.workerOf[id];
      p.(workerOf := p.workerOf - {id},
         workers := if w < |p.workers|
                    then p.workers[w := Worker(p.workers[w].pending - 1, p.workers[w].completed + completes)]
                    else p.workers)
  }

  /** Removes the completer of `id` and completes it, if there is one. */
  function Settle(p: Pool, id: nat, o: Outcome): Pool {
    if id in p.requests && id in p.outcomes
    then p.(requests := p.requests - {id}, outcomes := p.outcomes[id := p.outcomes[id] + [o]])
    else p.(requests := p.requests - {id})
  }

  /** A time-out can only strike a request whose future is not completed. */
  predicate Enabled(p: Pool, e: Event) {
    p.workers != [] && (e.Timeout? ==> e.id in p.requests)
  }

  function Do(p: Pool, e: Event): Pool
    requires Enabled(p, e)
  {
    match e
    case Send => SendRequest(p)
    case Response(id) => Settle(Release(p, id, 1), id, Answered)
    case ErrorResponse(id) => Settle(Release(p, id, 1), id, Errored)
    case Timeout(id) => Settle(Release(p, id, 0), id, TimedOut)
  }

  function Exec(p: Pool, events: seq<Event>): Option<Pool>
    decreases |events|
  {
    if events == [] then Some(p)
    else if Enabled(p, events[0]) then Exec(Do(p, events[0]), events[1..])
    else None
  }

  /** reset: every open completer is completed with a shut-down error; the pool is gone. */
  function Reset(p: Pool): Pool {
    Pool({}, map[], [], 0,
         map id | id in p.outcomes :: if id in p.requests then p.outcomes[id] + [ShutDown] else p.outcomes[id],
         p.peak)
  }

  /** A pool of `n` workers that has just come up. */
  function Fresh(n: nat): Pool {
    Pool({}, map[], seq(n, _ => Worker(0, 0)), 0, map[], 0)
  }

  // ----- accounting -----

  /** The ids that worker `w` is working on. */
  function IdsOf(p: Pool, w: nat): set<nat> {
    set id | id in p.workerOf && p.workerOf[id] == w
  }

  function Pendings(ws: seq<Worker>): (r: seq<nat>)
    requires forall i | 0 <= i < |ws| :: ws[i].pending >= 0
    ensures |r| == |ws| && forall i | 0 <= i < |ws| :: r[i] == ws[i].pending
  {
    if ws == [] then [] else Pendings(ws[..|ws|-1]) + [ws[|ws|-1].pending]
  }

  /** Each worker's count is the number of ids it works on. */
  predicate Counted(p: Pool) {
    forall w | 0 <= w < |p.workers| :: p.workers[w].pending == |IdsOf(p, w)|
  }

  /** Open requests are exactly the ones some worker has; every id issued is open or settled once. */
  predicate Recorded(p: Pool) {
    && p.requests == p.workerOf.Keys
    && (forall id | id in p.workerOf :: p.workerOf[id] < |p.workers| && id < p.nextId)
    && (forall id: nat | id < p.nextId :: id in p.outcomes && |p.outcomes[id]| == (if id in p.requests then 0 else 1))
    && (forall id | id in p.outcomes :: id < p.nextId)
  }

  predicate Accounted(p: Pool) {
    Recorded(p) && Counted(p)
  }

  /** The pending counts add up to the requests in flight, and none has more than its share of the peak. */
  predicate Balanced(p: Pool)
    requires forall i | 0 <= i < |p.workers| :: p.workers[i].pending >= 0
  {
    FairShares(Pendings(p.workers), |p.requests|, p.peak)
  }

  predicate FairShares(pendings: seq<nat>, inFlight: nat, peak: nat) {
    && inFlight <= peak && Sums.Sum(pendings) == inFlight
    && forall w | 0 <= w < |pendings| && pendings[w] > 0 :: Sums.Times(|pendings|, pendings[w] - 1) < peak
  }

  /** One more request, given to a worker that has the fewest. */
  lemma FairAfterSend(pendings: seq<nat>, inFlight: nat, peak: nat, w: nat)
    requires FairShares(pendings, inFlight, peak) && w < |pendings|
    requires forall i | 0 <= i < |pendings| :: pendings[w] <= pendings[i]
    ensures FairShares(pendings[w := pendings[w] + 1], inFlight + 1, if inFlight + 1 > peak then inFlight + 1 else peak)
  {
    Sums.SumUpdate(pendings, w, pendings[w] + 1);
    Sums.SumAtLeast(pendings, pendings[w]);
  }

  /** One request less. */
  lemma FairAfterSettle(pendings: seq<nat>, inFlight: nat, peak: nat, w: nat)
    requires FairShares(pendings, inFlight, peak) && w < |pendings| && pendings[w] > 0 && inFlight > 0
    ensures FairShares(pendings[w := pendings[w] - 1], inFlight - 1, peak)
  {
    Sums.SumUpdate(pendings, w, pendings[w] - 1);
    if pendings[w] > 1 {
      Sums.TimesMonotone(|pendings|, pendings[w] - 2, pendings[w] - 1);
    }
  }

  predicate Inv(p: Pool) {
    Accounted(p) && Balanced(p)
  }

  lemma FreshInv(n: nat)
    ensures Inv(Fresh(n))
  {
    var p := Fresh(n);
    forall w | 0 <= w < n
      ensures |IdsOf(p, w)| == 0
    {
      assert IdsOf(p, w) == {};
    }
    Sums.SumZero(Pendings(p.workers));
  }

  lemma RecordedAfterSend(p: Pool)
    requires Recorded(p) && p.workers != []
    ensures Recorded(SendRequest(p))
  {
    RecordedWithOne(p, SendRequest(p), Least(p.workers, |p.workers|));
  }

  /** A new request enters the maps. */
  lemma RecordedWithOne(p: Pool, n: Pool, w: nat)
    requires Recorded(p) && w < |p.workers| == |n.workers| && n.nextId == p.nextId + 1
    requires n.requests == p.requests + {p.nextId} && n.workerOf == p.workerOf[p.nextId := w]
    requires n.outcomes == p.outcomes[p.nextId := []]
    ensures Recorded(n)
  {
    assert n.workerOf.Keys == p.workerOf.Keys + {p.nextId};
    forall id: nat | id < n.nextId
      ensures id in n.outcomes && |n.outcomes[id]| == (if id in n.requests then 0 else 1)
    {
      if id != p.nextId {
        assert n.outcomes[id] == p.outcomes[id];
      }
    }
  }

  lemma SendAccounted(p: Pool)
    requires Accounted(p) && p.workers != []
    ensures Accounted(SendRequest(p))
  {
    RecordedAfterSend(p);
    forall v | 0 <= v < |p.workers|
      ensures SendRequest(p).workers[v].pending == |IdsOf(SendRequest(p), v)|
    {
      IdsAfterSend(p, v);
    }
  }

  lemma IdsAfterSend(p: Pool, v: nat)
    requires p.workers != [] && p.nextId !in p.workerOf && v < |p.workers|
    requires p.workers[v].pending == |IdsOf(p, v)|
    ensures SendRequest(p).workers[v].pending == |IdsOf(SendRequest(p), v)|
  {
    if v == Least(p.workers, |p.workers|) {
      assert IdsOf(SendRequest(p), v) == IdsOf(p, v) + {p.nextId};
    } else {
      assert IdsOf(SendRequest(p), v) == IdsOf(p, v);
    }
  }

  lemma SettleAccounted(p: Pool, id: nat, completes: nat, o: Outcome)
    requires Accounted(p)
    ensures Accounted(Settle(Release(p, id, completes), id, o))
  {
    if id in p.workerOf {
      var n := Settle(Release(p, id, completes), id, o);
      forall v | 0 <= v < |n.workers|
        ensures n.workers[v].pending == |IdsOf(n, v)|
      {
        if v == p.workerOf[id] {
          assert IdsOf(n, v) == IdsOf(p, v) - {id};
          assert id in IdsOf(p, v);
        } else {
          assert IdsOf(n, v) == IdsOf(p, v);
        }
      }
    }
  }

  lemma SizeWith(s: set<nat>, x: nat)
    ensures x !in s ==> |s + {x}| == |s| + 1
    ensures x in s ==> |s - {x}| + 1 == |s|
    ensures x !in s ==> s - {x} == s
  {
    if x in s {
      assert s == (s - {x}) + {x};
    }
  }

  lemma SendBalanced(p: Pool)
    requires p.workers != [] && p.nextId !in p.requests
    requires forall i | 0 <= i < |p.workers| :: p.workers[i].pending >= 0
    requires Balanced(p)
    ensures var n := SendRequest(p);
      (forall i | 0 <= i < |n.workers| :: n.workers[i].pending >= 0) && Balanced(n)
  {
    LeastIsLeast(p.workers, |p.workers|);
    var n, w, ps := SendRequest(p), Least(p.workers, |p.workers|), Pendings(p.workers);
    assert Pendings(n.workers) == ps[w := ps[w] + 1];
    SizeWith(p.requests, p.nextId);
    FairAfterSend(ps, |p.requests|, p.peak, w);
  }

  lemma SettleBalanced(p: Pool, id: nat, completes: nat, o: Outcome)
    requires Inv(p)
    requires Accounted(Settle(Release(p, id, completes), id, o))
    ensures Balanced(Settle(Release(p, id, completes), id, o))
  {
    var n := Settle(Release(p, id, completes), id, o);
    SizeWith(p.requests, id);
    if id in p.workerOf {
      var w, ps := p.workerOf[id], Pendings(p.workers);
      assert Pendings(n.workers) == ps[w := ps[w] - 1];
      FairAfterSettle(ps, |p.requests|, p.peak, w);
    } else {
      assert n == p;
    }
  }

  lemma StepInv(p: Pool, e: Event)
    requires Inv(p) && Enabled(p, e)
    ensures Inv(Do(p, e))
  {
    match e
    case Send => SendAccounted(p); SendBalanced(p);
    case Response(id) => SettleAccounted(p, id, 1, Answered); SettleBalanced(p, id, 1, Answered);
    case ErrorResponse(id) => SettleAccounted(p, id, 1, Errored); SettleBalanced(p, id, 1, Errored);
    case Timeout(id) => SettleAccounted(p, id, 0, TimedOut); SettleBalanced(p, id, 0, TimedOut);
  }

  lemma KeepsWorkers(p: Pool, e: Event)
    requires Enabled(p, e)
    ensures |Do(p, e).workers| == |p.workers|
  {
  }

  lemma {:induction false} ExecInv(p: Pool, events: seq<Event>)
    requires Inv(p) && Exec(p, events).Some?
    ensures Inv(Exec(p, events).value)
    ensures |Exec(p, events).value.workers| == |p.workers|
    decreases |events|
  {
    if events != [] {
      StepInv(p, events[0]);
      KeepsWorkers(p, events[0]);
      ExecInv(Do(p, events[0]), events[1..]);
    }
  }

  /** a/b rounded up. */
  function Ceil(a: nat, b: nat): nat
    requires b > 0
  {
    (a + b - 1) / b
  }

  lemma CeilBound(a: nat, b: nat, m: nat)
    requires b > 0 && b * m < a
    ensures m + 1 <= Ceil(a, b)
  {
    var q := Ceil(a, b);
    if q <= m {
      MulMonotone(b, q, m);
    }
  }

  lemma MulMonotone(b: nat, x: nat, y: nat)
    requires x <= y
    ensures b * x <= b * y
  {
  }

  /**
   * Under any mix of sends, responses, errors and time-outs no worker ever has more than
   * the peak number of in-flight requests divided by the number of workers, rounded up.
   */
  lemma LoadBound(n: nat, events: seq<Event>, w: nat)
    requires w < n && Exec(Fresh(n), events).Some?
    ensures var p := Exec(Fresh(n), events).value;
      w < |p.workers| && 0 <= p.workers[w].pending <= Ceil(p.peak, n)
  {
    FreshInv(n);
    ExecInv(Fresh(n), events);
    BoundOf(Exec(Fresh(n), events).value, w);
  }

  lemma BoundOf(p: Pool, w: nat)
    requires w < |p.workers| && forall i | 0 <= i < |p.workers| :: p.workers[i].pending >= 0
    requires Balanced(p)
    ensures p.workers[w].pending <= Ceil(p.peak, |p.workers|)
  {
    var ps := Pendings(p.workers);
    if ps[w] > 0 {
      Sums.TimesIsProduct(|ps|, ps[w] - 1);
      CeilBound(p.peak, |ps|, ps[w] - 1);
    }
  }

  function Max(a: nat, b: nat): nat {
    if a > b then a else b
  }

  /** The largest number of requests in flight from here on. */
  function MostInFlight(p: Pool, events: seq<Event>): nat
    requires Exec(p, events).Some?
    decreases |events|
  {
    Max(|p.requests|, if events == [] then 0 else MostInFlight(Do(p, events[0]), events[1..]))
  }

  /** `peak` is what it claims: the most requests in flight at any point of the run. */
  lemma PeakIsTheMaximum(n: nat, events: seq<Event>)
    requires Exec(Fresh(n), events).Some?
    ensures Exec(Fresh(n), events).value.peak == MostInFlight(Fresh(n), events)
  {
    FreshInv(n);
    PeakFrom(Fresh(n), events);
  }

  lemma {:induction false} PeakFrom(p: Pool, events: seq<Event>)
    requires Inv(p) && Exec(p, events).Some?
    ensures Exec(p, events).value.peak == Max(p.peak, MostInFlight(p, events))
    decreases |events|
  {
    if events != [] {
      var n := Do(p, events[0]);
      StepInv(p, events[0]);
      PeakStep(p, events[0]);
      PeakFrom(n, events[1..]);
    }
  }

  lemma PeakStep(p: Pool, e: Event)
    requires Inv(p) && Enabled(p, e)
    ensures Do(p, e).peak == Max(p.peak, |Do(p, e).requests|)
  {
    if !e.Send? {
      SizeWith(p.requests, e.id);
    }
  }

  /**
   * At every event boundary the completers and the assignments are for the same ids,
   * each worker's count is the number of ids assigned to it, and an id issued so far has
   * been settled once, or not at all while it is still open.
   */
  lemma PoolAccounting(n: nat, events: seq<Event>)
    requires Exec(Fresh(n), events).Some?
    ensures var p := Exec(Fresh(n), events).value;
      && p.requests == p.workerOf.Keys
      && (forall w | 0 <= w < |p.workers| :: p.workers[w].pending == |IdsOf(p, w)|)
      && (forall id: nat | id < p.nextId :: id in p.outcomes && |p.outcomes[id]| == (if id in p.requests then 0 else 1))
  {
    FreshInv(n);
    ExecInv(Fresh(n), events);
  }

  /** A response or error for a request that is already settled changes nothing. */
  lemma LateResponsesAreIgnored(n: nat, events: seq<Event>, id: nat)
    requires Exec(Fresh(n), events).Some? && id !in Exec(Fresh(n), events).value.requests && n > 0
    ensures var p := Exec(Fresh(n), events).value;
      && Enabled(p, Response(id)) && Do(p, Response(id)) == p
      && Enabled(p, ErrorResponse(id)) && Do(p, ErrorResponse(id)) == p
  {
    FreshInv(n);
    ExecInv(Fresh(n), events);
  }

  /** After a reset every request ever sent has been settled exactly once. */
  lemma ResetSettlesEverything(n: nat, events: seq<Event>, id: nat)
    requires Exec(Fresh(n), events).Some? && id < Exec(Fresh(n), events).value.nextId
    ensures var p := Exec(Fresh(n), events).value;
      && id in Reset(p).outcomes && |Reset(p).outcomes[id]| == 1
      && (id in p.requests ==> Reset(p).outcomes[id] == [ShutDown])
      && (id !in p.requests ==> Reset(p).outcomes[id] == p.outcomes[id])
  {
    FreshInv(n);
    ExecInv(Fresh(n), events);
  }

  // ----- the source's form -----

  /** The worker of a request has one pending request less. */
  function Freed(ws: seq<Worker>, workerOf: map<nat, nat>, id: nat, completes: nat): seq<Worker> {
    if id in workerOf && workerOf[id] < |ws| then
      ws[workerOf[id] := Worker(ws[workerOf[id]].pending - 1, ws[workerOf[id]].completed + completes)]
    else ws
  }

  class CoreIsolateManager {
    var requests: set<nat>
    var requestToWorker: map<nat, nat>
    var workers: seq<Worker>
    var nextRequestId: nat
    ghost var outcomes: map<nat, seq<Outcome>>
    ghost var peak: nat

    ghost function State(): Pool
      reads this
    {
      Pool(requests, requestToWorker, workers, nextRequestId, outcomes, peak)
    }

    constructor (poolSize: nat)
      ensures State() == Fresh(poolSize)
    {
      requests, requestToWorker, nextRequestId := {}, map[], 0;
      workers := seq(poolSize, _ => Worker(0, 0));
      outcomes, peak := map[], 0;
    }

    /** sendRequest up to the message to the worker. */
    method SendRequest() returns (id: nat, worker: nat)
      requires workers != []
      modifies this
      ensures State() == Do(old(State()), Send)
      ensures id == old(nextRequestId) && worker < |old(workers)|
      ensures forall i | 0 <= i < |old(workers)| :: old(workers)[worker].pending <= old(workers)[i].pending
    {
      id := nextRequestId;
      nextRequestId := nextRequestId + 1;
      requests := requests + {id};
      worker := 0;
      var i := 1;
      while i < |workers|
        invariant 1 <= i <= |workers| && worker < i && worker == Least(workers, i)
        invariant workers == old(workers) && requestToWorker == old(requestToWorker)
        invariant requests == old(requests) + {id} && id == old(nextRequestId) && nextRequestId == id + 1
        invariant outcomes == old(outcomes) && peak == old(peak)
      {
        if workers[i].pending < workers[worker].pending {
          worker := i;
        }
        i := i + 1;
      }
      LeastIsLeast(workers, |workers|);
      requestToWorker := requestToWorker[id := worker];
      workers := workers[worker := workers[worker].(pending := workers[worker].pending + 1)];
      outcomes := outcomes[id := []];
      peak := if |requests| > peak then |requests| else peak;
    }

    /** _updateWorkerStats. */
    method UpdateWorkerStats(id: nat)
      modifies this`requestToWorker, this`workers
      ensures State() == Release(old(State()), id, 1)
      ensures requestToWorker == old(requestToWorker) - {id}
      ensures workers == Freed(old(workers), old(requestToWorker), id, 1)
    {
      if id in requestToWorker {
        var w := requestToWorker[id];
        requestToWorker := requestToWorker - {id};
        if w < |workers| {
          workers := workers[w := Worker(workers[w].pending - 1, workers[w].completed + 1)];
        }
      }
    }

    method CompleteRequest(id: nat)
      requires workers != []
      modifies this
      ensures State() == Do(old(State()), Response(id))
      ensures requests == old(requests) - {id} && requestToWorker == old(requestToWorker) - {id}
      ensures workers == Freed(old(workers), old(requestToWorker), id, 1)
      ensures outcomes == if id in old(requests) && id in old(outcomes)
                          then old(outcomes)[id := old(outcomes)[id] + [Answered]] else old(outcomes)
    {
      UpdateWorkerStats(id);
      if id in requests && id in outcomes {
        outcomes := outcomes[id := outcomes[id] + [Answered]];
      }
      requests := requests - {id};
    }

    method CompleteError(id: nat)
      requires workers != []
      modifies this
      ensures State() == Do(old(State()), ErrorResponse(id))
      ensures requests == old(requests) - {id} && requestToWorker == old(requestToWorker) - {id}
      ensures workers == Freed(old(workers), old(requestToWorker), id, 1)
      ensures outcomes == if id in old(requests) && id in old(outcomes)
                          then old(outcomes)[id := old(outcomes)[id] + [Errored]] else old(outcomes)
    {
      UpdateWorkerStats(id);
      if id in requests && id in outcomes {
        outcomes := outcomes[id := outcomes[id] + [Errored]];
      }
      requests := requests - {id};
    }

    /** The time-out callback of sendRequest. */
    method OnTimeout(id: nat)
      requires workers != [] && id in requests
      modifies this
      ensures State() == Do(old(State()), Timeout(id))
      ensures requests == old(requests) - {id} && requestToWorker == old(requestToWorker) - {id}
      ensures workers == Freed(old(workers), old(requestToWorker), id, 0)
      ensures outcomes == if id in old(outcomes)
                          then old(outcomes)[id := old(outcomes)[id] + [TimedOut]] else old(outcomes)
    {
      if id in outcomes {
        outcomes := outcomes[id := outcomes[id] + [TimedOut]];
      }
      requests := requests - {id};
      if id in requestToWorker {
        var w := requestToWorker[id];
        requestToWorker := requestToWorker - {id};
        if w < |workers| {
          workers := workers[w := workers[w].(pending := workers[w].pending - 1)];
        }
      }
    }

    method Shutdown()
      modifies this
      ensures State() == Reset(old(State()))
      ensures requests == {} && requestToWorker == map[] && workers == [] && nextRequestId == 0
      ensures outcomes.Keys == old(outcomes).Keys
      ensures forall id | id in outcomes ::
        outcomes[id] == if id in old(requests) then old(outcomes)[id] + [ShutDown] else old(outcomes)[id]
    {
      outcomes := map id | id in outcomes :: if id in requests then outcomes[id] + [ShutDown] else outcomes[id];
      requests, requestToWorker, workers, nextRequestId := {}, map[], [], 0;
    }
  }
}
