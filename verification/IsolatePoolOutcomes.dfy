/**
 * How each request of the pool ends, read off the events alone: the first event for its
 * id after it was sent decides, and every later one is without effect.
 */
module IsolatePoolOutcomes {
  import opened Basics
  import opened IsolatePool
  import Sums

  /** How an event would settle the request `id`. */
  function Verdict(e: Event, id: nat): Option<Outcome> {
    match e
    case Send => None
    case Response(i) => if i == id then Some(Answered) else None
    case ErrorResponse(i) => if i == id then Some(Errored) else None
    case Timeout(i) => if i == id then Some(TimedOut) else None
  }

  /** How many requests the events send; ids are given out in that order. */
  function Sends(events: seq<Event>): nat {
    if events == [] then 0 else Sends(events[..|events|-1]) + (if events[|events|-1].Send? then 1 else 0)
  }

  /** Event `k` is for the request `id`, which has been sent by then, and speaks for `o`. */
  predicate Speaks(events: seq<Event>, id: nat, k: nat, o: Outcome) {
    k < |events| && Verdict(events[k], id) == Some(o) && id < Sends(events[..k])
  }

  /** Event `k` is the first for the request since it was sent. */
  ghost predicate Decides(events: seq<Event>, id: nat, k: nat, o: Outcome) {
    Speaks(events, id, k, o) && forall j: nat, q: Outcome | j < k :: !Speaks(events, id, j, q)
  }

  /** The outcome so far, event by event. */
  function Settled(events: seq<Event>, id: nat): Option<Outcome> {
    if events == [] then None
    else
      var front := events[..|events|-1];
      if Settled(front, id).Some? then Settled(front, id)
      else if id < Sends(front) then Verdict(events[|events|-1], id)
      else None
  }

  lemma {:induction false} SettledMeansDecided(events: seq<Event>, id: nat)
    ensures Settled(events, id).None? ==> forall k: nat, o: Outcome :: !Speaks(events, id, k, o)
    ensures Settled(events, id).Some? ==> exists k: nat :: Decides(events, id, k, Settled(events, id).value)
  {
    if events != [] {
      var n := |events| - 1;
      var front := events[..n];
      SettledMeansDecided(front, id);
      forall k: nat, o: Outcome | k < n
        ensures Speaks(events, id, k, o) <==> Speaks(front, id, k, o)
      {
        assert events[..k] == front[..k];
      }
      if Settled(front, id).Some? {
        var k: nat :| Decides(front, id, k, Settled(front, id).value);
        assert Decides(events, id, k, Settled(events, id).value);
      } else if Settled(events, id).Some? {
        assert Speaks(events, id, n, Settled(events, id).value);
        assert Decides(events, id, n, Settled(events, id).value);
      }
    }
  }

  lemma DecidedOnce(events: seq<Event>, id: nat, j: nat, o: Outcome, k: nat, q: Outcome)
    requires Decides(events, id, j, o) && Decides(events, id, k, q)
    ensures j == k && o == q
  {
  }

  /** What the pool has recorded of every request agrees with the events. */
  predicate Agrees(p: Pool, events: seq<Event>) {
    && p.nextId == Sends(events)
    && (forall id: nat | id < p.nextId :: id in p.outcomes
          && p.outcomes[id] == if Settled(events, id).Some? then [Settled(events, id).value] else [])
  }

  lemma SendsSnoc(events: seq<Event>, e: Event)
    ensures Sends(events + [e]) == Sends(events) + (if e.Send? then 1 else 0)
    ensures forall id: nat ::
      Settled(events + [e], id) ==
        if Settled(events, id).Some? then Settled(events, id)
        else if id < Sends(events) then Verdict(e, id) else None
  {
    assert (events + [e])[..|events|] == events;
  }

  /** Nothing is settled that has not been sent. */
  lemma {:induction false} UnsentIsOpen(events: seq<Event>, id: nat)
    requires id >= Sends(events)
    ensures Settled(events, id).None?
  {
    if events != [] {
      UnsentIsOpen(events[..|events|-1], id);
    }
  }

  lemma AgreesAfter(p: Pool, past: seq<Event>, e: Event)
    requires Inv(p) && Agrees(p, past) && Enabled(p, e)
    ensures Agrees(Do(p, e), past + [e])
  {
    var n := Do(p, e);
    SendsSnoc(past, e);
    UnsentIsOpen(past, p.nextId);
    forall id: nat | id < n.nextId
      ensures id in n.outcomes
      ensures n.outcomes[id] == if Settled(past + [e], id).Some? then [Settled(past + [e], id).value] else []
    {
      OutcomeAfter(p, e, id);
    }
  }

  /** The one outcome that an event can add. */
  lemma OutcomeAfter(p: Pool, e: Event, id: nat)
    requires Recorded(p) && Enabled(p, e) && id < Do(p, e).nextId
    ensures var n := Do(p, e);
      && id in n.outcomes
      && n.outcomes[id] ==
           if id == p.nextId then []
           else if Verdict(e, id).Some? && p.outcomes[id] == [] then [Verdict(e, id).value]
           else p.outcomes[id]
  {
  }

  /** The last event of a run. */
  lemma {:induction false} ExecLast(p: Pool, events: seq<Event>)
    requires events != [] && Exec(p, events).Some?
    ensures var front, last := events[..|events|-1], events[|events|-1];
      Exec(p, front).Some? && Enabled(Exec(p, front).value, last) && Exec(p, events).value == Do(Exec(p, front).value, last)
    decreases |events|
  {
    if |events| > 1 {
      ExecLast(Do(p, events[0]), events[1..]);
      assert events[1..][..|events|-2] == events[..|events|-1][1..];
    }
  }

  lemma FreshAgrees(n: nat)
    ensures Inv(Fresh(n)) && Agrees(Fresh(n), []) && Tallied(Fresh(n), [])
  {
    FreshInv(n);
    Sums.SumZero(Completeds(Fresh(n).workers));
  }

  lemma OneMore(p: Pool, past: seq<Event>, e: Event, q: Pool, events: seq<Event>)
    requires Inv(p) && Agrees(p, past) && Tallied(p, past) && Enabled(p, e)
    requires q == Do(p, e) && events == past + [e]
    ensures Inv(q) && Agrees(q, events) && Tallied(q, events)
  {
    StepInv(p, e);
    AgreesAfter(p, past, e);
    TalliedAfter(p, past, e);
  }

  lemma {:induction false} RunAgrees(n: nat, events: seq<Event>)
    requires Exec(Fresh(n), events).Some?
    ensures var p := Exec(Fresh(n), events).value; Inv(p) && Agrees(p, events) && Tallied(p, events)
  {
    if events == [] {
      FreshAgrees(n);
    } else {
      var front, last := events[..|events|-1], events[|events|-1];
      ExecLast(Fresh(n), events);
      RunAgrees(n, front);
      OneMore(Exec(Fresh(n), front).value, front, last, Exec(Fresh(n), events).value, events);
    }
  }

  /**
   * For every list of events: a request ends as answered, with an error or timed out
   * exactly when the first event for its id after it was sent is a response, an error
   * response or its time-out; until then it is open; and a reset ends it as shut down
   * exactly when it is still open.
   */
  lemma FirstEventDecides(n: nat, events: seq<Event>, id: nat, o: Outcome)
    requires Exec(Fresh(n), events).Some? && id < Exec(Fresh(n), events).value.nextId
    ensures var p := Exec(Fresh(n), events).value;
      && id in p.outcomes && id in Reset(p).outcomes
      && (p.outcomes[id] == [o] <==> exists k: nat :: Decides(events, id, k, o))
      && (id in p.requests <==> forall k: nat, q: Outcome :: !Speaks(events, id, k, q))
      && (Reset(p).outcomes[id] == [ShutDown] <==> id in p.requests)
  {
    RunAgrees(n, events);
    SettledMeansDecided(events, id);
    var p := Exec(Fresh(n), events).value;
    if Settled(events, id).Some? {
      var k: nat :| Decides(events, id, k, Settled(events, id).value);
      forall j: nat, q: Outcome | Decides(events, id, j, q)
        ensures q == Settled(events, id).value
      {
        DecidedOnce(events, id, j, q, k, Settled(events, id).value);
      }
      NeverByEvent(events, id, k, Settled(events, id).value);
    }
  }

  /** No event shuts a request down. */
  lemma NeverByEvent(events: seq<Event>, id: nat, k: nat, o: Outcome)
    requires Speaks(events, id, k, o)
    ensures o != ShutDown
  {
  }

  // ----- the counters of completed requests -----

  function Completeds(ws: seq<Worker>): (r: seq<nat>)
    ensures |r| == |ws| && forall i | 0 <= i < |ws| :: r[i] == ws[i].completed
  {
    if ws == [] then [] else Completeds(ws[..|ws|-1]) + [ws[|ws|-1].completed]
  }

  /** How many of the requests before `n` were answered or failed, time-outs aside. */
  function Replies(events: seq<Event>, n: nat): nat {
    if n == 0 then 0
    else
      Replies(events, n - 1) +
      (if Settled(events, n - 1) == Some(Answered) || Settled(events, n - 1) == Some(Errored) then 1 else 0)
  }

  lemma {:induction false} RepliesStep(past: seq<Event>, e: Event, n: nat)
    requires n <= Sends(past)
    ensures Replies(past + [e], n) == Replies(past, n) +
      (if (e.Response? || e.ErrorResponse?) && e.id < n && Settled(past, e.id).None? then 1 else 0)
  {
    SendsSnoc(past, e);
    if n > 0 {
      RepliesStep(past, e, n - 1);
    }
  }

  /** The counters of the workers add up to the replies. */
  predicate Tallied(p: Pool, events: seq<Event>) {
    Sums.Sum(Completeds(p.workers)) == Replies(events, Sends(events))
  }

  lemma CompletedsMove(ws: seq<Worker>, w: nat, x: Worker)
    requires w < |ws|
    ensures Sums.Sum(Completeds(ws[w := x])) + ws[w].completed == Sums.Sum(Completeds(ws)) + x.completed
  {
    assert Completeds(ws[w := x]) == Completeds(ws)[w := x.completed];
    Sums.SumUpdate(Completeds(ws), w, x.completed);
  }

  lemma SendTally(p: Pool)
    requires p.workers != []
    ensures Sums.Sum(Completeds(SendRequest(p).workers)) == Sums.Sum(Completeds(p.workers))
  {
    TallyAt(p.workers, SendRequest(p).workers, Least(p.workers, |p.workers|), 0);
  }

  lemma TallyAt(ws: seq<Worker>, vs: seq<Worker>, w: nat, completes: nat)
    requires w < |ws| == |vs| && vs == ws[w := vs[w]] && vs[w].completed == ws[w].completed + completes
    ensures Sums.Sum(Completeds(vs)) == Sums.Sum(Completeds(ws)) + completes
  {
    CompletedsMove(ws, w, vs[w]);
  }

  lemma ReleaseTally(p: Pool, id: nat, completes: nat)
    requires id in p.workerOf && p.workerOf[id] < |p.workers|
    ensures Sums.Sum(Completeds(Release(p, id, completes).workers)) == Sums.Sum(Completeds(p.workers)) + completes
  {
    TallyAt(p.workers, Release(p, id, completes).workers, p.workerOf[id], completes);
  }

  /** What an event adds to the counters. */
  lemma TallyMoves(p: Pool, e: Event)
    requires Recorded(p) && Enabled(p, e)
    ensures Sums.Sum(Completeds(Do(p, e).workers)) == Sums.Sum(Completeds(p.workers)) +
      (if (e.Response? || e.ErrorResponse?) && e.id in p.requests then 1 else 0)
  {
    if e.Send? {
      SendTally(p);
    } else if e.id in p.workerOf {
      ReleaseTally(p, e.id, if e.Timeout? then 0 else 1);
    }
  }

  lemma TalliedAfter(p: Pool, past: seq<Event>, e: Event)
    requires Recorded(p) && Agrees(p, past) && Tallied(p, past) && Enabled(p, e)
    ensures Tallied(Do(p, e), past + [e])
  {
    TallyMoves(p, e);
    RepliesGrow(past, e);
    if !e.Send? {
      OpenIffUnsettled(p, past, e.id);
    }
  }

  lemma OpenIffUnsettled(p: Pool, past: seq<Event>, id: nat)
    requires Recorded(p) && Agrees(p, past)
    ensures id in p.requests <==> id < Sends(past) && Settled(past, id).None?
  {
    if id < p.nextId {
      assert |p.outcomes[id]| == (if id in p.requests then 0 else 1);
    }
  }

  lemma RepliesGrow(past: seq<Event>, e: Event)
    ensures Replies(past + [e], Sends(past + [e])) == Replies(past, Sends(past)) +
      (if (e.Response? || e.ErrorResponse?) && e.id < Sends(past) && Settled(past, e.id).None? then 1 else 0)
  {
    SendsSnoc(past, e);
    RepliesStep(past, e, Sends(past));
    if e.Send? {
      UnsentIsOpen(past, Sends(past));
    }
  }

  /** The workers' counters of completed requests add up to the answers and errors, time-outs and late replies aside. */
  lemma CompletedCountsReplies(n: nat, events: seq<Event>)
    requires Exec(Fresh(n), events).Some?
    ensures Sums.Sum(Completeds(Exec(Fresh(n), events).value.workers)) == Replies(events, Sends(events))
  {
    RunAgrees(n, events);
  }
}
