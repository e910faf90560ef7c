/**
 * Safety of unloading, over every run of the plugin system: calls in flight, the
 * WaitGroup counter, and who closes which stream.
 */
module PluginSafety {
  import opened Basics
  import opened PluginServer
  import opened PluginHost
  import opened PluginSystem
  import Sums

  // ----- the WaitGroup counter -----

  /** How many Adds of the thread are not yet matched by a Done. */
  function Holds(pc: Thread): nat {
    match pc
    case Ready => 0
    case Starting(_) => 0
    case OpnLateAdded(_) => 2
    case OpnLateOut => 2
    case InCall(_, _, why) => if why.ForLateOpen? then 2 else 1
    case ClsLoop(_, _) => 0
    case ClsWait => 0
    case ClsUnload => 0
    case _ => 1
  }

  function Holdings(threads: seq<Thread>): (r: seq<nat>)
    ensures |r| == |threads| && forall i | 0 <= i < |threads| :: r[i] == Holds(threads[i])
  {
    if threads == [] then []
    else Holdings(threads[..|threads|-1]) + [Holds(threads[|threads|-1])]
  }

  predicate Counted(s: Sys) {
    s.host.wg == Sums.Sum(Holdings(s.threads))
  }

  lemma MoveCount(threads: seq<Thread>, t: nat, pc: Thread)
    requires t < |threads|
    ensures Sums.Sum(Holdings(threads[t := pc])) + Holds(threads[t]) == Sums.Sum(Holdings(threads)) + Holds(pc)
    ensures Holds(threads[t]) <= Sums.Sum(Holdings(threads))
  {
    assert Holdings(threads[t := pc]) == Holdings(threads)[t := Holds(pc)];
    Sums.SumUpdate(Holdings(threads), t, Holds(pc));
  }

  lemma AdvanceHolds(host: Host, lib: Library, pc: Thread, p: Pick, issue: nat, call: nat, next: CallPc)
    requires Releases(pc) ==> host.wg > 0
    ensures var (host', pc') := Advance(host, lib, pc, p, issue, call, next);
      host'.wg + Holds(pc) == host.wg + Holds(pc')
  {
  }

  lemma CountedThread(s: Sys, t: nat, p: Pick)
    requires Counted(s) && Enabled(s, Step(t, p))
    ensures Counted(StepOf(s, t, p))
  {
    AdvanceHolds(s.host, s.lib, s.threads[t], p, s.counter + 1, s.calls, NextCallPc(s, s.threads[t], p));
    CountedMove(s, StepOf(s, t, p), t);
  }

  lemma CountedStep(s: Sys, a: Act)
    requires Counted(s) && Enabled(s, a)
    ensures Counted(Do(s, a))
  {
    match a
    case Begin(t, _) => CountedMove(s, Do(s, a), t);
    case Step(t, p) => CountedThread(s, t, p);
    case Handler(_, _) =>
  }

  lemma CountedMove(s: Sys, n: Sys, t: nat)
    requires Counted(s) && t < |s.threads| == |n.threads| && n.threads == s.threads[t := n.threads[t]]
    requires n.host.wg + Holds(s.threads[t]) == s.host.wg + Holds(n.threads[t])
    ensures Counted(n)
  {
    MoveCount(s.threads, t, n.threads[t]);
  }

  // ----- one closer, and what the end of its wait means -----

  predicate IsCloser(pc: Thread) {
    || pc.ClsLoop? || pc.ClsAdded? || pc.ClsAfter? || pc.ClsWait? || pc.ClsUnload?
    || (pc.InCall? && pc.purpose.ForPluginClose?)
  }

  predicate OneCloser(s: Sys) {
    && (!s.host.closed ==> !s.drained && forall t | 0 <= t < |s.threads| :: !IsCloser(s.threads[t]))
    && (forall t, u | 0 <= t < |s.threads| && 0 <= u < |s.threads| ::
          IsCloser(s.threads[t]) && IsCloser(s.threads[u]) ==> t == u)
    && (s.drained ==> s.host.closed && s.host.wg == 0)
    && (forall t | 0 <= t < |s.threads| && IsCloser(s.threads[t]) :: s.drained <==> s.threads[t].ClsUnload?)
    && s.unloads == (if s.host.handle == 0 then 1 else 0)
    && (s.host.handle == 0 ==> s.drained && forall t | 0 <= t < |s.threads| :: !IsCloser(s.threads[t]))
  }

  /** Once the wait has passed no thread holds the WaitGroup. */
  lemma DrainedHoldsNothing(s: Sys, t: nat)
    requires Counted(s) && s.host.wg == 0 && t < |s.threads|
    ensures Holds(s.threads[t]) == 0
  {
    Sums.SumZero(Holdings(s.threads));
  }

  lemma AdvanceCloser(host: Host, lib: Library, pc: Thread, p: Pick, issue: nat, call: nat, next: CallPc)
    requires Releases(pc) ==> host.wg > 0
    ensures var (host', pc') := Advance(host, lib, pc, p, issue, call, next);
      && (host.closed ==> host'.closed)
      && (IsCloser(pc') ==> IsCloser(pc) || !host.closed)
      && (IsCloser(pc') ==> host'.closed || IsCloser(pc))
      && (host'.closed && !host.closed ==> pc'.ClsLoop?)
      && (IsCloser(pc) ==> IsCloser(pc') || pc.ClsUnload?)
      && (pc'.ClsUnload? <==> pc.ClsWait?)
      && (if pc.ClsUnload? then host' == host.(handle := 0) else host'.handle == host.handle)
      && (Holds(pc) == 0 && host.closed && !IsCloser(pc) ==> host' == host && pc' == Ready)
      && (pc.ClsWait? ==> host' == host) && (pc.ClsUnload? ==> pc' == Ready)
  {
  }

  lemma OneCloserStep(s: Sys, a: Act)
    requires Counted(s) && OneCloser(s) && Enabled(s, a)
    ensures OneCloser(Do(s, a))
  {
    if a.Step? {
      var pc := s.threads[a.t];
      AdvanceCloser(s.host, s.lib, pc, a.pick, s.counter + 1, s.calls, NextCallPc(s, pc, a.pick));
      CloserEffect(s, a.t, a.pick);
      OneCloserMove(s, StepOf(s, a.t, a.pick), a.t);
    }
  }

  /** What the invariant above sees of a step. */
  lemma CloserEffect(s: Sys, t: nat, p: Pick)
    requires Enabled(s, Step(t, p))
    ensures var n, pc := StepOf(s, t, p), s.threads[t];
      && n.threads == s.threads[t := n.threads[t]]
      && n.drained == (s.drained || pc.ClsWait?)
      && n.unloads == (if pc.ClsUnload? && s.host.handle != 0 then s.unloads + 1 else s.unloads)
      && (pc.ClsWait? ==> s.host.wg == 0)
  {
  }

  lemma OneCloserMove(s: Sys, n: Sys, t: nat)
    requires Counted(s) && OneCloser(s) && t < |s.threads| && t < |n.threads| && n.threads == s.threads[t := n.threads[t]]
    requires var pc, pc', host, host' := s.threads[t], n.threads[t], s.host, n.host;
      && (host.closed ==> host'.closed)
      && (IsCloser(pc') ==> IsCloser(pc) || !host.closed)
      && (IsCloser(pc') ==> host'.closed || IsCloser(pc))
      && (host'.closed && !host.closed ==> pc'.ClsLoop?)
      && (IsCloser(pc) ==> IsCloser(pc') || pc.ClsUnload?)
      && (pc'.ClsUnload? <==> pc.ClsWait?)
      && (if pc.ClsUnload? then host' == host.(handle := 0) else host'.handle == host.handle)
      && (Holds(pc) == 0 && host.closed && !IsCloser(pc) ==> host' == host && pc' == Ready)
      && (pc.ClsWait? ==> host'.wg == host.wg == 0) && (pc.ClsUnload? ==> pc' == Ready)
      && n.drained == (s.drained || pc.ClsWait?)
      && n.unloads == (if pc.ClsUnload? && host.handle != 0 then s.unloads + 1 else s.unloads)
    ensures OneCloser(n)
  {
    if s.drained {
      DrainedHoldsNothing(s, t);
    }
  }

  // ----- function pointers -----

  predicate NeedsFuncs(pc: Thread) {
    || pc.OpnReady? || pc.OpnIn? || pc.OpnGot? || pc.OpnLate? || pc.OpnLateAdded?
    || pc.OpHeld? || pc.ScHeld? || pc.ClsAdded? || pc.InCall?
  }

  predicate FuncsReady(s: Sys) {
    && (s.host.streamFuncs.Some? ==> s.host.streamFuncs.value.Complete())
    && (s.host.streamFuncs.None? ==> s.host.streamOpeners == map[] && s.host.activeStreams == {})
    && (s.host.closed ==> s.host.activeStreams == {})
    && (forall t | 0 <= t < |s.threads| :: ThreadFuncs(s.host, s.threads[t]))
  }

  predicate ThreadFuncs(host: Host, pc: Thread) {
    && (NeedsFuncs(pc) ==> host.streamFuncs.Some?)
    && (pc.ClsLoop? || pc.ClsAdded? || pc.ClsAfter? ==> CloseFnOk(host, pc.todo, pc.closeFn))
    && (pc.ClsAdded? ==> pc.stream !in pc.todo)
    && (pc.InCall? && pc.purpose.ForPluginClose? ==> CloseFnOk(host, pc.purpose.todo, pc.purpose.fn))
  }

  predicate CloseFnOk(host: Host, todo: set<nat>, fn: nat) {
    (todo != {} ==> fn != 0) && (fn != 0 ==> host.streamFuncs.Some?)
  }

  lemma FirstFuncs(host: Host, req: Request)
    requires host.streamFuncs.Some? ==> host.streamFuncs.value.Complete()
    requires host.streamFuncs.None? ==> host.streamOpeners == map[] && host.activeStreams == {}
    requires host.closed ==> host.activeStreams == {}
    ensures var (host', pc') := FirstSection(host, req);
      && host'.streamFuncs == host.streamFuncs && host'.streamOpeners == host.streamOpeners
      && host'.activeStreams <= host.activeStreams
      && (host'.closed ==> host'.activeStreams == {})
      && ThreadFuncs(host', pc')
  {
  }

  lemma ResolveFuncs(host: Host, service: string, syms: StreamFuncs, sym: nat)
    requires host.streamFuncs.Some? ==> host.streamFuncs.value.Complete()
    requires host.streamFuncs.None? ==> host.streamOpeners == map[]
    ensures var (host', r) := host.ResolveOpener(service, syms, sym);
      && (host'.streamFuncs.Some? ==> host'.streamFuncs.value.Complete())
      && (host'.streamFuncs.None? ==> host.streamFuncs.None? && host'.streamOpeners == map[] && !r.Found?)
      && host'.activeStreams == host.activeStreams && host'.closed == host.closed
  {
  }

  lemma AdvanceFuncs(host: Host, lib: Library, pc: Thread, p: Pick, issue: nat, call: nat, next: CallPc)
    requires Releases(pc) ==> host.wg > 0
    requires host.streamFuncs.Some? ==> host.streamFuncs.value.Complete()
    requires host.streamFuncs.None? ==> host.streamOpeners == map[] && host.activeStreams == {}
    requires host.closed ==> host.activeStreams == {}
    requires ThreadFuncs(host, pc)
    ensures var (host', pc') := Advance(host, lib, pc, p, issue, call, next);
      && (host'.streamFuncs.Some? ==> host'.streamFuncs.value.Complete())
      && (host.streamFuncs.Some? ==> host'.streamFuncs.Some?)
      && (host'.streamFuncs.None? ==> host'.streamOpeners == map[] && host'.activeStreams == {})
      && (host'.closed ==> host'.activeStreams == {})
      && ThreadFuncs(host', pc')
  {
    if pc.Starting? {
      FirstFuncs(host, pc.req);
    } else if pc.OpnMiss? {
      ResolveFuncs(host, pc.service, lib.funcs, lib.Opener(pc.service));
    }
  }

  lemma FuncsStep(s: Sys, a: Act)
    requires FuncsReady(s) && Enabled(s, a)
    ensures FuncsReady(Do(s, a))
  {
    if a.Step? {
      var pc := s.threads[a.t];
      AdvanceFuncs(s.host, s.lib, pc, a.pick, s.counter + 1, s.calls, NextCallPc(s, pc, a.pick));
    }
  }

  // ----- responsibility for streams -----

  /** The streams a thread still has to close. */
  function Owned(pc: Thread): set<nat> {
    match pc
    case OpnGot(h) => {h}
    case OpnLate(h) => {h}
    case OpnLateAdded(h) => {h}
    case ScHeld(h, _) => {h}
    case ClsLoop(todo, _) => todo
    case ClsAdded(h, todo, _) => {h} + todo
    case ClsAfter(todo, _) => todo
    case InCall(_, _, why) => if why.ForPluginClose? then why.todo else {}
    case _ => {}
  }

  ghost predicate Ownership(s: Sys) {
    && s.owner.Keys == s.streams.Keys
    && (forall h | h in s.owner :: 1 <= h <= s.counter)
    && (forall h | h in s.host.activeStreams :: h in s.owner && s.owner[h].Tracked?)
    && (forall h | h in s.owner && s.owner[h].Tracked? :: h in s.host.activeStreams)
    && (forall t, h | 0 <= t < |s.threads| && h in Owned(s.threads[t]) :: h in s.owner && s.owner[h] == Held(t))
    && (forall h | h in s.owner && s.owner[h].Held? :: s.owner[h].t < |s.threads| && h in Owned(s.threads[s.owner[h].t]))
    && (forall h: nat :: s.closeCalls[h] == if h in s.owner && s.owner[h].Called? then 1 else 0)
  }

  /** A step that does not touch responsibility. */
  predicate OwnershipQuiet(pc: Thread, p: Pick) {
    !Opens(pc, p) && !pc.OpnGot? && !StartsClose(pc) && !(pc.Starting? && (pc.req.StreamClose? || pc.req.ClosePlugin?))
  }

  lemma AdvanceQuiet(host: Host, lib: Library, pc: Thread, p: Pick, issue: nat, call: nat, next: CallPc)
    requires Releases(pc) ==> host.wg > 0
    requires OwnershipQuiet(pc, p)
    requires ThreadFuncs(host, pc)
    requires pc.ClsLoop? && pc.closeFn != 0 && pc.todo != {} ==> p.stream in pc.todo
    ensures var (host', pc') := Advance(host, lib, pc, p, issue, call, next);
      Owned(pc') == Owned(pc) && host'.activeStreams == host.activeStreams
  {
  }

  lemma OwnershipQuietStep(s: Sys, t: nat, p: Pick)
    requires Ownership(s) && FuncsReady(s) && Enabled(s, Step(t, p)) && OwnershipQuiet(s.threads[t], p)
    ensures Ownership(StepOf(s, t, p))
  {
    AdvanceQuiet(s.host, s.lib, s.threads[t], p, s.counter + 1, s.calls, NextCallPc(s, s.threads[t], p));
    QuietEffect(s, t, p);
    OwnershipQuietMove(s, StepOf(s, t, p), t);
  }

  lemma QuietEffect(s: Sys, t: nat, p: Pick)
    requires Enabled(s, Step(t, p)) && OwnershipQuiet(s.threads[t], p)
    ensures var n := StepOf(s, t, p);
      && n.threads == s.threads[t := n.threads[t]] && n.streams.Keys == s.streams.Keys && n.counter == s.counter
      && n.owner == s.owner && n.closeCalls == s.closeCalls
  {
  }

  lemma OwnershipQuietMove(s: Sys, n: Sys, t: nat)
    requires Ownership(s) && t < |s.threads| && t < |n.threads| && n.threads == s.threads[t := n.threads[t]]
    requires Owned(n.threads[t]) == Owned(s.threads[t]) && n.host.activeStreams == s.host.activeStreams
    requires n.streams.Keys == s.streams.Keys && n.counter == s.counter
    requires n.owner == s.owner && n.closeCalls == s.closeCalls
    ensures Ownership(n)
  {
  }

  lemma OwnerChangeHeld(s: Sys, n: Sys, t: nat, h: nat, o: Owner)
    requires Ownership(s) && t < |s.threads|
    requires |n.threads| == |s.threads| && n.threads == s.threads[t := n.threads[t]] && n.owner == s.owner[h := o]
    requires h in s.owner ==> s.owner[h] == Tracked || s.owner[h] == Held(t)
    requires o == Tracked || o == Held(t) || o == Called(t)
    requires Owned(n.threads[t]) == if o == Held(t) then Owned(s.threads[t]) + {h} else Owned(s.threads[t]) - {h}
    ensures forall u, k | 0 <= u < |n.threads| && k in Owned(n.threads[u]) :: k in n.owner && n.owner[k] == Held(u)
    ensures forall k | k in n.owner && n.owner[k].Held? :: n.owner[k].t < |n.threads| && k in Owned(n.threads[n.owner[k].t])
  {
    forall u, k | 0 <= u < |n.threads| && k in Owned(n.threads[u])
      ensures k in n.owner && n.owner[k] == Held(u)
    {
      if u != t {
        assert k in Owned(s.threads[u]);
      }
    }
    forall k | k in n.owner && n.owner[k].Held?
      ensures n.owner[k].t < |n.threads| && k in Owned(n.threads[n.owner[k].t])
    {
      if k != h {
        assert k in Owned(s.threads[s.owner[k].t]);
      }
    }
  }

  /** Responsibility for one stream passes from nobody, the record or thread `t` to `o`. */
  lemma OwnerChange(s: Sys, n: Sys, t: nat, h: nat, o: Owner)
    requires Ownership(s) && t < |s.threads|
    requires |n.threads| == |s.threads| && n.threads == s.threads[t := n.threads[t]] && n.owner == s.owner[h := o]
    requires n.streams.Keys == s.streams.Keys + {h} && s.counter <= n.counter && 1 <= h <= n.counter
    requires h in s.owner ==> s.owner[h] == Tracked || s.owner[h] == Held(t)
    requires o == Tracked || o == Held(t) || o == Called(t)
    requires Owned(n.threads[t]) == if o == Held(t) then Owned(s.threads[t]) + {h} else Owned(s.threads[t]) - {h}
    requires n.host.activeStreams == if o == Tracked then s.host.activeStreams + {h} else s.host.activeStreams - {h}
    requires n.closeCalls == if o == Called(t) then s.closeCalls + multiset{h} else s.closeCalls
    ensures Ownership(n)
  {
    OwnerChangeKeys(s, n, h, o);
    OwnerChangeHeld(s, n, t, h, o);
    OwnerChangeTracked(s, n, h, o);
    OwnerChangeCalls(s, n, h, o);
  }

  lemma OwnerChangeKeys(s: Sys, n: Sys, h: nat, o: Owner)
    requires s.owner.Keys == s.streams.Keys && (forall k | k in s.owner :: 1 <= k <= s.counter)
    requires n.owner == s.owner[h := o] && n.streams.Keys == s.streams.Keys + {h}
    requires s.counter <= n.counter && 1 <= h <= n.counter
    ensures n.owner.Keys == n.streams.Keys && forall k | k in n.owner :: 1 <= k <= n.counter
  {
  }

  lemma OwnerChangeTracked(s: Sys, n: Sys, h: nat, o: Owner)
    requires forall k | k in s.host.activeStreams :: k in s.owner && s.owner[k].Tracked?
    requires forall k | k in s.owner && s.owner[k].Tracked? :: k in s.host.activeStreams
    requires n.owner == s.owner[h := o]
    requires n.host.activeStreams == if o == Tracked then s.host.activeStreams + {h} else s.host.activeStreams - {h}
    ensures forall k | k in n.host.activeStreams :: k in n.owner && n.owner[k].Tracked?
    ensures forall k | k in n.owner && n.owner[k].Tracked? :: k in n.host.activeStreams
  {
  }

  lemma OwnerChangeCalls(s: Sys, n: Sys, h: nat, o: Owner)
    requires forall k: nat :: s.closeCalls[k] == if k in s.owner && s.owner[k].Called? then 1 else 0
    requires n.owner == s.owner[h := o] && (h in s.owner ==> !s.owner[h].Called?)
    requires n.closeCalls == if o.Called? then s.closeCalls + multiset{h} else s.closeCalls
    ensures forall k: nat :: n.closeCalls[k] == if k in n.owner && n.owner[k].Called? then 1 else 0
  {
    forall k: nat
      ensures n.closeCalls[k] == if k in n.owner && n.owner[k].Called? then 1 else 0
    {
      assert k != h ==> n.closeCalls[k] == s.closeCalls[k];
    }
  }

  lemma OwnershipOpens(s: Sys, t: nat, p: Pick)
    requires Ownership(s) && Enabled(s, Step(t, p)) && Opens(s.threads[t], p)
    ensures Ownership(StepOf(s, t, p))
  {
    var h, n := s.counter + 1, StepOf(s, t, p);
    assert n.threads == s.threads[t := OpnGot(h)] && n.owner == s.owner[h := Held(t)] && n.host == s.host;
    OwnerChange(s, n, t, h, Held(t));
  }

  /** The new stream enters the record, or stays with the thread because the plugin was closed. */
  lemma TrackEffect(s: Sys, t: nat, p: Pick)
    requires Enabled(s, Step(t, p)) && s.threads[t].OpnGot?
    ensures var n, h := StepOf(s, t, p), s.threads[t].stream;
      && n.streams == s.streams && n.counter == s.counter && n.closeCalls == s.closeCalls
      && if s.host.closed then n.host == s.host && n.threads == s.threads[t := OpnLate(h)] && n.owner == s.owner
         else
           && n.host.activeStreams == s.host.activeStreams + {h}
           && n.threads == s.threads[t := OpnOut] && n.owner == s.owner[h := Tracked]
  {
  }

  lemma OwnershipTracks(s: Sys, t: nat, p: Pick)
    requires Ownership(s) && Enabled(s, Step(t, p)) && s.threads[t].OpnGot?
    ensures Ownership(StepOf(s, t, p))
  {
    var n, h := StepOf(s, t, p), s.threads[t].stream;
    assert h in Owned(s.threads[t]);
    TrackEffect(s, t, p);
    if s.host.closed {
      OwnershipQuietMove(s, n, t);
    } else {
      OwnerChange(s, n, t, h, Tracked);
    }
  }

  lemma StartsCloseEffect(s: Sys, t: nat, p: Pick)
    requires Enabled(s, Step(t, p)) && StartsClose(s.threads[t])
    requires s.threads[t].ClsAdded? ==> s.threads[t].stream !in s.threads[t].todo
    ensures var n, h := StepOf(s, t, p), s.threads[t].stream;
      && n.threads == s.threads[t := n.threads[t]] && n.owner == s.owner[h := Called(t)]
      && n.host == s.host && n.streams == s.streams && n.counter == s.counter
      && n.closeCalls == s.closeCalls + multiset{h} && Owned(n.threads[t]) == Owned(s.threads[t]) - {h}
  {
  }

  lemma OwnershipCalls(s: Sys, t: nat, p: Pick)
    requires Ownership(s) && Enabled(s, Step(t, p)) && StartsClose(s.threads[t])
    requires s.threads[t].ClsAdded? ==> s.threads[t].stream !in s.threads[t].todo
    ensures Ownership(StepOf(s, t, p))
  {
    var h := s.threads[t].stream;
    assert h in Owned(s.threads[t]);
    assert h !in s.host.activeStreams;
    StartsCloseEffect(s, t, p);
    OwnerChange(s, StepOf(s, t, p), t, h, Called(t));
  }

  lemma OwnershipClaims(s: Sys, t: nat, p: Pick)
    requires Ownership(s) && FuncsReady(s) && Enabled(s, Step(t, p))
    requires s.threads[t].Starting? && s.threads[t].req.StreamClose?
    ensures Ownership(StepOf(s, t, p))
  {
    var h := s.threads[t].req.stream;
    var n := StepOf(s, t, p);
    if s.host.ClaimStream(h).1.NotMine? {
      ClaimNothing(s, t, p);
    } else {
      ClaimEffect(s, t, p);
      OwnerChange(s, n, t, h, Held(t));
    }
  }

  lemma ClaimNothing(s: Sys, t: nat, p: Pick)
    requires Ownership(s) && Enabled(s, Step(t, p)) && s.threads[t].Starting? && s.threads[t].req.StreamClose?
    requires s.host.ClaimStream(s.threads[t].req.stream).1.NotMine?
    ensures Ownership(StepOf(s, t, p))
  {
    assert StepOf(s, t, p) == s.(threads := s.threads[t := Ready]);
    OwnershipQuietMove(s, StepOf(s, t, p), t);
  }

  lemma ClaimEffect(s: Sys, t: nat, p: Pick)
    requires FuncsReady(s) && Enabled(s, Step(t, p))
    requires s.threads[t].Starting? && s.threads[t].req.StreamClose?
    requires !s.host.ClaimStream(s.threads[t].req.stream).1.NotMine?
    ensures var n, h := StepOf(s, t, p), s.threads[t].req.stream;
      && n.threads == s.threads[t := ScHeld(h, CloseFn(s.host))] && n.owner == s.owner[h := Held(t)]
      && h in s.host.activeStreams && n.host.activeStreams == s.host.activeStreams - {h}
      && n.streams == s.streams && n.counter == s.counter && n.closeCalls == s.closeCalls
  {
  }

  /** Responsibility for all tracked streams passes to thread `t`, the closer. */
  lemma OwnerHandOver(s: Sys, n: Sys, t: nat, fn: nat)
    requires Ownership(s) && t < |s.threads| && Owned(s.threads[t]) == {}
    requires n.threads == s.threads[t := ClsLoop(s.host.activeStreams, fn)]
    requires n.owner == map h | h in s.owner :: if s.owner[h].Tracked? then Held(t) else s.owner[h]
    requires n.streams == s.streams && n.counter == s.counter && n.closeCalls == s.closeCalls
    requires n.host.activeStreams == {}
    ensures Ownership(n)
  {
    forall u, k | 0 <= u < |n.threads| && k in Owned(n.threads[u])
      ensures k in n.owner && n.owner[k] == Held(u)
    {
      if u != t {
        assert k in Owned(s.threads[u]);
      }
    }
    forall k | k in n.owner && n.owner[k].Held?
      ensures n.owner[k].t < |n.threads| && k in Owned(n.threads[n.owner[k].t])
    {
      if s.owner[k].Held? {
        assert k in Owned(s.threads[s.owner[k].t]);
      }
    }
    assert forall k :: k in n.owner <==> k in s.owner;
  }

  lemma BeginCloseEffect(s: Sys, t: nat, p: Pick)
    requires Enabled(s, Step(t, p)) && s.threads[t].Starting? && s.threads[t].req.ClosePlugin?
    ensures var n := StepOf(s, t, p);
      && n.streams == s.streams && n.counter == s.counter && n.closeCalls == s.closeCalls
      && if s.host.closed then n.host == s.host && n.threads == s.threads[t := Ready] && n.owner == s.owner
         else
           && n.threads[t].ClsLoop? && n.threads == s.threads[t := ClsLoop(s.host.activeStreams, n.threads[t].closeFn)]
           && n.owner == (map h | h in s.owner :: if s.owner[h].Tracked? then Held(t) else s.owner[h])
           && n.host.activeStreams == {}
  {
  }

  lemma OwnershipBeginClose(s: Sys, t: nat, p: Pick)
    requires Ownership(s) && Enabled(s, Step(t, p))
    requires s.threads[t].Starting? && s.threads[t].req.ClosePlugin?
    ensures Ownership(StepOf(s, t, p))
  {
    var n := StepOf(s, t, p);
    BeginCloseEffect(s, t, p);
    if s.host.closed {
      OwnershipQuietMove(s, n, t);
    } else {
      OwnerHandOver(s, n, t, n.threads[t].closeFn);
    }
  }

  lemma OwnershipThread(s: Sys, t: nat, p: Pick)
    requires Ownership(s) && FuncsReady(s) && Enabled(s, Step(t, p))
    ensures Ownership(StepOf(s, t, p))
  {
    var pc := s.threads[t];
    if OwnershipQuiet(pc, p) {
      OwnershipQuietStep(s, t, p);
    } else if Opens(pc, p) {
      OwnershipOpens(s, t, p);
    } else if pc.OpnGot? {
      OwnershipTracks(s, t, p);
    } else if StartsClose(pc) {
      OwnershipCalls(s, t, p);
    } else if pc.req.StreamClose? {
      OwnershipClaims(s, t, p);
    } else {
      OwnershipBeginClose(s, t, p);
    }
  }

  lemma OwnershipSame(s: Sys, n: Sys)
    requires Ownership(s) && n == s.(streams := n.streams) && n.streams.Keys == s.streams.Keys
    ensures Ownership(n)
  {
  }

  lemma OwnershipStep(s: Sys, a: Act)
    requires Ownership(s) && FuncsReady(s) && Enabled(s, a)
    ensures Ownership(Do(s, a))
  {
    match a
    case Step(t, p) => OwnershipThread(s, t, p);
    case Begin(t, req) => OwnershipQuietMove(s, Do(s, a), t);
    case Handler(_, _) => OwnershipSame(s, Do(s, a));
  }

  // ----- every run -----

  ghost predicate Inv(s: Sys) {
    Counted(s) && OneCloser(s) && FuncsReady(s) && Ownership(s)
  }

  lemma InitCounted(s: Sys)
    requires Init(s)
    ensures Counted(s)
  {
    Sums.SumZero(Holdings(s.threads));
  }

  lemma InitOwnership(s: Sys)
    requires Init(s)
    ensures Ownership(s)
  {
  }

  lemma InitInv(s: Sys)
    requires Init(s)
    ensures Inv(s)
  {
    InitCounted(s);
    InitOwnership(s);
  }

  lemma StepInv(s: Sys, a: Act)
    requires Inv(s) && Enabled(s, a)
    ensures Inv(Do(s, a))
  {
    CountedStep(s, a);
    OneCloserStep(s, a);
    FuncsStep(s, a);
    OwnershipStep(s, a);
  }

  lemma {:induction false} ExecInv(s: Sys, acts: seq<Act>)
    requires Inv(s) && Exec(s, acts).Some?
    ensures Inv(Exec(s, acts).value)
    decreases |acts|
  {
    if acts != [] {
      StepInv(s, acts[0]);
      ExecInv(Do(s, acts[0]), acts[1..]);
    }
  }

  /** The thread is executing inside the shared library. */
  predicate InsideLibrary(pc: Thread) {
    pc.InvIn? || pc.OpnIn? || pc.InCall?
  }

  /** The step uses the library: it looks up a symbol, or starts, continues or ends a platform call. */
  predicate UsesLibrary(s: Sys, pc: Thread, p: Pick) {
    || InsideLibrary(pc)
    || (pc.InvReady? && p.ok) || pc.OpnReady? || StartsClose(pc) || (pc.OpHeld? && (pc.op.OpSend? ==> p.ok))
    || (pc.InvMiss? && s.host.ResolveInvoker(pc.service, s.lib.Invoker(pc.service)).1 != LookupClosed
        && pc.service !in s.host.invokers)
    || (pc.OpnMiss? && s.host.ResolveOpener(pc.service, s.lib.funcs, s.lib.Opener(pc.service)).1 != LookupClosed
        && pc.service !in s.host.streamOpeners)
  }

  /**
   * In every run: the library is unloaded at most once; when it is unloaded no thread is
   * inside it, and no enabled step of any thread uses it.
   */
  lemma NoCallIntoUnloadedLibrary(s0: Sys, acts: seq<Act>)
    requires Init(s0) && Exec(s0, acts).Some?
    ensures var s := Exec(s0, acts).value;
      && s.unloads <= 1 && (s.unloads == 0 <==> s.host.handle != 0)
      && (s.unloads == 1 ==> forall t | 0 <= t < |s.threads| ::
            !InsideLibrary(s.threads[t])
            && forall p :: StepEnabled(s, s.threads[t], p) ==> !UsesLibrary(s, s.threads[t], p))
  {
    InitInv(s0);
    ExecInv(s0, acts);
    var s := Exec(s0, acts).value;
    if s.unloads == 1 {
      forall t | 0 <= t < |s.threads|
        ensures !InsideLibrary(s.threads[t])
        ensures forall p :: StepEnabled(s, s.threads[t], p) ==> !UsesLibrary(s, s.threads[t], p)
      {
        UnloadedThread(s, t);
      }
    }
  }

  lemma UnloadedThread(s: Sys, t: nat)
    requires Counted(s) && OneCloser(s) && s.unloads == 1 && t < |s.threads|
    ensures !InsideLibrary(s.threads[t])
    ensures forall p :: StepEnabled(s, s.threads[t], p) ==> !UsesLibrary(s, s.threads[t], p)
  {
    DrainedHoldsNothing(s, t);
  }

  /** Once Close's Wait has passed the counter is zero, and stays zero in every continuation. */
  lemma WaitGroupStaysZero(s0: Sys, acts: seq<Act>, more: seq<Act>)
    requires Init(s0) && Exec(s0, acts).Some? && Exec(Exec(s0, acts).value, more).Some?
    requires Exec(s0, acts).value.drained
    ensures Exec(s0, acts).value.host.wg == 0
    ensures Exec(Exec(s0, acts).value, more).value.drained && Exec(Exec(s0, acts).value, more).value.host.wg == 0
  {
    InitInv(s0);
    ExecInv(s0, acts);
    ExecInv(Exec(s0, acts).value, more);
    DrainedStays(Exec(s0, acts).value, more);
  }

  lemma {:induction false} DrainedStays(s: Sys, acts: seq<Act>)
    requires s.drained && Exec(s, acts).Some?
    ensures Exec(s, acts).value.drained
    decreases |acts|
  {
    if acts != [] {
      DrainedStays(Do(s, acts[0]), acts[1..]);
    }
  }

  /**
   * No stream is ever closed twice, and when the library is unloaded every stream that
   * was ever opened has been closed exactly once, whoever did it.
   */
  lemma EveryStreamClosedExactlyOnce(s0: Sys, acts: seq<Act>)
    requires Init(s0) && Exec(s0, acts).Some?
    ensures var s := Exec(s0, acts).value;
      && (forall h: nat :: s.closeCalls[h] <= 1 && (s.closeCalls[h] == 1 ==> h in s.streams))
      && (s.unloads == 1 ==> forall h | h in s.streams :: s.closeCalls[h] == 1)
  {
    InitInv(s0);
    ExecInv(s0, acts);
    var s := Exec(s0, acts).value;
    if s.unloads == 1 {
      forall t | 0 <= t < |s.threads|
        ensures Owned(s.threads[t]) == {}
      {
        DrainedHoldsNothing(s, t);
      }
    }
  }

  /** Handles are fresh and never zero, and a step that needs the stream functions finds them. */
  lemma HandlesFreshAndFunctionsPresent(s0: Sys, acts: seq<Act>)
    requires Init(s0) && Exec(s0, acts).Some?
    ensures var s := Exec(s0, acts).value;
      && 0 !in s.streams && s.counter + 1 !in s.streams
      && (s.host.streamOpeners != map[] || s.host.activeStreams != {} ==> s.host.streamFuncs.Some?)
      && (forall t | 0 <= t < |s.threads| && NeedsFuncs(s.threads[t]) ::
            s.host.streamFuncs.Some? && s.host.streamFuncs.value.close != 0)
      && (forall t | 0 <= t < |s.threads| && s.threads[t].ClsLoop? && s.threads[t].todo != {} :: s.threads[t].closeFn != 0)
  {
    InitInv(s0);
    ExecInv(s0, acts);
  }
}
