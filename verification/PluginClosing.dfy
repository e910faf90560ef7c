/**
 * Close cannot get stuck: what a started close call has done to its stream, which calls
 * can still be blocked after Close began, and a bound on the steps left until it returns.
 */
module PluginClosing {
  import opened Basics
  import opened PluginServer
  import opened PluginHost
  import opened PluginSystem
  import opened PluginSafety
  import Runs = PluginStreamRuns

  // ----- the effect of a close call -----

  predicate IsClosePc(at: CallPc) {
    at.CloseEnter? || at.CloseCancel? || at.CloseCloseSend? || at.CloseCloseRecv? || at.CloseRet?
  }

  /** The thread is inside the close call on stream `h`. */
  predicate Closes(pc: Thread, h: nat) {
    pc.InCall? && pc.stream == h && IsClosePc(pc.at)
  }

  /** Nothing is left to close: unregistered, cancelled, both channels closed. */
  predicate FullyClosed(ps: PStream) {
    !ps.registered && ps.cancelled && ps.closeSend && ps.closeRecv
  }

  /** If the stream is cancelled then its own handler goroutine did it, at its end. */
  predicate OnlySelfCancelled(ps: PStream) {
    ps.cancelled ==> Runs.AfterCancel(ps.pc)
  }

  /** What a close call has already done when it stands at `at`. */
  predicate ClosedUpTo(ps: PStream, at: CallPc) {
    match at
    case CloseEnter => ps.registered && OnlySelfCancelled(ps)
    case CloseCancel => !ps.registered && OnlySelfCancelled(ps)
    case CloseCloseSend => !ps.registered && ps.cancelled
    case CloseCloseRecv => !ps.registered && ps.cancelled && ps.closeSend
    case _ => FullyClosed(ps)
  }

  predicate ThreadCloses(s: Sys, t: nat, pc: Thread) {
    pc.InCall? ==>
      && (pc.purpose.ForOp? <==> !IsClosePc(pc.at))
      && (IsClosePc(pc.at) ==> pc.stream in s.owner && s.owner[pc.stream] == Called(t))
  }

  predicate StreamCloses(s: Sys, h: nat)
    requires h in s.owner && h in s.streams
  {
    match s.owner[h]
    case Called(t) =>
      t < |s.threads| &&
      if Closes(s.threads[t], h) then ClosedUpTo(s.streams[h], s.threads[t].at) else FullyClosed(s.streams[h])
    case _ => s.streams[h].registered && OnlySelfCancelled(s.streams[h])
  }

  predicate CloseCalls(s: Sys) {
    && s.owner.Keys == s.streams.Keys
    && (forall t | 0 <= t < |s.threads| :: ThreadCloses(s, t, s.threads[t]))
    && (forall h | h in s.owner :: StreamCloses(s, h))
  }

  /** Only the close call itself unregisters; cancelling and closing are never undone. */
  predicate Monotone(ps: PStream, at: CallPc, qs: PStream, next: CallPc) {
    && (IsClosePc(next) <==> IsClosePc(at))
    && (ps.cancelled ==> qs.cancelled) && (ps.closeSend ==> qs.closeSend) && (ps.closeRecv ==> qs.closeRecv)
    && (IsClosePc(at) && ClosedUpTo(ps, at) ==> ClosedUpTo(qs, next))
    && (!IsClosePc(at) ==> qs.registered == ps.registered && qs.cancelled == ps.cancelled && qs.pc == ps.pc)
  }

  lemma CloseMonotone(ps: PStream, at: CallPc, c: Choice)
    requires CallEnabled(ps, at, c) && IsClosePc(at)
    ensures Monotone(ps, at, CallDo(ps, at, c).0, CallDo(ps, at, c).1)
  {
  }

  lemma CallMonotone(ps: PStream, at: CallPc, c: Choice)
    requires CallEnabled(ps, at, c)
    ensures Monotone(ps, at, CallDo(ps, at, c).0, CallDo(ps, at, c).1)
  {
    if Runs.InRecv(at) {
      Runs.RecvFrame(ps, at, c);
    } else if IsClosePc(at) {
      CloseMonotone(ps, at, c);
    }
  }

  lemma HandlerMonotone(ps: PStream, a: HandlerAct)
    requires HandlerEnabled(ps, a)
    ensures var q := HandlerDo(ps, a);
      && (ps.cancelled ==> q.cancelled) && (ps.closeSend ==> q.closeSend) && (ps.closeRecv ==> q.closeRecv)
      && q.registered == ps.registered && (OnlySelfCancelled(ps) ==> OnlySelfCancelled(q))
  {
    if a.InitRecv? || a.RecvReady? {
      var q := Dequeue(ps);
      assert q.registered == ps.registered && q.cancelled == ps.cancelled && q.closeSend == ps.closeSend
             && q.closeRecv == ps.closeRecv && q.pc == ps.pc;
    }
  }

  lemma CloseCallsHandler(s: Sys, h: nat, a: HandlerAct)
    requires CloseCalls(s) && Enabled(s, Handler(h, a))
    ensures CloseCalls(Do(s, Handler(h, a)))
  {
    HandlerMonotone(s.streams[h], a);
    HandlerKeepsCloses(s, Do(s, Handler(h, a)), h);
  }

  lemma HandlerKeepsCloses(s: Sys, n: Sys, h: nat)
    requires CloseCalls(s) && h in s.streams && h in n.streams && n == s.(streams := s.streams[h := n.streams[h]])
    requires var ps, q := s.streams[h], n.streams[h];
      && (ps.cancelled ==> q.cancelled) && (ps.closeSend ==> q.closeSend) && (ps.closeRecv ==> q.closeRecv)
      && q.registered == ps.registered && (OnlySelfCancelled(ps) ==> OnlySelfCancelled(q))
    ensures CloseCalls(n)
  {
    forall k | k in n.owner
      ensures StreamCloses(n, k)
    {
      assert StreamCloses(s, k);
    }
    forall t | 0 <= t < |n.threads|
      ensures ThreadCloses(n, t, n.threads[t])
    {
      assert ThreadCloses(s, t, s.threads[t]);
    }
  }

  lemma InCallEffect(s: Sys, t: nat, p: Pick)
    requires Enabled(s, Step(t, p)) && s.threads[t].InCall? && !IsReturn(s.threads[t].at)
    ensures var pc := s.threads[t];
      var r := CallDo(StreamAt(s, pc.stream), pc.at, p.sel);
      StepOf(s, t, p) == s.(threads := s.threads[t := InCall(pc.stream, r.1, pc.purpose)],
                             streams := PutStream(s, pc.stream, r.0))
  {
  }

  /** Steps inside an exported function. */
  lemma CloseCallsInCall(s: Sys, t: nat, p: Pick)
    requires CloseCalls(s) && Enabled(s, Step(t, p)) && s.threads[t].InCall? && !IsReturn(s.threads[t].at)
    ensures CloseCalls(StepOf(s, t, p))
  {
    InCallEffect(s, t, p);
    InCallKeepsCloses(s, StepOf(s, t, p), t, p.sel);
  }

  lemma InCallKeepsCloses(s: Sys, n: Sys, t: nat, c: Choice)
    requires CloseCalls(s) && t < |s.threads| && s.threads[t].InCall?
    requires var pc := s.threads[t]; CallEnabled(StreamAt(s, pc.stream), pc.at, c)
    requires var pc := s.threads[t];
      var r := CallDo(StreamAt(s, pc.stream), pc.at, c);
      n == s.(threads := s.threads[t := InCall(pc.stream, r.1, pc.purpose)], streams := PutStream(s, pc.stream, r.0))
    ensures CloseCalls(n)
  {
    var pc := s.threads[t];
    var (q, next) := CallDo(StreamAt(s, pc.stream), pc.at, c);
    CallMonotone(StreamAt(s, pc.stream), pc.at, c);
    forall k | k in n.owner
      ensures StreamCloses(n, k)
    {
      if k == pc.stream {
        InCallKeepsOwn(s, n, t, q, next);
      } else {
        InCallKeepsOther(s, n, t, next, k);
      }
    }
    assert ThreadCloses(s, t, pc);
  }

  /** The stream that the call is on. */
  lemma InCallKeepsOwn(s: Sys, n: Sys, t: nat, q: PStream, next: CallPc)
    requires t < |s.threads| && s.threads[t].InCall? && ThreadCloses(s, t, s.threads[t])
    requires var k := s.threads[t].stream;
      && k in s.owner && k in s.streams && StreamCloses(s, k)
      && k in n.streams && n.streams[k] == q && n.owner == s.owner
      && Monotone(s.streams[k], s.threads[t].at, q, next)
    requires n.threads == s.threads[t := InCall(s.threads[t].stream, next, s.threads[t].purpose)]
    ensures StreamCloses(n, s.threads[t].stream)
  {
  }

  /** Any other stream. */
  lemma InCallKeepsOther(s: Sys, n: Sys, t: nat, next: CallPc, k: nat)
    requires t < |s.threads| && s.threads[t].InCall? && k != s.threads[t].stream
    requires k in s.owner && k in s.streams && StreamCloses(s, k)
    requires k in n.streams && n.streams[k] == s.streams[k] && n.owner == s.owner
    requires n.threads == s.threads[t := InCall(s.threads[t].stream, next, s.threads[t].purpose)]
    ensures StreamCloses(n, k)
  {
  }

  lemma RecordKeepsFlags(ps: PStream, at: CallPc)
    ensures Runs.RecordReturn(ps, at) == ps.(hist := Runs.RecordReturn(ps, at).hist)
  {
  }

  lemma ReturnEffect(s: Sys, t: nat, p: Pick)
    requires Enabled(s, Step(t, p)) && s.threads[t].InCall? && IsReturn(s.threads[t].at)
    ensures var n, pc := StepOf(s, t, p), s.threads[t];
      && n.threads == s.threads[t := AfterCall(pc.purpose)] && n.owner == s.owner
      && n.streams == PutStream(s, pc.stream, Runs.RecordReturn(StreamAt(s, pc.stream), pc.at))
  {
  }

  /** The call returns: what the thread closed is fully closed. */
  lemma CloseCallsReturn(s: Sys, t: nat, p: Pick)
    requires CloseCalls(s) && Enabled(s, Step(t, p)) && s.threads[t].InCall? && IsReturn(s.threads[t].at)
    ensures CloseCalls(StepOf(s, t, p))
  {
    ReturnEffect(s, t, p);
    RecordKeepsFlags(StreamAt(s, s.threads[t].stream), s.threads[t].at);
    ReturnKeepsCloses(s, StepOf(s, t, p), t);
  }

  lemma ReturnKeepsCloses(s: Sys, n: Sys, t: nat)
    requires CloseCalls(s) && t < |s.threads| && s.threads[t].InCall? && IsReturn(s.threads[t].at)
    requires n.threads == s.threads[t := AfterCall(s.threads[t].purpose)] && n.owner == s.owner
    requires n.streams.Keys == s.streams.Keys
    requires forall h | h in s.streams :: n.streams[h] == s.streams[h].(hist := n.streams[h].hist)
    ensures CloseCalls(n)
  {
    forall k | k in n.owner
      ensures StreamCloses(n, k)
    {
      ReturnKeepsStream(s, n, t, k);
    }
  }

  lemma ReturnKeepsStream(s: Sys, n: Sys, t: nat, k: nat)
    requires k in s.owner && k in s.streams && StreamCloses(s, k)
    requires t < |s.threads| && s.threads[t].InCall? && IsReturn(s.threads[t].at)
    requires n.threads == s.threads[t := AfterCall(s.threads[t].purpose)] && n.owner == s.owner
    requires k in n.streams && n.streams[k] == s.streams[k].(hist := n.streams[k].hist)
    ensures StreamCloses(n, k)
  {
  }

  lemma AdvanceOutside(host: Host, lib: Library, pc: Thread, p: Pick, issue: nat, call: nat, next: CallPc)
    requires Releases(pc) ==> host.wg > 0
    requires !pc.InCall?
    ensures var pc' := Advance(host, lib, pc, p, issue, call, next).1;
      && (StartsClose(pc) ==> pc'.InCall? && pc'.stream == pc.stream && pc'.at == CloseEnter && !pc'.purpose.ForOp?)
      && (!StartsClose(pc) && pc'.InCall? ==> pc'.purpose.ForOp? && !IsClosePc(pc'.at))
  {
  }

  /** Outside the library a step changes streams only by opening one. */
  lemma StreamSteps(s: Sys, t: nat, p: Pick)
    requires Ownership(s) && Enabled(s, Step(t, p)) && !s.threads[t].InCall?
    ensures var n := StepOf(s, t, p);
      && (forall h | h in s.streams :: h in n.streams && n.streams[h] == s.streams[h])
      && (forall h | h in n.streams && h !in s.streams :: n.streams[h].registered && !n.streams[h].cancelled)
  {
  }

  /** Responsibility passes to `Called` only when a close call starts, and then for good. */
  lemma OwnerSteps(s: Sys, t: nat, p: Pick)
    requires Ownership(s) && t < |s.threads|
    ensures var pc, n := s.threads[t], NextOwner(s, t, s.threads[t], p);
      && (forall h | h in s.owner && s.owner[h].Called? :: h in n && n[h] == s.owner[h])
      && (forall h | h in n && n[h].Called? ::
            (h in s.owner && n[h] == s.owner[h]) || (StartsClose(pc) && h == pc.stream && n[h] == Called(t)))
      && (StartsClose(pc) ==> pc.stream in s.owner && !s.owner[pc.stream].Called? && n[pc.stream] == Called(t))
  {
    var pc := s.threads[t];
    if StartsClose(pc) || pc.OpnGot? {
      assert pc.stream in Owned(pc);
    }
  }

  lemma OutsideKeepsStream(s: Sys, n: Sys, t: nat, k: nat)
    requires CloseCalls(s) && t < |s.threads| && !s.threads[t].InCall?
    requires |n.threads| == |s.threads| && n.threads == s.threads[t := n.threads[t]]
    requires k in n.owner && k in n.streams
    requires k in s.owner ==> n.streams[k] == s.streams[k]
    requires k !in s.owner ==> n.streams[k].registered && !n.streams[k].cancelled
    requires k in s.owner && s.owner[k].Called? ==> n.owner[k] == s.owner[k]
    requires n.owner[k].Called? && !(k in s.owner && n.owner[k] == s.owner[k]) ==>
      k in s.owner && !s.owner[k].Called? && n.owner[k] == Called(t)
      && Closes(n.threads[t], k) && n.threads[t].at == CloseEnter
    requires n.threads[t].InCall? && IsClosePc(n.threads[t].at) ==>
      n.threads[t].stream in s.owner && !s.owner[n.threads[t].stream].Called?
    ensures StreamCloses(n, k)
  {
    if k in s.owner {
      assert StreamCloses(s, k);
    }
  }

  lemma OutsideEffect(s: Sys, t: nat, p: Pick)
    requires Enabled(s, Step(t, p)) && !s.threads[t].InCall?
    ensures var pc, n := s.threads[t], StepOf(s, t, p);
      && n.owner == NextOwner(s, t, pc, p) && n.threads == s.threads[t := n.threads[t]]
      && (StartsClose(pc) ==> Closes(n.threads[t], pc.stream) && n.threads[t].at == CloseEnter && !n.threads[t].purpose.ForOp?)
      && (!StartsClose(pc) && n.threads[t].InCall? ==> n.threads[t].purpose.ForOp? && !IsClosePc(n.threads[t].at))
  {
    AdvanceOutside(s.host, s.lib, s.threads[t], p, s.counter + 1, s.calls, NextCallPc(s, s.threads[t], p));
  }

  lemma CloseCallsOutside(s: Sys, t: nat, p: Pick)
    requires Inv(s) && CloseCalls(s) && Enabled(s, Step(t, p)) && !s.threads[t].InCall?
    ensures CloseCalls(StepOf(s, t, p))
  {
    var n := StepOf(s, t, p);
    OutsideEffect(s, t, p);
    OwnerSteps(s, t, p);
    StreamSteps(s, t, p);
    OwnershipThread(s, t, p);
    forall k | k in n.owner
      ensures StreamCloses(n, k)
    {
      OutsideKeepsStream(s, n, t, k);
    }
    OutsideKeepsThreads(s, n, t);
  }

  lemma OutsideKeepsThreads(s: Sys, n: Sys, t: nat)
    requires CloseCalls(s) && t < |s.threads|
    requires |n.threads| == |s.threads| && n.threads == s.threads[t := n.threads[t]]
    requires ThreadCloses(n, t, n.threads[t])
    requires forall h | h in s.owner && s.owner[h].Called? :: h in n.owner && n.owner[h] == s.owner[h]
    ensures forall u | 0 <= u < |n.threads| :: ThreadCloses(n, u, n.threads[u])
  {
    forall u | 0 <= u < |n.threads|
      ensures ThreadCloses(n, u, n.threads[u])
    {
      if u != t {
        assert ThreadCloses(s, u, s.threads[u]);
      }
    }
  }

  lemma CloseCallsStep(s: Sys, a: Act)
    requires Inv(s) && CloseCalls(s) && Enabled(s, a)
    ensures CloseCalls(Do(s, a))
  {
    match a
    case Begin(t, req) =>
      forall k | k in s.owner
        ensures StreamCloses(Do(s, a), k)
      {
        assert StreamCloses(s, k);
      }
    case Handler(h, act) => CloseCallsHandler(s, h, act);
    case Step(t, p) =>
      if !s.threads[t].InCall? {
        CloseCallsOutside(s, t, p);
      } else if IsReturn(s.threads[t].at) {
        CloseCallsReturn(s, t, p);
      } else {
        CloseCallsInCall(s, t, p);
      }
  }

  lemma {:induction false} ExecCloseCalls(s: Sys, acts: seq<Act>)
    requires Inv(s) && CloseCalls(s) && Exec(s, acts).Some?
    ensures Inv(Exec(s, acts).value) && CloseCalls(Exec(s, acts).value)
    decreases |acts|
  {
    if acts != [] {
      StepInv(s, acts[0]);
      CloseCallsStep(s, acts[0]);
      ExecCloseCalls(Do(s, acts[0]), acts[1..]);
    }
  }

  lemma RunInv(s0: Sys, acts: seq<Act>)
    requires Init(s0) && Exec(s0, acts).Some?
    ensures Inv(Exec(s0, acts).value) && CloseCalls(Exec(s0, acts).value)
  {
    InitInv(s0);
    ExecCloseCalls(s0, acts);
  }

  /** When the library is unloaded every stream is unregistered, cancelled and closed both ways. */
  lemma UnloadLeavesStreamsClosed(s0: Sys, acts: seq<Act>)
    requires Init(s0) && Exec(s0, acts).Some? && Exec(s0, acts).value.unloads == 1
    ensures forall h | h in Exec(s0, acts).value.streams :: FullyClosed(Exec(s0, acts).value.streams[h])
  {
    RunInv(s0, acts);
    EveryStreamClosedExactlyOnce(s0, acts);
    var s := Exec(s0, acts).value;
    forall h | h in s.streams
      ensures FullyClosed(s.streams[h])
    {
      assert s.closeCalls[h] == 1 && StreamCloses(s, h);
      DrainedHoldsNothing(s, s.owner[h].t);
    }
  }

  // ----- blocked calls -----

  /** Some step of thread `t` is enabled. */
  ghost predicate CanStep(s: Sys, t: nat)
    requires t < |s.threads|
  {
    exists p :: StepEnabled(s, s.threads[t], p)
  }

  /** Waiting in the `select` of a stream Send or Recv with no case ready. */
  predicate Blocked(s: Sys, pc: Thread) {
    && pc.InCall? && (pc.at.SendSelect? || pc.at.RecvWait?)
    && forall c: Choice :: !CallEnabled(StreamAt(s, pc.stream), pc.at, c)
  }

  const ANY: Pick := Pick(Proceed, UnknownMethod, true, 0)

  lemma InsideBlocks(s: Sys, t: nat)
    requires t < |s.threads| && s.threads[t].InCall? && !s.threads[t].at.Idle?
    ensures CanStep(s, t) || (Blocked(s, s.threads[t]) && !StreamAt(s, s.threads[t].stream).cancelled)
  {
    var pc := s.threads[t];
    var ps := StreamAt(s, pc.stream);
    if c: Choice :| CallEnabled(ps, pc.at, c) {
      assert StepEnabled(s, pc, ANY.(sel := c));
    } else if IsReturn(pc.at) {
      assert StepEnabled(s, pc, ANY);
    } else {
      assert !CallEnabled(ps, pc.at, Proceed) && !CallEnabled(ps, pc.at, OnDone);
    }
  }

  lemma OutsideSteps(s: Sys, t: nat)
    requires Counted(s) && t < |s.threads|
    requires !s.threads[t].InCall? && !s.threads[t].Ready? && !s.threads[t].ClsWait?
    ensures CanStep(s, t)
  {
    var pc := s.threads[t];
    if pc.ClsLoop? && pc.closeFn != 0 && pc.todo != {} {
      var h :| h in pc.todo;
      assert StepEnabled(s, pc, ANY.(stream := h));
    } else {
      MoveCount(s.threads, t, pc);
      assert StepEnabled(s, pc, ANY);
    }
  }

  /** A thread past its first section is either able to step, waiting in Close, or blocked on a live stream. */
  lemma OnlyBlockedCannotStep(s: Sys, t: nat)
    requires Counted(s) && t < |s.threads| && !s.threads[t].Ready? && !s.threads[t].ClsWait?
    requires s.threads[t].InCall? ==> !s.threads[t].at.Idle?
    ensures CanStep(s, t) || (Blocked(s, s.threads[t]) && !StreamAt(s, s.threads[t].stream).cancelled)
  {
    if s.threads[t].InCall? {
      InsideBlocks(s, t);
    } else {
      OutsideSteps(s, t);
    }
  }

  /** Inside the library a thread is at a real point, past its look-up only if the stream exists. */
  predicate Stands(streams: set<nat>, pc: Thread) {
    pc.InCall? ==> !pc.at.Idle? && (pc.stream !in streams ==> Runs.IsEntry(pc.at) || Runs.IsMissReturn(pc.at))
  }

  predicate CallsStand(s: Sys) {
    forall t | 0 <= t < |s.threads| :: Stands(s.streams.Keys, s.threads[t])
  }

  lemma AdvanceStands(host: Host, lib: Library, pc: Thread, p: Pick, issue: nat, call: nat, next: CallPc)
    requires Releases(pc) ==> host.wg > 0
    requires !pc.InCall? || IsReturn(pc.at)
    ensures var pc' := Advance(host, lib, pc, p, issue, call, next).1; pc'.InCall? ==> Runs.IsEntry(pc'.at)
  {
  }

  lemma CallStands(ps: PStream, at: CallPc, c: Choice)
    requires CallEnabled(ps, at, c)
    ensures var at' := CallDo(ps, at, c).1;
      !at'.Idle? && (ps == MISSING && (Runs.IsEntry(at) || Runs.IsMissReturn(at)) ==> Runs.IsMissReturn(at'))
  {
  }

  lemma StandsStep(s: Sys, a: Act)
    requires CallsStand(s) && Enabled(s, a)
    ensures CallsStand(Do(s, a))
  {
    if a.Step? {
      var pc, n := s.threads[a.t], Do(s, a);
      assert Stands(s.streams.Keys, pc);
      assert s.streams.Keys <= n.streams.Keys;
      if pc.InCall? && !IsReturn(pc.at) {
        CallStands(StreamAt(s, pc.stream), pc.at, a.pick.sel);
        assert n.threads[a.t] == InCall(pc.stream, CallDo(StreamAt(s, pc.stream), pc.at, a.pick.sel).1, pc.purpose);
      } else {
        AdvanceStands(s.host, s.lib, pc, a.pick, s.counter + 1, s.calls, NextCallPc(s, pc, a.pick));
      }
    }
  }

  lemma {:induction false} ExecStands(s: Sys, acts: seq<Act>)
    requires CallsStand(s) && Exec(s, acts).Some?
    ensures CallsStand(Exec(s, acts).value)
    decreases |acts|
  {
    if acts != [] {
      StandsStep(s, acts[0]);
      ExecStands(Do(s, acts[0]), acts[1..]);
    }
  }

  /** A thread that is about to cancel stream `h`. */
  predicate WillCancel(pc: Thread, h: nat) {
    h in Owned(pc) || (Closes(pc, h) && (pc.at.CloseEnter? || pc.at.CloseCancel?))
  }

  /**
   * After Close has begun no Send or Recv on an opened stream can be left hanging: if it
   * is blocked, some other thread is on its way to cancel that very stream and is not
   * itself blocked.
   */
  lemma BlockedCallsWillBeCancelled(s0: Sys, acts: seq<Act>, t: nat) returns (u: nat)
    requires Init(s0) && Exec(s0, acts).Some?
    requires var s := Exec(s0, acts).value;
      s.host.closed && t < |s.threads| && Blocked(s, s.threads[t])
    ensures var s := Exec(s0, acts).value;
      u < |s.threads| && u != t && WillCancel(s.threads[u], s.threads[t].stream) && CanStep(s, u)
  {
    RunInv(s0, acts);
    ExecStands(s0, acts);
    u := CancellerSteps(Exec(s0, acts).value, t);
  }

  /** A thread on its way to cancel a stream waits for nothing. */
  lemma WillCancelSteps(s: Sys, u: nat, h: nat)
    requires Counted(s) && u < |s.threads| && ThreadCloses(s, u, s.threads[u]) && WillCancel(s.threads[u], h)
    requires Stands(s.streams.Keys, s.threads[u])
    ensures CanStep(s, u)
  {
    if s.threads[u].InCall? {
      WillCancelIsNotAnOp(s, u, h);
      assert StepEnabled(s, s.threads[u], ANY);
    } else {
      OutsideSteps(s, u);
    }
  }

  lemma CancellerSteps(s: Sys, t: nat) returns (u: nat)
    requires Inv(s) && CloseCalls(s) && CallsStand(s) && s.host.activeStreams == {}
    requires t < |s.threads| && Blocked(s, s.threads[t])
    ensures u < |s.threads| && u != t && WillCancel(s.threads[u], s.threads[t].stream) && CanStep(s, u)
  {
    u := Canceller(s, t);
    WillCancelSteps(s, u, s.threads[t].stream);
  }

  lemma BlockedIsLive(s: Sys, pc: Thread)
    requires Stands(s.streams.Keys, pc) && Blocked(s, pc)
    ensures pc.stream in s.streams && !s.streams[pc.stream].cancelled && !IsClosePc(pc.at)
  {
    assert !CallEnabled(StreamAt(s, pc.stream), pc.at, OnDone);
  }

  lemma Canceller(s: Sys, t: nat) returns (u: nat)
    requires Ownership(s) && CloseCalls(s) && CallsStand(s) && s.host.activeStreams == {}
    requires t < |s.threads| && Blocked(s, s.threads[t])
    ensures u < |s.threads| && u != t && WillCancel(s.threads[u], s.threads[t].stream)
    ensures Stands(s.streams.Keys, s.threads[u])
    ensures !Blocked(s, s.threads[u])
  {
    BlockedIsLive(s, s.threads[t]);
    u := Responsible(s, s.threads[t].stream);
    WillCancelIsNotAnOp(s, u, s.threads[t].stream);
  }

  /** Every stream that is not cancelled after Close began is some thread's to cancel. */
  lemma Responsible(s: Sys, h: nat) returns (u: nat)
    requires Ownership(s) && CloseCalls(s) && s.host.activeStreams == {}
    requires h in s.streams && !s.streams[h].cancelled
    ensures u < |s.threads| && WillCancel(s.threads[u], h)
  {
    assert StreamCloses(s, h);
    assert !s.owner[h].Tracked?;
    u := s.owner[h].t;
    if s.owner[h].Held? {
      assert h in Owned(s.threads[u]);
    }
  }

  lemma WillCancelIsNotAnOp(s: Sys, u: nat, h: nat)
    requires u < |s.threads| && ThreadCloses(s, u, s.threads[u]) && WillCancel(s.threads[u], h)
    ensures s.threads[u].InCall? ==> IsClosePc(s.threads[u].at)
  {
  }

  /**
   * Exactly when a call is left hanging: after Close has begun, a Send or Recv that waits
   * with neither data, room nor an error to wake it, on a stream whose handler has not
   * ended by itself, is blocked if and only if some thread is still to cancel the stream.
   */
  lemma BlockedIffCancelIsPending(s0: Sys, acts: seq<Act>, t: nat)
    requires Init(s0) && Exec(s0, acts).Some?
    requires var s := Exec(s0, acts).value;
      && s.host.closed && t < |s.threads| && s.threads[t].InCall? && s.threads[t].stream in s.streams
      && !Runs.AfterCancel(s.streams[s.threads[t].stream].pc)
      && (s.threads[t].at.SendSelect? || s.threads[t].at.RecvWait?)
      && !CallEnabled(s.streams[s.threads[t].stream], s.threads[t].at, OnData)
      && !CallEnabled(s.streams[s.threads[t].stream], s.threads[t].at, OnError)
    ensures var s := Exec(s0, acts).value;
      Blocked(s, s.threads[t]) <==> exists u :: 0 <= u < |s.threads| && WillCancel(s.threads[u], s.threads[t].stream)
  {
    RunInv(s0, acts);
    ExecStands(s0, acts);
    var s := Exec(s0, acts).value;
    var h := s.threads[t].stream;
    if Blocked(s, s.threads[t]) {
      var u := Canceller(s, t);
    } else if u :| 0 <= u < |s.threads| && WillCancel(s.threads[u], h) {
      PendingCancelIsOpen(s, u, h);
      OnlyDoneWakes(s.streams[h], s.threads[t].at);
    }
  }

  lemma PendingCancelIsOpen(s: Sys, u: nat, h: nat)
    requires Ownership(s) && CloseCalls(s) && h in s.streams
    requires u < |s.threads| && WillCancel(s.threads[u], h)
    ensures OnlySelfCancelled(s.streams[h])
  {
    assert StreamCloses(s, h);
    if h in Owned(s.threads[u]) {
      assert s.owner[h] == Held(u);
    } else {
      assert ThreadCloses(s, u, s.threads[u]) && s.owner[h] == Called(u);
    }
  }

  lemma OnlyDoneWakes(ps: PStream, at: CallPc)
    requires (at.SendSelect? || at.RecvWait?) && !ps.cancelled
    requires !CallEnabled(ps, at, OnData) && !CallEnabled(ps, at, OnError)
    ensures forall c: Choice :: !CallEnabled(ps, at, c)
  {
  }

  /**
   * A Send or Recv is never blocked on a stream whose close call has returned; in
   * particular not on any stream that Close's own loop has dealt with.
   */
  lemma CallsOnClosedStreamsComplete(s0: Sys, acts: seq<Act>, t: nat)
    requires Init(s0) && Exec(s0, acts).Some?
    requires var s := Exec(s0, acts).value;
      && t < |s.threads| && s.threads[t].InCall? && s.closeCalls[s.threads[t].stream] > 0
      && forall u | 0 <= u < |s.threads| :: !Closes(s.threads[u], s.threads[t].stream)
    ensures var s := Exec(s0, acts).value; !Blocked(s, s.threads[t])
  {
    RunInv(s0, acts);
    var s := Exec(s0, acts).value;
    var h := s.threads[t].stream;
    assert StreamCloses(s, h);
    assert s.threads[t].at.SendSelect? || s.threads[t].at.RecvWait? ==> CallEnabled(StreamAt(s, h), s.threads[t].at, OnDone);
  }
}
