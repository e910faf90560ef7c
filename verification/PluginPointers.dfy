/**
 * Which functions of the library the host's threads call: what the record caches, and
 * the pointer every thread holds on its way in and inside.
 */
module PluginPointers {
  import opened Basics
  import opened PluginServer
  import opened PluginHost
  import opened PluginSystem
  import opened PluginSafety

  /** Everything the record has cached is the library's, for that very service, and not null. */
  ghost predicate CacheIsTheLibrarys(host: Host, lib: Library) {
    && (forall svc | svc in host.invokers :: host.invokers[svc] == lib.Invoker(svc) != 0)
    && (forall svc | svc in host.streamOpeners :: host.streamOpeners[svc] == lib.Opener(svc) != 0)
    && (host.streamFuncs.Some? ==> host.streamFuncs == Some(lib.funcs) && lib.funcs.Complete())
  }

  /** The library's function for the exported call that the control point `at` belongs to. */
  function FunctionAt(funcs: StreamFuncs, at: CallPc): nat {
    match at
    case Idle => 0
    case SendEnter(_, _) => funcs.send
    case SendLock(_, _) => funcs.send
    case SendSelect(_, _) => funcs.send
    case SendRet(_, _) => funcs.send
    case CloseSendEnter => funcs.closeSend
    case CloseSendLock => funcs.closeSend
    case CloseSendRet => funcs.closeSend
    case CloseEnter => funcs.close
    case CloseCancel => funcs.close
    case CloseCloseSend => funcs.close
    case CloseCloseRecv => funcs.close
    case CloseRet => funcs.close
    case _ => funcs.recv
  }

  /** The pointer that a thread holds is the one for what it does. */
  predicate RightPointer(host: Host, lib: Library, pc: Thread) {
    match pc
    case InvReady(svc, fn) => fn == lib.Invoker(svc) != 0
    case InvIn(svc, fn) => fn == lib.Invoker(svc) != 0
    case OpnReady(svc, fn) => fn == lib.Opener(svc) != 0
    case OpnIn(svc, fn) => fn == lib.Opener(svc) != 0
    case ScHeld(_, fn) => host.streamFuncs.Some? && fn == host.streamFuncs.value.close
    case ClsLoop(_, fn) => host.closed && fn == CloseFn(host)
    case ClsAdded(_, _, fn) => host.closed && host.streamFuncs.Some? && fn == host.streamFuncs.value.close
    case ClsAfter(_, fn) => host.closed && fn == CloseFn(host)
    case InCall(_, at, why) =>
      && host.streamFuncs.Some? && why.fn == FunctionAt(host.streamFuncs.value, at)
      && !at.Idle? && (why.ForPluginClose? ==> host.closed && why.fn == CloseFn(host))
    case _ => true
  }

  ghost predicate Pointers(s: Sys) {
    && CacheIsTheLibrarys(s.host, s.lib)
    && (s.streams != map[] ==> s.host.streamFuncs.Some?)
    && forall t | 0 <= t < |s.threads| :: RightPointer(s.host, s.lib, s.threads[t])
  }

  /** What the record keeps: the stream functions once they are set, and everything once it is closed. */
  predicate KeepsFuncs(h: Host, n: Host) {
    (h.streamFuncs.Some? || h.closed ==> n.streamFuncs == h.streamFuncs) && (h.closed ==> n.closed)
  }

  lemma KeepsPointer(h: Host, n: Host, lib: Library, pc: Thread)
    requires KeepsFuncs(h, n) && RightPointer(h, lib, pc)
    ensures RightPointer(n, lib, pc)
  {
  }

  lemma FirstSectionPointers(host: Host, lib: Library, req: Request)
    requires CacheIsTheLibrarys(host, lib)
    ensures var (n, pc) := FirstSection(host, req);
      CacheIsTheLibrarys(n, lib) && KeepsFuncs(host, n) && RightPointer(n, lib, pc)
  {
  }

  lemma LookUpPointers(host: Host, lib: Library, pc: Thread, p: Pick)
    requires CacheIsTheLibrarys(host, lib) && (pc.InvMiss? || pc.OpnMiss?)
    ensures var (n, pc') := Advance(host, lib, pc, p, 0, 0, CallPc.Idle);
      CacheIsTheLibrarys(n, lib) && KeepsFuncs(host, n) && RightPointer(n, lib, pc')
  {
  }

  /** A thread inside the library stays in the function it called. */
  lemma CallStaysInFunction(ps: PStream, at: CallPc, c: Choice, funcs: StreamFuncs)
    requires CallEnabled(ps, at, c)
    ensures var at' := CallDo(ps, at, c).1; !at'.Idle? && FunctionAt(funcs, at') == FunctionAt(funcs, at)
  {
  }

  lemma AdvancePointers(host: Host, lib: Library, pc: Thread, p: Pick, issue: nat, call: nat, next: CallPc)
    requires Releases(pc) ==> host.wg > 0
    requires CacheIsTheLibrarys(host, lib) && ThreadFuncs(host, pc) && RightPointer(host, lib, pc)
    requires pc.InCall? && !IsReturn(pc.at) ==>
      host.streamFuncs.Some? && !next.Idle?
      && FunctionAt(host.streamFuncs.value, next) == FunctionAt(host.streamFuncs.value, pc.at)
    ensures var (n, pc') := Advance(host, lib, pc, p, issue, call, next);
      CacheIsTheLibrarys(n, lib) && KeepsFuncs(host, n) && RightPointer(n, lib, pc')
  {
    if pc.Starting? {
      FirstSectionPointers(host, lib, pc.req);
    } else if pc.InvMiss? || pc.OpnMiss? {
      LookUpPointers(host, lib, pc, p);
    }
  }

  lemma PointersThread(s: Sys, t: nat, p: Pick)
    requires Inv(s) && Pointers(s) && Enabled(s, Step(t, p))
    ensures Pointers(StepOf(s, t, p))
  {
    var pc, n := s.threads[t], StepOf(s, t, p);
    if pc.InCall? && !IsReturn(pc.at) {
      CallStaysInFunction(StreamAt(s, pc.stream), pc.at, p.sel, s.host.streamFuncs.value);
    }
    AdvancePointers(s.host, s.lib, pc, p, s.counter + 1, s.calls, NextCallPc(s, pc, p));
    StepEffect(s, t, p);
    PointersMove(s, n, t);
  }

  lemma StepEffect(s: Sys, t: nat, p: Pick)
    requires FuncsReady(s) && Enabled(s, Step(t, p))
    ensures var pc, n := s.threads[t], StepOf(s, t, p);
      && n.lib == s.lib && n.threads == s.threads[t := n.threads[t]]
      && (n.host, n.threads[t]) == Advance(s.host, s.lib, pc, p, s.counter + 1, s.calls, NextCallPc(s, pc, p))
      && (n.streams != map[] ==> s.streams != map[] || s.host.streamFuncs.Some?)
  {
    assert ThreadFuncs(s.host, s.threads[t]);
    assert StepOf(s, t, p).streams.Keys == s.streams.Keys + if Opens(s.threads[t], p) then {s.counter + 1} else {};
  }

  lemma PointersMove(s: Sys, n: Sys, t: nat)
    requires Pointers(s) && t < |s.threads| && t < |n.threads| && n.threads == s.threads[t := n.threads[t]]
    requires n.lib == s.lib && (n.streams != map[] ==> s.streams != map[] || s.host.streamFuncs.Some?)
    requires CacheIsTheLibrarys(n.host, n.lib) && KeepsFuncs(s.host, n.host) && RightPointer(n.host, n.lib, n.threads[t])
    ensures Pointers(n)
  {
    forall u | 0 <= u < |n.threads|
      ensures RightPointer(n.host, n.lib, n.threads[u])
    {
      if u != t {
        KeepsPointer(s.host, n.host, s.lib, s.threads[u]);
      }
    }
  }

  lemma PointersStep(s: Sys, a: Act)
    requires Inv(s) && Pointers(s) && Enabled(s, a)
    ensures Pointers(Do(s, a))
  {
    match a
    case Begin(t, _) => PointersMove(s, Do(s, a), t);
    case Step(t, p) => PointersThread(s, t, p);
    case Handler(_, _) =>
  }

  lemma {:induction false} ExecPointers(s: Sys, acts: seq<Act>)
    requires Inv(s) && Pointers(s) && Exec(s, acts).Some?
    ensures Pointers(Exec(s, acts).value) && Exec(s, acts).value.lib == s.lib
    decreases |acts|
  {
    if acts != [] {
      StepInv(s, acts[0]);
      PointersStep(s, acts[0]);
      ExecPointers(Do(s, acts[0]), acts[1..]);
    }
  }

  /**
   * In every run the record caches only what the library exports for that very service,
   * and never a null pointer; a thread on its way into an invoke or open function, or
   * inside it, holds the library's pointer for its service; a thread inside a stream
   * function entered it by the record's pointer for that function; and whoever is about
   * to close a stream holds the record's pointer for closing.
   */
  lemma ThreadsCallTheRightFunctions(s0: Sys, acts: seq<Act>)
    requires Init(s0) && Exec(s0, acts).Some?
    ensures var s := Exec(s0, acts).value;
      && s.lib == s0.lib && CacheIsTheLibrarys(s.host, s.lib)
      && forall t | 0 <= t < |s.threads| :: RightPointer(s.host, s.lib, s.threads[t])
  {
    InitInv(s0);
    ExecPointers(s0, acts);
  }
}
