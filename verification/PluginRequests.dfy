/**
 * What one call of the host does from its beginning to its end: it stays with the
 * request it was made for, undisturbed it gets where it should, and StreamCloseSend
 * leaves the stream half-closed in any company.
 */
module PluginRequests {
  import opened Basics
  import opened PluginServer
  import opened PluginHost
  import opened PluginSystem
  import opened PluginSafety
  import opened PluginClosing
  import opened PluginDelivery
  import opened PluginPointers
  import HalfClose = PluginHalfClose
  import Progress = PluginProgress
  import Race = PluginCloseRace
  import Runs = PluginStreamRuns

  // ----- a thread does what it was asked -----

  /** The exported function that an operation calls, with the message it was given. */
  predicate InOp(op: Op, at: CallPc) {
    match op
    case OpSend(m) => ((at.SendEnter? || at.SendLock? || at.SendSelect?) && at.msg == m) || at.SendRet?
    case OpRecv => Runs.InRecv(at) || at.RecvRet?
    case OpCloseSend => at.CloseSendEnter? || at.CloseSendLock? || at.CloseSendRet?
  }

  /** Every point at which a thread can be that was asked for `req`. */
  predicate Serves(req: Request, pc: Thread) {
    pc == Starting(req) || pc.Ready? ||
    match req
    case Invoke(svc) =>
      || pc == InvHeld(svc) || pc == InvMiss(svc)
      || (pc.InvReady? && pc.service == svc) || (pc.InvIn? && pc.service == svc)
      || pc.InvOut?
    case OpenStream(svc) =>
      || pc == OpnHeld(svc) || pc == OpnMiss(svc)
      || (pc.OpnReady? && pc.service == svc) || (pc.OpnIn? && pc.service == svc)
      || pc.OpnGot? || pc.OpnLate? || pc.OpnLateAdded? || pc.OpnLateOut? || pc.OpnOut?
      || (pc.InCall? && pc.purpose.ForLateOpen? && IsClosePc(pc.at))
    case StreamOp(op, h) =>
      || pc == OpHeld(op, h) || pc.OpOut?
      || (pc.InCall? && pc.purpose.ForOp? && pc.purpose.op == op && pc.stream == h && InOp(op, pc.at))
    case StreamClose(h) =>
      || (pc.ScHeld? && pc.stream == h) || pc.ScOut?
      || (pc.InCall? && pc.purpose.ForStreamClose? && pc.stream == h && IsClosePc(pc.at))
    case ClosePlugin =>
      || pc.ClsLoop? || pc.ClsAdded? || pc.ClsAfter? || pc.ClsWait? || pc.ClsUnload?
      || (pc.InCall? && pc.purpose.ForPluginClose? && IsClosePc(pc.at))
  }

  lemma CallStaysInOp(ps: PStream, at: CallPc, c: Choice, op: Op)
    requires CallEnabled(ps, at, c)
    ensures var at' := CallDo(ps, at, c).1; (InOp(op, at) ==> InOp(op, at')) && (IsClosePc(at) ==> IsClosePc(at'))
  {
  }

  lemma AdvanceServes(host: Host, lib: Library, req: Request, pc: Thread, p: Pick, issue: nat, call: nat, next: CallPc)
    requires Releases(pc) ==> host.wg > 0
    requires Serves(req, pc)
    requires pc.InCall? && !IsReturn(pc.at) ==>
      (IsClosePc(pc.at) ==> IsClosePc(next)) && (req.StreamOp? && InOp(req.op, pc.at) ==> InOp(req.op, next))
    ensures Serves(req, Advance(host, lib, pc, p, issue, call, next).1)
  {
  }

  lemma ServesStep(s: Sys, a: Act, t: nat, req: Request)
    requires t < |s.threads| && Serves(req, s.threads[t]) && Enabled(s, a) && !(a.Begin? && a.t == t)
    ensures var n := Do(s, a); |n.threads| == |s.threads| && Serves(req, n.threads[t])
  {
    if a.Step? && a.t == t {
      var pc := s.threads[t];
      if pc.InCall? && !IsReturn(pc.at) {
        CallStaysInOp(StreamAt(s, pc.stream), pc.at, a.pick.sel, if req.StreamOp? then req.op else OpRecv);
      }
      AdvanceServes(s.host, s.lib, req, pc, a.pick, s.counter + 1, s.calls, NextCallPc(s, pc, a.pick));
    }
  }

  /** No action in the list begins another call of thread `t`. */
  predicate StillIn(acts: seq<Act>, t: nat) {
    forall a | a in acts :: !(a.Begin? && a.t == t)
  }

  /**
   * From its beginning to the next one a call stays on the way of its own request, in any
   * company: its own service, its own operation and message, its own stream.
   */
  lemma {:induction false} ThreadsDoWhatTheyWereAsked(s: Sys, acts: seq<Act>, t: nat, req: Request)
    requires t < |s.threads| && Serves(req, s.threads[t]) && Exec(s, acts).Some? && StillIn(acts, t)
    ensures var n := Exec(s, acts).value; |n.threads| == |s.threads| && Serves(req, n.threads[t])
    decreases |acts|
  {
    if acts != [] {
      assert acts[0] in acts;
      ServesStep(s, acts[0], t, req);
      ThreadsDoWhatTheyWereAsked(Do(s, acts[0]), acts[1..], t, req);
    }
  }

  // ----- a call that is not disturbed -----

  predicate OnlyStepsOf(acts: seq<Act>, t: nat) {
    forall a | a in acts :: a.Step? && a.t == t
  }

  lemma Then(s0: Sys, acts: seq<Act>, s: Sys, t: nat, p: Pick, n: Sys) returns (more: seq<Act>)
    requires Exec(s0, acts) == Some(s) && OnlyStepsOf(acts, t)
    requires Enabled(s, Step(t, p)) && n == StepOf(s, t, p)
    ensures Exec(s0, more) == Some(n) && OnlyStepsOf(more, t)
  {
    more := acts + [Step(t, p)];
    Race.ExecSnoc(s0, acts, Step(t, p));
  }

  /** The system with the record as `host` and thread `t` at `pc`. */
  function At(s: Sys, t: nat, host: Host, pc: Thread): Sys
    requires t < |s.threads|
  {
    s.(host := host, threads := s.threads[t := pc])
  }

  /** One step of thread `t` that touches nothing but the record. */
  lemma ThenAt(s: Sys, acts: seq<Act>, t: nat, host: Host, pc: Thread, p: Pick, host': Host, pc': Thread)
    returns (more: seq<Act>)
    requires t < |s.threads| && Exec(s, acts) == Some(At(s, t, host, pc)) && OnlyStepsOf(acts, t)
    requires OwnershipQuiet(pc, p) && p.ok && !pc.InCall? && !pc.ClsWait? && !pc.ClsUnload? && !pc.ClsLoop? && !pc.Ready?
    requires !(pc.OpHeld? && pc.op.OpSend?) && (Releases(pc) ==> host.wg > 0)
    requires Advance(host, s.lib, pc, p, s.counter + 1, s.calls, CallPc.Idle) == (host', pc')
    ensures Exec(s, more) == Some(At(s, t, host', pc')) && OnlyStepsOf(more, t)
  {
    var m := At(s, t, host, pc);
    assert m.threads[t := pc'] == s.threads[t := pc'];
    more := Then(s, acts, m, t, p, At(s, t, host', pc'));
  }

  /** The first section of a call that takes no responsibility for a stream. */
  lemma Starts(s: Sys, t: nat, req: Request, host: Host, pc: Thread, p: Pick) returns (acts: seq<Act>)
    requires t < |s.threads| && s.threads[t] == Starting(req) && !req.StreamClose? && !req.ClosePlugin? && p.ok
    requires FirstSection(s.host, req) == (host, pc)
    ensures Exec(s, acts) == Some(At(s, t, host, pc)) && OnlyStepsOf(acts, t)
  {
    assert At(s, t, s.host, s.threads[t]) == s;
    acts := ThenAt(s, [], t, s.host, s.threads[t], p, host, pc);
  }

  /**
   * An Invoke on an open plugin that is not disturbed enters the library by the function
   * that it exports for the service, which is cached from then on; if it exports none,
   * the call ends and has changed nothing.
   */
  lemma InvokeReachesTheService(s: Sys, t: nat, svc: string, p: Pick) returns (acts: seq<Act>)
    requires CacheIsTheLibrarys(s.host, s.lib) && !s.host.closed && s.host.handle != 0
    requires t < |s.threads| && s.threads[t] == Starting(Invoke(svc)) && p.ok
    ensures OnlyStepsOf(acts, t)
    ensures var fn, h := s.lib.Invoker(svc), s.host;
      Exec(s, acts) == Some(
        if fn != 0 then At(s, t, h.(wg := h.wg + 1, invokers := h.invokers[svc := fn]), InvIn(svc, fn))
        else At(s, t, h, Ready))
  {
    var fn, h := s.lib.Invoker(svc), s.host.(wg := s.host.wg + 1);
    acts := Starts(s, t, Invoke(svc), h, InvHeld(svc), p);
    if svc in h.invokers {
      assert h.invokers[svc := fn] == h.invokers;
      acts := ThenAt(s, acts, t, h, InvHeld(svc), p, h, InvReady(svc, fn));
      acts := ThenAt(s, acts, t, h, InvReady(svc, fn), p, h, InvIn(svc, fn));
    } else {
      acts := ThenAt(s, acts, t, h, InvHeld(svc), p, h, InvMiss(svc));
      acts := InvokeLooksUp(s, acts, t, h, svc, p);
    }
  }

  lemma InvokeLooksUp(s: Sys, pre: seq<Act>, t: nat, h: Host, svc: string, p: Pick) returns (acts: seq<Act>)
    requires t < |s.threads| && Exec(s, pre) == Some(At(s, t, h, InvMiss(svc))) && OnlyStepsOf(pre, t) && p.ok
    requires svc !in h.invokers && !h.closed && h.handle != 0 && h.wg > 0
    ensures OnlyStepsOf(acts, t)
    ensures var fn := s.lib.Invoker(svc);
      Exec(s, acts) == Some(if fn != 0 then At(s, t, h.(invokers := h.invokers[svc := fn]), InvIn(svc, fn))
                            else At(s, t, h.(wg := h.wg - 1), Ready))
  {
    var fn := s.lib.Invoker(svc);
    if fn != 0 {
      var n := h.(invokers := h.invokers[svc := fn]);
      acts := ThenAt(s, pre, t, h, InvMiss(svc), p, n, InvReady(svc, fn));
      acts := ThenAt(s, acts, t, n, InvReady(svc, fn), p, n, InvIn(svc, fn));
    } else {
      acts := InvokeEnds(s, pre, t, h, svc, p);
    }
  }

  lemma InvokeEnds(s: Sys, pre: seq<Act>, t: nat, h: Host, svc: string, p: Pick) returns (acts: seq<Act>)
    requires t < |s.threads| && Exec(s, pre) == Some(At(s, t, h, InvMiss(svc))) && OnlyStepsOf(pre, t) && p.ok
    requires svc !in h.invokers && !h.closed && h.handle != 0 && h.wg > 0 && s.lib.Invoker(svc) == 0
    ensures OnlyStepsOf(acts, t) && Exec(s, acts) == Some(At(s, t, h.(wg := h.wg - 1), Ready))
  {
    acts := ThenAt(s, pre, t, h, InvMiss(svc), p, h, InvOut);
    acts := ThenAt(s, acts, t, h, InvOut, p, h.(wg := h.wg - 1), Ready);
  }

  /** What the record has cached after an undisturbed OpenStream found the service. */
  function WithOpener(h: Host, lib: Library, svc: string): Host {
    h.(streamOpeners := h.streamOpeners[svc := lib.Opener(svc)], streamFuncs := Some(lib.funcs))
  }

  predicate Streams(lib: Library, svc: string) {
    lib.Opener(svc) != 0 && lib.funcs.Complete()
  }

  /** The system after an undisturbed OpenStream found the service and got a stream of kind `k`. */
  function WithStream(s: Sys, t: nat, h: Host, k: Kind): Sys
    requires t < |s.threads|
  {
    var id := s.counter + 1;
    At(s, t, h.(activeStreams := h.activeStreams + {id}), Ready)
      .(streams := s.streams[id := NewStream(k)], counter := id, owner := s.owner[id := Tracked])
  }

  /**
   * An OpenStream on an open plugin that is not disturbed: if the library exports the
   * service's open function and all four stream functions, and grants a stream, that
   * stream is there, fresh, and the record's to close; otherwise there is none.
   */
  lemma OpenStreamOpens(s: Sys, t: nat, svc: string, p: Pick) returns (acts: seq<Act>, n: Sys)
    requires CacheIsTheLibrarys(s.host, s.lib) && FuncsReady(s) && !s.host.closed && s.host.handle != 0
    requires t < |s.threads| && s.threads[t] == Starting(OpenStream(svc)) && p.ok
    ensures OnlyStepsOf(acts, t) && Exec(s, acts) == Some(n)
    ensures n == if Streams(s.lib, svc) then WithStream(s, t, WithOpener(s.host, s.lib, svc), p.kind)
                 else At(s, t, s.host.(streamFuncs := n.host.streamFuncs), Ready)
  {
    var h := s.host.(wg := s.host.wg + 1);
    acts := Starts(s, t, OpenStream(svc), h, OpnHeld(svc), p);
    assert h.(wg := h.wg - 1) == s.host;
    if svc in h.streamOpeners {
      acts, n := OpenCached(s, acts, t, h, svc, p);
    } else {
      acts := ThenAt(s, acts, t, h, OpnHeld(svc), p, h, OpnMiss(svc));
      acts, n := OpenLooksUp(s, acts, t, h, svc, p);
    }
  }

  lemma OpenCached(s: Sys, pre: seq<Act>, t: nat, h: Host, svc: string, p: Pick) returns (acts: seq<Act>, n: Sys)
    requires t < |s.threads| && Exec(s, pre) == Some(At(s, t, h, OpnHeld(svc))) && OnlyStepsOf(pre, t) && p.ok
    requires svc in h.streamOpeners && h.streamOpeners[svc] == s.lib.Opener(svc) && h.streamFuncs == Some(s.lib.funcs)
    requires !h.closed && h.wg > 0
    ensures OnlyStepsOf(acts, t) && Exec(s, acts) == Some(n)
    ensures n == WithStream(s, t, WithOpener(h.(wg := h.wg - 1), s.lib, svc), p.kind)
  {
    assert WithOpener(h, s.lib, svc) == h;
    acts := ThenAt(s, pre, t, h, OpnHeld(svc), p, h, OpnReady(svc, s.lib.Opener(svc)));
    acts, n := OpenGetsStream(s, acts, t, h, svc, p);
  }

  lemma OpenLooksUp(s: Sys, pre: seq<Act>, t: nat, h: Host, svc: string, p: Pick) returns (acts: seq<Act>, n: Sys)
    requires t < |s.threads| && Exec(s, pre) == Some(At(s, t, h, OpnMiss(svc))) && OnlyStepsOf(pre, t) && p.ok
    requires svc !in h.streamOpeners && !h.closed && h.handle != 0 && h.wg > 0
    requires h.streamFuncs.Some? ==> h.streamFuncs.value == s.lib.funcs && s.lib.funcs.Complete()
    ensures OnlyStepsOf(acts, t) && Exec(s, acts) == Some(n)
    ensures var g := h.(wg := h.wg - 1);
      n == if Streams(s.lib, svc) then WithStream(s, t, WithOpener(g, s.lib, svc), p.kind)
           else At(s, t, g.(streamFuncs := n.host.streamFuncs), Ready)
  {
    if Streams(s.lib, svc) {
      var m := WithOpener(h, s.lib, svc);
      acts := ThenAt(s, pre, t, h, OpnMiss(svc), p, m, OpnReady(svc, s.lib.Opener(svc)));
      acts, n := OpenGetsStream(s, acts, t, m, svc, p);
    } else {
      acts, n := OpenEnds(s, pre, t, h, svc, p);
    }
  }

  lemma OpenEnds(s: Sys, pre: seq<Act>, t: nat, h: Host, svc: string, p: Pick) returns (acts: seq<Act>, n: Sys)
    requires t < |s.threads| && Exec(s, pre) == Some(At(s, t, h, OpnMiss(svc))) && OnlyStepsOf(pre, t) && p.ok
    requires svc !in h.streamOpeners && !h.closed && h.handle != 0 && h.wg > 0 && !Streams(s.lib, svc)
    requires h.streamFuncs.Some? ==> h.streamFuncs.value == s.lib.funcs && s.lib.funcs.Complete()
    ensures OnlyStepsOf(acts, t) && Exec(s, acts) == Some(n)
    ensures n == At(s, t, h.(wg := h.wg - 1, streamFuncs := n.host.streamFuncs), Ready)
  {
    var m := FindsNothing(h, s.lib, svc, p);
    acts := ThenAt(s, pre, t, h, OpnMiss(svc), p, m, OpnOut);
    acts := GivesUp(s, acts, t, m, p);
    n := At(s, t, m.(wg := m.wg - 1), Ready);
  }

  lemma GivesUp(s: Sys, pre: seq<Act>, t: nat, h: Host, p: Pick) returns (acts: seq<Act>)
    requires t < |s.threads| && Exec(s, pre) == Some(At(s, t, h, OpnOut)) && OnlyStepsOf(pre, t) && p.ok && h.wg > 0
    ensures OnlyStepsOf(acts, t) && Exec(s, acts) == Some(At(s, t, h.(wg := h.wg - 1), Ready))
  {
    acts := ThenAt(s, pre, t, h, OpnOut, p, h.(wg := h.wg - 1), Ready);
  }

  lemma FindsNothing(h: Host, lib: Library, svc: string, p: Pick) returns (m: Host)
    requires svc !in h.streamOpeners && !h.closed && h.handle != 0 && !Streams(lib, svc)
    requires h.streamFuncs.Some? ==> h.streamFuncs.value == lib.funcs && lib.funcs.Complete()
    ensures m == h.(streamFuncs := m.streamFuncs)
    ensures forall i, c :: Advance(h, lib, OpnMiss(svc), p, i, c, CallPc.Idle) == (m, OpnOut)
  {
    m := h.ResolveOpener(svc, lib.funcs, lib.Opener(svc)).0;
  }

  lemma OpenGetsStream(s: Sys, pre: seq<Act>, t: nat, h: Host, svc: string, p: Pick) returns (acts: seq<Act>, n: Sys)
    requires t < |s.threads| && Exec(s, pre) == Some(At(s, t, h, OpnReady(svc, s.lib.Opener(svc))))
    requires OnlyStepsOf(pre, t) && p.ok && !h.closed && h.wg > 0
    ensures OnlyStepsOf(acts, t) && Exec(s, acts) == Some(n) && n == WithStream(s, t, h.(wg := h.wg - 1), p.kind)
  {
    var fn := s.lib.Opener(svc);
    acts := ThenAt(s, pre, t, h, OpnReady(svc, fn), p, h, OpnIn(svc, fn));
    acts := Granted(s, acts, t, h, OpnIn(svc, fn), p);
    acts, n := OpenTracks(s, acts, t, h, p.kind, p);
  }

  /** The system when the library has granted a stream that thread `t` has not tracked yet. */
  function WithGrant(s: Sys, t: nat, h: Host, k: Kind): Sys
    requires t < |s.threads|
  {
    var id := s.counter + 1;
    At(s, t, h, OpnGot(id)).(streams := s.streams[id := NewStream(k)], counter := id, owner := s.owner[id := Held(t)])
  }

  lemma Granted(s: Sys, pre: seq<Act>, t: nat, h: Host, pc: Thread, p: Pick) returns (acts: seq<Act>)
    requires t < |s.threads| && Exec(s, pre) == Some(At(s, t, h, pc)) && OnlyStepsOf(pre, t) && pc.OpnIn? && p.ok
    ensures OnlyStepsOf(acts, t) && Exec(s, acts) == Some(WithGrant(s, t, h, p.kind))
  {
    var m, n := At(s, t, h, pc), WithGrant(s, t, h, p.kind);
    assert m.threads[t := OpnGot(s.counter + 1)] == n.threads;
    GrantStep(m, t, p);
    acts := Then(s, pre, m, t, p, n);
  }

  lemma GrantStep(m: Sys, t: nat, p: Pick)
    requires t < |m.threads| && m.threads[t].OpnIn? && p.ok
    ensures var id := m.counter + 1;
      Enabled(m, Step(t, p)) && StepOf(m, t, p) ==
        m.(threads := m.threads[t := OpnGot(id)], streams := m.streams[id := NewStream(p.kind)], counter := id,
           owner := m.owner[id := Held(t)])
  {
  }

  lemma OpenTracks(s: Sys, pre: seq<Act>, t: nat, h: Host, k: Kind, p: Pick) returns (acts: seq<Act>, n: Sys)
    requires t < |s.threads| && Exec(s, pre) == Some(WithGrant(s, t, h, k)) && OnlyStepsOf(pre, t)
    requires !h.closed && h.wg > 0
    ensures OnlyStepsOf(acts, t) && Exec(s, acts) == Some(n) && n == WithStream(s, t, h.(wg := h.wg - 1), k)
  {
    var id, o := s.counter + 1, WithGrant(s, t, h, k);
    var m := h.(activeStreams := h.activeStreams + {id});
    TrackStep(o, t, id, p);
    acts := Then(s, pre, o, t, p, At(o, t, m, OpnOut).(owner := o.owner[id := Tracked]));
    acts, n := OpenReturns(s, acts, t, h, k, p);
  }

  lemma TrackStep(m: Sys, t: nat, id: nat, p: Pick)
    requires t < |m.threads| && m.threads[t] == OpnGot(id) && !m.host.closed
    ensures var h := m.host.(activeStreams := m.host.activeStreams + {id});
      Enabled(m, Step(t, p)) && StepOf(m, t, p) == At(m, t, h, OpnOut).(owner := m.owner[id := Tracked])
  {
  }

  lemma OpenReturns(s: Sys, pre: seq<Act>, t: nat, h: Host, k: Kind, p: Pick) returns (acts: seq<Act>, n: Sys)
    requires t < |s.threads| && OnlyStepsOf(pre, t) && h.wg > 0
    requires var id, o := s.counter + 1, WithGrant(s, t, h, k);
      var m := h.(activeStreams := h.activeStreams + {id});
      Exec(s, pre) == Some(At(o, t, m, OpnOut).(owner := o.owner[id := Tracked]))
    ensures OnlyStepsOf(acts, t) && Exec(s, acts) == Some(n) && n == WithStream(s, t, h.(wg := h.wg - 1), k)
  {
    var m := Exec(s, pre).value;
    n := WithStream(s, t, h.(wg := h.wg - 1), k);
    assert m.owner == n.owner && m.threads[t := Ready] == n.threads && m.host.(wg := m.host.wg - 1) == n.host;
    LeaveStep(m, t, p);
    acts := Then(s, pre, m, t, p, n);
  }

  lemma LeaveStep(m: Sys, t: nat, p: Pick)
    requires t < |m.threads| && m.threads[t].OpnOut? && m.host.wg > 0
    ensures Enabled(m, Step(t, p)) && StepOf(m, t, p) == At(m, t, m.host.(wg := m.host.wg - 1), Ready)
  {
  }

  /** A stream operation on an open plugin that is not disturbed enters its function on its stream. */
  lemma StreamOpEnters(s: Sys, t: nat, op: Op, h: nat, p: Pick) returns (acts: seq<Act>)
    requires !s.host.closed && s.host.streamFuncs.Some?
    requires t < |s.threads| && s.threads[t] == Starting(StreamOp(op, h)) && p.ok
    ensures OnlyStepsOf(acts, t)
    ensures var pc := InCall(h, Entry(op, s.calls), ForOp(op, OpFn(s.host, op)));
      Exec(s, acts) == Some(At(s, t, s.host.(wg := s.host.wg + 1), pc).(calls := s.calls + if op.OpSend? then 1 else 0))
  {
    var g := s.host.(wg := s.host.wg + 1);
    acts := Starts(s, t, StreamOp(op, h), g, OpHeld(op, h), p);
    var held := At(s, t, g, OpHeld(op, h));
    EnterStep(held, t, p);
    var pc := InCall(h, Entry(op, s.calls), ForOp(op, OpFn(s.host, op)));
    assert held.threads[t := pc] == s.threads[t := pc];
    acts := Then(s, acts, held, t, p, StepOf(held, t, p));
  }

  lemma EnterStep(m: Sys, t: nat, p: Pick)
    requires t < |m.threads| && m.threads[t].OpHeld? && p.ok
    ensures Enabled(m, Step(t, p))
    ensures var op := m.threads[t].op;
      StepOf(m, t, p) ==
        m.(threads := m.threads[t := InCall(m.threads[t].stream, Entry(op, m.calls), ForOp(op, OpFn(m.host, op)))],
           calls := m.calls + if op.OpSend? then 1 else 0)
  {
  }

  // ----- half-closing in the system -----

  /** What an action does to a stream that is open, as far as half-closing is concerned. */
  lemma StreamGrows(s: Sys, a: Act, h: nat)
    requires Ownership(s) && h in s.streams && Runs.Inv(Project(s, h)) && Enabled(s, a)
    ensures var n := Do(s, a); h in n.streams && Runs.Inv(Project(n, h)) && Runs.Grows(s.streams[h], n.streams[h])
  {
    var b := ProjectStep(s, a, h);
    if b.Some? {
      Runs.StepInv(Project(s, h), b.value);
      Runs.StepGrows(Project(s, h), b.value);
    }
  }

  /** The host can send nothing more on the stream. */
  predicate HalfClosed(ps: PStream) {
    ps.sendCh.Closed() || !ps.registered
  }

  /** Where a StreamCloseSend on stream `h` is, and what it has done; `closed` is the plugin's mark. */
  predicate HalfClosing(ps: PStream, closed: bool, pc: Thread, h: nat) {
    match pc
    case Ready => HalfClosed(ps) || closed
    case Starting(req) => req == StreamOp(OpCloseSend, h)
    case OpHeld(op, k) => op == OpCloseSend && k == h
    case InCall(k, at, why) => k == h && why.ForOp? && InOp(OpCloseSend, at) && (at.CloseSendRet? ==> HalfClosed(ps))
    case OpOut => HalfClosed(ps)
    case _ => false
  }

  lemma HalfClosingAdvance(ps: PStream, host: Host, lib: Library, pc: Thread, p: Pick, issue: nat, call: nat, h: nat)
    requires Releases(pc) ==> host.wg > 0
    requires host.streamFuncs.Some? && !pc.InCall? && HalfClosing(ps, host.closed, pc, h)
    ensures var (n, pc') := Advance(host, lib, pc, p, issue, call, CallPc.Idle);
      n.closed == host.closed && HalfClosing(ps, n.closed, pc', h)
  {
  }

  lemma HalfClosingCall(ps: PStream, at: CallPc, c: Choice)
    requires CallEnabled(ps, at, c) && InOp(OpCloseSend, at) && (ps.closeSend <==> ps.sendCh.Closed())
    ensures var (q, at') := CallDo(ps, at, c); InOp(OpCloseSend, at') && (at'.CloseSendRet? ==> HalfClosed(q))
  {
  }

  lemma HalfClosingOutside(s: Sys, t: nat, p: Pick, h: nat)
    requires Ownership(s) && FuncsReady(s) && h in s.streams && s.host.streamFuncs.Some?
    requires Enabled(s, Step(t, p)) && !s.threads[t].InCall? && HalfClosing(s.streams[h], s.host.closed, s.threads[t], h)
    ensures var n := StepOf(s, t, p); h in n.streams && HalfClosing(n.streams[h], n.host.closed, n.threads[t], h)
  {
    HalfClosingAdvance(s.streams[h], s.host, s.lib, s.threads[t], p, s.counter + 1, s.calls, h);
    OutsideMoves(s, t, p, h);
    StepEffect(s, t, p);
  }

  lemma HalfClosingInside(s: Sys, t: nat, p: Pick, h: nat)
    requires h in s.streams && (s.streams[h].closeSend <==> s.streams[h].sendCh.Closed())
    requires Enabled(s, Step(t, p)) && s.threads[t].InCall? && HalfClosing(s.streams[h], s.host.closed, s.threads[t], h)
    ensures var n := StepOf(s, t, p); h in n.streams && HalfClosing(n.streams[h], n.host.closed, n.threads[t], h)
  {
    CallMoves(s, t, p);
    if !IsReturn(s.threads[t].at) {
      HalfClosingCall(s.streams[h], s.threads[t].at, p.sel);
    }
  }

  /** Whatever others do, a stream that is half-closed stays so, and a plugin that is closed. */
  lemma HalfClosingKept(s: Sys, a: Act, t: nat, h: nat)
    requires Ownership(s) && h in s.streams && Runs.Inv(Project(s, h)) && Enabled(s, a)
    requires t < |s.threads| && HalfClosing(s.streams[h], s.host.closed, s.threads[t], h)
    requires !(a.Begin? && a.t == t) && !(a.Step? && a.t == t)
    ensures var n := Do(s, a);
      h in n.streams && |n.threads| == |s.threads| && HalfClosing(n.streams[h], n.host.closed, n.threads[t], h)
  {
    StreamGrows(s, a, h);
    if s.host.closed {
      Progress.StaysClosed(s, a);
    }
  }

  /** The invariants that the runs below rest on. */
  ghost predicate Good(s: Sys) {
    Inv(s) && CloseCalls(s) && CallsStand(s) && CallIds(s) && StreamsOk(s) && Pointers(s)
  }

  lemma GoodStep(s: Sys, a: Act)
    requires Good(s) && Enabled(s, a)
    ensures Good(Do(s, a))
  {
    StepInv(s, a);
    CloseCallsStep(s, a);
    StandsStep(s, a);
    CallIdsStep(s, a);
    StreamsStep(s, a);
    PointersStep(s, a);
  }

  lemma {:induction false} GoodRun(s: Sys, acts: seq<Act>)
    requires Good(s) && Exec(s, acts).Some?
    ensures Good(Exec(s, acts).value)
    decreases |acts|
  {
    if acts != [] {
      GoodStep(s, acts[0]);
      GoodRun(Do(s, acts[0]), acts[1..]);
    }
  }

  lemma HalfClosingStep(s: Sys, a: Act, t: nat, h: nat)
    requires Good(s) && h in s.streams && Enabled(s, a) && !(a.Begin? && a.t == t)
    requires t < |s.threads| && HalfClosing(s.streams[h], s.host.closed, s.threads[t], h)
    ensures var n := Do(s, a);
      h in n.streams && |n.threads| == |s.threads| && HalfClosing(n.streams[h], n.host.closed, n.threads[t], h)
  {
    assert Runs.Inv(Project(s, h));
    if !a.Step? || a.t != t {
      HalfClosingKept(s, a, t, h);
    } else if s.threads[t].InCall? {
      HalfClosingInside(s, t, a.pick, h);
    } else {
      HalfClosingOutside(s, t, a.pick, h);
    }
  }

  lemma {:induction false} HalfClosingRun(s: Sys, acts: seq<Act>, t: nat, h: nat)
    requires Good(s) && h in s.streams && Exec(s, acts).Some? && StillIn(acts, t)
    requires t < |s.threads| && HalfClosing(s.streams[h], s.host.closed, s.threads[t], h)
    ensures var n := Exec(s, acts).value;
      h in n.streams && |n.threads| == |s.threads| && HalfClosing(n.streams[h], n.host.closed, n.threads[t], h)
    decreases |acts|
  {
    if acts != [] {
      assert acts[0] in acts;
      HalfClosingStep(s, acts[0], t, h);
      GoodStep(s, acts[0]);
      HalfClosingRun(Do(s, acts[0]), acts[1..], t, h);
    }
  }

  lemma {:induction false} GrowsRun(s: Sys, acts: seq<Act>, h: nat)
    requires Good(s) && h in s.streams && Exec(s, acts).Some?
    ensures h in Exec(s, acts).value.streams && Runs.Grows(s.streams[h], Exec(s, acts).value.streams[h])
    decreases |acts|
  {
    if acts != [] {
      assert Runs.Inv(Project(s, h));
      StreamGrows(s, acts[0], h);
      GoodStep(s, acts[0]);
      GrowsRun(Do(s, acts[0]), acts[1..], h);
      Runs.GrowsTransitive(s.streams[h], Do(s, acts[0]).streams[h], Exec(s, acts).value.streams[h]);
    }
  }

  lemma InitGood(s0: Sys)
    requires Init(s0)
    ensures Good(s0)
  {
    InitInv(s0);
  }

  lemma GoodAfter(s0: Sys, acts: seq<Act>, s: Sys)
    requires Init(s0) && Exec(s0, acts) == Some(s)
    ensures Good(s)
  {
    InitGood(s0);
    GoodRun(s0, acts);
  }

  /** A Close of stream `h` that has unregistered it and not closed its send channel yet. */
  predicate WillHalfClose(pc: Thread, h: nat) {
    Closes(pc, h) && HalfClose.WillCloseSend(pc.at)
  }

  /**
   * A StreamCloseSend on an open stream, in any company: when it has left the library, or
   * has returned and the plugin is not closed, the host can send nothing more.  If the
   * stream is still registered its channel is closed; if not, some Close has closed it or
   * is about to.
   */
  lemma StreamCloseSendCloses(s0: Sys, pre: seq<Act>, s: Sys, t: nat, h: nat, more: seq<Act>, n: Sys)
    requires Init(s0) && Exec(s0, pre) == Some(s) && h in s.streams
    requires t < |s.threads| && s.threads[t] == Starting(StreamOp(OpCloseSend, h))
    requires Exec(s, more) == Some(n) && StillIn(more, t) && t < |n.threads|
    requires n.threads[t].OpOut? || (n.threads[t].Ready? && !n.host.closed)
    ensures h in n.streams && (n.streams[h].registered ==> n.streams[h].sendCh.Closed())
    ensures n.streams[h].sendCh.Closed() || exists u :: 0 <= u < |n.threads| && WillHalfClose(n.threads[u], h)
  {
    GoodAfter(s0, pre, s);
    HalfClosedAfter(s, more, t, h, n);
    OneStream(n, h);
    GoneIsClosing(n, h);
  }

  lemma HalfClosedAfter(s: Sys, more: seq<Act>, t: nat, h: nat, n: Sys)
    requires Good(s) && h in s.streams && t < |s.threads| && s.threads[t] == Starting(StreamOp(OpCloseSend, h))
    requires Exec(s, more) == Some(n) && StillIn(more, t) && t < |n.threads|
    requires n.threads[t].OpOut? || (n.threads[t].Ready? && !n.host.closed)
    ensures Good(n) && h in n.streams && HalfClosed(n.streams[h])
  {
    HalfClosingRun(s, more, t, h);
    GoodRun(s, more);
  }

  lemma GoneIsClosing(s: Sys, h: nat)
    requires CloseCalls(s) && h in s.streams && (s.streams[h].closeSend <==> s.streams[h].sendCh.Closed())
    ensures s.streams[h].registered || s.streams[h].sendCh.Closed()
            || exists u :: 0 <= u < |s.threads| && WillHalfClose(s.threads[u], h)
  {
    assert StreamCloses(s, h);
    if !s.streams[h].registered && !s.streams[h].sendCh.Closed() {
      assert WillHalfClose(s.threads[s.owner[h].t], h);
    }
  }

  lemma OneStream(s: Sys, h: nat)
    requires Good(s) && h in s.streams
    ensures Runs.Conserved(s.streams[h]) && CloseCalls(s)
  {
    assert Runs.Inv(Project(s, h));
  }

  lemma StaysHalfClosed(s0: Sys, pre: seq<Act>, n: Sys, h: nat, later: seq<Act>, q: Sys)
    requires Init(s0) && Exec(s0, pre) == Some(n) && h in n.streams && n.streams[h].sendCh.Closed()
    requires Exec(n, later) == Some(q) && h in q.streams
    ensures Runs.Conserved(q.streams[h]) && q.streams[h].sendCh.Closed()
    ensures q.streams[h].hist.accepted == n.streams[h].hist.accepted
  {
    GoodAfter(s0, pre, n);
    GrowsRun(n, later, h);
    GoodRun(n, later);
    OneStream(q, h);
  }

  lemma ReadsNext(ps: PStream)
    requires Runs.Conserved(ps) && ps.sendCh.Closed() && (ps.pc == HRecv || ps.pc == HInit)
    ensures var a, h := if ps.pc == HRecv then RecvReady else InitRecv(None), ps.hist;
      && HandlerEnabled(ps, a) && |h.read| <= |h.accepted| && HandlerDo(ps, a).pc == HUser
      && HandlerDo(ps, a).hist.readLog ==
           h.readLog + [if |h.read| < |h.accepted| then ReadData(h.accepted[|h.read|]) else ReadEof]
  {
    Runs.ReadAlone(ps, if ps.pc == HRecv then RecvReady else InitRecv(None));
  }

  /**
   * And from then on, as long as the stream is not cancelled, each read of its handler
   * gives the next message that had been accepted by the time StreamCloseSend was over,
   * and end-of-file after the last of them.
   */
  lemma HandlerReadsTheRest(s0: Sys, pre: seq<Act>, n: Sys, h: nat, later: seq<Act>, q: Sys)
    requires Init(s0) && Exec(s0, pre) == Some(n) && h in n.streams && n.streams[h].sendCh.Closed()
    requires Exec(n, later) == Some(q) && h in q.streams
    requires !q.streams[h].cancelled && (q.streams[h].pc == HRecv || q.streams[h].pc == HInit)
    ensures var a, l := if q.streams[h].pc == HRecv then RecvReady else InitRecv(None), n.streams[h].hist.accepted;
      && Enabled(q, Handler(h, a)) && |q.streams[h].hist.read| <= |l|
      && var x := Do(q, Handler(h, a)).streams[h];
         && x.pc == HUser
         && x.hist.readLog == q.streams[h].hist.readLog +
              [if |q.streams[h].hist.read| < |l| then ReadData(l[|q.streams[h].hist.read|]) else ReadEof]
  {
    StaysHalfClosed(s0, pre, n, h, later, q);
    ReadsNext(q.streams[h]);
  }
}
