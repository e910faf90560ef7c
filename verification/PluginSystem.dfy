/**
 * The whole plugin system: one loaded plugin, any number of host threads calling
 * Invoke, OpenStream, StreamSend, StreamRecv, StreamCloseSend, StreamClose and Close
 * (pkg/synurang/plugin.go), and, inside the library, every stream they open
 * (PluginServer) with its handler goroutine.
 *
 * A thread is a control point; one action moves one thread past one mutex section, one
 * platform call boundary, one channel operation or one WaitGroup operation.
 */
module PluginSystem {
  import opened Basics
  import opened PluginServer
  import opened PluginHost
  import Runs = PluginStreamRuns

  datatype Op = OpSend(msg: Bytes) | OpRecv | OpCloseSend

  datatype Request =
    | Invoke(service: string)
    | OpenStream(service: string)
    | StreamOp(op: Op, stream: nat)
    | StreamClose(stream: nat)
    | ClosePlugin

  /** On whose behalf a thread is inside a stream function of the library, and the pointer it called. */
  datatype Purpose =
    | ForOp(op: Op, fn: nat)
    | ForLateOpen(fn: nat)
    | ForStreamClose(fn: nat)
    | ForPluginClose(todo: set<nat>, fn: nat)

  datatype Thread =
    | Ready
    | Starting(req: Request)
    // Invoke
    | InvHeld(service: string)
    | InvMiss(service: string)
    | InvReady(service: string, fn: nat)
    | InvIn(service: string, fn: nat)
    | InvOut
    // OpenStream
    | OpnHeld(service: string)
    | OpnMiss(service: string)
    | OpnReady(service: string, fn: nat)
    | OpnIn(service: string, fn: nat)
    | OpnGot(stream: nat)
    | OpnLate(stream: nat)
    | OpnLateAdded(stream: nat)
    | OpnLateOut
    | OpnOut
    // StreamSend, StreamRecv, StreamCloseSend
    | OpHeld(op: Op, stream: nat)
    | OpOut
    // StreamClose
    | ScHeld(stream: nat, closeFn: nat)
    | ScOut
    // Close
    | ClsLoop(todo: set<nat>, closeFn: nat)
    | ClsAdded(stream: nat, todo: set<nat>, closeFn: nat)
    | ClsAfter(todo: set<nat>, closeFn: nat)
    | ClsWait
    | ClsUnload
    // inside Synurang_Stream_Send, _Recv, _CloseSend or _Close
    | InCall(stream: nat, at: CallPc, purpose: Purpose)

  function AfterCall(p: Purpose): Thread {
    match p
    case ForOp(_, _) => OpOut
    case ForLateOpen(_) => OpnLateOut
    case ForStreamClose(_) => ScOut
    case ForPluginClose(todo, fn) => ClsAfter(todo, fn)
  }

  /** Who is responsible for closing an opened stream, or who has called close on it. */
  datatype Owner = Tracked | Held(t: nat) | Called(t: nat)

  /**
   * `lib` is what the library exports, `counter` its handle counter.  History: `owner` (above), `closeCalls`
   * (the platform close calls started, by handle), `drained` (Close's Wait has passed)
   * and `unloads`.
   */
  datatype Sys = Sys(
    host: Host, lib: Library, threads: seq<Thread>, streams: map<nat, PStream>, counter: nat, calls: nat,
    owner: map<nat, Owner>, closeCalls: multiset<nat>, drained: bool, unloads: nat)

  /** What the environment decides for one step of a thread. */
  datatype Pick = Pick(sel: Choice, kind: Kind, ok: bool, stream: nat)

  datatype Act =
    | Begin(t: nat, req: Request)
    | Step(t: nat, pick: Pick)
    | Handler(stream: nat, act: HandlerAct)

  /** What a look-up of an unknown handle behaves like. */
  const MISSING: PStream := NewStream(UnknownMethod).(registered := false)

  function StreamAt(s: Sys, h: nat): PStream {
    if h in s.streams then s.streams[h] else MISSING
  }

  function PutStream(s: Sys, h: nat, ps: PStream): map<nat, PStream> {
    if h in s.streams then s.streams[h := ps] else s.streams
  }

  predicate Enabled(s: Sys, a: Act) {
    match a
    case Begin(t, req) => t < |s.threads| && s.threads[t].Ready?
    case Step(t, p) => t < |s.threads| && StepEnabled(s, s.threads[t], p)
    case Handler(h, act) => h in s.streams && HandlerEnabled(s.streams[h], act)
  }

  predicate StepEnabled(s: Sys, pc: Thread, p: Pick) {
    match pc
    case Ready => false
    case InCall(h, at, _) => IsReturn(at) || CallEnabled(StreamAt(s, h), at, p.sel)
    case ClsLoop(todo, fn) => fn != 0 && todo != {} ==> p.stream in todo
    case ClsWait => s.host.wg == 0
    case _ => Releases(pc) ==> s.host.wg > 0
  }

  /** The step performs WaitGroup.Done; Go panics if the counter is zero. */
  predicate Releases(pc: Thread) {
    pc.InvOut? || pc.OpnLateOut? || pc.OpnOut? || pc.OpOut? || pc.ScOut? || pc.ClsAfter?
  }

  /** The record and the control point after the first section of a call. */
  function FirstSection(host: Host, req: Request): (Host, Thread) {
    match req
    case Invoke(svc) =>
      var (h, ok) := host.Acquire();
      (h, if ok then InvHeld(svc) else Ready)
    case OpenStream(svc) =>
      var (h, ok) := host.Acquire();
      (h, if ok then OpnHeld(svc) else Ready)
    case StreamOp(op, stream) =>
      var (h, r) := host.AcquireForStreamOp();
      (h, if r.Acquired? then OpHeld(op, stream) else Ready)
    case StreamClose(stream) =>
      var (h, r) := host.ClaimStream(stream);
      (h, if r.Claimed? then ScHeld(stream, r.closeFn) else Ready)
    case ClosePlugin =>
      var (h, r) := host.BeginClose();
      (h, if r.Closing? then ClsLoop(r.handles, r.closeFn) else Ready)
  }

  /** The entry point of an operation; Send calls are numbered. */
  function Entry(op: Op, call: nat): CallPc {
    match op
    case OpSend(m) => SendEnter(call, m)
    case OpRecv => RecvEnter
    case OpCloseSend => CloseSendEnter
  }

  /** The record's pointer for an operation; the source would panic on a record without stream functions. */
  function OpFn(host: Host, op: Op): nat {
    if host.streamFuncs.None? then 0
    else match op
      case OpSend(_) => host.streamFuncs.value.send
      case OpRecv => host.streamFuncs.value.recv
      case OpCloseSend => host.streamFuncs.value.closeSend
  }

  function CloseFn(host: Host): nat {
    if host.streamFuncs.None? then 0 else host.streamFuncs.value.close
  }

  /**
   * One step of a thread: the record and the control point after it.  `issue` is the
   * handle the plugin would issue, `call` the number of the next Send call and `next`
   * where a step inside the library leads.
   */
  function Advance(host: Host, lib: Library, pc: Thread, p: Pick, issue: nat, call: nat, next: CallPc): (Host, Thread)
    requires Releases(pc) ==> host.wg > 0
  {
    match pc
    case Ready => (host, pc)  // not enabled
    case Starting(req) => FirstSection(host, req)
    case InvHeld(svc) => (host, if svc in host.invokers then InvReady(svc, host.invokers[svc]) else InvMiss(svc))
    case InvMiss(svc) =>
      var (h, r) := host.ResolveInvoker(svc, lib.Invoker(svc));
      (h, if r.Found? then InvReady(svc, r.ptr) else InvOut)
    case InvReady(svc, fn) => (host, if p.ok then InvIn(svc, fn) else InvOut)  // data too large: no call
    case InvIn(_, _) => (host, InvOut)
    case InvOut => (host.Done(), Ready)
    case OpnHeld(svc) => (host, if svc in host.streamOpeners then OpnReady(svc, host.streamOpeners[svc]) else OpnMiss(svc))
    case OpnMiss(svc) =>
      var (h, r) := host.ResolveOpener(svc, lib.funcs, lib.Opener(svc));
      (h, if r.Found? then OpnReady(svc, r.ptr) else OpnOut)
    case OpnReady(svc, fn) => (host, OpnIn(svc, fn))
    case OpnIn(_, _) => (host, if p.ok then OpnGot(issue) else OpnOut)  // not ok: the plugin returned 0
    case OpnGot(stream) =>
      var (h, ok) := host.Track(stream);
      (h, if ok then OpnOut else OpnLate(stream))
    case OpnLate(stream) => (host.Add(), OpnLateAdded(stream))
    case OpnLateAdded(stream) => (host, InCall(stream, CloseEnter, ForLateOpen(CloseFn(host))))
    case OpnLateOut => (host.Done(), OpnOut)
    case OpnOut => (host.Done(), Ready)
    case OpHeld(op, stream) =>
      if op.OpSend? && !p.ok then (host, OpOut)  // data too large: no call
      else (host, InCall(stream, Entry(op, call), ForOp(op, OpFn(host, op))))
    case OpOut => (host.Done(), Ready)
    case ScHeld(stream, fn) => (host, InCall(stream, CloseEnter, ForStreamClose(fn)))
    case ScOut => (host.Done(), Ready)
    case ClsLoop(todo, fn) =>
      if fn == 0 || todo == {} then (host, ClsWait)
      else (host.Add(), ClsAdded(p.stream, todo - {p.stream}, fn))
    case ClsAdded(stream, todo, fn) => (host, InCall(stream, CloseEnter, ForPluginClose(todo, fn)))
    case ClsAfter(todo, fn) => (host.Done(), ClsLoop(todo, fn))
    case ClsWait => (host, ClsUnload)
    case ClsUnload => (host.Unload().0, Ready)
    case InCall(stream, at, why) => (host, if IsReturn(at) then AfterCall(why) else InCall(stream, next, why))
  }

  /** Where a step inside the library leads, and what it does to the stream. */
  function CallEffect(s: Sys, h: nat, at: CallPc, c: Choice): (PStream, CallPc)
    requires IsReturn(at) || CallEnabled(StreamAt(s, h), at, c)
  {
    if IsReturn(at) then (Runs.RecordReturn(StreamAt(s, h), at), CallPc.Idle)
    else CallDo(StreamAt(s, h), at, c)
  }

  function NextCallPc(s: Sys, pc: Thread, p: Pick): CallPc
    requires StepEnabled(s, pc, p)
  {
    if pc.InCall? then CallEffect(s, pc.stream, pc.at, p.sel).1 else CallPc.Idle
  }

  function NextStreams(s: Sys, pc: Thread, p: Pick): map<nat, PStream>
    requires StepEnabled(s, pc, p)
  {
    if Opens(pc, p) then s.streams[s.counter + 1 := NewStream(p.kind)]
    else if pc.InCall? then PutStream(s, pc.stream, CallEffect(s, pc.stream, pc.at, p.sel).0)
    else s.streams
  }

  /** The platform open call returns a new handle. */
  predicate Opens(pc: Thread, p: Pick) {
    pc.OpnIn? && p.ok
  }

  /** The step starts the platform close call on the handle the thread holds. */
  predicate StartsClose(pc: Thread) {
    pc.OpnLateAdded? || pc.ScHeld? || pc.ClsAdded?
  }

  /** Responsibility for streams after a step of thread `t` (history). */
  function NextOwner(s: Sys, t: nat, pc: Thread, p: Pick): map<nat, Owner> {
    if Opens(pc, p) then s.owner[s.counter + 1 := Held(t)]
    else if pc.OpnGot? && !s.host.closed then s.owner[pc.stream := Tracked]
    else if StartsClose(pc) then s.owner[pc.stream := Called(t)]
    else if pc.Starting? && pc.req.StreamClose? && !s.host.ClaimStream(pc.req.stream).1.NotMine? then
      s.owner[pc.req.stream := Held(t)]
    else if pc.Starting? && pc.req.ClosePlugin? && !s.host.closed then
      map h | h in s.owner :: if s.owner[h].Tracked? then Held(t) else s.owner[h]
    else s.owner
  }

  function StepOf(s: Sys, t: nat, p: Pick): Sys
    requires t < |s.threads| && StepEnabled(s, s.threads[t], p)
  {
    var pc := s.threads[t];
    var (host, pc') := Advance(s.host, s.lib, pc, p, s.counter + 1, s.calls, NextCallPc(s, pc, p));
    Sys(host, s.lib, s.threads[t := pc'], NextStreams(s, pc, p),
        if Opens(pc, p) then s.counter + 1 else s.counter,
        if pc.OpHeld? && pc.op.OpSend? && p.ok then s.calls + 1 else s.calls,
        NextOwner(s, t, pc, p),
        if StartsClose(pc) then s.closeCalls + multiset{pc.stream} else s.closeCalls,
        s.drained || pc.ClsWait?,
        if pc.ClsUnload? && s.host.Unload().1 then s.unloads + 1 else s.unloads)
  }

  function Do(s: Sys, a: Act): Sys
    requires Enabled(s, a)
  {
    match a
    case Begin(t, req) => s.(threads := s.threads[t := Starting(req)])
    case Step(t, p) => StepOf(s, t, p)
    case Handler(h, act) => s.(streams := s.streams[h := HandlerDo(s.streams[h], act)])
  }

  function Exec(s: Sys, acts: seq<Act>): Option<Sys>
    decreases |acts|
  {
    if acts == [] then Some(s)
    else if Enabled(s, acts[0]) then Exec(Do(s, acts[0]), acts[1..])
    else None
  }

  /** A plugin that has just been loaded, with idle threads. */
  predicate Init(s: Sys) {
    && s.host == Loaded(s.host.handle) && s.host.handle != 0
    && (forall t | 0 <= t < |s.threads| :: s.threads[t].Ready?)
    && s.streams == map[] && s.counter == 0 && s.calls == 0
    && s.owner == map[] && s.closeCalls == multiset{} && !s.drained && s.unloads == 0
  }
}
