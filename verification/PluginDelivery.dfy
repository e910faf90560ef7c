/**
 * The whole system, seen from one stream, is a run of that stream: what is proved of
 * all runs of one stream holds of every stream in every run of the plugin system.
 */
module PluginDelivery {
  import opened Basics
  import opened PluginServer
  import opened PluginHost
  import opened PluginSystem
  import opened PluginSafety
  import opened PluginClosing
  import Runs = PluginStreamRuns

  /** Where a host thread stands with respect to stream `h`. */
  function View(pc: Thread, h: nat): CallPc {
    if pc.InCall? && pc.stream == h then pc.at else CallPc.Idle
  }

  function Views(threads: seq<Thread>, h: nat): (r: seq<CallPc>)
    ensures |r| == |threads| && forall i | 0 <= i < |threads| :: r[i] == View(threads[i], h)
  {
    if threads == [] then []
    else Views(threads[..|threads|-1], h) + [View(threads[|threads|-1], h)]
  }

  function Project(s: Sys, h: nat): Runs.Machine
    requires h in s.streams
  {
    Runs.Machine(s.streams[h], Views(s.threads, h), s.calls)
  }

  lemma ViewsMove(threads: seq<Thread>, t: nat, pc: Thread, h: nat)
    requires t < |threads|
    ensures Views(threads[t := pc], h) == Views(threads, h)[t := View(pc, h)]
  {
  }

  /** Running Send calls have distinct numbers below the counter. */
  predicate CallIds(s: Sys) {
    && (forall t | 0 <= t < |s.threads| && Sends(s.threads[t]) :: s.threads[t].at.call < s.calls)
    && (forall t, u | 0 <= t < |s.threads| && 0 <= u < |s.threads| && Sends(s.threads[t]) && Sends(s.threads[u]) ::
          s.threads[t].at.call == s.threads[u].at.call ==> t == u)
  }

  predicate Sends(pc: Thread) {
    pc.InCall? && Runs.InSend(pc.at)
  }

  lemma AdvanceEnters(host: Host, lib: Library, pc: Thread, p: Pick, issue: nat, call: nat, next: CallPc)
    requires Releases(pc) ==> host.wg > 0
    requires !pc.InCall? || IsReturn(pc.at)
    ensures var pc' := Advance(host, lib, pc, p, issue, call, next).1;
      && (pc'.InCall? ==> Runs.IsEntry(pc'.at))
      && (pc'.InCall? && pc'.at.SendEnter? <==> pc.OpHeld? && pc.op.OpSend? && p.ok)
      && (Sends(pc') ==> pc'.at.call == call)
  {
  }

  lemma CallIdsStep(s: Sys, a: Act)
    requires CallIds(s) && Enabled(s, a)
    ensures CallIds(Do(s, a))
  {
    if a.Step? {
      var pc, n := s.threads[a.t], Do(s, a);
      if pc.InCall? && !IsReturn(pc.at) {
        Runs.CallFrame(StreamAt(s, pc.stream), pc.at, a.pick.sel);
        CallMoves(s, a.t, a.pick);
      } else {
        AdvanceEnters(s.host, s.lib, pc, a.pick, s.counter + 1, s.calls, NextCallPc(s, pc, a.pick));
      }
      CallIdsMove(s, n, a.t);
    }
  }

  lemma CallIdsMove(s: Sys, n: Sys, t: nat)
    requires CallIds(s) && t < |s.threads| && t < |n.threads| && n.threads == s.threads[t := n.threads[t]] && n.calls >= s.calls
    requires Sends(n.threads[t]) ==>
      || (Sends(s.threads[t]) && n.threads[t].at.call == s.threads[t].at.call)
      || (n.threads[t].at.call == s.calls < n.calls)
    ensures CallIds(n)
  {
  }

  /** Every open stream satisfies the invariant of single streams. */
  predicate StreamsOk(s: Sys) {
    forall h | h in s.streams :: Runs.Inv(Project(s, h))
  }

  /** A step inside the library is, for stream `h`, one of its own steps or none. */
  lemma ProjectCall(s: Sys, t: nat, p: Pick, h: nat) returns (b: Option<Runs.Act>)
    requires Enabled(s, Step(t, p)) && s.threads[t].InCall? && h in s.streams
    ensures h in StepOf(s, t, p).streams && Simulates(s, StepOf(s, t, p), h, b)
  {
    CallMoves(s, t, p);
    var pc := s.threads[t];
    if pc.stream != h {
      OtherCall(s, t, StepOf(s, t, p).threads[t], h);
      b := None;
    } else if IsReturn(pc.at) {
      ViewsMove(s.threads, t, AfterCall(pc.purpose), h);
      b := Some(Runs.Return(t));
    } else {
      ViewsMove(s.threads, t, InCall(h, CallDo(s.streams[h], pc.at, p.sel).1, pc.purpose), h);
      b := Some(Runs.Call(t, p.sel));
    }
  }

  /** What a step inside the library changes in the system. */
  lemma CallMoves(s: Sys, t: nat, p: Pick)
    requires Enabled(s, Step(t, p)) && s.threads[t].InCall?
    ensures var pc, n := s.threads[t], StepOf(s, t, p);
      var (ps, next) := CallEffect(s, pc.stream, pc.at, p.sel);
      && n.threads == s.threads[t := if IsReturn(pc.at) then AfterCall(pc.purpose) else InCall(pc.stream, next, pc.purpose)]
      && n.streams == PutStream(s, pc.stream, ps) && n.calls == s.calls
  {
  }

  /** A thread that is in a call on another stream, or leaves it, is nowhere for this one. */
  lemma OtherCall(s: Sys, t: nat, pc: Thread, h: nat)
    requires t < |s.threads| && View(s.threads[t], h) == CallPc.Idle && View(pc, h) == CallPc.Idle
    ensures Views(s.threads[t := pc], h) == Views(s.threads, h)
  {
    ViewsMove(s.threads, t, pc, h);
    assert Views(s.threads, h)[t := CallPc.Idle] == Views(s.threads, h);
  }

  /** Seen from stream `h`, the system's move from `s` to `n` is action `b`, or nothing. */
  predicate Simulates(s: Sys, n: Sys, h: nat, b: Option<Runs.Act>)
    requires h in s.streams && h in n.streams
  {
    if b.None? then Project(n, h) == Project(s, h)
    else Runs.Enabled(Project(s, h), b.value) && Project(n, h) == Runs.Do(Project(s, h), b.value)
  }

  /** What a step outside the library changes for a stream that is already open. */
  lemma OutsideMoves(s: Sys, t: nat, p: Pick, h: nat)
    requires Ownership(s) && Enabled(s, Step(t, p)) && !s.threads[t].InCall? && h in s.streams
    ensures var n := StepOf(s, t, p);
      var pc' := n.threads[t];
      && h in n.streams && n.streams[h] == s.streams[h] && n.threads == s.threads[t := pc']
      && (pc'.InCall? ==> Runs.IsEntry(pc'.at) && (pc'.at.SendEnter? ==> pc'.at.call == s.calls))
      && n.calls == s.calls + if pc'.InCall? && pc'.at.SendEnter? then 1 else 0
  {
    AdvanceEnters(s.host, s.lib, s.threads[t], p, s.counter + 1, s.calls, NextCallPc(s, s.threads[t], p));
    StreamSteps(s, t, p);
  }

  /** A step outside the library, seen from a stream that is already open. */
  lemma ProjectOutside(s: Sys, t: nat, p: Pick, h: nat) returns (b: Option<Runs.Act>)
    requires Ownership(s) && Enabled(s, Step(t, p)) && !s.threads[t].InCall? && h in s.streams
    ensures h in StepOf(s, t, p).streams && Simulates(s, StepOf(s, t, p), h, b)
  {
    OutsideMoves(s, t, p, h);
    b := SimulatesEntry(s, StepOf(s, t, p), t, h);
  }

  lemma SimulatesEntry(s: Sys, n: Sys, t: nat, h: nat) returns (b: Option<Runs.Act>)
    requires h in s.streams && h in n.streams && n.streams[h] == s.streams[h]
    requires t < |s.threads| && !s.threads[t].InCall? && t < |n.threads| && n.threads == s.threads[t := n.threads[t]]
    requires var pc' := n.threads[t];
      && (pc'.InCall? ==> Runs.IsEntry(pc'.at) && (pc'.at.SendEnter? ==> pc'.at.call == s.calls))
      && n.calls == s.calls + if pc'.InCall? && pc'.at.SendEnter? then 1 else 0
    ensures Simulates(s, n, h, b)
  {
    var pc' := n.threads[t];
    if pc'.InCall? && pc'.stream == h {
      ViewsMove(s.threads, t, pc', h);
      b := Some(Runs.Start(t, pc'.at));
    } else {
      OtherCall(s, t, pc', h);
      b := if n.calls == s.calls then None else Some(Runs.OtherStream);
    }
  }

  lemma ProjectOther(s: Sys, a: Act, h: nat) returns (b: Option<Runs.Act>)
    requires Enabled(s, a) && !a.Step? && h in s.streams
    ensures h in Do(s, a).streams && Simulates(s, Do(s, a), h, b)
  {
    match a
    case Begin(t, req) =>
      ViewsMove(s.threads, t, Starting(req), h);
      assert Views(s.threads, h)[t := CallPc.Idle] == Views(s.threads, h);
      b := None;
    case Handler(k, act) => b := if k == h then Some(Runs.Handler(act)) else None;
  }

  /** Every action of the system is an action, or nothing, for each stream that is open. */
  lemma ProjectStep(s: Sys, a: Act, h: nat) returns (b: Option<Runs.Act>)
    requires Ownership(s) && Enabled(s, a) && h in s.streams
    ensures h in Do(s, a).streams && Simulates(s, Do(s, a), h, b)
  {
    if a.Step? {
      if s.threads[a.t].InCall? {
        b := ProjectCall(s, a.t, a.pick, h);
      } else {
        b := ProjectOutside(s, a.t, a.pick, h);
      }
    } else {
      b := ProjectOther(s, a, h);
    }
  }

  lemma OpensEffect(s: Sys, t: nat, p: Pick)
    requires Enabled(s, Step(t, p)) && Opens(s.threads[t], p)
    ensures var h, n := s.counter + 1, StepOf(s, t, p);
      && n.threads == s.threads[t := OpnGot(h)] && n.streams == s.streams[h := NewStream(p.kind)] && n.calls == s.calls
  {
  }

  /** A stream that the step opens starts in an initial state. */
  lemma ProjectOpened(s: Sys, t: nat, p: Pick)
    requires Ownership(s) && CallsStand(s) && CallIds(s) && Enabled(s, Step(t, p)) && Opens(s.threads[t], p)
    ensures var n := StepOf(s, t, p); Runs.Inv(Project(n, s.counter + 1))
  {
    var h, n := s.counter + 1, StepOf(s, t, p);
    OpensEffect(s, t, p);
    assert h !in s.owner;
    NewStreamInit(s, n, t, h);
    Runs.InitInv(Project(n, h));
  }

  lemma NewStreamInit(s: Sys, n: Sys, t: nat, h: nat)
    requires CallsStand(s) && CallIds(s) && t < |s.threads| && h !in s.streams
    requires h in n.streams && n.streams[h] == NewStream(n.streams[h].kind)
    requires n.threads == s.threads[t := OpnGot(h)] && n.calls == s.calls
    ensures Runs.Init(Project(n, h))
  {
    var m := Project(n, h);
    forall u | 0 <= u < |m.threads|
      ensures m.threads[u].Idle? || Runs.IsEntry(m.threads[u]) || Runs.IsMissReturn(m.threads[u])
    {
      assert Stands(s.streams.Keys, s.threads[u]);
    }
  }

  lemma StreamsStep(s: Sys, a: Act)
    requires Inv(s) && CallsStand(s) && CallIds(s) && StreamsOk(s) && Enabled(s, a)
    ensures StreamsOk(Do(s, a))
  {
    forall h | h in Do(s, a).streams
      ensures Runs.Inv(Project(Do(s, a), h))
    {
      if h in s.streams {
        OpenStreamStep(s, a, Do(s, a), h);
      } else {
        NewStreamStep(s, a, h);
      }
    }
  }

  lemma OpenStreamStep(s: Sys, a: Act, n: Sys, h: nat)
    requires Ownership(s) && Enabled(s, a) && n == Do(s, a)
    requires h in s.streams && h in n.streams && Runs.Inv(Project(s, h))
    ensures Runs.Inv(Project(n, h))
  {
    var b := ProjectStep(s, a, h);
    SimulationKeeps(Project(s, h), Project(n, h), b);
  }

  lemma NewStreamStep(s: Sys, a: Act, h: nat)
    requires Ownership(s) && CallsStand(s) && CallIds(s) && Enabled(s, a)
    requires h !in s.streams && h in Do(s, a).streams
    ensures Runs.Inv(Project(Do(s, a), h))
  {
    OnlyOpenAdds(s, a, h);
    ProjectOpened(s, a.t, a.pick);
  }

  lemma SimulationKeeps(m: Runs.Machine, n: Runs.Machine, b: Option<Runs.Act>)
    requires Runs.Inv(m)
    requires if b.None? then n == m else Runs.Enabled(m, b.value) && n == Runs.Do(m, b.value)
    ensures Runs.Inv(n)
  {
    if b.Some? {
      Runs.StepInv(m, b.value);
    }
  }

  lemma OnlyOpenAdds(s: Sys, a: Act, h: nat)
    requires Enabled(s, a) && h !in s.streams && h in Do(s, a).streams
    ensures a.Step? && Opens(s.threads[a.t], a.pick) && h == s.counter + 1
  {
  }

  lemma {:induction false} ExecStreams(s: Sys, acts: seq<Act>)
    requires Inv(s) && CallsStand(s) && CallIds(s) && StreamsOk(s) && Exec(s, acts).Some?
    ensures StreamsOk(Exec(s, acts).value)
    decreases |acts|
  {
    if acts != [] {
      StepInv(s, acts[0]);
      StandsStep(s, acts[0]);
      CallIdsStep(s, acts[0]);
      StreamsStep(s, acts[0]);
      ExecStreams(Do(s, acts[0]), acts[1..]);
    }
  }

  /** Every stream of every run of the system is in a state that its own runs can keep. */
  lemma EveryStreamKeepsItsInvariant(s0: Sys, acts: seq<Act>, h: nat)
    requires Init(s0) && Exec(s0, acts).Some? && h in Exec(s0, acts).value.streams
    ensures Runs.Inv(Project(Exec(s0, acts).value, h))
  {
    InitInv(s0);
    ExecStreams(s0, acts);
  }

  /**
   * In every run of the system, on every stream: the host receives a prefix of what the
   * handler sent, all of it when it is told end-of-file after a success it did not cut
   * short; the handler reads a prefix of what the host enqueued; a Send reported 0
   * exactly when its message was enqueued; no channel was closed twice.
   */
  lemma DeliveryInTheSystem(s0: Sys, acts: seq<Act>, h: nat)
    requires Init(s0) && Exec(s0, acts).Some? && h in Exec(s0, acts).value.streams
    ensures var ps := Exec(s0, acts).value.streams[h];
      && Runs.Payloads(ps.hist.recvLog) <= ps.hist.sent
      && (ps.registered && ps.outcome == Succeeded && REof in ps.hist.recvLog ==>
            Runs.Payloads(ps.hist.recvLog) == ps.hist.sent && Runs.DataThenEof(ps.hist.recvLog))
      && Runs.Items(ps.hist.readLog) <= ps.hist.accepted
      && (forall n | n in ps.hist.codes :: ps.hist.codes[n] == 0 <==> n in Runs.AcceptedIds(ps))
      && ps.sendCh.closes <= 1 && ps.recvCh.closes <= 1
  {
    EveryStreamKeepsItsInvariant(s0, acts, h);
    Runs.EofLogged(Exec(s0, acts).value.streams[h].hist.recvLog);
  }
}
