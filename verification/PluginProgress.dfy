/** Once Close has begun, the work left in the host's threads only shrinks, and never stalls. */
module PluginProgress {
  import opened Basics
  import opened PluginServer
  import opened PluginHost
  import opened PluginSystem
  import opened PluginSafety
  import opened PluginClosing
  import Sums

  /** An upper bound on the steps left inside an exported stream function. */
  function CallRank(at: CallPc): nat {
    match at
    case Idle => 0
    case SendEnter(_, _) => 4
    case SendLock(_, _) => 3
    case SendSelect(_, _) => 2
    case RecvEnter => 6
    case RecvPoll => 5
    case RecvPollErr => 4
    case RecvWait => 3
    case RecvDrained => 2
    case RecvRecheck => 2
    case CloseSendEnter => 3
    case CloseSendLock => 2
    case CloseEnter => 5
    case CloseCancel => 4
    case CloseCloseSend => 3
    case CloseCloseRecv => 2
    case _ => 1
  }

  /** An upper bound on the steps left in a call that is past its first section. */
  function Rank(pc: Thread): nat {
    match pc
    case Ready => 0
    case Starting(_) => 0
    case InvHeld(_) => 5
    case InvMiss(_) => 4
    case InvReady(_, _) => 3
    case InvIn(_, _) => 2
    case InvOut => 1
    case OpnHeld(_) => 14
    case OpnMiss(_) => 13
    case OpnReady(_, _) => 12
    case OpnIn(_, _) => 11
    case OpnGot(_) => 10
    case OpnLate(_) => 9
    case OpnLateAdded(_) => 8
    case OpnLateOut => 2
    case OpnOut => 1
    case OpHeld(_, _) => 8
    case OpOut => 1
    case ScHeld(_, _) => 7
    case ScOut => 1
    case ClsLoop(todo, _) => 3 + 10 * |todo|
    case ClsAdded(_, todo, _) => 12 + 10 * |todo|
    case ClsAfter(todo, _) => 4 + 10 * |todo|
    case ClsWait => 2
    case ClsUnload => 1
    case InCall(_, at, why) =>
      CallRank(at) + (match why
                      case ForOp(_, _) => 1
                      case ForStreamClose(_) => 1
                      case ForLateOpen(_) => 2
                      case ForPluginClose(todo, _) => 4 + 10 * |todo|)
  }

  function Ranks(threads: seq<Thread>): (r: seq<nat>)
    ensures |r| == |threads| && forall i | 0 <= i < |threads| :: r[i] == Rank(threads[i])
  {
    if threads == [] then []
    else Ranks(threads[..|threads|-1]) + [Rank(threads[|threads|-1])]
  }

  /** The work left in all threads. */
  function Work(s: Sys): nat {
    Sums.Sum(Ranks(s.threads))
  }

  /** A step of a call past its first section. */
  predicate Progresses(s: Sys, a: Act) {
    a.Step? && a.t < |s.threads| && !s.threads[a.t].Starting?
  }

  lemma CallRankFalls(ps: PStream, at: CallPc, c: Choice)
    requires CallEnabled(ps, at, c)
    ensures CallRank(CallDo(ps, at, c).1) < CallRank(at)
  {
  }

  lemma StartRankFalls(host: Host, req: Request)
    requires host.closed
    ensures FirstSection(host, req).1 == Ready
  {
  }

  lemma OpenRankFalls(host: Host, lib: Library, pc: Thread, p: Pick, issue: nat, call: nat, next: CallPc)
    requires Releases(pc) ==> host.wg > 0
    requires host.closed && (pc.OpnHeld? || pc.OpnMiss? || pc.OpnReady? || pc.OpnIn? || pc.OpnGot? || pc.OpnLate?
                             || pc.OpnLateAdded? || pc.OpnLateOut? || pc.OpnOut?)
    ensures Rank(Advance(host, lib, pc, p, issue, call, next).1) < Rank(pc)
  {
  }

  lemma CloseRankFalls(host: Host, lib: Library, pc: Thread, p: Pick, issue: nat, call: nat, next: CallPc)
    requires Releases(pc) ==> host.wg > 0
    requires pc.ClsLoop? || pc.ClsAdded? || pc.ClsAfter? || pc.ClsWait? || pc.ClsUnload?
    requires pc.ClsLoop? && pc.closeFn != 0 && pc.todo != {} ==> p.stream in pc.todo
    ensures Rank(Advance(host, lib, pc, p, issue, call, next).1) < Rank(pc)
  {
    if pc.ClsLoop? {
      LoopRankFalls(host, lib, pc, p, issue, call, next);
    }
  }

  lemma LoopRankFalls(host: Host, lib: Library, pc: Thread, p: Pick, issue: nat, call: nat, next: CallPc)
    requires pc.ClsLoop? && (pc.closeFn != 0 && pc.todo != {} ==> p.stream in pc.todo)
    ensures Rank(Advance(host, lib, pc, p, issue, call, next).1) < Rank(pc)
  {
    if pc.closeFn != 0 && pc.todo != {} {
      OneLess(pc.todo, p.stream);
      assert Advance(host, lib, pc, p, issue, call, next).1 == ClsAdded(p.stream, pc.todo - {p.stream}, pc.closeFn);
    }
  }

  lemma OneLess(todo: set<nat>, h: nat)
    requires h in todo
    ensures |todo - {h}| == |todo| - 1
  {
  }

  lemma InCallRankFalls(host: Host, lib: Library, pc: Thread, p: Pick, issue: nat, call: nat, next: CallPc)
    requires pc.InCall? && (!IsReturn(pc.at) ==> CallRank(next) < CallRank(pc.at))
    ensures Rank(Advance(host, lib, pc, p, issue, call, next).1) < Rank(pc)
  {
  }

  lemma RankFalls(host: Host, lib: Library, pc: Thread, p: Pick, issue: nat, call: nat, next: CallPc)
    requires Releases(pc) ==> host.wg > 0
    requires host.closed && !pc.Ready?
    requires pc.InCall? && !IsReturn(pc.at) ==> CallRank(next) < CallRank(pc.at)
    requires pc.ClsLoop? && pc.closeFn != 0 && pc.todo != {} ==> p.stream in pc.todo
    ensures var pc' := Advance(host, lib, pc, p, issue, call, next).1;
      if pc.Starting? then pc' == Ready else Rank(pc') < Rank(pc)
  {
    match pc
    case Starting(req) => StartRankFalls(host, req);
    case InvHeld(_) =>
    case InvMiss(_) =>
    case InvReady(_, _) =>
    case InvIn(_, _) =>
    case InvOut =>
    case OpHeld(_, _) =>
    case OpOut =>
    case ScHeld(_, _) =>
    case ScOut =>
    case ClsLoop(_, _) => CloseRankFalls(host, lib, pc, p, issue, call, next);
    case ClsAdded(_, _, _) => CloseRankFalls(host, lib, pc, p, issue, call, next);
    case ClsAfter(_, _) => CloseRankFalls(host, lib, pc, p, issue, call, next);
    case ClsWait => CloseRankFalls(host, lib, pc, p, issue, call, next);
    case ClsUnload => CloseRankFalls(host, lib, pc, p, issue, call, next);
    case InCall(_, _, _) => InCallRankFalls(host, lib, pc, p, issue, call, next);
    case _ => OpenRankFalls(host, lib, pc, p, issue, call, next);
  }

  lemma StepRankFalls(s: Sys, t: nat, p: Pick)
    requires s.host.closed && Enabled(s, Step(t, p))
    ensures var n := StepOf(s, t, p);
      && n.threads == s.threads[t := n.threads[t]]
      && if s.threads[t].Starting? then Rank(n.threads[t]) == 0 else Rank(n.threads[t]) < Rank(s.threads[t])
  {
    var pc := s.threads[t];
    if pc.InCall? && !IsReturn(pc.at) {
      CallRankFalls(StreamAt(s, pc.stream), pc.at, p.sel);
    }
    RankFalls(s.host, s.lib, pc, p, s.counter + 1, s.calls, NextCallPc(s, pc, p));
  }

  lemma StaysClosed(s: Sys, a: Act)
    requires s.host.closed && Enabled(s, a)
    ensures Do(s, a).host.closed
  {
    if a.Step? {
      var pc := s.threads[a.t];
      AdvanceCloser(s.host, s.lib, pc, a.pick, s.counter + 1, s.calls, NextCallPc(s, pc, a.pick));
    }
  }

  /** After Close began every action keeps or lowers the work left, and real steps lower it. */
  lemma WorkFalls(s: Sys, a: Act)
    requires s.host.closed && Enabled(s, a)
    ensures Do(s, a).host.closed
    ensures Work(Do(s, a)) <= Work(s)
    ensures Progresses(s, a) ==> Work(Do(s, a)) < Work(s)
  {
    StaysClosed(s, a);
    match a
    case Begin(t, req) => RankMove(s.threads, t, Starting(req));
    case Handler(_, _) =>
    case Step(t, p) =>
      StepRankFalls(s, t, p);
      RankMove(s.threads, t, StepOf(s, t, p).threads[t]);
  }

  lemma RankMove(threads: seq<Thread>, t: nat, pc: Thread)
    requires t < |threads|
    ensures Sums.Sum(Ranks(threads[t := pc])) + Rank(threads[t]) == Sums.Sum(Ranks(threads)) + Rank(pc)
  {
    assert Ranks(threads[t := pc]) == Ranks(threads)[t := Rank(pc)];
    Sums.SumUpdate(Ranks(threads), t, Rank(pc));
  }

  /** How many of the actions are steps of calls past their first section. */
  function RealSteps(s: Sys, acts: seq<Act>): nat
    requires Exec(s, acts).Some?
    decreases |acts|
  {
    if acts == [] then 0
    else (if Progresses(s, acts[0]) then 1 else 0) + RealSteps(Do(s, acts[0]), acts[1..])
  }

  /**
   * However the threads are scheduled after Close began, at most `Work` further steps of
   * calls in progress are ever taken, Close's own steps included.
   */
  lemma {:induction false} CloseTakesBoundedWork(s: Sys, acts: seq<Act>)
    requires s.host.closed && Exec(s, acts).Some?
    ensures RealSteps(s, acts) + Work(Exec(s, acts).value) <= Work(s)
    decreases |acts|
  {
    if acts != [] {
      WorkFalls(s, acts[0]);
      CloseTakesBoundedWork(Do(s, acts[0]), acts[1..]);
    }
  }

  /**
   * While Close is not finished some thread can step; if that is only ever a thread whose
   * unary call is still running, then nothing but running unary calls holds the WaitGroup.
   */
  lemma CloseIsNeverStuck(s0: Sys, acts: seq<Act>, c: nat) returns (u: nat)
    requires Init(s0) && Exec(s0, acts).Some?
    requires var s := Exec(s0, acts).value; c < |s.threads| && IsCloser(s.threads[c])
    ensures var s := Exec(s0, acts).value;
      u < |s.threads| && CanStep(s, u) && !s.threads[u].Ready? && !s.threads[u].Starting?
      && (s.threads[u].InvIn? ==>
            s.threads[c].ClsWait? && forall t | 0 <= t < |s.threads| && Holds(s.threads[t]) > 0 :: s.threads[t].InvIn?)
  {
    RunInv(s0, acts);
    ExecStands(s0, acts);
    var s := Exec(s0, acts).value;
    if !s.threads[c].ClsWait? || s.host.wg == 0 {
      u := CloserSteps(s, c);
    } else if t :| 0 <= t < |s.threads| && Holds(s.threads[t]) > 0 && !s.threads[t].InvIn? {
      u := HolderSteps(s, t);
    } else {
      Sums.SumZero(Holdings(s.threads));
      u :| 0 <= u < |s.threads| && Holds(s.threads[u]) > 0;
      OnlyBlockedCannotStep(s, u);
    }
  }

  lemma CloserSteps(s: Sys, c: nat) returns (u: nat)
    requires Inv(s) && CloseCalls(s) && CallsStand(s)
    requires c < |s.threads| && IsCloser(s.threads[c]) && (s.threads[c].ClsWait? ==> s.host.wg == 0)
    ensures u == c && CanStep(s, c)
  {
    u := c;
    assert Stands(s.streams.Keys, s.threads[c]) && ThreadCloses(s, c, s.threads[c]);
    if s.threads[c].ClsWait? {
      assert StepEnabled(s, s.threads[c], ANY);
    } else {
      OnlyBlockedCannotStep(s, c);
    }
  }

  lemma HolderSteps(s: Sys, t: nat) returns (u: nat)
    requires Inv(s) && CloseCalls(s) && CallsStand(s) && s.host.closed
    requires t < |s.threads| && Holds(s.threads[t]) > 0 && !s.threads[t].InvIn?
    ensures u < |s.threads| && CanStep(s, u) && !s.threads[u].Ready? && !s.threads[u].Starting? && !s.threads[u].InvIn?
  {
    assert Stands(s.streams.Keys, s.threads[t]);
    if Blocked(s, s.threads[t]) {
      u := CancellerSteps(s, t);
    } else {
      u := t;
      OnlyBlockedCannotStep(s, u);
    }
  }
}
