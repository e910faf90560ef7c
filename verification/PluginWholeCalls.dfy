/**
 * Whole receive calls, from their start to their return, while every other thread and
 * the handler move freely: which calls can hide an error or skip data, and which cannot.
 */
module PluginWholeCalls {
  import opened Basics
  import opened Channels
  import opened PluginServer
  import opened PluginStreamRuns

  // ----- calls that begin after the handler has reported its error -----

  /** The handler has failed and done what it can to report it. */
  predicate Reported(ps: PStream) {
    ps.outcome.Failed? && !ps.pc.HFail?
  }

  /** Where a receive stands that began after the report. */
  predicate Late(ps: PStream, pc: CallPc) {
    Reported(ps) &&
    match pc
    case RecvEnter => true
    case RecvPoll => true
    case RecvPollErr => ps.recvCh.buf == []
    case RecvDrained => ps.recvCh.buf == []
    case RecvWait => ps.recvCh.buf == [] && Errors(ps.hist.recvLog) > 0
    case RecvRecheck => ps.recvCh.buf == [] && Errors(ps.hist.recvLog) > 0
    case RecvRet(RError(_)) => ps.recvCh.buf == []
    case RecvRet(REof) => ps.recvCh.buf == [] && Errors(ps.hist.recvLog) > 0
    case RecvRet(_) => true
    case _ => false
  }

  /** Nothing that a late receive relies on is undone. */
  predicate Lasts(ps: PStream, qs: PStream) {
    && (Reported(ps) ==> Reported(qs))
    && (Reported(ps) && ps.recvCh.buf == [] ==> qs.recvCh.buf == [])
    && (Errors(ps.hist.recvLog) > 0 ==> Errors(qs.hist.recvLog) > 0)
  }

  lemma CallLasts(ps: PStream, pc: CallPc, c: Choice)
    requires CallEnabled(ps, pc, c)
    ensures Lasts(ps, CallDo(ps, pc, c).0)
  {
    if InRecv(pc) {
      RecvEffect(ps, pc, c);
      var q := CallDo(ps, pc, c).0;
      if q != ps {
        LogLasts(ps, q, q.hist.recvLog[|ps.hist.recvLog|]);
      }
    }
  }

  lemma LogLasts(ps: PStream, qs: PStream, r: RecvResult)
    requires qs.outcome == ps.outcome && qs.pc == ps.pc && qs.hist.recvLog == ps.hist.recvLog + [r]
    requires ps.recvCh.buf == [] ==> qs.recvCh.buf == []
    ensures Lasts(ps, qs)
  {
    PushLog(ps.hist.recvLog, r);
  }

  lemma HandlerLasts(ps: PStream, a: HandlerAct)
    requires Life(ps) && HandlerEnabled(ps, a)
    ensures Lasts(ps, HandlerDo(ps, a))
  {
    if Quiet(a) {
      QuietFrame(ps, a);
    } else {
      assert HandlerDo(ps, a).hist.recvLog == ps.hist.recvLog;
    }
  }

  /** The late receive itself moves on. */
  lemma LateCall(ps: PStream, pc: CallPc, c: Choice)
    requires StreamInv(ps) && Late(ps, pc) && CallEnabled(ps, pc, c)
    ensures var r := CallDo(ps, pc, c); Late(r.0, r.1)
  {
    if ps.errCh.CanRecv() {
      PushLog(ps.hist.recvLog, RError(ps.errCh.buf[0]));
    }
    PushLog(ps.hist.recvLog, REof);
  }

  lemma LateStep(s: Machine, a: Act, t: nat)
    requires Inv(s) && Enabled(s, a) && a != Return(t) && t < |s.threads| && Late(s.ps, s.threads[t])
    ensures var n := Do(s, a); |n.threads| == |s.threads| && Late(n.ps, n.threads[t])
  {
    match a
    case Call(u, c) =>
      CallLasts(s.ps, s.threads[u], c);
      if u == t {
        LateCall(s.ps, s.threads[t], c);
      }
    case Handler(h) => HandlerLasts(s.ps, h);
    case _ =>
  }

  lemma {:induction false} LateRun(s: Machine, acts: seq<Act>, t: nat)
    requires Inv(s) && t < |s.threads| && Late(s.ps, s.threads[t])
    requires Exec(s, acts).Some? && Return(t) !in acts
    ensures var n := Exec(s, acts).value; |n.threads| == |s.threads| && Late(n.ps, n.threads[t])
    decreases |acts|
  {
    if acts != [] {
      assert acts[0] in acts;
      LateStep(s, acts[0], t);
      StepInv(s, acts[0]);
      LateRun(Do(s, acts[0]), acts[1..], t);
    }
  }

  lemma {:induction false} ErrorIsInLog(l: seq<RecvResult>)
    requires Errors(l) > 0
    ensures exists e :: RError(e) in l
  {
    if l[|l|-1].RError? {
      assert RError(l[|l|-1].err) in l;
    } else {
      ErrorIsInLog(l[..|l|-1]);
      var e :| RError(e) in l[..|l|-1];
      assert RError(e) in l;
    }
  }

  /**
   * A receive that begins after the failed handler's report, in any company: it reports
   * end-of-file only if the error has already been delivered to some receive, and it
   * reports the error or end-of-file only when every message sent has been received.
   */
  lemma ReceiveAfterReport(s0: Machine, pre: seq<Act>, s: Machine, t: nat, more: seq<Act>, n: Machine)
    requires Init(s0) && Exec(s0, pre) == Some(s) && Reported(s.ps)
    requires t < |s.threads| && s.threads[t].Idle?
    requires Exec(Do(s, Start(t, RecvEnter)), more) == Some(n) && Return(t) !in more
    requires t < |n.threads| && n.threads[t].RecvRet?
    ensures n.threads[t].result == REof ==> exists e :: RError(e) in n.ps.hist.recvLog
    ensures n.threads[t].result == REof || n.threads[t].result.RError? ==> Payloads(n.ps.hist.recvLog) == n.ps.hist.sent
  {
    InitInv(s0);
    ExecInv(s0, pre);
    StepInv(s, Start(t, RecvEnter));
    ExecInv(Do(s, Start(t, RecvEnter)), more);
    LateRun(Do(s, Start(t, RecvEnter)), more, t);
    if n.threads[t].result == REof {
      ErrorIsInLog(n.ps.hist.recvLog);
    }
  }

  // ----- what an error can overtake -----

  /** The call has returned, and stays returned until its caller takes the result. */
  lemma {:induction false} ReturnStays(s: Machine, acts: seq<Act>, t: nat)
    requires t < |s.threads| && IsReturn(s.threads[t]) && Exec(s, acts).Some? && Return(t) !in acts
    ensures var n := Exec(s, acts).value; |n.threads| == |s.threads| && n.threads[t] == s.threads[t]
    decreases |acts|
  {
    if acts != [] {
      assert acts[0] in acts;
      ReturnStays(Do(s, acts[0]), acts[1..], t);
    }
  }

  /** Messages leave the channel in order, and stay out of it. */
  lemma {:induction false} TakenGrows(s: Machine, acts: seq<Act>)
    requires Inv(s) && Exec(s, acts).Some?
    ensures Inv(Exec(s, acts).value) && |s.ps.hist.taken| <= |Exec(s, acts).value.ps.hist.taken|
    decreases |acts|
  {
    if acts != [] {
      StepInv(s, acts[0]);
      TakenStep(s, acts[0]);
      TakenGrows(Do(s, acts[0]), acts[1..]);
    }
  }

  lemma TakenStep(s: Machine, a: Act)
    requires Enabled(s, a)
    ensures |s.ps.hist.taken| <= |Do(s, a).ps.hist.taken|
  {
    match a
    case Handler(h) => HandlerTakes(s.ps, h);
    case Call(u, c) => CallTakes(s.ps, s.threads[u], c);
    case _ =>
  }

  lemma HandlerTakes(ps: PStream, a: HandlerAct)
    requires HandlerEnabled(ps, a)
    ensures HandlerDo(ps, a).hist.taken == ps.hist.taken
  {
    if a.InitRecv? || a.RecvReady? {
      assert Dequeue(ps).hist.taken == ps.hist.taken;
    }
  }

  lemma CallTakes(ps: PStream, pc: CallPc, c: Choice)
    requires CallEnabled(ps, pc, c)
    ensures |ps.hist.taken| <= |CallDo(ps, pc, c).0.hist.taken|
  {
    assert ps.CloseSendCh().hist == ps.hist && ps.CloseRecvCh().hist == ps.hist;
  }

  /** A part of the rest of a run, and the same part of the run itself. */
  lemma ExecShift(s: Machine, acts: seq<Act>, k: nat)
    requires acts != [] && k < |acts| && Enabled(s, acts[0])
    ensures Exec(s, acts[..k + 1]) == Exec(Do(s, acts[0]), acts[1..][..k])
  {
    assert acts[..k + 1][1..] == acts[1..][..k];
  }

  /** Before its first poll. */
  predicate Unpolled(pc: CallPc) {
    pc == RecvEnter || pc == RecvPoll
  }

  lemma PollStep(s: Machine, a: Act, t: nat)
    requires t < |s.threads| && Unpolled(s.threads[t]) && Enabled(s, a)
    requires s.threads[t] == RecvPoll ==> s.ps.recvCh.buf != []
    ensures var n := Do(s, a);
      && |n.threads| == |s.threads|
      && (Unpolled(n.threads[t]) || (n.threads[t].RecvRet? && !n.threads[t].result.RError? && n.threads[t].result != REof))
  {
  }

  /** The receive of thread `t` has ended with an error or end-of-file. */
  predicate EndsWithoutData(n: Machine, t: nat) {
    t < |n.threads| && n.threads[t].RecvRet? && (n.threads[t].result.RError? || n.threads[t].result == REof)
  }

  /** A call that ends without data has not returned anything else. */
  lemma StillUnpolled(s: Machine, acts: seq<Act>, t: nat)
    requires t < |s.threads| && Exec(s, acts).Some? && Return(t) !in acts
    requires Unpolled(s.threads[t]) || (s.threads[t].RecvRet? && !EndsWithoutData(s, t))
    requires EndsWithoutData(Exec(s, acts).value, t)
    ensures Unpolled(s.threads[t])
  {
    if IsReturn(s.threads[t]) {
      ReturnStays(s, acts, t);
    }
  }

  /** Where in the run the receive of thread `t` polled the data channel and found nothing. */
  lemma {:induction false} FindPoll(s: Machine, acts: seq<Act>, t: nat) returns (k: nat)
    requires Inv(s) && t < |s.threads| && Unpolled(s.threads[t])
    requires Exec(s, acts).Some? && Return(t) !in acts && EndsWithoutData(Exec(s, acts).value, t)
    ensures k <= |acts| && Exec(s, acts[..k]).Some?
    ensures var m, n := Exec(s, acts[..k]).value, Exec(s, acts).value;
      && t < |m.threads| && m.threads[t] == RecvPoll && m.ps.recvCh.buf == []
      && |m.ps.hist.sent| <= |n.ps.hist.taken|
    decreases |acts|
  {
    if s.threads[t] == RecvPoll && s.ps.recvCh.buf == [] {
      k := 0;
      TakenGrows(s, acts);
      assert s.ps.hist.sent == s.ps.hist.taken;
    } else {
      assert acts[0] in acts;
      PollStep(s, acts[0], t);
      StepInv(s, acts[0]);
      StillUnpolled(Do(s, acts[0]), acts[1..], t);
      k := FindPoll(Do(s, acts[0]), acts[1..], t);
      ExecShift(s, acts, k);
      k := k + 1;
    }
  }

  /**
   * An error, or end-of-file, overtakes only messages that were sent after the call's own
   * first look at the data channel: at that look everything sent so far had been
   * received, and what is in the channel when the call returns was sent later.
   */
  lemma OvertakenWereSentAfterPoll(s0: Machine, pre: seq<Act>, s: Machine, t: nat, more: seq<Act>, n: Machine)
      returns (k: nat)
    requires Init(s0) && Exec(s0, pre) == Some(s) && t < |s.threads| && s.threads[t].Idle?
    requires Exec(Do(s, Start(t, RecvEnter)), more) == Some(n) && Return(t) !in more
    requires EndsWithoutData(n, t)
    ensures k <= |more| && Exec(Do(s, Start(t, RecvEnter)), more[..k]).Some?
    ensures var m := Exec(Do(s, Start(t, RecvEnter)), more[..k]).value;
      && t < |m.threads| && m.threads[t] == RecvPoll && Payloads(m.ps.hist.recvLog) == m.ps.hist.sent
      && |n.ps.hist.taken| <= |n.ps.hist.sent| && n.ps.recvCh.buf == n.ps.hist.sent[|n.ps.hist.taken|..]
      && |m.ps.hist.sent| <= |n.ps.hist.taken|
  {
    InitInv(s0);
    ExecInv(s0, pre);
    var b := Do(s, Start(t, RecvEnter));
    StepInv(s, Start(t, RecvEnter));
    k := FindPoll(b, more, t);
    ExecInv(b, more[..k]);
    ExecInv(b, more);
  }

  // ----- what end-of-file can hide -----

  /** Before its look at the error slot. */
  predicate ErrorUnseen(pc: CallPc) {
    Unpolled(pc) || pc == RecvPollErr || pc == RecvDrained
  }

  /** A receive that looks at the error slot with the failed handler's report in it, or has not looked yet. */
  lemma LookStep(s: Machine, a: Act, t: nat)
    requires Inv(s) && t < |s.threads| && ErrorUnseen(s.threads[t]) && Enabled(s, a)
    requires Reported(s.ps) || Unpolled(s.threads[t])
    requires Errors(s.ps.hist.recvLog) == 0
    ensures var n := Do(s, a);
      && |n.threads| == |s.threads|
      && (ErrorUnseen(n.threads[t]) || (n.threads[t].RecvRet? && n.threads[t].result != REof))
  {
  }

  /** The receive of thread `t` stands at its look at the error slot, before the handler's report. */
  predicate LooksTooEarly(m: Machine, t: nat) {
    && t < |m.threads| && !Reported(m.ps)
    && (m.threads[t] == RecvPollErr || (m.threads[t] == RecvDrained && !m.ps.registered))
  }

  /** The receive of thread `t` has ended with end-of-file over an error that nobody got. */
  ghost predicate Hides(n: Machine, t: nat) {
    && t < |n.threads| && n.threads[t] == RecvRet(REof)
    && n.ps.outcome.Failed? && forall e :: RError(e) !in n.ps.hist.recvLog
  }

  lemma {:induction false} FindLook(s: Machine, acts: seq<Act>, t: nat) returns (k: nat)
    requires Inv(s) && t < |s.threads| && ErrorUnseen(s.threads[t])
    requires Exec(s, acts).Some? && Return(t) !in acts && Hides(Exec(s, acts).value, t)
    ensures k <= |acts| && Exec(s, acts[..k]).Some? && LooksTooEarly(Exec(s, acts[..k]).value, t)
    decreases |acts|
  {
    NoErrorYet(s, acts);
    if Reported(s.ps) || Unpolled(s.threads[t]) {
      assert acts[0] in acts;
      LookStep(s, acts[0], t);
      StepInv(s, acts[0]);
      StillUnseen(Do(s, acts[0]), acts[1..], t);
      k := FindLook(Do(s, acts[0]), acts[1..], t);
      ExecShift(s, acts, k);
      k := k + 1;
    } else {
      k := 0;
    }
  }

  /** A call that hides an error has not returned anything else. */
  lemma StillUnseen(s: Machine, acts: seq<Act>, t: nat)
    requires t < |s.threads| && Exec(s, acts).Some? && Return(t) !in acts
    requires ErrorUnseen(s.threads[t]) || (s.threads[t].RecvRet? && s.threads[t].result != REof)
    requires Hides(Exec(s, acts).value, t)
    ensures ErrorUnseen(s.threads[t])
  {
    if IsReturn(s.threads[t]) {
      ReturnStays(s, acts, t);
    }
  }

  lemma NoErrorYet(s: Machine, acts: seq<Act>)
    requires Inv(s) && Exec(s, acts).Some?
    requires Exec(s, acts).value.ps.outcome.Failed? && forall e :: RError(e) !in Exec(s, acts).value.ps.hist.recvLog
    ensures Errors(s.ps.hist.recvLog) == 0
    ensures s.ps.recvCh.Closed() && s.ps.registered ==> Reported(s.ps)
  {
    ExecGrows(s, acts);
    if Errors(s.ps.hist.recvLog) > 0 {
      ErrorIsInLog(s.ps.hist.recvLog);
    }
  }

  /**
   * End-of-file hides a failed handler's error, which no receive has got, only in a call
   * whose own look at the error slot came before the handler's report: the second poll, or
   * the look that follows a data channel that the host itself has closed.
   */
  lemma HiddenErrorCameAfterLook(s0: Machine, pre: seq<Act>, s: Machine, t: nat, more: seq<Act>, n: Machine)
      returns (k: nat)
    requires Init(s0) && Exec(s0, pre) == Some(s) && t < |s.threads| && s.threads[t].Idle?
    requires Exec(Do(s, Start(t, RecvEnter)), more) == Some(n) && Return(t) !in more && Hides(n, t)
    ensures k <= |more| && Exec(Do(s, Start(t, RecvEnter)), more[..k]).Some?
    ensures LooksTooEarly(Exec(Do(s, Start(t, RecvEnter)), more[..k]).value, t)
  {
    InitInv(s0);
    ExecInv(s0, pre);
    StepInv(s, Start(t, RecvEnter));
    k := FindLook(Do(s, Start(t, RecvEnter)), more, t);
  }
}
