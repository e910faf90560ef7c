/**
 * When the io.EOF that a client gets from RecvMsg means that the handler succeeded: the
 * client's flag, the answers of StreamRecv and the plugin's own record of the stream, in
 * all joint runs.
 */
module PluginEndOfFile {
  import opened Basics
  import opened PluginServer
  import opened PluginEndToEnd
  import C = PluginConn
  import L = PluginConnEndings
  import R = PluginStreamRuns

  // ----- the invariant -----

  /** Nobody closes the stream before the client's flag is set. */
  predicate StillOpen(j: Joint) {
    !j.conn.g.closed && !j.outside ==>
      j.m.ps.registered && forall t | 0 <= t < |j.m.threads| :: !j.m.threads[t].CloseEnter?
  }

  /** What the client hears of the results of StreamRecv. */
  function Heard(l: seq<RecvResult>): seq<C.Reply> {
    seq(|l|, i requires 0 <= i < |l| => AnswerOf(l[i]))
  }

  /** The answer that the receive function has returned and StreamRecv not yet. */
  function Answering(pc: CallPc): seq<C.Reply> {
    if pc.RecvRet? then [AnswerOf(pc.result)] else []
  }

  predicate AllHeard(j: Joint)
    requires |j.m.threads| > 0
  {
    !j.outside ==> Heard(j.m.ps.hist.recvLog) == j.conn.g.got + Answering(j.m.threads[0])
  }

  /** The end of a stream that was open: the handler is past its report, and nothing is left to receive. */
  predicate Final(ps: PStream) {
    !R.HasMiss(ps.hist.recvLog) && (R.HasEof(ps.hist.recvLog) ==> R.AfterCancel(ps.pc) && ps.recvCh.buf == [])
  }

  predicate Told(j: Joint) {
    L.Undisturbed(j.conn) && !j.outside ==> Final(j.m.ps)
  }

  predicate ClientOk(conn: C.Conn) {
    L.AllEnd(conn) && L.FlagExplained(conn)
  }

  predicate EndInv(j: Joint) {
    Inv(j) && ClientOk(j.conn) && StillOpen(j) && AllHeard(j) && Told(j)
  }

  // ----- one step at a time -----

  lemma ClientKeepsEnds(j: Joint, a: Act)
    requires Inv(j) && ClientOk(j.conn) && Enabled(j, a)
    ensures ClientOk(Do(j, a).conn)
  {
    match a
    case Client(c) => L.StepEnds(j.conn, c);
    case Leave(i) => L.StepEnds(j.conn, C.Work(i, AnswerOf(j.m.threads[0].result)));
    case Refused(i) => L.StepEnds(j.conn, C.Work(i, C.Failed));
    case _ =>
  }

  /** The flag is never cleared. */
  lemma FlagStays(conn: C.Conn, a: C.Act)
    requires C.Enabled(conn, a) && conn.g.closed
    ensures C.Do(conn, a).g.closed
  {
  }

  lemma CallStaysOpen(ps: PStream, pc: CallPc, c: Choice)
    requires CallEnabled(ps, pc, c) && ps.registered && !pc.CloseEnter?
    ensures CallDo(ps, pc, c).0.registered && !CallDo(ps, pc, c).1.CloseEnter?
  {
    if R.InRecv(pc) {
      R.RecvFrame(ps, pc, c);
    }
  }

  lemma HandlerStaysOpen(ps: PStream, a: HandlerAct)
    requires HandlerEnabled(ps, a)
    ensures HandlerDo(ps, a).registered == ps.registered
  {
    if a.InitRecv? || a.RecvReady? {
      assert Dequeue(ps).registered == ps.registered;
    }
  }

  lemma InsideStaysOpen(j: Joint, r: R.Act)
    requires StillOpen(j) && Enabled(j, Inside(r))
    ensures StillOpen(Do(j, Inside(r)))
  {
    if !j.conn.g.closed && !j.outside {
      match r
      case Call(t, c) => CallStaysOpen(j.m.ps, j.m.threads[t], c);
      case Handler(h) => HandlerStaysOpen(j.m.ps, h);
      case _ =>
    }
  }

  lemma StaysOpen(j: Joint, a: Act)
    requires StillOpen(j) && Enabled(j, a)
    ensures StillOpen(Do(j, a))
  {
    match a
    case Inside(r) => InsideStaysOpen(j, r);
    case Client(c) => if j.conn.g.closed { FlagStays(j.conn, c); }
    case Leave(i) => if j.conn.g.closed { FlagStays(j.conn, C.Work(i, AnswerOf(j.m.threads[0].result))); }
    case _ =>
  }

  lemma HeardSnoc(l: seq<RecvResult>, r: RecvResult)
    ensures Heard(l + [r]) == Heard(l) + [AnswerOf(r)]
  {
  }

  lemma InsideIsHeard(j: Joint, r: R.Act)
    requires Linked(j) && AllHeard(j) && Enabled(j, Inside(r))
    ensures AllHeard(Do(j, Inside(r)))
  {
    match r
    case Call(t, c) =>
      CallLogs(j.m.ps, j.m.threads[t], c);
      var next := CallDo(j.m.ps, j.m.threads[t], c).1;
      if next.RecvRet? {
        HeardSnoc(j.m.ps.hist.recvLog, next.result);
      }
    case Handler(h) => HandlerLogs(j.m.ps, h);
    case _ =>
  }

  lemma LeaveIsHeard(j: Joint, i: nat)
    requires Enabled(j, Leave(i)) && AllHeard(j)
    ensures AllHeard(Do(j, Leave(i)))
  {
    assert Do(j, Leave(i)).conn.g.got == j.conn.g.got + [AnswerOf(j.m.threads[0].result)];
  }

  lemma StepIsHeard(j: Joint, a: Act)
    requires Inv(j) && AllHeard(j) && Enabled(j, a)
    ensures |Do(j, a).m.threads| > 0 && AllHeard(Do(j, a))
  {
    match a
    case Inside(r) => InsideIsHeard(j, r);
    case Client(c) => ClientFrame(j.conn, c);
    case Leave(i) => LeaveIsHeard(j, i);
    case _ =>
  }

  /** After an answer without a message no receive is in the plugin. */
  lemma NobodyReceives(j: Joint)
    requires Inv(j) && !C.NoFailure(j.conn.g.got)
    ensures j.m.threads[0].Idle?
    ensures forall i: nat :: !Calling(j.conn, i)
  {
    forall i: nat | i < |j.conn.calls|
      ensures !Calling(j.conn, i)
    {
      assert C.CallOk(j.conn.g, i, j.conn.calls[i]);
    }
  }

  lemma CallKeepsFinal(ps: PStream, pc: CallPc, c: Choice)
    requires CallEnabled(ps, pc, c) && !R.InRecv(pc) && Final(ps)
    ensures Final(CallDo(ps, pc, c).0)
  {
    var q := CallDo(ps, pc, c).0;
    assert q.hist.recvLog == ps.hist.recvLog && q.pc == ps.pc && q.recvCh.buf == ps.recvCh.buf;
  }

  lemma HandlerKeepsFinal(ps: PStream, a: HandlerAct)
    requires HandlerEnabled(ps, a) && Final(ps)
    ensures Final(HandlerDo(ps, a))
  {
    HandlerLogs(ps, a);
  }

  lemma InsideKeepsFinal(j: Joint, r: R.Act)
    requires Linked(j) && j.m.threads[0].Idle? && Final(j.m.ps) && Enabled(j, Inside(r))
    ensures Final(Do(j, Inside(r)).m.ps)
  {
    match r
    case Call(t, c) => CallKeepsFinal(j.m.ps, j.m.threads[t], c);
    case Handler(h) => HandlerKeepsFinal(j.m.ps, h);
    case _ =>
  }

  /** Nobody disturbs what is undisturbed after the step. */
  lemma WasUndisturbed(j: Joint, a: Act)
    requires Enabled(j, a) && L.Undisturbed(Do(j, a).conn)
    ensures L.Undisturbed(j.conn)
  {
    match a
    case Client(c) => ConnWasUndisturbed(j.conn, c);
    case Leave(i) => ConnWasUndisturbed(j.conn, C.Work(i, AnswerOf(j.m.threads[0].result)));
    case Refused(i) => ConnWasUndisturbed(j.conn, C.Work(i, C.Failed));
    case _ =>
  }

  lemma ConnWasUndisturbed(conn: C.Conn, a: C.Act)
    requires C.Enabled(conn, a) && L.Undisturbed(C.Do(conn, a))
    ensures L.Undisturbed(conn)
  {
    var n := C.Do(conn, a);
    forall i | 0 <= i < |conn.calls|
      ensures !conn.calls[i].op.OpClose?
    {
      assert n.calls[i].op == conn.calls[i].op;
    }
  }

  lemma OpenIsFinal(m: R.Machine)
    requires R.Inv(m) && m.ps.registered
    ensures Final(m.ps)
  {
  }

  lemma StepIsTold(j: Joint, a: Act)
    requires EndInv(j) && Enabled(j, a) && Inv(Do(j, a)) && StillOpen(Do(j, a))
    ensures Told(Do(j, a))
  {
    var n := Do(j, a);
    if L.Undisturbed(n.conn) && !n.outside {
      WasUndisturbed(j, a);
      if !n.conn.g.closed {
        OpenIsFinal(n.m);
      } else if !j.conn.g.closed {
        assert a.Client? || a.Leave?;
        ClosingStepIsClients(j, a);
      } else {
        NobodyReceives(j);
        if a.Inside? {
          InsideKeepsFinal(j, a.move);
        }
      }
    }
  }

  /** The step that sets the flag is not one of StreamRecv. */
  lemma ClosingStepIsClients(j: Joint, a: Act)
    requires Enabled(j, a) && !j.conn.g.closed && Do(j, a).conn.g.closed
    ensures Do(j, a).m == j.m
  {
  }

  lemma StepKeepsEnd(j: Joint, a: Act)
    requires EndInv(j) && Enabled(j, a)
    ensures EndInv(Do(j, a))
  {
    StepKeeps(j, a);
    ClientKeepsEnds(j, a);
    StaysOpen(j, a);
    StepIsHeard(j, a);
    StepIsTold(j, a);
  }

  lemma {:induction false} RunKeepsEnd(j: Joint, acts: seq<Act>)
    requires EndInv(j) && Exec(j, acts).Some?
    ensures EndInv(Exec(j, acts).value)
    decreases |acts|
  {
    if acts != [] {
      StepKeepsEnd(j, acts[0]);
      RunKeepsEnd(Do(j, acts[0]), acts[1..]);
    }
  }

  lemma InitEnd(j: Joint)
    requires Init(j)
    ensures EndInv(j)
  {
    R.InitInv(j.m);
  }

  // ----- what end-of-file means -----

  lemma {:induction false} MissLogged(l: seq<RecvResult>)
    ensures R.HasMiss(l) <==> RNoStream in l
  {
    if l != [] {
      MissLogged(l[..|l|-1]);
      assert l == l[..|l|-1] + [l[|l|-1]];
    }
  }

  lemma {:induction false} ErrorsLogged(l: seq<RecvResult>)
    ensures R.Errors(l) > 0 <==> exists i :: 0 <= i < |l| && l[i].RError?
  {
    if l != [] {
      var front := l[..|l|-1];
      ErrorsLogged(front);
      assert l == front + [l[|l|-1]];
      if i :| 0 <= i < |front| && front[i].RError? {
        assert l[i].RError?;
      }
    }
  }

  /** What the answers say about the log. */
  lemma AnswersSay(l: seq<RecvResult>)
    requires !R.HasMiss(l)
    ensures C.Failed in Heard(l) <==> R.Errors(l) > 0
    ensures C.Eof in Heard(l) <==> R.HasEof(l)
  {
    MissLogged(l);
    ErrorsLogged(l);
    R.EofLogged(l);
    assert forall i | 0 <= i < |l| :: Heard(l)[i] == AnswerOf(l[i]);
  }

  /** A handler whose error nobody got, past its report, has left it in the slot. */
  lemma SlotTells(ps: PStream)
    requires R.StreamInv(ps) && (R.Errors(ps.hist.recvLog) > 0 || R.AfterCancel(ps.pc))
    ensures ps.outcome == Succeeded <==> R.Errors(ps.hist.recvLog) == 0 && ps.errCh.buf == []
  {
  }

  /**
   * A client that has not closed the stream and not cancelled, on a plugin that nobody
   * has closed: when a receive returns io.EOF - the plugin's, or the flag's - the handler
   * has succeeded if and only if no receive was answered with an error, and none is left
   * in the plugin's error slot.  Once all receives have returned, RecvMsg has then had
   * every message that was sent.
   */
  lemma EofMeansSuccessIff(j0: Joint, acts: seq<Act>, j: Joint, i: nat)
    requires Init(j0) && Exec(j0, acts) == Some(j) && !j.outside && L.Undisturbed(j.conn)
    requires i < |j.conn.calls| && L.SaysEof(j.conn.calls[i])
    ensures j.m.ps.outcome == Succeeded <==> C.Failed !in j.conn.g.got && j.m.ps.errCh.buf == []
    ensures j.m.ps.outcome == Succeeded && C.ReceivesReturned(j.conn) ==> j.conn.g.returned == j.m.ps.hist.sent
  {
    InitEnd(j0);
    RunKeepsEnd(j0, acts);
    assert L.EndOk(j.conn.g, j.conn.calls[i]);
    NobodyReceives(j);
    AnswersSay(j.m.ps.hist.recvLog);
    var k :| 0 <= k < |j.conn.g.got| && !j.conn.g.got[k].Got?;
    EndingAnswer(j.m.ps.hist.recvLog, k);
    SlotTells(j.m.ps);
    if C.ReceivesReturned(j.conn) {
      AllReturned(j);
    }
  }

  lemma EndingAnswer(l: seq<RecvResult>, k: nat)
    requires k < |l| && !Heard(l)[k].Got?
    ensures C.Failed in Heard(l) || C.Eof in Heard(l)
  {
    assert Heard(l)[k] == AnswerOf(l[k]);
  }
}
