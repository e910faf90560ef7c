/**
 * Half-closing a plugin stream: what a whole CloseSend has done when it returns, in any
 * company, and that the handler then reads everything that was accepted and the end.
 */
module PluginHalfClose {
  import opened Basics
  import opened PluginServer
  import opened PluginStreamRuns

  /** A Close that has taken the stream out of the table and has not closed its send channel yet. */
  predicate WillCloseSend(pc: CallPc) {
    pc.CloseCancel? || pc.CloseCloseSend?
  }

  /** A stream that is not in the table is closed for sending, or some Close is about to do that. */
  ghost predicate GoneIsClosing(s: Machine) {
    !s.ps.registered ==> s.ps.closeSend || exists u :: 0 <= u < |s.threads| && WillCloseSend(s.threads[u])
  }

  /** Unregistering is the first step of a Close, and closing the send channel its third. */
  lemma CallCloses(ps: PStream, pc: CallPc, c: Choice)
    requires CallEnabled(ps, pc, c)
    ensures var (q, next) := CallDo(ps, pc, c);
      && (ps.closeSend ==> q.closeSend) && (!ps.registered ==> !q.registered)
      && (ps.registered && !q.registered ==> WillCloseSend(next))
      && (WillCloseSend(pc) ==> WillCloseSend(next) || q.closeSend)
  {
    if InRecv(pc) {
      RecvFrame(ps, pc, c);
    }
  }

  lemma HandlerClosesNothing(ps: PStream, a: HandlerAct)
    requires HandlerEnabled(ps, a)
    ensures var q := HandlerDo(ps, a); q.closeSend == ps.closeSend && q.registered == ps.registered
  {
    if a.InitRecv? || a.RecvReady? {
      assert Dequeue(ps).closeSend == ps.closeSend && Dequeue(ps).registered == ps.registered;
    }
  }

  lemma GoneCallStep(s: Machine, t: nat, c: Choice)
    requires GoneIsClosing(s) && Enabled(s, Call(t, c))
    ensures GoneIsClosing(Do(s, Call(t, c)))
  {
    var n := Do(s, Call(t, c));
    CallCloses(s.ps, s.threads[t], c);
    if !n.ps.registered && !n.ps.closeSend {
      if s.ps.registered {
        assert WillCloseSend(n.threads[t]);
      } else {
        var u :| 0 <= u < |s.threads| && WillCloseSend(s.threads[u]);
        assert WillCloseSend(n.threads[u]);
      }
    }
  }

  lemma GoneOtherStep(s: Machine, a: Act)
    requires GoneIsClosing(s) && Enabled(s, a) && !a.Call?
    ensures GoneIsClosing(Do(s, a))
  {
    var n := Do(s, a);
    if a.Handler? {
      HandlerClosesNothing(s.ps, a.act);
    }
    if !n.ps.registered && !n.ps.closeSend {
      var u :| 0 <= u < |s.threads| && WillCloseSend(s.threads[u]);
      assert WillCloseSend(n.threads[u]);
    }
  }

  lemma {:induction false} GoneRun(s: Machine, acts: seq<Act>)
    requires GoneIsClosing(s) && Exec(s, acts).Some?
    ensures GoneIsClosing(Exec(s, acts).value)
    decreases |acts|
  {
    if acts != [] {
      if acts[0].Call? {
        GoneCallStep(s, acts[0].t, acts[0].choice);
      } else {
        GoneOtherStep(s, acts[0]);
      }
      GoneRun(Do(s, acts[0]), acts[1..]);
    }
  }

  // ----- a whole CloseSend -----

  /** Where a CloseSend is, and what it has done. */
  predicate HalfClosing(ps: PStream, pc: CallPc) {
    pc.CloseSendEnter? || pc.CloseSendLock? || (pc.CloseSendRet? && (ps.closeSend || !ps.registered))
  }

  lemma HalfCloseStep(s: Machine, a: Act, t: nat)
    requires Enabled(s, a) && a != Return(t) && t < |s.threads| && HalfClosing(s.ps, s.threads[t])
    ensures var n := Do(s, a); |n.threads| == |s.threads| && HalfClosing(n.ps, n.threads[t])
  {
    match a
    case Call(u, c) => CallCloses(s.ps, s.threads[u], c);
    case Handler(h) => HandlerClosesNothing(s.ps, h);
    case _ =>
  }

  lemma {:induction false} HalfCloseRun(s: Machine, acts: seq<Act>, t: nat)
    requires t < |s.threads| && HalfClosing(s.ps, s.threads[t]) && Exec(s, acts).Some? && Return(t) !in acts
    ensures var n := Exec(s, acts).value; |n.threads| == |s.threads| && HalfClosing(n.ps, n.threads[t])
    decreases |acts|
  {
    if acts != [] {
      assert acts[0] in acts;
      HalfCloseStep(s, acts[0], t);
      HalfCloseRun(Do(s, acts[0]), acts[1..], t);
    }
  }

  /**
   * A CloseSend that begins on a stream and returns, in any company: unless the stream
   * has been taken out of the table meanwhile, its send channel is closed; if it has, some
   * Close has closed it or is about to; and once it is closed nothing is accepted any more,
   * whatever follows.
   */
  lemma CloseSendCloses(s0: Machine, pre: seq<Act>, s: Machine, t: nat, more: seq<Act>, n: Machine, later: seq<Act>)
    requires Init(s0) && Exec(s0, pre) == Some(s) && t < |s.threads| && s.threads[t].Idle?
    requires Exec(Do(s, Start(t, CloseSendEnter)), more) == Some(n) && Return(t) !in more
    requires t < |n.threads| && n.threads[t] == CloseSendRet && Exec(n, later).Some?
    ensures n.ps.registered ==> n.ps.closeSend && n.ps.sendCh.Closed()
    ensures n.ps.closeSend || exists u :: 0 <= u < |n.threads| && WillCloseSend(n.threads[u])
    ensures n.ps.closeSend ==>
      Exec(n, later).value.ps.closeSend && Exec(n, later).value.ps.hist.accepted == n.ps.hist.accepted
  {
    var b := Do(s, Start(t, CloseSendEnter));
    InitInv(s0);
    ExecInv(s0, pre);
    GoneRun(s0, pre);
    GoneOtherStep(s, Start(t, CloseSendEnter));
    StepInv(s, Start(t, CloseSendEnter));
    ExecInv(b, more);
    GoneRun(b, more);
    HalfCloseRun(b, more, t);
    ExecGrows(n, later);
    ExecInv(n, later);
  }

  /**
   * What the handler gets from then on: whenever it reads, without cancellation, it gets
   * the next message that had been accepted when CloseSend returned, and end-of-file after
   * the last of them.
   */
  lemma ReadAfterCloseSend(s0: Machine, pre: seq<Act>, s: Machine, t: nat, more: seq<Act>, n: Machine,
                           later: seq<Act>, q: Machine)
    requires Init(s0) && Exec(s0, pre) == Some(s) && t < |s.threads| && s.threads[t].Idle?
    requires Exec(Do(s, Start(t, CloseSendEnter)), more) == Some(n) && Return(t) !in more
    requires t < |n.threads| && n.threads[t] == CloseSendRet && n.ps.registered
    requires Exec(n, later) == Some(q) && !q.ps.cancelled && (q.ps.pc == HRecv || q.ps.pc == HInit)
    ensures var a, l := if q.ps.pc == HRecv then RecvReady else InitRecv(None), n.ps.hist.accepted;
      && Enabled(q, Handler(a)) && |q.ps.hist.read| <= |l|
      && var x := Do(q, Handler(a)).ps;
         && x.pc == HUser
         && x.hist.readLog == q.ps.hist.readLog +
              [if |q.ps.hist.read| < |l| then ReadData(l[|q.ps.hist.read|]) else ReadEof]
  {
    CloseSendCloses(s0, pre, s, t, more, n, later);
    var b := Do(s, Start(t, CloseSendEnter));
    InitInv(s0);
    ExecInv(s0, pre);
    StepInv(s, Start(t, CloseSendEnter));
    ExecInv(b, more);
    ExecInv(n, later);
    ReadAlone(q.ps, if q.ps.pc == HRecv then RecvReady else InitRecv(None));
  }

  // ----- reading to the end -----

  /** The handler, reading by itself on a half-closed stream, gets every message left and then end-of-file. */
  lemma {:induction false} ReadsToTheEnd(s0: Machine, s: Machine, pre: seq<Act>) returns (n: Machine, acts: seq<Act>)
    requires Inv(s) && Exec(s0, pre) == Some(s)
    requires s.ps.closeSend && s.ps.pc == HUser && (s.ps.kind == ClientStreaming || s.ps.kind == Bidi)
    ensures Exec(s0, acts) == Some(n) && n.threads == s.threads && n.ps.pc == HUser
    ensures n.ps.hist.accepted == s.ps.hist.accepted && n.ps.hist.read == s.ps.hist.accepted
    ensures Items(n.ps.hist.readLog) == s.ps.hist.accepted
    ensures n.ps.hist.readLog != [] && n.ps.hist.readLog[|n.ps.hist.readLog|-1] == ReadEof
    decreases |s.ps.sendCh.buf|
  {
    var m;
    m, acts := OneRead(s0, s, pre);
    if s.ps.sendCh.CanRecv() {
      n, acts := ReadsToTheEnd(s0, m, acts);
    } else {
      n := m;
    }
  }

  lemma OneRead(s0: Machine, s: Machine, pre: seq<Act>) returns (n: Machine, acts: seq<Act>)
    requires Inv(s) && Exec(s0, pre) == Some(s)
    requires s.ps.closeSend && s.ps.pc == HUser && (s.ps.kind == ClientStreaming || s.ps.kind == Bidi)
    ensures Exec(s0, acts) == Some(n) && Inv(n) && n.threads == s.threads
    ensures n.ps.pc == HUser && n.ps.closeSend && n.ps.kind == s.ps.kind && n.ps.hist.accepted == s.ps.hist.accepted
    ensures n.ps.sendCh.buf == if s.ps.sendCh.CanRecv() then s.ps.sendCh.buf[1..] else []
    ensures !s.ps.sendCh.CanRecv() ==> n.ps.hist.readLog == s.ps.hist.readLog + [ReadEof]
  {
    StepInv(s, Handler(UserRecv));
    n, acts := Extend(s0, s, pre, Handler(UserRecv));
    StepInv(n, Handler(RecvReady));
    n, acts := Extend(s0, n, acts, Handler(RecvReady));
  }
}
