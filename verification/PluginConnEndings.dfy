/**
 * What a receive's end-of-file says on the client's side: if nobody closed the stream and
 * nothing was cancelled then it goes back to an answer of the plugin.
 */
module PluginConnEndings {
  import opened Basics
  import opened Channels
  import opened PluginConn

  /** No Close has begun, and the context lives. */
  predicate Undisturbed(s: Conn) {
    !s.g.cancelled && forall i | 0 <= i < |s.calls| :: !s.calls[i].op.OpClose?
  }

  /** A receive that carries no message has the flag set, or is about to set it because the plugin's answer was none. */
  predicate EndOk(g: Shared, c: Call) {
    c.op.OpRecv? ==>
      && (c.worker.WSwap? || c.worker.WClose? ==> !NoFailure(g.got))
      && (c.worker.WClose? ==> g.closed)
      && ((c.worker.WUnlock? || c.worker.WDeliver?) && !c.worker.reply.Got? ==> g.closed)
      && (c.done.buf != [] && !c.done.buf[0].Got? ==> g.closed)
      && (Served(c) && !c.caller.reply.value.Got? ==> g.closed)
  }

  predicate AllEnd(s: Conn) {
    forall i | 0 <= i < |s.calls| :: EndOk(s.g, s.calls[i])
  }

  /** Only an answer of the plugin has set the flag. */
  predicate FlagExplained(s: Conn) {
    Undisturbed(s) && s.g.closed ==> !NoFailure(s.g.got)
  }

  lemma FailureStays(got: seq<Reply>, more: seq<Reply>)
    requires got <= more && !NoFailure(got)
    ensures !NoFailure(more)
  {
    var k :| 0 <= k < |got| && !got[k].Got?;
    assert more[k] == got[k];
  }

  lemma EndStays(g: Shared, g': Shared, c: Call)
    requires EndOk(g, c) && (g.closed ==> g'.closed) && g.got <= g'.got
    ensures EndOk(g', c)
  {
    if !NoFailure(g.got) {
      FailureStays(g.got, g'.got);
    }
  }

  /** The flag and the answers, and who may have set the flag. */
  lemma WorkGrows(g: Shared, i: nat, c: Call, answer: Reply)
    requires WorkEnabled(g, c, answer) && PointsOk(c) && EndOk(g, c)
    ensures var g' := WorkDo(g, i, c, answer).0;
      && (g.closed ==> g'.closed) && g.got <= g'.got
      && (g'.closed ==> g.closed || c.op.OpClose? || !NoFailure(g'.got))
  {
  }

  lemma WorkEnds(g: Shared, i: nat, c: Call, answer: Reply)
    requires WorkEnabled(g, c, answer) && PointsOk(c) && SlotOk(g, c) && EndOk(g, c)
    ensures var r := WorkDo(g, i, c, answer); EndOk(r.0, r.1)
  {
    if c.worker.WCall? {
      assert (g.got + [answer])[|g.got|] == answer;
    }
  }

  lemma WorkKeepsEnds(s: Conn, i: nat, answer: Reply)
    requires Inv(s) && AllEnd(s) && FlagExplained(s) && Enabled(s, Work(i, answer))
    ensures var n := Do(s, Work(i, answer)); AllEnd(n) && FlagExplained(n)
  {
    var c, n := s.calls[i], Do(s, Work(i, answer));
    assert CallOk(s.g, i, c);
    WorkGrows(s.g, i, c, answer);
    WorkEnds(s.g, i, c, answer);
    SameOp(s, n, i);
    forall j | 0 <= j < |s.calls| && j != i
      ensures EndOk(n.g, s.calls[j])
    {
      EndStays(s.g, n.g, s.calls[j]);
    }
    if s.g.closed && Undisturbed(s) {
      FailureStays(s.g.got, n.g.got);
    }
  }

  /** A step of a call that has begun neither disturbs nor undoes a disturbance. */
  lemma SameOp(s: Conn, n: Conn, i: nat)
    requires i < |s.calls| == |n.calls| && n.calls == s.calls[i := n.calls[i]]
    requires n.calls[i].op == s.calls[i].op && n.g.cancelled == s.g.cancelled
    ensures Undisturbed(n) <==> Undisturbed(s)
  {
    forall j | 0 <= j < |s.calls|
      ensures n.calls[j].op == s.calls[j].op
    {
    }
  }

  lemma AwaitGrows(g: Shared, i: nat, c: Call, ctx: bool, ok: bool)
    requires AwaitEnabled(g, c, ctx) && SlotOk(g, c)
    ensures var g' := AwaitDo(g, i, c, ctx, ok).0;
      (g.closed ==> g'.closed) && g'.got == g.got && g'.cancelled == g.cancelled && (g'.closed ==> g.closed || g.cancelled)
  {
  }

  lemma AwaitEnds(g: Shared, i: nat, c: Call, ctx: bool, ok: bool)
    requires AwaitEnabled(g, c, ctx) && SlotOk(g, c) && EndOk(g, c)
    ensures var r := AwaitDo(g, i, c, ctx, ok); EndOk(r.0, r.1) && r.1.op == c.op
  {
  }

  lemma AwaitKeepsEnds(s: Conn, i: nat, ctx: bool, ok: bool)
    requires Inv(s) && AllEnd(s) && FlagExplained(s) && Enabled(s, Await(i, ctx, ok))
    ensures var n := Do(s, Await(i, ctx, ok)); AllEnd(n) && FlagExplained(n)
  {
    var c, n := s.calls[i], Do(s, Await(i, ctx, ok));
    assert CallOk(s.g, i, c);
    AwaitGrows(s.g, i, c, ctx, ok);
    AwaitEnds(s.g, i, c, ctx, ok);
    SameOp(s, n, i);
    forall j | 0 <= j < |s.calls| && j != i
      ensures EndOk(n.g, s.calls[j])
    {
      EndStays(s.g, n.g, s.calls[j]);
    }
  }

  lemma StartKeepsEnds(s: Conn, op: Op, direct: bool)
    requires AllEnd(s) && FlagExplained(s) && Enabled(s, Start(op, direct))
    ensures var n := Do(s, Start(op, direct)); AllEnd(n) && FlagExplained(n)
  {
    var n := Do(s, Start(op, direct));
    assert n.calls == s.calls + [NewCall(s.g, op, direct)];
    forall i | 0 <= i < |s.calls|
      ensures EndOk(n.g, s.calls[i])
    {
      EndStays(s.g, n.g, s.calls[i]);
    }
    if Undisturbed(n) {
      forall i | 0 <= i < |s.calls|
        ensures !s.calls[i].op.OpClose?
      {
        assert n.calls[i] == s.calls[i];
      }
    }
  }

  lemma StepEnds(s: Conn, a: Act)
    requires Inv(s) && AllEnd(s) && FlagExplained(s) && Enabled(s, a)
    ensures AllEnd(Do(s, a)) && FlagExplained(Do(s, a))
  {
    match a
    case Cancel => assert forall i | 0 <= i < |s.calls| :: EndOk(s.g, s.calls[i]) ==> EndOk(Do(s, a).g, s.calls[i]);
    case Start(op, direct) => StartKeepsEnds(s, op, direct);
    case Work(i, answer) => WorkKeepsEnds(s, i, answer);
    case Await(i, ctx, ok) => AwaitKeepsEnds(s, i, ctx, ok);
  }

  lemma {:induction false} RunEnds(s: Conn, acts: seq<Act>)
    requires Inv(s) && AllEnd(s) && FlagExplained(s) && Exec(s, acts).Some?
    ensures AllEnd(Exec(s, acts).value) && FlagExplained(Exec(s, acts).value)
    decreases |acts|
  {
    if acts != [] {
      StepKeeps(s, acts[0]);
      StepEnds(s, acts[0]);
      RunEnds(Do(s, acts[0]), acts[1..]);
    }
  }

  /** The receive has handed io.EOF to its caller. */
  predicate SaysEof(c: Call) {
    c.op.OpRecv? && (c.caller == Returned(Some(Eof)) || c.caller == Returned(Some(WasClosed)))
  }

  /**
   * Without Close and cancellation, a receive that returns io.EOF or an error goes back to
   * the plugin's last answer, which was no message: the call's own, or an earlier one's.
   */
  lemma EndingIsThePlugins(s0: Conn, acts: seq<Act>, s: Conn, i: nat)
    requires Init(s0) && Exec(s0, acts) == Some(s) && Undisturbed(s)
    requires i < |s.calls| && s.calls[i].op.OpRecv? && Served(s.calls[i]) && !s.calls[i].caller.reply.value.Got?
    ensures s.g.got != [] && !s.g.got[|s.g.got| - 1].Got?
  {
    RunEnds(s0, acts);
    assert EndOk(s.g, s.calls[i]);
    var k :| 0 <= k < |s.g.got| && !s.g.got[k].Got?;
    FailureEndsReceiving(s0, acts, s, k);
  }

  lemma Closes(s0: Conn) returns (s: Conn, acts: seq<Act>)
    requires s0 == Conn(Shared(true, true, false, false, None, None, Nobody, 0, [], [], [], None), [])
    ensures Exec(s0, acts) == Some(s)
    ensures s.g == s0.g.(closed := true, closer := PluginTold, closeCalls := 1) && |s.calls| == 1 && s.calls[0].op == OpClose
  {
    s, acts := Extend(s0, s0, [], Start(OpClose, true));
    s, acts := Extend(s0, s, acts, Work(0, Fine));
    s, acts := Extend(s0, s, acts, Work(0, Fine));
  }

  /** After a Close a receive returns io.EOF, and the plugin has not been asked for anything. */
  lemma EofWithoutAsking() returns (s0: Conn, acts: seq<Act>)
    ensures Init(s0) && Exec(s0, acts).Some?
    ensures var s := Exec(s0, acts).value; s.g.got == [] && |s.calls| == 2 && SaysEof(s.calls[1])
  {
    s0 := Conn(Shared(true, true, false, false, None, None, Nobody, 0, [], [], [], None), []);
    var s;
    s, acts := Closes(s0);
    s, acts := Asks(s0, s, acts);
    s, acts := Extend(s0, s, acts, Work(1, Fine));
    s, acts := Extend(s0, s, acts, Work(1, Fine));
    s, acts := Extend(s0, s, acts, Await(1, false, true));
  }

  /** A receive that finds the flag set. */
  lemma Asks(s0: Conn, s: Conn, acts: seq<Act>) returns (n: Conn, acts': seq<Act>)
    requires Exec(s0, acts) == Some(s) && |s.calls| == 1 && s.calls[0].op == OpClose
    requires s.g.closed && s.g.lone && s.g.directRecv && s.g.recvMu.None? && s.g.got == []
    ensures Exec(s0, acts') == Some(n) && |n.calls| == 2 && n.g.got == []
    ensures n.calls[1] == Call(OpRecv, true, WUnlock(WasClosed), MakeChan(1), CSelect, None)
  {
    n, acts' := Extend(s0, s, acts, Start(OpRecv, true));
    n, acts' := Extend(s0, n, acts', Work(1, Fine));
    n, acts' := Extend(s0, n, acts', Work(1, Fine));
  }
}
