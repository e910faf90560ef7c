/**
 * What the calls on a client's stream return: the plugin's own answer to them, or, without
 * having asked it, that the stream was closed; and what a lone receiver's calls returned,
 * one after the other, is what the other theorems call `returned`.
 */
module PluginConnReplies {
  import opened Basics
  import opened Channels
  import opened PluginConn

  /** `r` is a reply that call `c` may give. */
  predicate Explained(g: Shared, c: Call, r: Reply) {
    if c.op.OpClose? then r == Fine && c.answer.None?
    else if c.answer.Some? then r == c.answer.value && Answers(c.op, r)
    else r == WasClosed && g.closed
  }

  /** The reply on its way from the worker to the slot and to the caller. */
  predicate ReplyOk(g: Shared, c: Call) {
    && (c.worker.WSwap? || c.worker.WClose? || c.worker.WUnlock? || c.worker.WDeliver? ==> Explained(g, c, c.worker.reply))
    && (c.worker.WLock? || c.worker.WCheck? || c.worker.WCall? ==> c.answer.None?)
    && (c.done.buf != [] ==> Explained(g, c, c.done.buf[0]))
    && (Served(c) ==> Explained(g, c, c.caller.reply.value))
  }

  lemma ReplyStays(g: Shared, g': Shared, c: Call)
    requires ReplyOk(g, c) && (g.closed ==> g'.closed)
    ensures ReplyOk(g', c)
  {
  }

  lemma WorkReply(g: Shared, i: nat, c: Call, answer: Reply)
    requires WorkEnabled(g, c, answer) && PointsOk(c) && SlotOk(g, c) && ReplyOk(g, c)
    ensures var r := WorkDo(g, i, c, answer); ReplyOk(r.0, r.1) && (g.closed ==> r.0.closed)
  {
  }

  lemma AwaitReply(g: Shared, i: nat, c: Call, ctx: bool, ok: bool)
    requires AwaitEnabled(g, c, ctx) && SlotOk(g, c) && ReplyOk(g, c)
    ensures var r := AwaitDo(g, i, c, ctx, ok); ReplyOk(r.0, r.1) && (g.closed ==> r.0.closed)
  {
  }

  // ----- what receives have returned, in the order of the calls -----

  /** The message that a call returned to its caller. */
  function Message(c: Call): seq<Bytes> {
    if c.op.OpRecv? && Served(c) && c.caller.reply.value.Got? then [c.caller.reply.value.msg] else []
  }

  function MessagesOf(calls: seq<Call>): seq<Bytes> {
    if calls == [] then [] else MessagesOf(calls[..|calls|-1]) + Message(calls[|calls|-1])
  }

  lemma {:induction false} OneReplaced(calls: seq<Call>, i: nat, c: Call)
    requires i < |calls| && Message(calls[i]) == []
    requires Message(c) != [] ==> forall j | i < j < |calls| :: Message(calls[j]) == []
    ensures MessagesOf(calls[i := c]) == MessagesOf(calls) + Message(c)
  {
    var front, n := calls[..|calls|-1], calls[i := c];
    if i == |calls| - 1 {
      assert n[..|n|-1] == front;
    } else {
      assert n[..|n|-1] == front[i := c];
      OneReplaced(front, i, c);
      assert Message(c) != [] ==> Message(calls[|calls|-1]) == [];
    }
  }

  lemma {:induction false} SameMessages(calls: seq<Call>, i: nat, c: Call)
    requires i < |calls| && Message(c) == Message(calls[i])
    ensures MessagesOf(calls[i := c]) == MessagesOf(calls)
  {
    var front, n := calls[..|calls|-1], calls[i := c];
    if i == |calls| - 1 {
      assert n[..|n|-1] == front;
    } else {
      assert n[..|n|-1] == front[i := c];
      SameMessages(front, i, c);
    }
  }

  /** Of a lone receiver's calls only the last can be pending. */
  predicate InTurn(s: Conn) {
    s.g.lone ==> forall i, j | 0 <= i < j < |s.calls| && s.calls[i].op.OpRecv? && s.calls[j].op.OpRecv? ::
      s.calls[i].caller.Returned?
  }

  ghost predicate Told(s: Conn) {
    && (forall i | 0 <= i < |s.calls| :: ReplyOk(s.g, s.calls[i]))
    && InTurn(s)
    && (s.g.lone ==> s.g.returned == MessagesOf(s.calls))
  }

  lemma StartTold(s: Conn, op: Op, direct: bool)
    requires Told(s) && Enabled(s, Start(op, direct))
    ensures Told(Do(s, Start(op, direct)))
  {
    var n := Do(s, Start(op, direct));
    assert n.calls[..|s.calls|] == s.calls;
    forall i | 0 <= i < |n.calls|
      ensures ReplyOk(n.g, n.calls[i])
    {
      if i < |s.calls| {
        ReplyStays(s.g, n.g, s.calls[i]);
      }
    }
  }

  lemma RepliesKept(s: Conn, n: Conn, i: nat)
    requires i < |s.calls| == |n.calls| && n.calls == s.calls[i := n.calls[i]] && (s.g.closed ==> n.g.closed)
    requires (forall j | 0 <= j < |s.calls| :: ReplyOk(s.g, s.calls[j])) && ReplyOk(n.g, n.calls[i])
    ensures forall j | 0 <= j < |n.calls| :: ReplyOk(n.g, n.calls[j])
  {
    forall j | 0 <= j < |n.calls|
      ensures ReplyOk(n.g, n.calls[j])
    {
      if j != i {
        ReplyStays(s.g, n.g, s.calls[j]);
      }
    }
  }

  lemma WorkTold(s: Conn, i: nat, answer: Reply)
    requires Inv(s) && Told(s) && Enabled(s, Work(i, answer))
    ensures Told(Do(s, Work(i, answer)))
  {
    var n := Do(s, Work(i, answer));
    assert CallOk(s.g, i, s.calls[i]);
    WorkReply(s.g, i, s.calls[i], answer);
    RepliesKept(s, n, i);
    WorkerOnly(s.g, i, s.calls[i], answer);
    TurnKept(s, n, i);
    SameMessages(s.calls, i, n.calls[i]);
  }

  lemma WorkerOnly(g: Shared, i: nat, c: Call, answer: Reply)
    requires WorkEnabled(g, c, answer)
    ensures var r := WorkDo(g, i, c, answer);
      r.1.op == c.op && r.1.caller == c.caller && r.0.returned == g.returned && r.0.lone == g.lone
  {
  }

  lemma CallerOnly(g: Shared, i: nat, c: Call, ctx: bool, ok: bool)
    requires AwaitEnabled(g, c, ctx) && SlotOk(g, c) && (!c.op.OpRecv? ==> InHand(c) == [])
    ensures var r := AwaitDo(g, i, c, ctx, ok);
      r.1.op == c.op && r.0.lone == g.lone && r.0.returned == g.returned + Message(r.1)
  {
  }

  lemma AwaitTold(s: Conn, i: nat, ctx: bool, ok: bool)
    requires Inv(s) && Told(s) && Enabled(s, Await(i, ctx, ok))
    ensures Told(Do(s, Await(i, ctx, ok)))
  {
    var c, n := s.calls[i], Do(s, Await(i, ctx, ok));
    assert CallOk(s.g, i, c);
    AwaitReply(s.g, i, c, ctx, ok);
    RepliesKept(s, n, i);
    CallerOnly(s.g, i, c, ctx, ok);
    TurnKept(s, n, i);
    if s.g.lone {
      CallReturns(s, i, n.calls[i]);
    }
  }

  lemma TurnKept(s: Conn, n: Conn, i: nat)
    requires InTurn(s) && i < |s.calls| == |n.calls| && n.calls == s.calls[i := n.calls[i]] && n.g.lone == s.g.lone
    requires n.calls[i].op == s.calls[i].op && (s.calls[i].caller.Returned? ==> n.calls[i].caller.Returned?)
    ensures InTurn(n)
  {
  }

  /** A pending call of a lone receiver returns: no later call is a receive. */
  lemma CallReturns(s: Conn, i: nat, c: Call)
    requires s.g.lone && InTurn(s) && i < |s.calls| && !s.calls[i].caller.Returned? && c.op == s.calls[i].op
    ensures MessagesOf(s.calls[i := c]) == MessagesOf(s.calls) + Message(c)
  {
    if c.op.OpRecv? {
      OneReplaced(s.calls, i, c);
    } else {
      SameMessages(s.calls, i, c);
    }
  }

  lemma {:induction false} ToldRun(s: Conn, acts: seq<Act>)
    requires Inv(s) && Told(s) && Exec(s, acts).Some?
    ensures Told(Exec(s, acts).value)
    decreases |acts|
  {
    if acts != [] {
      StepKeeps(s, acts[0]);
      match acts[0] {
        case Cancel =>
        case Start(op, direct) => StartTold(s, op, direct);
        case Work(i, answer) => WorkTold(s, i, answer);
        case Await(i, ctx, ok) => AwaitTold(s, i, ctx, ok);
      }
      ToldRun(Do(s, acts[0]), acts[1..]);
    }
  }

  /**
   * In every run: a call that returned a reply of its worker returned the plugin's answer
   * to that very call, or that the stream was closed if the plugin was not asked, and then
   * it is; Close returns no error.  With a lone receiver, the messages that its calls
   * returned, in order, are the messages taken.
   */
  lemma RepliesAreThePlugins(s0: Conn, acts: seq<Act>, s: Conn)
    requires Init(s0) && Exec(s0, acts) == Some(s)
    ensures forall i | 0 <= i < |s.calls| && Served(s.calls[i]) :: Explained(s.g, s.calls[i], s.calls[i].caller.reply.value)
    ensures s.g.lone ==> s.g.returned == MessagesOf(s.calls)
  {
    ToldRun(s0, acts);
    forall i | 0 <= i < |s.calls| && Served(s.calls[i])
      ensures Explained(s.g, s.calls[i], s.calls[i].caller.reply.value)
    {
      assert ReplyOk(s.g, s.calls[i]);
    }
  }

  // ----- calls that come too late -----

  /** The call has no worker, and returns with the context's error if it has not yet. */
  predicate NeverAsked(c: Call) {
    c.worker == WExit && c.answer.None? && c.done.buf == [] && c.caller != CSelect && !Served(c)
  }

  lemma NeverAskedStep(s: Conn, a: Act, i: nat)
    requires Enabled(s, a) && i < |s.calls| && NeverAsked(s.calls[i])
    ensures i < |Do(s, a).calls| && NeverAsked(Do(s, a).calls[i])
  {
  }

  lemma {:induction false} NeverAskedRun(s: Conn, acts: seq<Act>, i: nat)
    requires Exec(s, acts).Some? && i < |s.calls| && NeverAsked(s.calls[i])
    ensures i < |Exec(s, acts).value.calls| && NeverAsked(Exec(s, acts).value.calls[i])
    decreases |acts|
  {
    if acts != [] {
      NeverAskedStep(s, acts[0], i);
      NeverAskedRun(Do(s, acts[0]), acts[1..], i);
    }
  }

  /** A call that looks at the context and begins after its end never asks the plugin, whatever happens. */
  lemma CallAfterCancelAsksNothing(s: Conn, op: Op, more: seq<Act>, n: Conn)
    requires s.g.cancelled && Enabled(s, Start(op, false)) && Exec(Do(s, Start(op, false)), more) == Some(n)
    ensures |s.calls| < |n.calls| && NeverAsked(n.calls[|s.calls|])
  {
    NeverAskedRun(Do(s, Start(op, false)), more, |s.calls|);
  }
}
