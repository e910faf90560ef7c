/**
 * What a plugin stream's handler did, read off its own actions: which messages it sent,
 * how it ended, and when the user's code ran at all.
 */
module PluginHandlerRuns {
  import opened Basics
  import opened Channels
  import opened PluginServer
  import opened PluginStreamRuns

  // ----- how the handler ended -----

  /** The action makes a handler of that kind fail with `e`. */
  predicate Fails(kind: Kind, a: Act, e: string) {
    a.Handler? &&
    match a.act
    case InitRecv(d) => d == Some(e)
    case UserPanic(x) => x == e
    case SendOnClosed(x) => x == e
    case UserReturn(x, isEof, _) => x == Some(e) && (kind == ClientStreaming || !isEof)
    case _ => false
  }

  ghost predicate FailedBy(kind: Kind, acts: seq<Act>, e: string) {
    exists k :: 0 <= k < |acts| && Fails(kind, acts[k], e)
  }

  lemma FailedBySnoc(kind: Kind, acts: seq<Act>, a: Act, e: string)
    ensures FailedBy(kind, acts + [a], e) <==> FailedBy(kind, acts, e) || Fails(kind, a, e)
  {
    var more := acts + [a];
    if FailedBy(kind, acts, e) {
      var k :| 0 <= k < |acts| && Fails(kind, acts[k], e);
      assert Fails(kind, more[k], e);
    }
    if Fails(kind, a, e) {
      assert Fails(kind, more[|acts|], e);
    }
  }

  /** The outcome is a failure exactly if some action was one. */
  ghost predicate Explained(s: Machine, past: seq<Act>) {
    forall e :: s.ps.outcome == Failed(e) <==> FailedBy(s.ps.kind, past, e)
  }

  /** A step keeps an outcome that there is, and fails as its label says. */
  lemma OutcomeStep(ps: PStream, a: HandlerAct)
    requires Life(ps) && HandlerEnabled(ps, a)
    ensures var q := HandlerDo(ps, a);
      && q.kind == ps.kind
      && (ps.outcome != Running ==> q.outcome == ps.outcome && forall e :: !Fails(ps.kind, Handler(a), e))
      && (ps.outcome == Running ==> forall e :: q.outcome == Failed(e) <==> Fails(ps.kind, Handler(a), e))
  {
    if a.InitRecv? || a.RecvReady? {
      var q := Dequeue(ps);
      assert q.outcome == ps.outcome && q.kind == ps.kind;
    }
  }

  lemma OutcomeCall(ps: PStream, pc: CallPc, c: Choice)
    requires CallEnabled(ps, pc, c)
    ensures var q := CallDo(ps, pc, c).0; q.outcome == ps.outcome && q.kind == ps.kind && q.pc == ps.pc
  {
    if InRecv(pc) {
      RecvFrame(ps, pc, c);
    }
  }

  lemma ExplainedStep(s: Machine, past: seq<Act>, a: Act)
    requires Explained(s, past) && Life(s.ps) && Enabled(s, a)
    ensures Explained(Do(s, a), past + [a])
  {
    match a {
      case Handler(h) => OutcomeStep(s.ps, h);
      case Call(t, c) => OutcomeCall(s.ps, s.threads[t], c);
      case _ =>
    }
    forall e
      ensures Do(s, a).ps.outcome == Failed(e) <==> FailedBy(s.ps.kind, past + [a], e)
    {
      FailedBySnoc(s.ps.kind, past, a, e);
    }
  }

  // ----- what the handler sent -----

  /** The message that the handler means to send: its last UserSend's, or the reply it returned. */
  function Meant(acts: seq<Act>): Bytes {
    if acts == [] then []
    else
      var last := acts[|acts|-1];
      if last.Handler? && last.act.UserSend? then last.act.msg
      else if last.Handler? && last.act.UserReturn? then last.act.reply
      else Meant(acts[..|acts|-1])
  }

  /** The messages meant at each send that took effect. */
  function Said(acts: seq<Act>): seq<Bytes> {
    if acts == [] then []
    else
      var front := acts[..|acts|-1];
      Said(front) + (if acts[|acts|-1] == Handler(SendReady) then [Meant(front)] else [])
  }

  lemma MeantSnoc(acts: seq<Act>, a: Act)
    ensures Meant(acts + [a]) ==
      if a.Handler? && a.act.UserSend? then a.act.msg
      else if a.Handler? && a.act.UserReturn? then a.act.reply
      else Meant(acts)
    ensures Said(acts + [a]) == Said(acts) + (if a == Handler(SendReady) then [Meant(acts)] else [])
  {
    assert (acts + [a])[..|acts|] == acts;
  }

  predicate Speaking(s: Machine, past: seq<Act>) {
    s.ps.hist.sent == Said(past) && (s.ps.pc.HSend? ==> s.ps.pc.msg == Meant(past))
  }

  lemma SpeakingHandler(ps: PStream, a: HandlerAct)
    requires HandlerEnabled(ps, a)
    ensures var q := HandlerDo(ps, a);
      && q.hist.sent == ps.hist.sent + (if a.SendReady? then [ps.pc.msg] else [])
      && (q.pc.HSend? ==> (a.UserSend? && q.pc.msg == a.msg) || (a.UserReturn? && q.pc.msg == a.reply))
  {
    if a.InitRecv? || a.RecvReady? {
      assert Dequeue(ps).hist.sent == ps.hist.sent;
    }
  }

  lemma SpeakingCall(ps: PStream, pc: CallPc, c: Choice)
    requires CallEnabled(ps, pc, c)
    ensures CallDo(ps, pc, c).0.hist.sent == ps.hist.sent
  {
    if InRecv(pc) {
      RecvFrame(ps, pc, c);
    }
  }

  lemma SpeakingStep(s: Machine, past: seq<Act>, a: Act)
    requires Speaking(s, past) && Enabled(s, a)
    ensures Speaking(Do(s, a), past + [a])
  {
    MeantSnoc(past, a);
    match a
    case Handler(h) => SpeakingHandler(s.ps, h);
    case Call(t, c) =>
      SpeakingCall(s.ps, s.threads[t], c);
      OutcomeCall(s.ps, s.threads[t], c);
    case _ =>
  }

  // ----- when the user's code runs -----

  /** The user's code is running, or in the middle of one of its sends and receives. */
  predicate InUserCode(pc: HandlerPc) {
    pc == HUser || pc.HSend? || pc == HRecv
  }

  /**
   * The user's code runs for a known method only, and for a server-streaming one after the
   * first request was read; an unknown method sends and reads nothing.
   */
  predicate RunsInTurn(ps: PStream) {
    && (InUserCode(ps.pc) ==> ps.kind != UnknownMethod && (ps.kind == ServerStreaming ==> ps.hist.readLog != []))
    && (ps.pc == HInit ==> ps.kind == ServerStreaming)
    && (ps.kind == UnknownMethod ==> ps.hist.sent == [] && ps.hist.readLog == [])
  }

  lemma TurnHandler(ps: PStream, a: HandlerAct)
    requires RunsInTurn(ps) && HandlerEnabled(ps, a)
    ensures RunsInTurn(HandlerDo(ps, a))
  {
    if a.InitRecv? || a.RecvReady? {
      TurnReads(ps, a);
    }
  }

  lemma TurnReads(ps: PStream, a: HandlerAct)
    requires RunsInTurn(ps) && HandlerEnabled(ps, a) && (a.InitRecv? || a.RecvReady?)
    ensures RunsInTurn(HandlerDo(ps, a))
  {
    var q := Dequeue(ps);
    assert |q.hist.readLog| == |ps.hist.readLog| + 1 && q.kind == ps.kind && q.hist.sent == ps.hist.sent && q.pc == ps.pc;
  }

  lemma TurnCall(ps: PStream, pc: CallPc, c: Choice)
    requires RunsInTurn(ps) && CallEnabled(ps, pc, c)
    ensures RunsInTurn(CallDo(ps, pc, c).0)
  {
    OutcomeCall(ps, pc, c);
    SpeakingCall(ps, pc, c);
    ReadCall(ps, pc, c);
  }

  lemma ReadCall(ps: PStream, pc: CallPc, c: Choice)
    requires CallEnabled(ps, pc, c)
    ensures CallDo(ps, pc, c).0.hist.readLog == ps.hist.readLog
  {
    if InRecv(pc) {
      RecvFrame(ps, pc, c);
    }
  }

  lemma TurnStep(s: Machine, a: Act)
    requires RunsInTurn(s.ps) && Enabled(s, a)
    ensures RunsInTurn(Do(s, a).ps)
  {
    match a
    case Handler(h) => TurnHandler(s.ps, h);
    case Call(t, c) => TurnCall(s.ps, s.threads[t], c);
    case _ =>
  }

  /** The user's code returns or panics. */
  predicate Leaves(a: Act) {
    a.Handler? && (a.act.UserReturn? || a.act.UserPanic?)
  }

  /** The generated code gives up without that. */
  predicate Cuts(a: Act) {
    a.Handler? && (a.act.SendOnClosed? || a.act.InitDone? || (a.act.InitRecv? && a.act.decodeError.Some?))
  }

  ghost predicate Over(acts: seq<Act>) {
    exists k :: 0 <= k < |acts| && Leaves(acts[k])
  }

  ghost predicate CutShort(acts: seq<Act>) {
    exists k :: 0 <= k < |acts| && Cuts(acts[k])
  }

  lemma OverSnoc(acts: seq<Act>, a: Act)
    ensures Over(acts + [a]) <==> Over(acts) || Leaves(a)
    ensures CutShort(acts + [a]) <==> CutShort(acts) || Cuts(a)
  {
    var more := acts + [a];
    if Over(acts) {
      var k :| 0 <= k < |acts| && Leaves(acts[k]);
      assert Leaves(more[k]);
    }
    if CutShort(acts) {
      var k :| 0 <= k < |acts| && Cuts(acts[k]);
      assert Cuts(more[k]);
    }
    assert more[|acts|] == a;
  }

  /**
   * The user's code never runs again once it has left, and the reply that it returned is
   * all that is sent then; the handler is on its way out only if the code has left or the
   * generated code had a reason to give up.
   */
  predicate RunsOnce(ps: PStream, over: bool, cut: bool) {
    && (ps.pc == HStart || ps.pc == HInit || ps.pc == HUser || ps.pc == HRecv ==> !over)
    && (ps.pc.HSend? ==> (ps.pc.final <==> over))
    && (InUserCode(ps.pc) || ps.pc == HStart || ps.pc == HInit || over || cut || ps.kind == UnknownMethod)
  }

  lemma OnceHandler(ps: PStream, a: HandlerAct, over: bool, cut: bool)
    requires RunsOnce(ps, over, cut) && HandlerEnabled(ps, a)
    ensures RunsOnce(HandlerDo(ps, a), over || Leaves(Handler(a)), cut || Cuts(Handler(a)))
  {
    if a.InitRecv? || a.RecvReady? {
      assert Dequeue(ps).kind == ps.kind && Dequeue(ps).pc == ps.pc;
    }
  }

  lemma OnceStep(s: Machine, past: seq<Act>, a: Act)
    requires RunsOnce(s.ps, Over(past), CutShort(past)) && Enabled(s, a)
    ensures RunsOnce(Do(s, a).ps, Over(past + [a]), CutShort(past + [a]))
  {
    OverSnoc(past, a);
    match a
    case Handler(h) => OnceHandler(s.ps, h, Over(past), CutShort(past));
    case Call(t, c) => OutcomeCall(s.ps, s.threads[t], c);
    case _ =>
  }

  // ----- every run -----

  ghost predicate Told(s: Machine, past: seq<Act>) {
    Inv(s) && Explained(s, past) && Speaking(s, past) && RunsInTurn(s.ps) && RunsOnce(s.ps, Over(past), CutShort(past))
  }

  lemma ToldStep(s: Machine, past: seq<Act>, a: Act)
    requires Told(s, past) && Enabled(s, a)
    ensures Told(Do(s, a), past + [a])
  {
    ExplainedStep(s, past, a);
    SpeakingStep(s, past, a);
    TurnStep(s, a);
    OnceStep(s, past, a);
    StepInv(s, a);
  }

  lemma {:induction false} ToldRun(s: Machine, past: seq<Act>, acts: seq<Act>, all: seq<Act>)
    requires Told(s, past) && Exec(s, acts).Some? && all == past + acts
    ensures Told(Exec(s, acts).value, all)
    decreases |acts|
  {
    if acts == [] {
      assert all == past;
    } else {
      ToldStep(s, past, acts[0]);
      assert all == past + [acts[0]] + acts[1..];
      ToldRun(Do(s, acts[0]), past + [acts[0]], acts[1..], all);
    }
  }

  lemma RunIsTold(s0: Machine, acts: seq<Act>)
    requires Init(s0) && Exec(s0, acts).Some?
    ensures Told(Exec(s0, acts).value, acts)
  {
    InitInv(s0);
    ToldRun(s0, [], acts, acts);
  }

  /**
   * In every run the handler has failed with `e` if and only if it panicked with `e`, met a
   * closed channel, could not decode its first request, or returned the error `e` - which
   * for a streaming method must not be io.EOF; and a handler that has ended otherwise has
   * succeeded.
   */
  lemma OutcomeIsTheHandlers(s0: Machine, acts: seq<Act>, e: string)
    requires Init(s0) && Exec(s0, acts).Some?
    ensures var s := Exec(s0, acts).value;
      && (s.ps.outcome == Failed(e) <==> FailedBy(s.ps.kind, acts, e))
      && (s.ps.outcome == Running <==> s.ps.pc == HStart || s.ps.pc == HInit || InUserCode(s.ps.pc))
  {
    RunIsTold(s0, acts);
  }

  /** In every run what was sent are the messages that the user's code gave to its sends, and its reply, in order. */
  lemma SentIsWhatWasSaid(s0: Machine, acts: seq<Act>)
    requires Init(s0) && Exec(s0, acts).Some?
    ensures Exec(s0, acts).value.ps.hist.sent == Said(acts)
  {
    RunIsTold(s0, acts);
  }

  /**
   * In every run the user's code has its turn only where the generated code gives it one,
   * and one only: it does not run again after it has returned or panicked, and the handler
   * does not go on to its end unless the code has, or was cut short.
   */
  lemma UserCodeRunsInTurn(s0: Machine, acts: seq<Act>)
    requires Init(s0) && Exec(s0, acts).Some?
    ensures RunsInTurn(Exec(s0, acts).value.ps) && RunsOnce(Exec(s0, acts).value.ps, Over(acts), CutShort(acts))
  {
    RunIsTold(s0, acts);
  }
}
