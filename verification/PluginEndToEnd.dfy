/**
 * From the handler inside the plugin to the caller of RecvMsg: the client's view of a
 * stream (PluginConn) on top of a run of that stream (PluginStreamRuns).  The receives
 * that the client's workers make are the only ones on the stream, and each is answered
 * by what the exported receive function returns; everything else moves freely on both
 * sides, the sends, half-closes and closes of any thread included.
 */
module PluginEndToEnd {
  import opened Basics
  import opened PluginServer
  import C = PluginConn
  import R = PluginStreamRuns
  import W = PluginWholeCalls

  /**
   * Thread 0 of `m` makes the receives, one at a time as the client's mutex has it.
   * `outside` says that somebody else may close the stream: the plugin has been closed,
   * or its handle is used apart from this client.
   */
  datatype Joint = Joint(conn: C.Conn, m: R.Machine, outside: bool)

  datatype Act =
    | Client(step: C.Act)
    | Inside(move: R.Act)
    | Enter(i: nat)
    | Leave(i: nat)
    | Refused(i: nat)  // the plugin is closed: StreamRecv does not enter the library
    | Outside

  /** Call `i` is a receive whose worker is in StreamRecv. */
  predicate Calling(conn: C.Conn, i: nat) {
    i < |conn.calls| && conn.calls[i].op.OpRecv? && conn.calls[i].worker.WCall?
  }

  function AnswerOf(r: RecvResult): C.Reply {
    if r.RData? then C.Got(r.msg) else if r.REof? then C.Eof else C.Failed
  }

  predicate Receives(pc: CallPc) {
    pc.RecvEnter? || pc.RecvPoll? || pc.RecvPollErr? || pc.RecvWait? || pc.RecvDrained? || pc.RecvRecheck? || pc.RecvRet?
  }

  /** A close call on the stream is made by the thread that set the client's flag, or from outside. */
  predicate Enabled(j: Joint, a: Act) {
    |j.m.threads| > 0 &&
    match a
    case Client(c) => C.Enabled(j.conn, c) && !(c.Work? && Calling(j.conn, c.i))
    case Inside(r) =>
      && R.Enabled(j.m, r) && r != R.Return(0)
      && (r.Start? ==> r.t != 0 && !r.entry.RecvEnter? && (r.entry.CloseEnter? ==> j.conn.g.closed || j.outside))
    case Enter(i) => Calling(j.conn, i) && j.m.threads[0].Idle?
    case Leave(i) => Calling(j.conn, i) && j.m.threads[0].RecvRet?
    case Refused(i) => Calling(j.conn, i) && j.m.threads[0].Idle? && j.outside
    case Outside => true
  }

  function Do(j: Joint, a: Act): Joint
    requires Enabled(j, a)
  {
    match a
    case Client(c) => j.(conn := C.Do(j.conn, c))
    case Inside(r) => j.(m := R.Do(j.m, r))
    case Enter(i) => j.(m := R.Do(j.m, R.Start(0, RecvEnter)))
    case Leave(i) =>
      j.(conn := C.Do(j.conn, C.Work(i, AnswerOf(j.m.threads[0].result))), m := R.Do(j.m, R.Return(0)))
    case Refused(i) => j.(conn := C.Do(j.conn, C.Work(i, C.Failed)))
    case Outside => j.(outside := true)
  }

  function Exec(j: Joint, acts: seq<Act>): Option<Joint>
    decreases |acts|
  {
    if acts == [] then Some(j)
    else if Enabled(j, acts[0]) then Exec(Do(j, acts[0]), acts[1..])
    else None
  }

  /** A stream just opened and handed to one receiving client thread. */
  predicate Init(j: Joint) {
    && C.Init(j.conn) && j.conn.g.lone && R.Init(j.m)
    && |j.m.threads| > 0 && j.m.threads[0].Idle?
    && forall t | 0 < t < |j.m.threads| ::
         !Receives(j.m.threads[t]) && (j.m.threads[t].CloseEnter? ==> j.outside)
  }

  // ----- the invariant -----

  /** The message that the receive function has returned and StreamRecv not yet. */
  function Underway(pc: CallPc): seq<Bytes> {
    if pc.RecvRet? && pc.result.RData? then [pc.result.msg] else []
  }

  /** The client has heard of every payload that left the plugin, but the one underway. */
  predicate Linked(j: Joint) {
    && |j.m.threads| > 0
    && (forall t | 0 < t < |j.m.threads| :: !Receives(j.m.threads[t]))
    && (j.m.threads[0].Idle? || Receives(j.m.threads[0]))
    && (!j.m.threads[0].Idle? ==> j.conn.g.recvMu.Some? && Calling(j.conn, j.conn.g.recvMu.value))
    && C.Messages(j.conn.g.got) + Underway(j.m.threads[0]) == R.Payloads(j.m.ps.hist.recvLog)
    && j.conn.g.lone
  }

  predicate Inv(j: Joint) {
    C.Inv(j.conn) && R.Inv(j.m) && Linked(j)
  }

  /** The answers, and the receive that is in StreamRecv if there is one, stay as they are. */
  predicate SameCalling(conn: C.Conn, n: C.Conn) {
    && n.g.got == conn.g.got && n.g.lone == conn.g.lone
    && (conn.g.recvMu.Some? && Calling(conn, conn.g.recvMu.value) ==>
          n.g.recvMu == conn.g.recvMu && Calling(n, n.g.recvMu.value))
  }

  lemma WorkFrame(conn: C.Conn, i: nat, answer: C.Reply)
    requires C.Inv(conn) && C.Enabled(conn, C.Work(i, answer)) && !Calling(conn, i)
    ensures SameCalling(conn, C.Do(conn, C.Work(i, answer)))
  {
    assert C.CallOk(conn.g, i, conn.calls[i]);
    if conn.g.recvMu.Some? && conn.g.recvMu.value != i {
      assert C.CallOk(conn.g, conn.g.recvMu.value, conn.calls[conn.g.recvMu.value]);
    }
  }

  lemma AwaitFrame(conn: C.Conn, i: nat, ctx: bool, ok: bool)
    requires C.Enabled(conn, C.Await(i, ctx, ok))
    ensures SameCalling(conn, C.Do(conn, C.Await(i, ctx, ok)))
  {
  }

  /** Outside StreamRecv the client's steps change neither the answers nor who is calling. */
  lemma ClientFrame(conn: C.Conn, a: C.Act)
    requires C.Inv(conn) && C.Enabled(conn, a) && !(a.Work? && Calling(conn, a.i))
    ensures SameCalling(conn, C.Do(conn, a))
  {
    match a
    case Work(i, answer) => WorkFrame(conn, i, answer);
    case Await(i, ctx, ok) => AwaitFrame(conn, i, ctx, ok);
    case Start(op, direct) => assert C.Do(conn, a).calls == conn.calls + [C.NewCall(conn.g, op, direct)];
    case Cancel =>
  }

  /** What one step inside an exported function logs. */
  lemma CallLogs(ps: PStream, pc: CallPc, c: Choice)
    requires CallEnabled(ps, pc, c)
    ensures var (q, next) := CallDo(ps, pc, c);
      && (Receives(next) <==> Receives(pc)) && !next.Idle?
      && q.hist.recvLog == ps.hist.recvLog + (if next.RecvRet? then [next.result] else [])
  {
  }

  lemma HandlerLogs(ps: PStream, a: HandlerAct)
    requires HandlerEnabled(ps, a)
    ensures HandlerDo(ps, a).hist.recvLog == ps.hist.recvLog
  {
    if a.InitRecv? || a.RecvReady? {
      assert Dequeue(ps).hist.recvLog == ps.hist.recvLog;
    }
  }

  lemma CallKeepsLink(j: Joint, t: nat, c: Choice)
    requires Linked(j) && R.Enabled(j.m, R.Call(t, c))
    ensures Linked(j.(m := R.Do(j.m, R.Call(t, c))))
  {
    CallLogs(j.m.ps, j.m.threads[t], c);
    var next := CallDo(j.m.ps, j.m.threads[t], c).1;
    if next.RecvRet? {
      R.PushLog(j.m.ps.hist.recvLog, next.result);
    }
  }

  lemma InsideKeeps(j: Joint, a: R.Act)
    requires Linked(j) && Enabled(j, Inside(a))
    ensures Linked(Do(j, Inside(a)))
  {
    match a
    case Call(t, c) => CallKeepsLink(j, t, c);
    case Handler(h) => HandlerLogs(j.m.ps, h);
    case _ =>
  }

  lemma LeaveEffect(j: Joint, i: nat)
    requires Enabled(j, Leave(i))
    ensures var n := Do(j, Leave(i));
      && n.conn.g.got == j.conn.g.got + [AnswerOf(j.m.threads[0].result)] && n.conn.g.lone == j.conn.g.lone
      && n.m.threads == j.m.threads[0 := CallPc.Idle] && n.m.ps.hist.recvLog == j.m.ps.hist.recvLog
  {
  }

  lemma LeaveKeeps(j: Joint, i: nat)
    requires Linked(j) && Enabled(j, Leave(i))
    ensures Linked(Do(j, Leave(i)))
  {
    LeaveEffect(j, i);
    C.MessagesPush(j.conn.g.got, AnswerOf(j.m.threads[0].result));
  }

  lemma EnterKeeps(j: Joint, i: nat)
    requires Inv(j) && Enabled(j, Enter(i))
    ensures Inv(Do(j, Enter(i)))
  {
    R.StepInv(j.m, R.Start(0, RecvEnter));
    assert C.CallOk(j.conn.g, i, j.conn.calls[i]);
  }

  lemma RefusedKeeps(j: Joint, i: nat)
    requires Inv(j) && Enabled(j, Refused(i))
    ensures Linked(Do(j, Refused(i)))
  {
    C.MessagesPush(j.conn.g.got, C.Failed);
  }

  lemma StepKeeps(j: Joint, a: Act)
    requires Inv(j) && Enabled(j, a)
    ensures Inv(Do(j, a))
  {
    match a
    case Client(c) =>
      ClientFrame(j.conn, c);
      C.StepKeeps(j.conn, c);
    case Inside(r) =>
      R.StepInv(j.m, r);
      InsideKeeps(j, r);
    case Enter(i) => EnterKeeps(j, i);
    case Leave(i) =>
      C.StepKeeps(j.conn, C.Work(i, AnswerOf(j.m.threads[0].result)));
      R.StepInv(j.m, R.Return(0));
      LeaveKeeps(j, i);
    case Refused(i) =>
      C.StepKeeps(j.conn, C.Work(i, C.Failed));
      RefusedKeeps(j, i);
    case Outside =>
  }

  lemma {:induction false} RunKeeps(j: Joint, acts: seq<Act>)
    requires Inv(j) && Exec(j, acts).Some?
    ensures Inv(Exec(j, acts).value)
    decreases |acts|
  {
    if acts != [] {
      StepKeeps(j, acts[0]);
      RunKeeps(Do(j, acts[0]), acts[1..]);
    }
  }

  // ----- what holds in every run -----

  /**
   * What RecvMsg had in hand is a prefix of what the handler sent, in order and without
   * repeats, and of the messages that left the plugin at most one is missing.
   */
  lemma ReturnedIsPrefixOfSent(j0: Joint, acts: seq<Act>, j: Joint)
    requires Init(j0) && Exec(j0, acts) == Some(j)
    ensures j.conn.g.returned <= j.m.ps.hist.sent
    ensures |j.m.ps.hist.taken| <= |j.conn.g.returned| + 1
  {
    R.InitInv(j0.m);
    RunKeeps(j0, acts);
    HandOver(j);
    TakenWasSent(j.m.ps);
  }

  lemma TakenWasSent(ps: PStream)
    requires R.Conserved(ps)
    ensures ps.hist.taken <= ps.hist.sent
  {
  }

  /** Taken from the plugin, but not returned: in a worker's hands, or on the way there. */
  lemma HandOver(j: Joint)
    requires Inv(j)
    ensures var g := j.conn.g;
      && g.returned <= j.m.ps.hist.taken && |j.m.ps.hist.taken| <= |g.returned| + 1
      && (g.returned != j.m.ps.hist.taken <==>
            Underway(j.m.threads[0]) != [] || exists i :: 0 <= i < |j.conn.calls| && C.InHand(j.conn.calls[i]) != [])
  {
    var g := j.conn.g;
    forall i | 0 <= i < |j.conn.calls| && C.InHand(j.conn.calls[i]) != []
      ensures g.current == Some(i)
    {
      assert C.CallOk(g, i, j.conn.calls[i]);
    }
    if g.current.Some? {
      assert C.CallOk(g, g.current.value, j.conn.calls[g.current.value]);
    }
    if !j.m.threads[0].Idle? {
      assert C.CallOk(g, g.recvMu.value, j.conn.calls[g.recvMu.value]);
    }
  }

  /** What leaves the plugin stays out of it, and a finished handler sends nothing more. */
  predicate Grows(m: R.Machine, n: R.Machine) {
    && |m.ps.hist.taken| <= |n.ps.hist.taken|
    && (m.ps.outcome != Running ==> n.ps.outcome == m.ps.outcome && n.ps.hist.sent == m.ps.hist.sent)
  }

  lemma StepGrows(j: Joint, a: Act)
    requires R.Inv(j.m) && Enabled(j, a)
    ensures Grows(j.m, Do(j, a).m)
  {
    match a
    case Inside(r) =>
      R.StepGrows(j.m, r);
      W.TakenStep(j.m, r);
    case Leave(_) =>
      R.StepGrows(j.m, R.Return(0));
      W.TakenStep(j.m, R.Return(0));
    case _ =>
  }

  lemma {:induction false} RunGrows(j: Joint, acts: seq<Act>)
    requires Inv(j) && Exec(j, acts).Some?
    ensures Grows(j.m, Exec(j, acts).value.m)
    decreases |acts|
  {
    if acts != [] {
      StepGrows(j, acts[0]);
      StepKeeps(j, acts[0]);
      RunGrows(Do(j, acts[0]), acts[1..]);
    }
  }

  /**
   * Nothing is missing while no receive is pending and the context lives.  If the handler
   * succeeded, and StreamRecv saw the end of a stream that was not closed before, then
   * RecvMsg has had every message that was sent.  They all reached the application if and
   * only if each of them could be decoded.
   */
  lemma NothingIsLostWithoutCancellation(j0: Joint, acts: seq<Act>, k: Joint, more: seq<Act>, j: Joint)
    requires Init(j0) && Exec(j0, acts) == Some(k) && Exec(k, more) == Some(j)
    requires C.ReceivesReturned(j.conn) && (j.conn.g.directRecv || !j.conn.g.cancelled)
    ensures j.conn.g.returned == j.m.ps.hist.taken
    ensures k.m.ps.outcome == Succeeded && k.m.ps.registered && REof in k.m.ps.hist.recvLog ==>
      j.m.ps.outcome == Succeeded && j.conn.g.returned == j.m.ps.hist.sent
    ensures |j.conn.g.decoded| == |j.conn.g.returned|
    ensures var g := j.conn.g;
      C.Delivered(g.returned, g.decoded) == j.m.ps.hist.taken <==> forall i | 0 <= i < |g.decoded| :: g.decoded[i]
  {
    R.InitInv(j0.m);
    RunKeeps(j0, acts);
    RunKeeps(k, more);
    AllReturned(j);
    C.DeliveredIffDecoded(j.conn.g.returned, j.conn.g.decoded);
    if k.m.ps.outcome == Succeeded && k.m.ps.registered && REof in k.m.ps.hist.recvLog {
      EofAfterAll(k.m);
      RunGrows(k, more);
      AllTaken(k.m, j.m);
    }
  }

  lemma AllTaken(m: R.Machine, n: R.Machine)
    requires R.Inv(n) && Grows(m, n) && m.ps.outcome != Running && m.ps.hist.taken == m.ps.hist.sent
    ensures n.ps.hist.taken == n.ps.hist.sent
  {
  }

  lemma AllReturned(j: Joint)
    requires Inv(j) && C.ReceivesReturned(j.conn) && (j.conn.g.directRecv || !j.conn.g.cancelled)
    ensures j.conn.g.returned == j.m.ps.hist.taken
  {
    C.NothingInHand(j.conn);
    forall i | 0 <= i < |j.conn.calls|
      ensures !Calling(j.conn, i)
    {
      NotCalling(j.conn, i);
    }
  }

  lemma NotCalling(conn: C.Conn, i: nat)
    requires C.Inv(conn) && C.ReceivesReturned(conn) && (conn.g.directRecv || !conn.g.cancelled)
    requires conn.g.lone && i < |conn.calls|
    ensures !Calling(conn, i)
  {
    assert C.CallOk(conn.g, i, conn.calls[i]);
  }

  lemma EofAfterAll(m: R.Machine)
    requires R.Inv(m) && m.ps.outcome == Succeeded && m.ps.registered
    ensures REof in m.ps.hist.recvLog ==> m.ps.hist.taken == m.ps.hist.sent
  {
    R.EofLogged(m.ps.hist.recvLog);
  }

  /** Call `i` is a receive that was answered with a message which its caller has not taken. */
  predicate Holds(conn: C.Conn, i: nat) {
    && i < |conn.calls| && conn.calls[i].op.OpRecv?
    && C.Obtained(conn.calls[i]) && !C.Served(conn.calls[i])
  }

  /** Exactly when a message is missing: some receive has it, or StreamRecv is about to. */
  lemma MissingIffHeld(j0: Joint, acts: seq<Act>, j: Joint)
    requires Init(j0) && Exec(j0, acts) == Some(j)
    ensures |j.m.threads| > 0
    ensures j.conn.g.returned != j.m.ps.hist.taken <==>
      Underway(j.m.threads[0]) != [] || exists i: nat :: Holds(j.conn, i)
  {
    R.InitInv(j0.m);
    RunKeeps(j0, acts);
    MissingNow(j);
  }

  lemma MissingNow(j: Joint)
    requires Inv(j)
    ensures j.conn.g.returned != j.m.ps.hist.taken <==>
      Underway(j.m.threads[0]) != [] || exists i: nat :: Holds(j.conn, i)
  {
    HandOver(j);
    InHandIffHolds(j.conn);
  }

  lemma InHandIffHolds(conn: C.Conn)
    requires C.Inv(conn)
    ensures (exists i :: 0 <= i < |conn.calls| && C.InHand(conn.calls[i]) != []) <==> exists i: nat :: Holds(conn, i)
  {
    forall i: nat | i < |conn.calls|
      ensures C.InHand(conn.calls[i]) != [] <==> Holds(conn, i)
    {
      Held(conn, i);
    }
  }

  lemma Held(conn: C.Conn, i: nat)
    requires C.Inv(conn) && i < |conn.calls|
    ensures var c := conn.calls[i]; C.InHand(c) != [] <==> C.Obtained(c) && !C.Served(c) && c.op.OpRecv?
  {
    assert C.CallOk(conn.g, i, conn.calls[i]);
    C.InHandMeansUntaken(conn.g, conn.calls[i]);
  }
}
