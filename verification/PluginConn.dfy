/**
 * The client's view of one plugin stream (pkg/synurang/plugin_conn.go): the flag
 * `closed`, the two mutexes, and the calls that `withContext` runs in goroutines of
 * their own.  A call is a worker and a caller joined by a one-slot channel; the plugin's
 * answer to a call is a label.  Any number of threads send, receive, half-close and close.
 */
module PluginConn {
  import opened Basics
  import opened Channels

  datatype Op = OpSend(msg: Bytes) | OpRecv | OpCloseSend | OpClose

  /**
   * `Eof` and `Failed` are the plugin's end-of-file and its errors.  `WasClosed` comes from
   * the flag: an error to Send, success to CloseSend, and io.EOF to Recv.
   */
  datatype Reply = Got(msg: Bytes) | Eof | Failed | Fine | WasClosed

  datatype WorkerPc =
    | WLock
    | WCheck
    | WCall
    | WSwap(reply: Reply)
    | WClose(reply: Reply)
    | WUnlock(reply: Reply)
    | WDeliver(reply: Reply)
    | WExit

  /** `Returned(None)` is a return with the error of the context. */
  datatype CallerPc = CSelect | CSwap | CClose | Returned(reply: Option<Reply>)

  /**
   * `direct` calls do not look at the context: they wait for the worker only.  `answer`
   * is what the plugin answered to the call, if it was asked (history).
   */
  datatype Call = Call(
    op: Op, direct: bool, worker: WorkerPc, done: Chan<Reply>, caller: CallerPc, answer: Option<Reply>)

  /** Who set the flag, and whether the plugin has been told (history). */
  datatype Closer = Nobody | ByWorker(i: nat) | ByCaller(i: nat) | PluginTold

  /**
   * What the calls share.  `lone` says that the receives come from one thread, each after
   * the return of the one before; it then uses one interface, PluginStream itself
   * (`directRecv`) or pluginClientStream, which adds the context.
   *
   * History: `closer` above, `closeCalls` counts StreamClose calls, `got` lists what the
   * plugin answered to receives, `returned` the messages that receive calls took from
   * their workers, `decoded` says of each whether it could be decoded for the caller,
   * `current` the last receive call that has a worker.
   */
  datatype Shared = Shared(
    lone: bool, directRecv: bool, cancelled: bool, closed: bool, sendMu: Option<nat>, recvMu: Option<nat>,
    closer: Closer, closeCalls: nat, got: seq<Reply>, returned: seq<Bytes>, decoded: seq<bool>, current: Option<nat>)

  datatype Conn = Conn(g: Shared, calls: seq<Call>)

  datatype Act =
    | Cancel
    | Start(op: Op, direct: bool)
    | Work(i: nat, answer: Reply)
    | Await(i: nat, ctx: bool, decodes: bool)

  predicate IsFree(g: Shared, op: Op) {
    if op.OpRecv? then g.recvMu.None? else g.sendMu.None?
  }

  /** The mutex an operation holds. */
  function SetMutex(g: Shared, op: Op, owner: Option<nat>): Shared {
    if op.OpRecv? then g.(recvMu := owner) else g.(sendMu := owner)
  }

  predicate Answers(op: Op, answer: Reply) {
    answer == Failed || (if op.OpRecv? then answer.Got? || answer == Eof else answer == Fine)
  }

  predicate WorkEnabled(g: Shared, c: Call, answer: Reply) {
    match c.worker
    case WLock => IsFree(g, c.op)
    case WCall => Answers(c.op, answer)
    case WDeliver(_) => c.done.CanSend()
    case WExit => false
    case _ => true
  }

  predicate AwaitEnabled(g: Shared, c: Call, ctx: bool) {
    match c.caller
    case CSelect => if ctx then g.cancelled && !c.direct else c.done.CanRecv()
    case Returned(_) => false
    case _ => true
  }

  /** The worker's next step; closeInternal is WSwap and WClose. */
  function WorkDo(g: Shared, i: nat, c: Call, answer: Reply): (Shared, Call)
    requires WorkEnabled(g, c, answer)
  {
    match c.worker
    case WLock => (SetMutex(g, c.op, Some(i)), c.(worker := WCheck))
    case WCheck => (g, c.(worker := if g.closed then WUnlock(WasClosed) else WCall))
    case WCall =>
      if c.op.OpRecv? then
        (g.(got := g.got + [answer]),
         c.(worker := if answer.Got? then WUnlock(answer) else WSwap(answer), answer := Some(answer)))
      else (g, c.(worker := WUnlock(answer), answer := Some(answer)))
    case WSwap(r) =>
      if g.closed then (g, c.(worker := AfterClose(c.op, r)))
      else (g.(closed := true, closer := ByWorker(i)), c.(worker := WClose(r)))
    case WClose(r) =>
      (g.(closeCalls := g.closeCalls + 1, closer := PluginTold), c.(worker := AfterClose(c.op, r)))
    case WUnlock(r) => (SetMutex(g, c.op, None), c.(worker := WDeliver(r)))
    case WDeliver(r) => (g, c.(worker := WExit, done := c.done.Send(r)))
    case WExit => (g, c)  // not enabled
  }

  function AfterClose(op: Op, reply: Reply): WorkerPc {
    if op.OpClose? then WDeliver(reply) else WUnlock(reply)
  }

  /** RecvMsg decodes what it took; a direct receive hands on the bytes. */
  function AwaitDo(g: Shared, i: nat, c: Call, ctx: bool, decodes: bool): (Shared, Call)
    requires AwaitEnabled(g, c, ctx)
  {
    match c.caller
    case CSelect =>
      if ctx then (g, c.(caller := CSwap))
      else
        var r := c.done.buf[0];
        (if r.Got? then g.(returned := g.returned + [r.msg], decoded := g.decoded + [c.direct || decodes]) else g,
         c.(caller := Returned(Some(r)), done := c.done.Recv()))
    case CSwap =>
      if g.closed then (g, c.(caller := Returned(None)))
      else (g.(closed := true, closer := ByCaller(i)), c.(caller := CClose))
    case CClose =>
      (g.(closeCalls := g.closeCalls + 1, closer := PluginTold), c.(caller := Returned(None)))
    case Returned(_) => (g, c)  // not enabled
  }

  /** withContext starts no goroutine when the context is over already. */
  function NewCall(g: Shared, op: Op, direct: bool): Call {
    if !direct && g.cancelled then Call(op, direct, WExit, MakeChan(1), CSwap, None)
    else Call(op, direct, if op.OpClose? then WSwap(Fine) else WLock, MakeChan(1), CSelect, None)
  }

  predicate ReceivesReturned(s: Conn) {
    forall i | 0 <= i < |s.calls| && s.calls[i].op.OpRecv? :: s.calls[i].caller.Returned?
  }

  predicate Enabled(s: Conn, a: Act) {
    match a
    case Cancel => true
    case Start(op, direct) =>
      && (op.OpClose? || op.OpCloseSend? ==> direct)
      && (op.OpRecv? && s.g.lone ==> direct == s.g.directRecv && ReceivesReturned(s))
    case Work(i, answer) => i < |s.calls| && WorkEnabled(s.g, s.calls[i], answer)
    case Await(i, ctx, _) => i < |s.calls| && AwaitEnabled(s.g, s.calls[i], ctx)
  }

  function Do(s: Conn, a: Act): Conn
    requires Enabled(s, a)
  {
    match a
    case Cancel => s.(g := s.g.(cancelled := true))
    case Start(op, direct) =>
      var c := NewCall(s.g, op, direct);
      Conn(if op.OpRecv? && c.worker != WExit then s.g.(current := Some(|s.calls|)) else s.g, s.calls + [c])
    case Work(i, answer) =>
      var (g, c) := WorkDo(s.g, i, s.calls[i], answer);
      Conn(g, s.calls[i := c])
    case Await(i, ctx, decodes) =>
      var (g, c) := AwaitDo(s.g, i, s.calls[i], ctx, decodes);
      Conn(g, s.calls[i := c])
  }

  function Exec(s: Conn, acts: seq<Act>): Option<Conn>
    decreases |acts|
  {
    if acts == [] then Some(s)
    else if Enabled(s, acts[0]) then Exec(Do(s, acts[0]), acts[1..])
    else None
  }

  predicate Init(s: Conn) {
    s == Conn(Shared(s.g.lone, s.g.directRecv, false, false, None, None, Nobody, 0, [], [], [], None), [])
  }

  function Messages(l: seq<Reply>): seq<Bytes> {
    if l == [] then [] else Messages(l[..|l|-1]) + (if l[|l|-1].Got? then [l[|l|-1].msg] else [])
  }

  lemma MessagesPush(l: seq<Reply>, r: Reply)
    ensures Messages(l + [r]) == Messages(l) + (if r.Got? then [r.msg] else [])
  {
    assert (l + [r])[..|l|] == l;
  }

  // ----- the invariant -----

  /** The control points of each kind of call. */
  predicate PointsOk(c: Call) {
    && (c.op.OpClose? ==> c.worker.WSwap? || c.worker.WClose? || c.worker.WDeliver? || c.worker.WExit?)
    && (c.worker.WSwap? || c.worker.WClose? ==>
          (c.op.OpRecv? && (c.worker.reply == Failed || c.worker.reply == Eof)) || (c.op.OpClose? && c.worker.reply == Fine))
    && (c.op.OpClose? || c.op.OpCloseSend? ==> c.direct)
  }

  /** The worker is between taking and releasing its mutex. */
  predicate Holding(c: Call) {
    !c.op.OpClose? && !c.worker.WLock? && !c.worker.WDeliver? && !c.worker.WExit?
  }

  /** The caller took its reply; the other way to return is with the context's error. */
  predicate Served(c: Call) {
    c.caller.Returned? && c.caller.reply.Some?
  }

  /** The slot of a call is empty until its worker has delivered, and is filled once. */
  predicate SlotOk(g: Shared, c: Call) {
    && c.done.cap == 1 && !c.done.Closed() && |c.done.buf| <= 1
    && (c.worker != WExit ==> c.done.buf == [])
    && (Served(c) ==> c.worker == WExit && c.done.buf == [])
    && (c.caller == CSelect && c.worker == WExit ==> |c.done.buf| == 1)
    && (c.caller != CSelect && !Served(c) ==> g.cancelled && !c.direct)
  }

  /** The message that a call has obtained and not returned. */
  function InHand(c: Call): seq<Bytes> {
    var r :=
      if c.worker.WUnlock? || c.worker.WDeliver? then c.worker.reply
      else if c.done.buf != [] then c.done.buf[0]
      else Fine;
    if r.Got? then [r.msg] else []
  }

  predicate Obtained(c: Call) {
    c.answer.Some? && c.answer.value.Got?
  }

  /** What the worker carries is the plugin's answer, and it is not lost on the way to the slot. */
  predicate AnswerOk(c: Call) {
    && (c.op.OpClose? || c.worker.WLock? || c.worker.WCheck? || c.worker.WCall? ==> c.answer.None?)
    && ((c.worker.WSwap? || c.worker.WClose?) ==> !Obtained(c))
    && ((c.worker.WUnlock? || c.worker.WDeliver?) && (c.worker.reply.Got? || Obtained(c)) ==> c.answer == Some(c.worker.reply))
    && (c.worker == WExit && c.done.buf != [] && (c.done.buf[0].Got? || Obtained(c)) ==> c.answer == Some(c.done.buf[0]))
    && (c.worker == WExit && c.done.buf == [] && !Served(c) ==> c.answer.None?)
  }

  /** A message is in hand exactly when the plugin delivered it and the caller has not taken it. */
  lemma InHandMeansUntaken(g: Shared, c: Call)
    requires SlotOk(g, c) && AnswerOk(c)
    ensures InHand(c) != [] <==> Obtained(c) && !Served(c)
  {
  }

  predicate NoFailure(l: seq<Reply>) {
    forall k | 0 <= k < |l| :: l[k].Got?
  }

  predicate MutexOk(g: Shared, i: nat, c: Call) {
    && (Holding(c) && c.op.OpRecv? <==> g.recvMu == Some(i))
    && (Holding(c) && !c.op.OpRecv? <==> g.sendMu == Some(i))
  }

  predicate CloserOk(g: Shared, i: nat, c: Call) {
    && (c.worker.WClose? <==> g.closer == ByWorker(i))
    && (c.caller.CClose? <==> g.closer == ByCaller(i))
    && (c.caller == Returned(None) ==> g.closed)
  }

  predicate RecvOk(g: Shared, i: nat, c: Call) {
    && (!c.op.OpRecv? ==> InHand(c) == [] && g.current != Some(i))
    && (g.lone && c.op.OpRecv? ==> c.direct == g.directRecv)
    && (g.lone && c.op.OpRecv? && (c.worker != WExit || InHand(c) != [] || c.caller == CSelect) ==> g.current == Some(i))
    && (g.lone && g.current == Some(i) ==> Messages(g.got) == g.returned + InHand(c))
    && (c.op.OpRecv? && c.worker.WCall? ==> NoFailure(g.got))
    && (g.recvMu == Some(i) && !NoFailure(g.got) && !g.closed ==> c.worker.WSwap?)
  }

  predicate PlaceOk(g: Shared, i: nat, c: Call) {
    PointsOk(c) && SlotOk(g, c) && AnswerOk(c) && MutexOk(g, i, c) && CloserOk(g, i, c)
  }

  predicate CallOk(g: Shared, i: nat, c: Call) {
    PlaceOk(g, i, c) && RecvOk(g, i, c)
  }

  predicate SharedOk(g: Shared, n: nat) {
    && (g.recvMu.Some? ==> g.recvMu.value < n)
    && (g.sendMu.Some? ==> g.sendMu.value < n)
    && (g.closer.ByWorker? ==> g.closer.i < n)
    && (g.closer.ByCaller? ==> g.closer.i < n)
    && (g.closed <==> g.closer != Nobody)
    && g.closeCalls == (if g.closer == PluginTold then 1 else 0)
    && (g.current.Some? ==> g.current.value < n)
    && |g.decoded| == |g.returned|
    && (g.lone && g.current.None? ==> g.got == [] && g.returned == [])
    && (g.got != [] ==> NoFailure(g.got[..|g.got|-1]))
    && (!NoFailure(g.got) ==> g.closed || g.recvMu.Some?)
  }

  predicate Inv(s: Conn) {
    SharedOk(s.g, |s.calls|) && forall i | 0 <= i < |s.calls| :: CallOk(s.g, i, s.calls[i])
  }

  // ----- every step keeps it -----

  /** A call that was there when a new one started, with the shared part `g'` after that. */
  lemma StartKeepsOther(g: Shared, g': Shared, n: nat, j: nat, d: Call)
    requires CallOk(g, j, d) && j < n
    requires g' == g || g' == g.(current := Some(n))
    requires g.lone && g' != g && d.op.OpRecv? ==> d.caller.Returned? && (g.directRecv || !g.cancelled)
    ensures CallOk(g', j, d)
  {
  }

  /** A receive that has a worker starts when no message is in hand. */
  lemma NothingInHand(s: Conn)
    requires Inv(s) && s.g.lone && ReceivesReturned(s)
    requires s.g.directRecv || !s.g.cancelled
    ensures Messages(s.g.got) == s.g.returned
  {
    if s.g.current.Some? {
      assert CallOk(s.g, s.g.current.value, s.calls[s.g.current.value]);
    }
  }

  lemma NewCallOk(g: Shared, n: nat, op: Op, direct: bool)
    requires SharedOk(g, n) && (op.OpClose? || op.OpCloseSend? ==> direct)
    requires (op.OpRecv? && g.lone ==> direct == g.directRecv)
    requires g.lone && op.OpRecv? && (direct || !g.cancelled) ==> Messages(g.got) == g.returned
    ensures
      var c := NewCall(g, op, direct);
      CallOk(if op.OpRecv? && c.worker != WExit then g.(current := Some(n)) else g, n, c)
  {
  }

  lemma StartKeeps(s: Conn, op: Op, direct: bool)
    requires Inv(s) && Enabled(s, Start(op, direct))
    ensures Inv(Do(s, Start(op, direct)))
  {
    var n, g := |s.calls|, Do(s, Start(op, direct)).g;
    if s.g.lone && op.OpRecv? && (direct || !s.g.cancelled) {
      NothingInHand(s);
    }
    NewCallOk(s.g, n, op, direct);
    forall i | 0 <= i < n
      ensures CallOk(g, i, s.calls[i])
    {
      StartKeepsOther(s.g, g, n, i, s.calls[i]);
    }
    CallAdded(s, g, NewCall(s.g, op, direct));
  }

  lemma CallAdded(s: Conn, g: Shared, c: Call)
    requires SharedOk(s.g, |s.calls|) && (g == s.g || g == s.g.(current := Some(|s.calls|)))
    requires CallOk(g, |s.calls|, c) && forall i | 0 <= i < |s.calls| :: CallOk(g, i, s.calls[i])
    ensures Inv(Conn(g, s.calls + [c]))
  {
  }

  /** One call has moved, and the shared part with it. */
  lemma CallMoved(s: Conn, g: Shared, i: nat, c: Call)
    requires i < |s.calls| && SharedOk(g, |s.calls|) && CallOk(g, i, c)
    requires forall j | 0 <= j < |s.calls| && j != i :: CallOk(g, j, s.calls[j])
    ensures Inv(Conn(g, s.calls[i := c]))
  {
  }

  lemma LockKeepsPlace(g: Shared, i: nat, c: Call, answer: Reply)
    requires WorkEnabled(g, c, answer) && PlaceOk(g, i, c) && (c.worker.WLock? || c.worker.WUnlock?)
    ensures var r := WorkDo(g, i, c, answer); PlaceOk(r.0, i, r.1)
  {
  }

  lemma CallKeepsPlace(g: Shared, i: nat, c: Call, answer: Reply)
    requires WorkEnabled(g, c, answer) && PlaceOk(g, i, c)
    requires c.worker.WCheck? || c.worker.WCall? || c.worker.WDeliver?
    ensures var r := WorkDo(g, i, c, answer); PlaceOk(r.0, i, r.1)
  {
  }

  lemma CloseKeepsPlace(g: Shared, i: nat, c: Call, answer: Reply)
    requires WorkEnabled(g, c, answer) && PlaceOk(g, i, c) && (g.closed <==> g.closer != Nobody)
    requires c.worker.WSwap? || c.worker.WClose?
    ensures var r := WorkDo(g, i, c, answer); PlaceOk(r.0, i, r.1)
  {
  }

  lemma WorkKeepsPlace(g: Shared, i: nat, c: Call, answer: Reply)
    requires WorkEnabled(g, c, answer) && PlaceOk(g, i, c) && (g.closed <==> g.closer != Nobody)
    ensures var r := WorkDo(g, i, c, answer); PlaceOk(r.0, i, r.1)
  {
    if c.worker.WLock? || c.worker.WUnlock? {
      LockKeepsPlace(g, i, c, answer);
    } else if c.worker.WSwap? || c.worker.WClose? {
      CloseKeepsPlace(g, i, c, answer);
    } else {
      CallKeepsPlace(g, i, c, answer);
    }
  }

  lemma AnswerKeepsMessages(g: Shared, i: nat, c: Call, answer: Reply)
    requires c.worker.WCall? && c.op.OpRecv? && WorkEnabled(g, c, answer) && CallOk(g, i, c)
    ensures var r := WorkDo(g, i, c, answer); RecvOk(r.0, i, r.1)
  {
    MessagesPush(g.got, answer);
    assert InHand(c) == [] && InHand(c.(worker := WUnlock(answer))) == if answer.Got? then [answer.msg] else [];
  }

  /** Any other step leaves the messages where they are. */
  lemma QuietFrame(g: Shared, i: nat, c: Call, answer: Reply)
    requires WorkEnabled(g, c, answer) && !(c.worker.WCall? && c.op.OpRecv?)
    ensures var (g', c') := WorkDo(g, i, c, answer);
      && g' == g.(recvMu := g'.recvMu, sendMu := g'.sendMu, closed := g'.closed, closer := g'.closer,
                  closeCalls := g'.closeCalls)
      && c' == c.(worker := c'.worker, done := c'.done, answer := c'.answer)
      && c.worker != WExit
  {
  }

  lemma QuietHand(g: Shared, i: nat, c: Call, answer: Reply)
    requires WorkEnabled(g, c, answer) && PointsOk(c) && SlotOk(g, c) && !(c.worker.WCall? && c.op.OpRecv?)
    ensures InHand(WorkDo(g, i, c, answer).1) == InHand(c)
  {
    if c.worker.WDeliver? {
      assert c.done.Send(c.worker.reply).buf == [c.worker.reply];
    }
  }

  /** Who may enter the plugin, and who has to report its failure. */
  lemma QuietFailures(g: Shared, i: nat, c: Call, answer: Reply)
    requires WorkEnabled(g, c, answer) && PlaceOk(g, i, c) && !(c.worker.WCall? && c.op.OpRecv?)
    requires !NoFailure(g.got) ==> g.closed || g.recvMu.Some?
    requires g.recvMu == Some(i) && !NoFailure(g.got) && !g.closed ==> c.worker.WSwap?
    ensures var (g', c') := WorkDo(g, i, c, answer);
      && (c'.op.OpRecv? && c'.worker.WCall? ==> NoFailure(g'.got))
      && (g'.recvMu == Some(i) && !NoFailure(g'.got) && !g'.closed ==> c'.worker.WSwap?)
  {
  }

  lemma QuietKeepsMessages(g: Shared, i: nat, c: Call, answer: Reply)
    requires WorkEnabled(g, c, answer) && CallOk(g, i, c) && !(c.worker.WCall? && c.op.OpRecv?)
    requires !NoFailure(g.got) ==> g.closed || g.recvMu.Some?
    ensures var r := WorkDo(g, i, c, answer); RecvOk(r.0, i, r.1)
  {
    QuietFrame(g, i, c, answer);
    QuietHand(g, i, c, answer);
    QuietFailures(g, i, c, answer);
  }

  lemma WorkKeepsMessages(g: Shared, i: nat, c: Call, answer: Reply)
    requires WorkEnabled(g, c, answer) && CallOk(g, i, c)
    requires !NoFailure(g.got) ==> g.closed || g.recvMu.Some?
    ensures var r := WorkDo(g, i, c, answer); RecvOk(r.0, i, r.1)
  {
    if c.worker.WCall? && c.op.OpRecv? {
      AnswerKeepsMessages(g, i, c, answer);
    } else {
      QuietKeepsMessages(g, i, c, answer);
    }
  }

  /** What one worker changes of the mutexes and of the closing, as far as other calls can tell. */
  predicate OthersUntouched(g: Shared, g': Shared, i: nat) {
    && g'.cancelled == g.cancelled
    && (g.recvMu != g'.recvMu ==> (g.recvMu.None? || g.recvMu == Some(i)) && (g'.recvMu.None? || g'.recvMu == Some(i)))
    && (g.sendMu != g'.sendMu ==> (g.sendMu.None? || g.sendMu == Some(i)) && (g'.sendMu.None? || g'.sendMu == Some(i)))
    && (g.closer != g'.closer ==>
          && (g.closer == Nobody || g.closer == ByWorker(i))
          && (g'.closer == PluginTold || g'.closer == ByWorker(i)))
    && (g.closed ==> g'.closed)
  }

  lemma WorkTouches(g: Shared, i: nat, c: Call, answer: Reply)
    requires WorkEnabled(g, c, answer) && MutexOk(g, i, c) && CloserOk(g, i, c) && PointsOk(c)
    requires g.closed <==> g.closer != Nobody
    ensures OthersUntouched(g, WorkDo(g, i, c, answer).0, i)
  {
  }

  lemma UntouchedKeepsPlace(g: Shared, g': Shared, i: nat, j: nat, d: Call)
    requires OthersUntouched(g, g', i) && j != i && PlaceOk(g, j, d)
    ensures PlaceOk(g', j, d)
  {
  }

  lemma WorkKeepsOtherPlace(g: Shared, i: nat, c: Call, answer: Reply, j: nat, d: Call)
    requires WorkEnabled(g, c, answer) && j != i && PlaceOk(g, i, c) && PlaceOk(g, j, d)
    requires g.closed <==> g.closer != Nobody
    ensures PlaceOk(WorkDo(g, i, c, answer).0, j, d)
  {
    WorkTouches(g, i, c, answer);
    UntouchedKeepsPlace(g, WorkDo(g, i, c, answer).0, i, j, d);
  }

  lemma WorkKeepsOtherMessages(g: Shared, i: nat, c: Call, answer: Reply, j: nat, d: Call)
    requires WorkEnabled(g, c, answer) && j != i && CallOk(g, i, c) && CallOk(g, j, d)
    ensures RecvOk(WorkDo(g, i, c, answer).0, j, d)
  {
    var g' := WorkDo(g, i, c, answer).0;
    if c.worker.WCall? && c.op.OpRecv? {
      assert g' == g.(got := g.got + [answer]) && g.recvMu == Some(i) && !(Holding(d) && d.op.OpRecv?);
    } else {
      assert g'.got == g.got && g'.returned == g.returned && g'.current == g.current && (g.closed ==> g'.closed);
    }
  }

  lemma AnswerKeepsShared(g: Shared, i: nat, c: Call, answer: Reply, n: nat)
    requires c.worker.WCall? && c.op.OpRecv? && CallOk(g, i, c) && SharedOk(g, n) && WorkEnabled(g, c, answer)
    ensures SharedOk(WorkDo(g, i, c, answer).0, n)
  {
    assert (g.got + [answer])[..|g.got|] == g.got;
    assert g.recvMu == Some(i) && (g.lone ==> g.current == Some(i));
  }

  /** Taking and releasing a mutex; a receiver that failed has set the flag before it releases. */
  lemma LockKeepsShared(g: Shared, i: nat, c: Call, answer: Reply, n: nat)
    requires c.worker.WLock? || c.worker.WUnlock?
    requires WorkEnabled(g, c, answer) && CallOk(g, i, c) && SharedOk(g, n) && i < n
    ensures SharedOk(WorkDo(g, i, c, answer).0, n)
  {
    var g' := WorkDo(g, i, c, answer).0;
    assert g' == g.(recvMu := g'.recvMu, sendMu := g'.sendMu);
    if c.worker.WUnlock? && c.op.OpRecv? {
      assert g.recvMu == Some(i);
    }
  }

  lemma WorkKeepsShared(g: Shared, i: nat, c: Call, answer: Reply, n: nat)
    requires WorkEnabled(g, c, answer) && CallOk(g, i, c) && SharedOk(g, n) && i < n
    ensures SharedOk(WorkDo(g, i, c, answer).0, n)
  {
    var g' := WorkDo(g, i, c, answer).0;
    if c.worker.WCall? && c.op.OpRecv? {
      AnswerKeepsShared(g, i, c, answer, n);
    } else if c.worker.WLock? || c.worker.WUnlock? {
      LockKeepsShared(g, i, c, answer, n);
    } else {
      assert g' == g.(closed := g'.closed, closer := g'.closer, closeCalls := g'.closeCalls);
    }
  }

  lemma AwaitKeepsSelf(g: Shared, i: nat, c: Call, ctx: bool, ok: bool)
    requires AwaitEnabled(g, c, ctx) && CallOk(g, i, c) && (g.closed <==> g.closer != Nobody)
    ensures var r := AwaitDo(g, i, c, ctx, ok); CallOk(r.0, i, r.1)
  {
  }

  lemma AwaitKeepsOther(g: Shared, i: nat, c: Call, ctx: bool, ok: bool, j: nat, d: Call)
    requires AwaitEnabled(g, c, ctx) && j != i && CallOk(g, i, c) && CallOk(g, j, d)
    requires g.closed <==> g.closer != Nobody
    ensures CallOk(AwaitDo(g, i, c, ctx, ok).0, j, d)
  {
  }

  lemma AwaitKeepsShared(g: Shared, i: nat, c: Call, ctx: bool, ok: bool, n: nat)
    requires AwaitEnabled(g, c, ctx) && CallOk(g, i, c) && SharedOk(g, n) && i < n
    ensures SharedOk(AwaitDo(g, i, c, ctx, ok).0, n)
  {
    if c.caller == CSelect {
      TakeKeepsShared(g, i, c, ctx, ok, n);
    }
  }

  lemma TakeKeepsShared(g: Shared, i: nat, c: Call, ctx: bool, ok: bool, n: nat)
    requires AwaitEnabled(g, c, ctx) && CallOk(g, i, c) && SharedOk(g, n) && i < n && c.caller == CSelect
    ensures SharedOk(AwaitDo(g, i, c, ctx, ok).0, n)
  {
    var g' := AwaitDo(g, i, c, ctx, ok).0;
    assert g' == g.(returned := g'.returned, decoded := g'.decoded);
  }

  lemma WorkKeeps(s: Conn, i: nat, answer: Reply)
    requires Inv(s) && Enabled(s, Work(i, answer))
    ensures Inv(Do(s, Work(i, answer)))
  {
    var (g, c) := WorkDo(s.g, i, s.calls[i], answer);
    WorkKeepsPlace(s.g, i, s.calls[i], answer);
    WorkKeepsMessages(s.g, i, s.calls[i], answer);
    forall j | 0 <= j < |s.calls| && j != i
      ensures CallOk(g, j, s.calls[j])
    {
      WorkKeepsOtherPlace(s.g, i, s.calls[i], answer, j, s.calls[j]);
      WorkKeepsOtherMessages(s.g, i, s.calls[i], answer, j, s.calls[j]);
    }
    WorkKeepsShared(s.g, i, s.calls[i], answer, |s.calls|);
    CallMoved(s, g, i, c);
  }

  lemma AwaitKeeps(s: Conn, i: nat, ctx: bool, ok: bool)
    requires Inv(s) && Enabled(s, Await(i, ctx, ok))
    ensures Inv(Do(s, Await(i, ctx, ok)))
  {
    var (g, c) := AwaitDo(s.g, i, s.calls[i], ctx, ok);
    assert CallOk(s.g, i, s.calls[i]);
    AwaitKeepsSelf(s.g, i, s.calls[i], ctx, ok);
    forall j | 0 <= j < |s.calls| && j != i
      ensures CallOk(g, j, s.calls[j])
    {
      AwaitKeepsOther(s.g, i, s.calls[i], ctx, ok, j, s.calls[j]);
    }
    AwaitKeepsShared(s.g, i, s.calls[i], ctx, ok, |s.calls|);
    CallMoved(s, g, i, c);
  }

  lemma StepKeeps(s: Conn, a: Act)
    requires Inv(s) && Enabled(s, a)
    ensures Inv(Do(s, a))
  {
    match a
    case Cancel =>
      forall i | 0 <= i < |s.calls|
        ensures CallOk(Do(s, a).g, i, s.calls[i])
      {
        assert CallOk(s.g, i, s.calls[i]);
      }
    case Start(op, direct) => StartKeeps(s, op, direct);
    case Work(i, answer) => WorkKeeps(s, i, answer);
    case Await(i, ctx, ok) => AwaitKeeps(s, i, ctx, ok);
  }

  lemma {:induction false} RunKeeps(s: Conn, acts: seq<Act>)
    requires Inv(s) && Exec(s, acts).Some?
    ensures Inv(Exec(s, acts).value)
    decreases |acts|
  {
    if acts != [] {
      StepKeeps(s, acts[0]);
      RunKeeps(Do(s, acts[0]), acts[1..]);
    }
  }

  lemma FromInit(s0: Conn, acts: seq<Act>, s: Conn)
    requires Init(s0) && Exec(s0, acts) == Some(s)
    ensures Inv(s)
  {
    RunKeeps(s0, acts);
  }

  // ----- what holds in every run -----

  /** The plugin is told to close at most once, and has been told when all calls are over. */
  lemma PluginToldOnce(s0: Conn, acts: seq<Act>, s: Conn)
    requires Init(s0) && Exec(s0, acts) == Some(s)
    ensures s.g.closeCalls <= 1 && (s.g.closeCalls == 1 ==> s.g.closed)
    ensures
      && s.g.closed
      && (forall i | 0 <= i < |s.calls| :: s.calls[i].worker.WExit? && s.calls[i].caller.Returned?)
      ==> s.g.closeCalls == 1
    ensures forall i | 0 <= i < |s.calls| && s.calls[i].caller == Returned(None) :: s.g.closed
  {
    FromInit(s0, acts, s);
    if s.g.closer.ByWorker? {
      assert CallOk(s.g, s.g.closer.i, s.calls[s.g.closer.i]);
    } else if s.g.closer.ByCaller? {
      assert CallOk(s.g, s.g.closer.i, s.calls[s.g.closer.i]);
    }
    forall i | 0 <= i < |s.calls| && s.calls[i].caller == Returned(None)
      ensures s.g.closed
    {
      assert CallOk(s.g, i, s.calls[i]);
    }
  }

  /** Receives reach the plugin one at a time, and so do sends and half-closes. */
  lemma OneCallAtATime(s0: Conn, acts: seq<Act>, s: Conn, i: nat, j: nat)
    requires Init(s0) && Exec(s0, acts) == Some(s)
    requires i < j < |s.calls| && s.calls[i].worker.WCall? && s.calls[j].worker.WCall?
    ensures s.calls[i].op.OpRecv? != s.calls[j].op.OpRecv?
  {
    FromInit(s0, acts, s);
    assert CallOk(s.g, i, s.calls[i]) && CallOk(s.g, j, s.calls[j]);
  }

  /**
   * A worker is never stuck on its result, a caller whose worker is gone finds the
   * result, and while any worker is left one of them can move: closing takes no mutex,
   * so the threads do not block each other for ever.
   */
  lemma NobodyIsStuck(s0: Conn, acts: seq<Act>, s: Conn, i: nat)
    requires Init(s0) && Exec(s0, acts) == Some(s) && i < |s.calls|
    ensures s.calls[i].worker.WDeliver? ==> Enabled(s, Work(i, Fine))
    ensures s.calls[i].caller == CSelect && s.calls[i].worker.WExit? ==> Enabled(s, Await(i, false, true))
    ensures !s.calls[i].worker.WExit? ==> exists j, answer :: Enabled(s, Work(j, answer))
  {
    FromInit(s0, acts, s);
    var c := s.calls[i];
    assert CallOk(s.g, i, c);
    if !c.worker.WExit? {
      var holder := if c.op.OpRecv? then s.g.recvMu else s.g.sendMu;
      var j := if c.worker.WLock? && holder.Some? then holder.value else i;
      assert CallOk(s.g, j, s.calls[j]);
      assert Enabled(s, Work(j, Failed));
    }
  }

  /**
   * An error or end-of-file is the plugin's last answer to a receive: no receive is in
   * the plugin after it, and one that is about to look at the flag finds it set.
   */
  lemma FailureEndsReceiving(s0: Conn, acts: seq<Act>, s: Conn, k: nat)
    requires Init(s0) && Exec(s0, acts) == Some(s)
    requires k < |s.g.got| && !s.g.got[k].Got?
    ensures k == |s.g.got| - 1
    ensures forall i | 0 <= i < |s.calls| && s.calls[i].op.OpRecv? ::
              !s.calls[i].worker.WCall? && (s.calls[i].worker.WCheck? ==> s.g.closed)
  {
    FromInit(s0, acts, s);
    forall m | 0 <= m < |s.g.got| - 1
      ensures s.g.got[m].Got?
    {
      assert s.g.got[..|s.g.got|-1][m] == s.g.got[m];
    }
    forall i | 0 <= i < |s.calls| && s.calls[i].op.OpRecv?
      ensures !s.calls[i].worker.WCall? && (s.calls[i].worker.WCheck? ==> s.g.closed)
    {
      assert CallOk(s.g, i, s.calls[i]);
    }
  }

  /**
   * A lone receiver gets what the plugin delivered, in order and without repeats, and at
   * most one message is missing: exactly the one that some worker has obtained and its
   * caller not taken.  When no receive is pending that means a receive which returned
   * with the context's error although the plugin had answered it with a message.
   */
  lemma ReceivedIsPrefix(s0: Conn, acts: seq<Act>, s: Conn)
    requires Init(s0) && s0.g.lone && Exec(s0, acts) == Some(s)
    ensures s.g.returned <= Messages(s.g.got) && |Messages(s.g.got)| <= |s.g.returned| + 1
    ensures s.g.returned != Messages(s.g.got) <==> exists i :: 0 <= i < |s.calls| && InHand(s.calls[i]) != []
    ensures ReceivesReturned(s) ==>
      (s.g.returned != Messages(s.g.got) <==>
       exists i :: 0 <= i < |s.calls| && s.calls[i].caller == Returned(None) && Obtained(s.calls[i]) && s.calls[i].op.OpRecv?)
    ensures ReceivesReturned(s) && (s.g.directRecv || !s.g.cancelled) ==> s.g.returned == Messages(s.g.got)
  {
    FromInit(s0, acts, s);
    StillLone(s0, acts);
    forall i | 0 <= i < |s.calls|
      ensures InHand(s.calls[i]) != [] <==> Obtained(s.calls[i]) && !Served(s.calls[i])
      ensures InHand(s.calls[i]) != [] ==> s.g.current == Some(i) && s.calls[i].op.OpRecv?
    {
      assert CallOk(s.g, i, s.calls[i]);
      InHandMeansUntaken(s.g, s.calls[i]);
    }
    if s.g.current.Some? {
      assert CallOk(s.g, s.g.current.value, s.calls[s.g.current.value]);
    }
    if ReceivesReturned(s) && (s.g.directRecv || !s.g.cancelled) {
      NothingInHand(s);
    }
  }

  /** The messages that reached the application: those taken and decoded. */
  function Delivered(taken: seq<Bytes>, decoded: seq<bool>): seq<Bytes>
    requires |taken| == |decoded|
  {
    if taken == [] then []
    else Delivered(taken[..|taken|-1], decoded[..|taken|-1]) + (if decoded[|taken|-1] then [taken[|taken|-1]] else [])
  }

  /** All that was taken reached the application exactly when every decoding succeeded. */
  lemma {:induction false} DeliveredIffDecoded(taken: seq<Bytes>, decoded: seq<bool>)
    requires |taken| == |decoded|
    ensures |Delivered(taken, decoded)| <= |taken|
    ensures Delivered(taken, decoded) == taken <==> forall i | 0 <= i < |decoded| :: decoded[i]
  {
    if taken != [] {
      var n := |taken| - 1;
      DeliveredIffDecoded(taken[..n], decoded[..n]);
      assert taken == taken[..n] + [taken[n]];
      assert forall i | 0 <= i < n :: decoded[..n][i] == decoded[i];
      if decoded[n] {
        assert Delivered(taken, decoded) == taken <==> Delivered(taken[..n], decoded[..n]) == taken[..n];
      }
    }
  }

  lemma {:induction false} StillLone(s: Conn, acts: seq<Act>)
    requires Exec(s, acts).Some?
    ensures Exec(s, acts).value.g.lone == s.g.lone
    decreases |acts|
  {
    if acts != [] {
      StillLone(Do(s, acts[0]), acts[1..]);
    }
  }

  lemma {:induction false} ExecSnoc(s: Conn, acts: seq<Act>, a: Act)
    requires Exec(s, acts).Some? && Enabled(Exec(s, acts).value, a)
    ensures Exec(s, acts + [a]) == Some(Do(Exec(s, acts).value, a))
    decreases |acts|
  {
    if acts == [] {
      assert [a][1..] == [] && [] + [a] == [a];
    } else {
      assert (acts + [a])[1..] == acts[1..] + [a];
      ExecSnoc(Do(s, acts[0]), acts[1..], a);
    }
  }

  lemma Extend(s0: Conn, s: Conn, acts: seq<Act>, a: Act) returns (s': Conn, acts': seq<Act>)
    requires Exec(s0, acts) == Some(s) && Enabled(s, a)
    ensures s' == Do(s, a) && acts' == acts + [a] && Exec(s0, acts') == Some(s')
  {
    ExecSnoc(s0, acts, a);
    s', acts' := Do(s, a), acts + [a];
  }

  /** A message can be lost: the context ends while the worker holds it. */
  lemma CancelledReceiveLosesMessage(m: Bytes) returns (s0: Conn, acts: seq<Act>)
    ensures Init(s0) && Exec(s0, acts).Some?
    ensures var s := Exec(s0, acts).value;
      && s.g.got == [Got(m)] && Messages(s.g.got) == [m] && s.g.returned == []
      && |s.calls| == 1 && s.calls[0].caller == Returned(None)
  {
    MessagesPush([], Got(m));
    assert [] + [Got(m)] == [Got(m)];
    s0 := Conn(Shared(true, false, false, false, None, None, Nobody, 0, [], [], [], None), []);
    acts := [];
    var s := s0;
    s, acts := Extend(s0, s, acts, Start(OpRecv, false));
    s, acts := Extend(s0, s, acts, Work(0, Fine));
    s, acts := Extend(s0, s, acts, Work(0, Fine));
    s, acts := Extend(s0, s, acts, Work(0, Got(m)));
    s, acts := Extend(s0, s, acts, Cancel);
    s, acts := Extend(s0, s, acts, Await(0, true, true));
    s, acts := Extend(s0, s, acts, Await(0, true, true));
    s, acts := Extend(s0, s, acts, Await(0, true, true));
  }

  // ----- the source's form -----

  /** What one call does when no other runs: the reply, and whether it tells the plugin to close. */
  function Alone(op: Op, closed: bool, answer: Reply): (r: (Reply, bool)) {
    if op.OpClose? then (Fine, !closed)
    else if closed then (WasClosed, false)
    else (answer, op.OpRecv? && !answer.Got?)
  }

  /** The worker's steps from `c` on, with nobody else moving. */
  function RunWorker(g: Shared, i: nat, c: Call, answer: Reply): (Shared, Call)
    decreases Left(c)
  {
    if !WorkEnabled(g, c, answer) then (g, c)
    else
      var (g', c') := WorkDo(g, i, c, answer);
      RunWorker(g', i, c', answer)
  }

  function Left(c: Call): nat {
    match c.worker
    case WLock => 7 case WCheck => 6 case WCall => 5 case WSwap(_) => 4
    case WClose(_) => 3 case WUnlock(_) => 2 case WDeliver(_) => 1 case WExit => 0
  }

  lemma RunRelease(g: Shared, i: nat, c: Call, answer: Reply)
    requires c.done == MakeChan(1) && (c.worker.WUnlock? || c.worker.WDeliver?)
    ensures
      var g' := if c.worker.WUnlock? then SetMutex(g, c.op, None) else g;
      RunWorker(g, i, c, answer) == (g', c.(worker := WExit, done := MakeChan(1).Send(c.worker.reply)))
    decreases Left(c)
  {
    if c.worker.WUnlock? {
      var (g1, c1) := WorkDo(g, i, c, answer);
      RunRelease(g1, i, c1, answer);
    }
  }

  lemma RunClosing(g: Shared, i: nat, c: Call, answer: Reply)
    requires c.done == MakeChan(1) && c.worker.WSwap?
    ensures
      var (g', c') := RunWorker(g, i, c, answer);
      var told := if g.closed then g else g.(closed := true, closer := PluginTold, closeCalls := g.closeCalls + 1);
      && c'.worker.WExit? && c'.done.buf == [c.worker.reply]
      && g' == if c.op.OpClose? then told else SetMutex(told, c.op, None)
  {
    var after := c.(worker := AfterClose(c.op, c.worker.reply));
    if g.closed {
      RunRelease(g, i, after, answer);
    } else {
      var g1, c1 := g.(closed := true, closer := ByWorker(i)), c.(worker := WClose(c.worker.reply));
      var g2 := g.(closed := true, closer := PluginTold, closeCalls := g.closeCalls + 1);
      assert RunWorker(g, i, c, answer) == RunWorker(g1, i, c1, answer) == RunWorker(g2, i, after, answer);
      RunRelease(g2, i, after, answer);
    }
  }

  /** The steps of a worker that runs alone add up to what the call is for. */
  lemma RunWorkerIsAlone(g: Shared, i: nat, op: Op, answer: Reply)
    requires g.recvMu.None? && g.sendMu.None? && (op.OpClose? || Answers(op, answer))
    ensures
      var (g', c') := RunWorker(g, i, NewCall(g, op, true), answer);
      var (reply, tells) := Alone(op, g.closed, answer);
      && c'.worker.WExit? && c'.done.buf == [reply]
      && g'.closed == (g.closed || tells) && g'.closeCalls == g.closeCalls + (if tells then 1 else 0)
      && g'.got == g.got + (if op.OpRecv? && !g.closed then [answer] else [])
      && g'.recvMu.None? && g'.sendMu.None?
  {
    var c := NewCall(g, op, true);
    if op.OpClose? {
      RunClosing(g, i, c, answer);
    } else {
      var (g1, c1) := WorkDo(g, i, c, answer);
      var (g2, c2) := WorkDo(g1, i, c1, answer);
      assert RunWorker(g, i, c, answer) == RunWorker(g1, i, c1, answer) == RunWorker(g2, i, c2, answer);
      if g.closed {
        RunRelease(g2, i, c2, answer);
      } else {
        var (g3, c3) := WorkDo(g2, i, c2, answer);
        assert RunWorker(g2, i, c2, answer) == RunWorker(g3, i, c3, answer);
        if op.OpRecv? && !answer.Got? {
          RunClosing(g3, i, c3, answer);
        } else {
          RunRelease(g3, i, c3, answer);
        }
      }
    }
  }

  /** A call made on the plugin for this stream (history). */
  datatype PluginCall = ToSend(msg: Bytes) | ToRecv | ToCloseSend | ToClose

  /** Calls without interference; None means that the call waits for a mutex that is held. */
  class PluginStream {
    var closed: bool
    var sendLocked: bool
    var recvLocked: bool
    ghost var made: seq<PluginCall>

    constructor ()
      ensures !closed && !sendLocked && !recvLocked && made == []
    {
      closed, sendLocked, recvLocked, made := false, false, false, [];
    }

    method Send(data: Bytes, answer: Reply) returns (r: Option<Reply>)
      requires Answers(OpSend(data), answer)
      modifies this
      ensures r == if old(sendLocked) then None else Some(if old(closed) then WasClosed else answer)
      ensures r.Some? ==> r.value == Alone(OpSend(data), old(closed), answer).0
      ensures closed == old(closed) && sendLocked == old(sendLocked) && recvLocked == old(recvLocked)
      ensures made == old(made) + if old(sendLocked) || old(closed) then [] else [ToSend(data)]
    {
      if sendLocked {
        return None;
      }
      sendLocked := true;
      r := Some(WasClosed);
      if !closed {
        made := made + [ToSend(data)];
        r := Some(answer);
      }
      sendLocked := false;
    }

    method Recv(answer: Reply) returns (r: Option<Reply>)
      requires Answers(OpRecv, answer)
      modifies this
      ensures r == if old(recvLocked) then None else Some(if old(closed) then WasClosed else answer)
      ensures r.Some? ==> r.value == Alone(OpRecv, old(closed), answer).0
      ensures closed == (old(closed) || (!old(recvLocked) && !answer.Got?))
      ensures r.Some? ==> closed == (old(closed) || Alone(OpRecv, old(closed), answer).1)
      ensures sendLocked == old(sendLocked) && recvLocked == old(recvLocked)
      ensures made == old(made) +
        if old(recvLocked) || old(closed) then [] else if answer.Got? then [ToRecv] else [ToRecv, ToClose]
    {
      if recvLocked {
        return None;
      }
      recvLocked := true;
      r := Some(WasClosed);
      if !closed {
        made := made + [ToRecv];
        if !answer.Got? {
          CloseInternal();
        }
        r := Some(answer);
      }
      recvLocked := false;
    }

    method CloseSend(answer: Reply) returns (r: Option<Reply>)
      requires Answers(OpCloseSend, answer)
      modifies this
      ensures r == if old(sendLocked) then None else Some(if old(closed) then WasClosed else answer)
      ensures r.Some? ==> r.value == Alone(OpCloseSend, old(closed), answer).0
      ensures closed == old(closed) && sendLocked == old(sendLocked) && recvLocked == old(recvLocked)
      ensures made == old(made) + if old(sendLocked) || old(closed) then [] else [ToCloseSend]
    {
      if sendLocked {
        return None;
      }
      sendLocked := true;
      r := Some(WasClosed);
      if !closed {
        made := made + [ToCloseSend];
        r := Some(answer);
      }
      sendLocked := false;
    }

    /** Takes no mutex. */
    method CloseInternal()
      modifies this`closed, this`made
      ensures closed && made == old(made) + if old(closed) then [] else [ToClose]
    {
      var was := closed;
      closed := true;
      if was {
        return;
      }
      made := made + [ToClose];
    }
  }
}
