/**
 * All runs of one plugin stream: its handler goroutine interleaved with any number of
 * host threads that call Send, Recv, CloseSend and Close on it.
 */
module PluginStreamRuns {
  import opened Basics
  import opened Channels
  import opened PluginServer

  /** `calls` is the number of Send calls started so far in the whole process. */
  datatype Machine = Machine(ps: PStream, threads: seq<CallPc>, calls: nat)

  datatype Act =
    | Start(t: nat, entry: CallPc)
    | Call(t: nat, choice: Choice)
    | Return(t: nat)
    | Handler(act: HandlerAct)
    | OtherStream

  predicate IsEntry(pc: CallPc) {
    pc.SendEnter? || pc.RecvEnter? || pc.CloseSendEnter? || pc.CloseEnter?
  }

  predicate Enabled(s: Machine, a: Act) {
    match a
    case Start(t, e) =>
      t < |s.threads| && s.threads[t].Idle? && IsEntry(e) && (e.SendEnter? ==> e.call == s.calls)
    case Call(t, c) => t < |s.threads| && CallEnabled(s.ps, s.threads[t], c)
    case Return(t) => t < |s.threads| && IsReturn(s.threads[t])
    case Handler(h) => HandlerEnabled(s.ps, h)
    case OtherStream => true
  }

  /** The result code of a Send call is recorded when the call returns. */
  function RecordReturn(ps: PStream, pc: CallPc): PStream {
    if pc.SendRet? then ps.(hist := ps.hist.(codes := ps.hist.codes[pc.call := pc.code])) else ps
  }

  function Do(s: Machine, a: Act): Machine
    requires Enabled(s, a)
  {
    match a
    case Start(t, e) =>
      s.(threads := s.threads[t := e], calls := if e.SendEnter? then s.calls + 1 else s.calls)
    case Call(t, c) =>
      var (ps, pc) := CallDo(s.ps, s.threads[t], c);
      s.(ps := ps, threads := s.threads[t := pc])
    case Return(t) => s.(ps := RecordReturn(s.ps, s.threads[t]), threads := s.threads[t := CallPc.Idle])
    case Handler(h) => s.(ps := HandlerDo(s.ps, h))
    case OtherStream => s.(calls := s.calls + 1)
  }

  /** The state after a list of actions, if each of them was enabled in turn. */
  function Exec(s: Machine, acts: seq<Act>): Option<Machine>
    decreases |acts|
  {
    if acts == [] then Some(s)
    else if Enabled(s, acts[0]) then Exec(Do(s, acts[0]), acts[1..])
    else None
  }

  /** A freshly opened stream; calls that guessed its handle may already have begun. */
  predicate Init(s: Machine) {
    && s.ps == NewStream(s.ps.kind)
    && (forall t | 0 <= t < |s.threads| ::
          s.threads[t].Idle? || IsEntry(s.threads[t]) || IsMissReturn(s.threads[t]))
    && CallIdsFresh(s)
  }

  /** The return point of a call whose look-up found no stream. */
  predicate IsMissReturn(pc: CallPc) {
    (pc.SendRet? && pc.code == 1) || pc == RecvRet(RNoStream) || pc.CloseSendRet? || pc.CloseRet?
  }

  predicate InSend(pc: CallPc) {
    pc.SendEnter? || pc.SendLock? || pc.SendSelect? || pc.SendRet?
  }

  predicate CallIdsFresh(s: Machine) {
    && (forall t | 0 <= t < |s.threads| && InSend(s.threads[t]) ::
          s.threads[t].call < s.calls && s.threads[t].call !in s.ps.hist.codes)
    && (forall t, u | 0 <= t < |s.threads| && 0 <= u < |s.threads| && InSend(s.threads[t]) && InSend(s.threads[u]) ::
          s.threads[t].call == s.threads[u].call ==> t == u)
    && (forall n | n in s.ps.hist.codes :: n < s.calls)
  }

  // ----- logs -----

  /** The payloads among the results of the host's receives. */
  function Payloads(l: seq<RecvResult>): seq<Bytes> {
    if l == [] then []
    else Payloads(l[..|l|-1]) + (if l[|l|-1].RData? then [l[|l|-1].msg] else [])
  }

  /** How many results carry an error. */
  function Errors(l: seq<RecvResult>): nat {
    if l == [] then 0 else Errors(l[..|l|-1]) + (if l[|l|-1].RError? then 1 else 0)
  }

  /** The messages among the results of the handler's receives. */
  function Items(l: seq<ReadResult>): seq<Sent> {
    if l == [] then []
    else Items(l[..|l|-1]) + (if l[|l|-1].ReadData? then [l[|l|-1].item] else [])
  }

  predicate HasEof(l: seq<RecvResult>) {
    l != [] && (l[|l|-1].REof? || HasEof(l[..|l|-1]))
  }

  predicate HasMiss(l: seq<RecvResult>) {
    l != [] && (l[|l|-1].RNoStream? || HasMiss(l[..|l|-1]))
  }

  /** Every reported error is the given one. */
  predicate ErrorsAre(l: seq<RecvResult>, o: Outcome) {
    l == [] || ((l[|l|-1].RError? ==> o == Failed(l[|l|-1].err)) && ErrorsAre(l[..|l|-1], o))
  }

  /** Data first, then end-of-file only. */
  predicate DataThenEof(l: seq<RecvResult>) {
    l == [] || (DataThenEof(l[..|l|-1]) && (l[|l|-1].REof? || (l[|l|-1].RData? && !HasEof(l[..|l|-1]))))
  }

  predicate HasReadEof(l: seq<ReadResult>) {
    l != [] && (l[|l|-1].ReadEof? || HasReadEof(l[..|l|-1]))
  }

  predicate HasReadCancelled(l: seq<ReadResult>) {
    l != [] && (l[|l|-1].ReadCancelled? || HasReadCancelled(l[..|l|-1]))
  }

  /** No data after an end-of-file result. */
  predicate EofIsFinal(l: seq<ReadResult>) {
    l == [] || (EofIsFinal(l[..|l|-1]) && (l[|l|-1].ReadData? ==> !HasReadEof(l[..|l|-1])))
  }

  // ----- the invariant -----

  /** Channel flags, and conservation of messages in both directions. */
  predicate Conserved(ps: PStream) {
    && ps.sendCh.Valid() && ps.sendCh.cap == CHANNEL_CAPACITY && ps.closeSend == ps.sendCh.Closed()
    && ps.recvCh.Valid() && ps.recvCh.cap == CHANNEL_CAPACITY && ps.closeRecv == ps.recvCh.Closed()
    && ps.errCh.Valid() && ps.errCh.cap == 1 && ps.errCh.closes == 0
    && ps.hist.accepted == ps.hist.read + ps.sendCh.buf
    && ps.hist.sent == ps.hist.taken + ps.recvCh.buf
    && Payloads(ps.hist.recvLog) == ps.hist.taken
    && Items(ps.hist.readLog) == ps.hist.read
  }

  predicate AfterCancel(pc: HandlerPc) {
    pc == HClose || pc == HDone
  }

  /** How the handler's progress, cancellation and closing depend on each other. */
  predicate Life(ps: PStream) {
    && (ps.outcome == Running <==> ps.pc in {HStart, HInit, HUser, HRecv} || ps.pc.HSend?)
    && (ps.pc.HFail? ==> ps.outcome == Failed(ps.pc.err))
    && (AfterCancel(ps.pc) ==> ps.cancelled)
    && (ps.cancelled && ps.registered ==> AfterCancel(ps.pc))
    && (ps.recvCh.Closed() ==> ps.cancelled)
    && (ps.recvCh.Closed() && ps.registered ==> ps.pc == HDone)
    && (ps.pc == HDone ==> ps.recvCh.Closed())
  }

  /** An error exists once the handler failed, in the slot or already delivered, never twice. */
  predicate ErrorSlot(ps: PStream) {
    && |ps.errCh.buf| + Errors(ps.hist.recvLog) == (if ps.outcome.Failed? && !ps.pc.HFail? then 1 else 0)
    && (ps.errCh.CanRecv() ==> ps.outcome == Failed(ps.errCh.buf[0]))
    && (Errors(ps.hist.recvLog) > 0 ==> ErrorsAre(ps.hist.recvLog, ps.outcome))
  }

  /** What end-of-file results and missing-stream results mean. */
  predicate Endings(ps: PStream) {
    && (HasMiss(ps.hist.recvLog) ==> !ps.registered)
    && (HasEof(ps.hist.recvLog) ==> ps.cancelled)
    && (HasEof(ps.hist.recvLog) && ps.registered ==> AfterCancel(ps.pc) && ps.recvCh.buf == [])
    && (ps.registered && !ps.outcome.Failed? ==> DataThenEof(ps.hist.recvLog))
    && (HasReadEof(ps.hist.readLog) ==> ps.sendCh.Drained())
    && (HasReadCancelled(ps.hist.readLog) ==> ps.cancelled)
    && EofIsFinal(ps.hist.readLog)
  }

  /** What the position of a host thread says about the stream. */
  predicate ThreadOk(ps: PStream, pc: CallPc) {
    && (pc.RecvDrained? ==> ps.recvCh.Drained())
    && (pc.RecvRecheck? ==> ps.cancelled)
    && (pc.CloseCancel? || pc.CloseCloseSend? || pc.CloseCloseRecv? ==> !ps.registered)
    && (pc.CloseCloseSend? || pc.CloseCloseRecv? ==> ps.cancelled)
  }

  /** The numbers of the messages that were put on the host-to-plugin channel. */
  function AcceptedIds(ps: PStream): set<nat> {
    set x | x in ps.hist.accepted :: x.call
  }

  /** A Send call has put its message on the channel exactly when its code is zero. */
  predicate Codes(s: Machine) {
    && CallIdsFresh(s)
    && (forall n | n in s.ps.hist.codes :: s.ps.hist.codes[n] == 0 <==> n in AcceptedIds(s.ps))
    && (forall n | n in AcceptedIds(s.ps) :: n < s.calls)
    && (forall t | 0 <= t < |s.threads| && InSend(s.threads[t]) ::
          s.threads[t].call in AcceptedIds(s.ps) <==> s.threads[t].SendRet? && s.threads[t].code == 0)
    && (forall i, j | 0 <= i < j < |s.ps.hist.accepted| :: s.ps.hist.accepted[i].call != s.ps.hist.accepted[j].call)
  }

  predicate StreamInv(ps: PStream) {
    Conserved(ps) && Life(ps) && ErrorSlot(ps) && Endings(ps)
  }

  predicate Inv(s: Machine) {
    && StreamInv(s.ps)
    && (forall t | 0 <= t < |s.threads| :: ThreadOk(s.ps, s.threads[t]))
    && Codes(s)
  }

  lemma PushLog(l: seq<RecvResult>, r: RecvResult)
    ensures Payloads(l + [r]) == Payloads(l) + (if r.RData? then [r.msg] else [])
    ensures Errors(l + [r]) == Errors(l) + (if r.RError? then 1 else 0)
    ensures HasEof(l + [r]) == (r.REof? || HasEof(l)) && HasMiss(l + [r]) == (r.RNoStream? || HasMiss(l))
    ensures DataThenEof(l + [r]) == (DataThenEof(l) && (r.REof? || (r.RData? && !HasEof(l))))
    ensures forall o :: ErrorsAre(l + [r], o) == ((r.RError? ==> o == Failed(r.err)) && ErrorsAre(l, o))
  {
    assert (l + [r])[..|l|] == l;
  }

  lemma {:induction false} NoErrors(l: seq<RecvResult>, o: Outcome)
    requires Errors(l) == 0
    ensures ErrorsAre(l, o)
  {
    if l != [] {
      NoErrors(l[..|l|-1], o);
    }
  }

  lemma PushRead(l: seq<ReadResult>, r: ReadResult)
    ensures Items(l + [r]) == Items(l) + (if r.ReadData? then [r.item] else [])
    ensures HasReadEof(l + [r]) == (r.ReadEof? || HasReadEof(l))
    ensures HasReadCancelled(l + [r]) == (r.ReadCancelled? || HasReadCancelled(l))
    ensures EofIsFinal(l + [r]) == (EofIsFinal(l) && (r.ReadData? ==> !HasReadEof(l)))
  {
    assert (l + [r])[..|l|] == l;
  }

  lemma InitInv(s: Machine)
    requires Init(s)
    ensures Inv(s)
  {
  }

  lemma StepStart(s: Machine, t: nat, e: CallPc)
    requires Inv(s) && Enabled(s, Start(t, e))
    ensures Inv(Do(s, Start(t, e)))
  {
  }

  lemma RecordKeeps(ps: PStream, pc: CallPc)
    requires StreamInv(ps)
    ensures StreamInv(RecordReturn(ps, pc)) && forall q: CallPc :: ThreadOk(ps, q) ==> ThreadOk(RecordReturn(ps, pc), q)
  {
  }

  lemma RecordCodes(s: Machine, t: nat)
    requires Codes(s) && t < |s.threads| && IsReturn(s.threads[t])
    ensures Codes(s.(ps := RecordReturn(s.ps, s.threads[t]), threads := s.threads[t := CallPc.Idle]))
  {
    assert AcceptedIds(RecordReturn(s.ps, s.threads[t])) == AcceptedIds(s.ps);
  }

  lemma StepReturn(s: Machine, t: nat)
    requires Inv(s) && Enabled(s, Return(t))
    ensures Inv(Do(s, Return(t)))
  {
    RecordKeeps(s.ps, s.threads[t]);
    RecordCodes(s, t);
  }

  // ----- effects on the stream, one lemma each -----

  lemma LogKeeps(ps: PStream, r: RecvResult)
    requires StreamInv(ps)
    requires r == RNoStream ==> !ps.registered
    requires r == REof ==> ps.cancelled && (ps.registered ==> ps.recvCh.buf == [])
    requires r == REof || r == RNoStream
    ensures StreamInv(ps.Log(r))
  {
    PushLog(ps.hist.recvLog, r);
  }

  lemma TakeConserves(ps: PStream)
    requires Conserved(ps) && ps.recvCh.CanRecv()
    ensures Conserved(ps.Take())
  {
    var m := ps.recvCh.buf[0];
    PushLog(ps.hist.recvLog, RData(m));
    assert ps.recvCh.buf == [m] + ps.recvCh.buf[1..];
  }

  lemma TakeKeeps(ps: PStream)
    requires StreamInv(ps) && ps.recvCh.CanRecv()
    ensures StreamInv(ps.Take())
  {
    TakeConserves(ps);
    PushLog(ps.hist.recvLog, RData(ps.recvCh.buf[0]));
  }

  lemma TakeErrKeeps(ps: PStream)
    requires StreamInv(ps) && ps.errCh.CanRecv()
    ensures StreamInv(ps.TakeErr())
  {
    PushLog(ps.hist.recvLog, RError(ps.errCh.buf[0]));
    NoErrors(ps.hist.recvLog, ps.outcome);
  }

  lemma CloseKeeps(ps: PStream)
    requires StreamInv(ps)
    ensures StreamInv(ps.CloseSendCh())
    ensures !ps.registered && ps.cancelled ==> StreamInv(ps.CloseRecvCh())
  {
  }

  lemma LeaveKeeps(ps: PStream)
    requires StreamInv(ps) && ps.pc == HClose
    ensures StreamInv(ps.CloseRecvCh().(pc := HDone))
  {
  }

  lemma EnqueueKeeps(ps: PStream, x: Sent)
    requires StreamInv(ps) && ps.sendCh.CanSend()
    ensures StreamInv(ps.Enqueue(x))
  {
    assert ps.hist.read + (ps.sendCh.buf + [x]) == ps.hist.read + ps.sendCh.buf + [x];
  }

  lemma DequeueKeeps(ps: PStream)
    requires StreamInv(ps) && (ps.sendCh.CanRecv() || ps.sendCh.Drained())
    ensures StreamInv(Dequeue(ps))
  {
    if ps.sendCh.CanRecv() {
      var x := ps.sendCh.buf[0];
      PushRead(ps.hist.readLog, ReadData(x));
      assert ps.sendCh.buf == [x] + ps.sendCh.buf[1..];
    } else {
      PushRead(ps.hist.readLog, ReadEof);
    }
  }

  lemma SentKeeps(ps: PStream)
    requires StreamInv(ps) && ps.pc.HSend? && ps.recvCh.CanSend()
    ensures StreamInv(HandlerDo(ps, SendReady))
  {
    var m := ps.pc.msg;
    assert ps.hist.taken + (ps.recvCh.buf + [m]) == ps.hist.taken + ps.recvCh.buf + [m];
    assert Conserved(HandlerDo(ps, SendReady));
  }

  predicate InRecv(pc: CallPc) {
    pc.RecvEnter? || pc.RecvPoll? || pc.RecvPollErr? || pc.RecvWait? || pc.RecvDrained? || pc.RecvRecheck?
  }

  /** What a step of a receive can do to the stream: nothing, or one of these effects. */
  predicate RecvTo(ps: PStream, pc: CallPc, qs: PStream) {
    || qs == ps
    || (ps.recvCh.CanRecv() && qs == ps.Take())
    || (ps.errCh.CanRecv() && qs == ps.TakeErr())
    || (pc.RecvEnter? && !ps.registered && qs == ps.Log(RNoStream))
    || (pc.RecvDrained? && qs == ps.Log(REof))
    || (pc.RecvRecheck? && !ps.recvCh.CanRecv() && qs == ps.Log(REof))
  }

  lemma RecvEffect(ps: PStream, pc: CallPc, c: Choice)
    requires InRecv(pc) && CallEnabled(ps, pc, c)
    ensures RecvTo(ps, pc, CallDo(ps, pc, c).0)
  {
  }

  lemma RecvFrame(ps: PStream, pc: CallPc, c: Choice)
    requires InRecv(pc) && CallEnabled(ps, pc, c)
    ensures var (q, next) := CallDo(ps, pc, c);
      && q == ps.(recvCh := q.recvCh, errCh := q.errCh, hist := q.hist)
      && q.hist == ps.hist.(taken := q.hist.taken, recvLog := q.hist.recvLog)
      && (InRecv(next) || next.RecvRet?)
  {
  }

  lemma RecvKeeps(ps: PStream, pc: CallPc, c: Choice)
    requires StreamInv(ps) && ThreadOk(ps, pc) && CallEnabled(ps, pc, c) && InRecv(pc)
    ensures StreamInv(CallDo(ps, pc, c).0)
  {
    RecvEffect(ps, pc, c);
    var q := CallDo(ps, pc, c).0;
    if ps.recvCh.CanRecv() && q == ps.Take() {
      TakeKeeps(ps);
    } else if ps.errCh.CanRecv() && q == ps.TakeErr() {
      TakeErrKeeps(ps);
    } else if q == ps.Log(RNoStream) && pc.RecvEnter? && !ps.registered {
      LogKeeps(ps, RNoStream);
    } else if q != ps {
      LogKeeps(ps, REof);
    }
  }

  lemma CancelKeeps(ps: PStream)
    requires StreamInv(ps)
    ensures StreamInv(ps.(registered := false))
    ensures !ps.registered ==> StreamInv(ps.(cancelled := true))
  {
  }

  /** Steps of host threads inside exported functions. */
  lemma CallKeeps(ps: PStream, pc: CallPc, c: Choice)
    requires StreamInv(ps) && ThreadOk(ps, pc) && CallEnabled(ps, pc, c)
    ensures StreamInv(CallDo(ps, pc, c).0)
  {
    if InRecv(pc) {
      RecvKeeps(ps, pc, c);
    } else if pc.SendSelect? && ps.sendCh.CanSend() {
      EnqueueKeeps(ps, Sent(pc.call, pc.msg));
    } else if pc.CloseEnter? || pc.CloseCancel? {
      CancelKeeps(ps);
    } else if pc.CloseSendLock? || pc.CloseCloseSend? || pc.CloseCloseRecv? {
      CloseKeeps(ps);
    } else {
      assert CallDo(ps, pc, c).0 == ps;
    }
  }

  lemma CallThread(ps: PStream, pc: CallPc, c: Choice)
    requires StreamInv(ps) && ThreadOk(ps, pc) && CallEnabled(ps, pc, c)
    ensures var (ps', pc') := CallDo(ps, pc, c);
      ThreadOk(ps', pc') && forall q: CallPc :: ThreadOk(ps, q) ==> ThreadOk(ps', q)
  {
  }

  /** The step leaves the channels and the logs alone. */
  predicate Quiet(a: HandlerAct) {
    !a.InitRecv? && !a.RecvReady? && !a.SendReady? && !a.RecvDone? && !a.DeferClose? && !a.ReportError?
  }

  lemma QuietFrame(ps: PStream, a: HandlerAct)
    requires Life(ps) && HandlerEnabled(ps, a) && Quiet(a)
    ensures var q := HandlerDo(ps, a);
      && q == ps.(pc := q.pc, outcome := q.outcome, cancelled := q.cancelled) && Life(q) && !ps.pc.HFail?
      && (q.outcome != ps.outcome ==> ps.outcome == Running) && (ps.cancelled ==> q.cancelled)
      && (q.outcome.Failed? && ps.outcome == Running ==> q.pc.HFail?) && !(ps.outcome.Failed? && q.pc.HFail?)
      && (AfterCancel(ps.pc) ==> AfterCancel(q.pc))
  {
  }

  lemma QuietKeeps(ps: PStream, a: HandlerAct)
    requires StreamInv(ps) && HandlerEnabled(ps, a) && Quiet(a)
    ensures StreamInv(HandlerDo(ps, a))
  {
    QuietFrame(ps, a);
  }

  lemma ReportKeeps(ps: PStream)
    requires StreamInv(ps) && ps.pc.HFail?
    ensures StreamInv(HandlerDo(ps, ReportError))
  {
    var q := HandlerDo(ps, ReportError);
    assert ps.errCh.buf == [] && q.errCh.buf == [ps.pc.err];
    assert q.hist == ps.hist && q.sendCh == ps.sendCh && q.recvCh == ps.recvCh;
  }

  lemma HandlerKeeps(ps: PStream, a: HandlerAct)
    requires StreamInv(ps) && HandlerEnabled(ps, a)
    ensures StreamInv(HandlerDo(ps, a))
  {
    if Quiet(a) {
      QuietKeeps(ps, a);
    } else if a.InitRecv? || a.RecvReady? {
      ReadKeeps(ps, a);
    } else if a.SendReady? {
      SentKeeps(ps);
    } else if a.ReportError? {
      ReportKeeps(ps);
    } else if a.RecvDone? {
      PushRead(ps.hist.readLog, ReadCancelled);
    } else {
      LeaveKeeps(ps);
    }
  }

  lemma MoveKeeps(ps: PStream)
    requires StreamInv(ps) && ps.outcome == Running
    ensures StreamInv(ps.(pc := HUser))
  {
  }

  lemma FailKeeps(ps: PStream, e: string)
    requires StreamInv(ps) && ps.outcome == Running
    ensures StreamInv(Fail(ps, e))
  {
  }

  lemma ReadKeeps(ps: PStream, a: HandlerAct)
    requires StreamInv(ps) && HandlerEnabled(ps, a) && (a.InitRecv? || a.RecvReady?)
    ensures StreamInv(HandlerDo(ps, a))
  {
    DequeueKeeps(ps);
    var q := Dequeue(ps);
    assert q.pc == ps.pc && q.outcome == ps.outcome;
    MoveKeeps(q);
    if a.InitRecv? && a.decodeError.Some? {
      FailKeeps(q, a.decodeError.value);
    }
  }

  lemma HandlerThread(ps: PStream, a: HandlerAct)
    requires HandlerEnabled(ps, a)
    ensures forall q: CallPc :: ThreadOk(ps, q) ==> ThreadOk(HandlerDo(ps, a), q)
  {
  }

  lemma HandlerFrame(ps: PStream, a: HandlerAct)
    requires HandlerEnabled(ps, a)
    ensures var q := HandlerDo(ps, a); q.hist.accepted == ps.hist.accepted && q.hist.codes == ps.hist.codes
  {
    match a
    case InitRecv(_) => assert Dequeue(ps).hist.accepted == ps.hist.accepted;
    case RecvReady => assert Dequeue(ps).hist.accepted == ps.hist.accepted;
    case _ =>
  }

  lemma StepCall(s: Machine, t: nat, c: Choice)
    requires Inv(s) && Enabled(s, Call(t, c))
    ensures Inv(Do(s, Call(t, c)))
  {
    CallKeeps(s.ps, s.threads[t], c);
    CallThread(s.ps, s.threads[t], c);
    CallCodes(s, t, c);
  }

  lemma CloseFrame(ps: PStream, pc: CallPc, c: Choice)
    requires CallEnabled(ps, pc, c) && !InSend(pc) && !InRecv(pc)
    ensures var (q, pc') := CallDo(ps, pc, c); q.hist == ps.hist && !InSend(pc') && !pc'.SendRet?
  {
  }

  /** Apart from the step that enqueues, a host call keeps the accepted messages and its number. */
  lemma CallFrame(ps: PStream, pc: CallPc, c: Choice)
    requires CallEnabled(ps, pc, c)
    ensures var (q, pc') := CallDo(ps, pc, c);
      && q.hist.codes == ps.hist.codes && !IsReturn(pc)
      && (InSend(pc') <==> InSend(pc)) && (InSend(pc) ==> pc'.call == pc.call)
      && if pc.SendSelect? && pc'.SendRet? && pc'.code == 0
         then ps.sendCh.CanSend() && q == ps.Enqueue(Sent(pc.call, pc.msg)) && pc' == SendRet(pc.call, 0)
         else q.hist.accepted == ps.hist.accepted && (pc'.SendRet? ==> pc'.code != 0)
  {
    if InRecv(pc) {
      RecvFrame(ps, pc, c);
    } else if !InSend(pc) {
      CloseFrame(ps, pc, c);
    }
  }

  lemma CallCodes(s: Machine, t: nat, c: Choice)
    requires Inv(s) && Enabled(s, Call(t, c))
    ensures Codes(Do(s, Call(t, c)))
  {
    CallFrame(s.ps, s.threads[t], c);
    var (ps, pc) := CallDo(s.ps, s.threads[t], c);
    if s.threads[t].SendSelect? && pc.SendRet? && pc.code == 0 {
      AcceptCodes(s, t);
    } else {
      MoveCodes(s, ps, t, pc);
    }
  }

  lemma MoveCodes(s: Machine, ps: PStream, t: nat, pc: CallPc)
    requires Codes(s) && t < |s.threads|
    requires ps.hist.accepted == s.ps.hist.accepted && ps.hist.codes == s.ps.hist.codes
    requires InSend(pc) <==> InSend(s.threads[t])
    requires InSend(pc) ==> pc.call == s.threads[t].call && !s.threads[t].SendRet? && (pc.SendRet? ==> pc.code != 0)
    ensures Codes(s.(ps := ps, threads := s.threads[t := pc]))
  {
    assert AcceptedIds(ps) == AcceptedIds(s.ps);
  }

  lemma AcceptCodes(s: Machine, t: nat)
    requires Codes(s) && t < |s.threads| && s.threads[t].SendSelect? && s.ps.sendCh.CanSend()
    ensures var x := Sent(s.threads[t].call, s.threads[t].msg);
      Codes(s.(ps := s.ps.Enqueue(x), threads := s.threads[t := SendRet(x.call, 0)]))
  {
    var x := Sent(s.threads[t].call, s.threads[t].msg);
    assert AcceptedIds(s.ps.Enqueue(x)) == AcceptedIds(s.ps) + {x.call};
    assert forall y | y in s.ps.hist.accepted :: y.call in AcceptedIds(s.ps);
  }

  lemma CodesFrame(s: Machine, ps: PStream)
    requires Codes(s) && ps.hist.accepted == s.ps.hist.accepted && ps.hist.codes == s.ps.hist.codes
    ensures Codes(s.(ps := ps))
  {
    assert AcceptedIds(ps) == AcceptedIds(s.ps);
  }

  lemma StepHandler(s: Machine, a: HandlerAct)
    requires Inv(s) && Enabled(s, Handler(a))
    ensures Inv(Do(s, Handler(a)))
  {
    HandlerKeeps(s.ps, a);
    HandlerThread(s.ps, a);
    HandlerFrame(s.ps, a);
    var ps := HandlerDo(s.ps, a);
    CodesFrame(s, ps);
    ThreadsFrame(s, ps);
  }

  lemma ThreadsFrame(s: Machine, ps: PStream)
    requires forall t | 0 <= t < |s.threads| :: ThreadOk(s.ps, s.threads[t])
    requires forall q: CallPc :: ThreadOk(s.ps, q) ==> ThreadOk(ps, q)
    ensures forall t | 0 <= t < |s.threads| :: ThreadOk(ps, s.threads[t])
  {
  }

  lemma StepInv(s: Machine, a: Act)
    requires Inv(s) && Enabled(s, a)
    ensures Inv(Do(s, a))
  {
    match a
    case Start(t, e) => StepStart(s, t, e);
    case Call(t, c) => StepCall(s, t, c);
    case Return(t) => StepReturn(s, t);
    case Handler(h) => StepHandler(s, h);
    case OtherStream =>
  }

  lemma {:induction false} ExecInv(s: Machine, acts: seq<Act>)
    requires Inv(s) && Exec(s, acts).Some?
    ensures Inv(Exec(s, acts).value)
    decreases |acts|
  {
    if acts != [] {
      StepInv(s, acts[0]);
      ExecInv(Do(s, acts[0]), acts[1..]);
    }
  }

  /** One more action at the end of a run. */
  lemma {:induction false} ExecSnoc(s: Machine, acts: seq<Act>, a: Act)
    requires Exec(s, acts).Some? && Enabled(Exec(s, acts).value, a)
    ensures Exec(s, acts + [a]) == Some(Do(Exec(s, acts).value, a))
    decreases |acts|
  {
    if acts == [] {
      assert [a][1..] == [];
    } else {
      ExecSnoc(Do(s, acts[0]), acts[1..], a);
      assert (acts + [a])[1..] == acts[1..] + [a];
    }
  }

  /** Logs only grow; a finished handler sends nothing more and keeps its outcome. */
  predicate Grows(ps: PStream, qs: PStream) {
    && ps.hist.recvLog <= qs.hist.recvLog && ps.hist.sent <= qs.hist.sent
    && ps.hist.readLog <= qs.hist.readLog && ps.hist.accepted <= qs.hist.accepted
    && (qs.registered ==> ps.registered)
    && (ps.outcome != Running ==> qs.outcome == ps.outcome && qs.hist.sent == ps.hist.sent)
    && (ps.sendCh.Closed() ==> qs.hist.accepted == ps.hist.accepted && qs.sendCh.Closed())
  }

  lemma EffectsGrow(ps: PStream)
    ensures Grows(ps, ps.CloseSendCh()) && Grows(ps, ps.CloseRecvCh())
    ensures ps.recvCh.CanRecv() ==> Grows(ps, ps.Take())
    ensures ps.errCh.CanRecv() ==> Grows(ps, ps.TakeErr())
    ensures forall r :: Grows(ps, ps.Log(r))
  {
  }

  lemma CallGrows(ps: PStream, pc: CallPc, c: Choice)
    requires CallEnabled(ps, pc, c)
    ensures Grows(ps, CallDo(ps, pc, c).0)
  {
    EffectsGrow(ps);
    if InRecv(pc) {
      RecvEffect(ps, pc, c);
    }
  }

  lemma HandlerGrows(ps: PStream, a: HandlerAct)
    requires Life(ps) && HandlerEnabled(ps, a)
    ensures Grows(ps, HandlerDo(ps, a))
  {
    if Quiet(a) {
      QuietFrame(ps, a);
    } else if a.InitRecv? || a.RecvReady? {
      ReadGrows(ps, a);
    } else {
      LoudGrows(ps, a);
    }
  }

  lemma ReadGrows(ps: PStream, a: HandlerAct)
    requires Life(ps) && HandlerEnabled(ps, a) && (a.InitRecv? || a.RecvReady?)
    ensures Grows(ps, HandlerDo(ps, a))
  {
    assert Grows(ps, Dequeue(ps));
    assert HandlerDo(ps, a).hist == Dequeue(ps).hist && HandlerDo(ps, a).sendCh == Dequeue(ps).sendCh;
  }

  lemma LoudGrows(ps: PStream, a: HandlerAct)
    requires Life(ps) && HandlerEnabled(ps, a) && (a.SendReady? || a.RecvDone? || a.DeferClose? || a.ReportError?)
    ensures Grows(ps, HandlerDo(ps, a))
  {
  }

  lemma StepGrows(s: Machine, a: Act)
    requires Inv(s) && Enabled(s, a)
    ensures Grows(s.ps, Do(s, a).ps)
  {
    match a
    case Call(t, c) => CallGrows(s.ps, s.threads[t], c);
    case Handler(h) => HandlerGrows(s.ps, h);
    case _ =>
  }

  lemma {:induction false} ExecGrows(s: Machine, acts: seq<Act>)
    requires Inv(s) && Exec(s, acts).Some?
    ensures Grows(s.ps, Exec(s, acts).value.ps)
    decreases |acts|
  {
    if acts != [] {
      var n := Do(s, acts[0]);
      StepGrows(s, acts[0]);
      StepInv(s, acts[0]);
      ExecGrows(n, acts[1..]);
      GrowsTransitive(s.ps, n.ps, Exec(s, acts).value.ps);
    }
  }

  lemma GrowsTransitive(p: PStream, q: PStream, r: PStream)
    requires Grows(p, q) && Grows(q, r)
    ensures Grows(p, r)
  {
  }

  // ----- plugin to host -----

  /** Whatever the interleaving, the host receives a prefix of what the handler sent. */
  lemma ReceivedIsPrefix(s0: Machine, acts: seq<Act>)
    requires Init(s0) && Exec(s0, acts).Some?
    ensures var h := Exec(s0, acts).value.ps.hist; Payloads(h.recvLog) <= h.sent
  {
    InitInv(s0);
    ExecInv(s0, acts);
  }

  /**
   * The handler succeeded and the host has not closed the stream: once some receive
   * reported end-of-file the receives have delivered every message in order, and all
   * later ones report end-of-file.
   */
  lemma CompleteDelivery(s0: Machine, acts: seq<Act>, more: seq<Act>)
    requires Init(s0) && Exec(s0, acts).Some? && Exec(Exec(s0, acts).value, more).Some?
    requires var s := Exec(s0, acts).value; s.ps.outcome == Succeeded && REof in s.ps.hist.recvLog
    requires Exec(Exec(s0, acts).value, more).value.ps.registered
    ensures var h, g := Exec(s0, acts).value.ps.hist, Exec(Exec(s0, acts).value, more).value.ps.hist;
      && Payloads(h.recvLog) == h.sent == g.sent
      && h.recvLog <= g.recvLog && DataThenEof(g.recvLog)
      && forall i | |h.recvLog| <= i < |g.recvLog| :: g.recvLog[i] == REof
  {
    InitInv(s0);
    ExecInv(s0, acts);
    var s := Exec(s0, acts).value;
    EofLogged(s.ps.hist.recvLog);
    ExecGrows(s, more);
    ExecInv(s, more);
    OnlyEofFollows(s.ps.hist.recvLog, Exec(s, more).value.ps.hist.recvLog);
  }

  lemma {:induction false} EofLogged(l: seq<RecvResult>)
    ensures HasEof(l) <==> REof in l
  {
    if l != [] {
      EofLogged(l[..|l|-1]);
      assert l == l[..|l|-1] + [l[|l|-1]];
    }
  }

  lemma {:induction false} OnlyEofFollows(l: seq<RecvResult>, m: seq<RecvResult>)
    requires l <= m && HasEof(l) && DataThenEof(m)
    ensures HasEof(m) && forall i | |l| <= i < |m| :: m[i] == REof
  {
    if |l| < |m| {
      OnlyEofFollows(l, m[..|m|-1]);
    } else {
      assert l == m;
    }
  }

  /**
   * A receive that runs by itself after the handler has finished, the stream still open:
   * the next undelivered message, else the undelivered error, else end-of-file.
   */
  lemma LoneReceive(s0: Machine, pre: seq<Act>, s: Machine, t: nat) returns (acts: seq<Act>)
    requires Init(s0) && Exec(s0, pre) == Some(s)
    requires s.ps.registered && s.ps.pc == HDone
    requires t < |s.threads| && s.threads[t].Idle?
    ensures Exec(s, acts).Some?
    ensures var h, n := s.ps.hist, Exec(s, acts).value;
      var r := if |h.taken| < |h.sent| then RData(h.sent[|h.taken|])
               else if s.ps.errCh.CanRecv() then RError(s.ps.errCh.buf[0]) else REof;
      n.threads == s.threads[t := RecvRet(r)] && n.ps.hist.recvLog == h.recvLog + [r]
  {
    InitInv(s0);
    ExecInv(s0, pre);
    var n;
    n, acts := Extend(s, s, [], Start(t, RecvEnter));
    n, acts := Extend(s, n, acts, Call(t, Proceed));
    assert n == s.(threads := s.threads[t := RecvPoll]);
    n, acts := PollAlone(s, n, acts, t);
  }

  lemma PollAlone(s: Machine, n0: Machine, acts0: seq<Act>, t: nat) returns (n: Machine, acts: seq<Act>)
    requires Inv(s) && s.ps.registered && s.ps.pc == HDone && t < |s.threads|
    requires n0 == s.(threads := s.threads[t := RecvPoll]) && Exec(s, acts0) == Some(n0)
    ensures Exec(s, acts) == Some(n)
    ensures var h := s.ps.hist;
      var r := if |h.taken| < |h.sent| then RData(h.sent[|h.taken|])
               else if s.ps.errCh.CanRecv() then RError(s.ps.errCh.buf[0]) else REof;
      n.threads == s.threads[t := RecvRet(r)] && n.ps.hist.recvLog == h.recvLog + [r]
  {
    n, acts := Extend(s, n0, acts0, Call(t, Proceed));
    if s.ps.recvCh.CanRecv() {
      assert s.ps.hist.sent[|s.ps.hist.taken|] == s.ps.recvCh.buf[0];
      assert n.threads == s.threads[t := RecvRet(RData(s.ps.recvCh.buf[0]))];
    } else {
      assert n == s.(threads := s.threads[t := RecvDrained]);
      n, acts := DrainedAlone(s, n, acts, t);
    }
  }

  lemma DrainedAlone(s: Machine, n0: Machine, acts0: seq<Act>, t: nat) returns (n: Machine, acts: seq<Act>)
    requires t < |s.threads| && n0 == s.(threads := s.threads[t := RecvDrained]) && Exec(s, acts0) == Some(n0)
    ensures Exec(s, acts) == Some(n)
    ensures var r := if s.ps.errCh.CanRecv() then RError(s.ps.errCh.buf[0]) else REof;
      n.threads == s.threads[t := RecvRet(r)] && n.ps.hist.recvLog == s.ps.hist.recvLog + [r]
  {
    n, acts := Extend(s, n0, acts0, Call(t, Proceed));
    assert n.threads == s.threads[t := n.threads[t]];
  }

  /** An error reaches the host at most once and only if the handler failed with it. */
  lemma ErrorsAreTheHandlers(s0: Machine, acts: seq<Act>)
    requires Init(s0) && Exec(s0, acts).Some?
    ensures var ps := Exec(s0, acts).value.ps;
      Errors(ps.hist.recvLog) <= 1 && forall e | RError(e) in ps.hist.recvLog :: ps.outcome == Failed(e)
  {
    InitInv(s0);
    ExecInv(s0, acts);
    var ps := Exec(s0, acts).value.ps;
    forall e | RError(e) in ps.hist.recvLog
      ensures ps.outcome == Failed(e)
    {
      ErrorLogged(ps.hist.recvLog, ps.outcome, e);
    }
  }

  lemma {:induction false} ErrorLogged(l: seq<RecvResult>, o: Outcome, e: string)
    requires RError(e) in l
    ensures Errors(l) > 0 && (ErrorsAre(l, o) ==> o == Failed(e))
  {
    if l[|l|-1] != RError(e) {
      assert l == l[..|l|-1] + [l[|l|-1]];
      ErrorLogged(l[..|l|-1], o, e);
    }
  }

  /** A handler failed, the host closed nothing, and is told end-of-file. */
  lemma HandlerErrorReportedAsEof() returns (s0: Machine, acts: seq<Act>)
    ensures Init(s0) && Exec(s0, acts).Some?
    ensures var ps := Exec(s0, acts).value.ps;
      ps.registered && ps.outcome == Failed("e") && ps.hist.recvLog == [REof]
  {
    s0 := Machine(NewStream(Bidi), [CallPc.Idle], 0);
    acts := PollsOnce(s0);
    var s;
    s, acts := Extend(s0, s0.(threads := [RecvPollErr]), acts, Call(0, Proceed));
    assert s == s0.(threads := [RecvWait]);
    s, acts := FailsWhileWaiting(s0, acts);
    s, acts := FinishFailure(s0, s, acts, s0.ps);
  }

  lemma FailsWhileWaiting(s0: Machine, acts: seq<Act>) returns (s: Machine, acts': seq<Act>)
    requires s0 == Machine(NewStream(Bidi), [CallPc.Idle], 0)
    requires Exec(s0, acts) == Some(s0.(threads := [RecvWait]))
    ensures Exec(s0, acts') == Some(s) && s == Machine(Fail(s0.ps, "e"), [RecvWait], 0)
  {
    s, acts' := Extend(s0, s0.(threads := [RecvWait]), acts, Handler(Begin));
    s, acts' := Extend(s0, s, acts', Handler(UserReturn(Some("e"), false, [])));
  }

  lemma FinishFailure(s0: Machine, s: Machine, acts: seq<Act>, p: PStream) returns (s': Machine, acts': seq<Act>)
    requires Exec(s0, acts) == Some(s) && p == NewStream(Bidi)
    requires s == Machine(Fail(p, "e"), [RecvWait], 0)
    ensures Exec(s0, acts') == Some(s')
    ensures s'.ps.registered && s'.ps.outcome == Failed("e") && s'.ps.hist.recvLog == [REof]
  {
    s', acts' := Extend(s0, s, acts, Handler(ReportError));
    s', acts' := Extend(s0, s', acts', Handler(DeferCancel));
    s', acts' := Extend(s0, s', acts', Call(0, OnDone));
    s', acts' := Extend(s0, s', acts', Call(0, Proceed));
  }

  /** An error chosen between the two polls overtakes a message that was sent before it. */
  lemma ErrorOvertakesData(m: Bytes) returns (s0: Machine, acts: seq<Act>)
    ensures Init(s0) && Exec(s0, acts).Some?
    ensures var ps := Exec(s0, acts).value.ps;
      ps.registered && ps.hist.sent == [m] && ps.hist.recvLog == [RError("e")]
  {
    s0 := Machine(NewStream(Bidi), [CallPc.Idle], 0);
    var s;
    acts := PollsOnce(s0);
    s, acts := SendsAfterPoll(s0, acts, m);
    var q := s.ps;
    s, acts := Extend(s0, s, acts, Handler(UserReturn(Some("e"), false, [])));
    s, acts := Extend(s0, s, acts, Handler(ReportError));
    assert s == Machine(Fail(q, "e").TrySendErr("e").(pc := HCancel), [RecvPollErr], 0);
    s, acts := Extend(s0, s, acts, Call(0, Proceed));
  }

  lemma PollsOnce(s0: Machine) returns (acts: seq<Act>)
    requires s0 == Machine(NewStream(Bidi), [CallPc.Idle], 0)
    ensures Exec(s0, acts) == Some(s0.(threads := [RecvPollErr]))
  {
    var s;
    s, acts := Extend(s0, s0, [], Start(0, RecvEnter));
    s, acts := Extend(s0, s, acts, Call(0, Proceed));
    s, acts := Extend(s0, s, acts, Call(0, Proceed));
    assert s.threads == [RecvPollErr];
  }

  lemma SendsAfterPoll(s0: Machine, acts: seq<Act>, m: Bytes) returns (s: Machine, acts': seq<Act>)
    requires s0 == Machine(NewStream(Bidi), [CallPc.Idle], 0)
    requires Exec(s0, acts) == Some(s0.(threads := [RecvPollErr]))
    ensures Exec(s0, acts') == Some(s)
    ensures var q := s0.ps.(recvCh := s0.ps.recvCh.Send(m), hist := s0.ps.hist.(sent := [m]), pc := HUser);
      s == Machine(q, [RecvPollErr], 0)
  {
    s, acts' := Extend(s0, s0.(threads := [RecvPollErr]), acts, Handler(Begin));
    s, acts' := Extend(s0, s, acts', Handler(UserSend(m)));
    s, acts' := Extend(s0, s, acts', Handler(SendReady));
  }

  lemma Extend(s0: Machine, s: Machine, acts: seq<Act>, a: Act) returns (s': Machine, acts': seq<Act>)
    requires Exec(s0, acts) == Some(s) && Enabled(s, a)
    ensures s' == Do(s, a) && acts' == acts + [a] && Exec(s0, acts') == Some(s')
  {
    ExecSnoc(s0, acts, a);
    s', acts' := Do(s, a), acts + [a];
  }

  // ----- host to plugin -----

  /** A finished Send reported 0 exactly when its message was put on the channel, once. */
  lemma SendCodeIsZeroIffEnqueued(s0: Machine, acts: seq<Act>)
    requires Init(s0) && Exec(s0, acts).Some?
    ensures var h := Exec(s0, acts).value.ps.hist;
      && (forall n | n in h.codes :: h.codes[n] == 0 <==> exists x :: x in h.accepted && x.call == n)
      && (forall i, j | 0 <= i < j < |h.accepted| :: h.accepted[i].call != h.accepted[j].call)
  {
    InitInv(s0);
    ExecInv(s0, acts);
  }

  /**
   * The handler's receives yield the enqueued messages in order; end-of-file means the
   * send side was closed and every message ever accepted had been read; without
   * cancellation there is no other result.
   */
  lemma HandlerReadsEverything(s0: Machine, acts: seq<Act>, more: seq<Act>)
    requires Init(s0) && Exec(s0, acts).Some? && Exec(Exec(s0, acts).value, more).Some?
    ensures var h := Exec(s0, acts).value.ps.hist;
      && Items(h.readLog) <= h.accepted && EofIsFinal(h.readLog)
    ensures var s := Exec(s0, acts).value;
      ReadEof in s.ps.hist.readLog ==>
        && s.ps.closeSend && Items(s.ps.hist.readLog) == s.ps.hist.accepted
        && Exec(s, more).value.ps.hist.accepted == s.ps.hist.accepted
    ensures var s := Exec(s0, acts).value; !s.ps.cancelled ==> ReadCancelled !in s.ps.hist.readLog
  {
    InitInv(s0);
    ExecInv(s0, acts);
    ExecGrows(Exec(s0, acts).value, more);
    ReadLogged(Exec(s0, acts).value.ps.hist.readLog);
  }

  /**
   * Once the host has closed its side, and without cancellation, a read of the handler
   * never waits: it gives the next message the host ever got accepted, or end-of-file
   * when there is none.  The first request of a server-streaming handler is such a read.
   */
  lemma LoneRead(s0: Machine, acts: seq<Act>, s: Machine)
    requires Init(s0) && Exec(s0, acts) == Some(s)
    requires s.ps.closeSend && !s.ps.cancelled && (s.ps.pc == HRecv || s.ps.pc == HInit)
    ensures var h := s.ps.hist;
      var a := if s.ps.pc == HRecv then RecvReady else InitRecv(None);
      && Enabled(s, Handler(a)) && !Enabled(s, Handler(RecvDone)) && !Enabled(s, Handler(InitDone))
      && var n := Do(s, Handler(a)).ps;
         && n.pc == HUser
         && n.hist.readLog == h.readLog + [if |h.read| < |h.accepted| then ReadData(h.accepted[|h.read|]) else ReadEof]
         && (|h.read| < |h.accepted| ==> n.hist.read == h.accepted[..|h.read| + 1])
  {
    InitInv(s0);
    ExecInv(s0, acts);
    var a := if s.ps.pc == HRecv then RecvReady else InitRecv(None);
    ReadAlone(s.ps, a);
  }

  lemma ReadAlone(ps: PStream, a: HandlerAct)
    requires Conserved(ps) && ps.closeSend
    requires (ps.pc == HRecv && a == RecvReady) || (ps.pc == HInit && a == InitRecv(None))
    ensures HandlerEnabled(ps, a)
    ensures var h, n := ps.hist, HandlerDo(ps, a);
      && n.pc == HUser
      && n.hist.readLog == h.readLog + [if |h.read| < |h.accepted| then ReadData(h.accepted[|h.read|]) else ReadEof]
      && (|h.read| < |h.accepted| ==> n.hist.read == h.accepted[..|h.read| + 1])
  {
    DequeueNext(ps);
  }

  lemma DequeueNext(ps: PStream)
    requires Conserved(ps) && ps.closeSend
    ensures var h, q := ps.hist, Dequeue(ps);
      && q == ps.(sendCh := q.sendCh, hist := h.(read := q.hist.read, readLog := q.hist.readLog))
      && q.hist.readLog == h.readLog + [if |h.read| < |h.accepted| then ReadData(h.accepted[|h.read|]) else ReadEof]
      && (|h.read| < |h.accepted| ==> q.hist.read == h.accepted[..|h.read| + 1])
  {
    if ps.sendCh.CanRecv() {
      assert ps.hist.accepted[|ps.hist.read|] == ps.sendCh.buf[0];
      assert ps.hist.accepted[..|ps.hist.read| + 1] == ps.hist.read + [ps.sendCh.buf[0]];
    }
  }

  lemma {:induction false} ReadLogged(l: seq<ReadResult>)
    ensures HasReadEof(l) <==> ReadEof in l
    ensures HasReadCancelled(l) <==> ReadCancelled in l
  {
    if l != [] {
      ReadLogged(l[..|l|-1]);
      assert l == l[..|l|-1] + [l[|l|-1]];
    }
  }

  /** No channel is closed twice, and the flag guarding a channel says whether it is closed. */
  lemma ClosedAtMostOnce(s0: Machine, acts: seq<Act>)
    requires Init(s0) && Exec(s0, acts).Some?
    ensures var ps := Exec(s0, acts).value.ps;
      && ps.sendCh.closes == (if ps.closeSend then 1 else 0)
      && ps.recvCh.closes == (if ps.closeRecv then 1 else 0)
      && ps.errCh.closes == 0
  {
    InitInv(s0);
    ExecInv(s0, acts);
  }
}
