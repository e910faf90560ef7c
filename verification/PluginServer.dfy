/**
 * The plugin side of one streaming call: the stream record and its exported functions
 * (pkg/plugin/server.go) and the goroutine that generated code starts for it
 * (test/plugin/api/example_ffi.pb.go).
 *
 * Every atomic effect (a mutex section, one channel operation, a table look-up) is one
 * step.  What Go decides at run time - which ready case a `select` takes, what the
 * user's handler does next - is passed in as a label, so each step is a function.
 */
module PluginServer {
  import opened Basics
  import opened Channels

  /** A message on the host-to-plugin channel; `call` numbers the Send call it came from. */
  datatype Sent = Sent(call: nat, msg: Bytes)

  /** What one receive call reports to the host. */
  datatype RecvResult = RData(msg: Bytes) | RError(err: string) | REof | RNoStream

  /** What the handler gets from one of its receives. */
  datatype ReadResult = ReadData(item: Sent) | ReadEof | ReadCancelled

  datatype Kind = ServerStreaming | ClientStreaming | Bidi | UnknownMethod

  /** How the handler function ended. */
  datatype Outcome = Running | Succeeded | Failed(err: string)

  /** Control points of the handler goroutine. */
  datatype HandlerPc =
    | HStart
    | HInit
    | HUser
    | HSend(msg: Bytes, final: bool)
    | HRecv
    | HFail(err: string)
    | HCancel
    | HClose
    | HDone

  /**
   * History of one stream.  `accepted` and `read` list what entered and left the
   * host-to-plugin channel, `sent` and `taken` the same for the other direction;
   * `codes` holds the result of every finished Send call, `recvLog` and `readLog` list
   * the results of the host's and the handler's receives.
   */
  datatype History = History(
    accepted: seq<Sent>, read: seq<Sent>, sent: seq<Bytes>, taken: seq<Bytes>,
    codes: map<nat, int>, recvLog: seq<RecvResult>, readLog: seq<ReadResult>)

  datatype PStream = PStream(
    kind: Kind, registered: bool, cancelled: bool,
    sendCh: Chan<Sent>, recvCh: Chan<Bytes>, errCh: Chan<string>,
    closeSend: bool, closeRecv: bool,
    pc: HandlerPc, outcome: Outcome, hist: History)
  {
    /** closeSendCh: one mutex section. */
    function CloseSendCh(): PStream {
      if closeSend then this else this.(closeSend := true, sendCh := sendCh.Close())
    }

    /** CloseRecvCh: one mutex section. */
    function CloseRecvCh(): PStream {
      if closeRecv then this else this.(closeRecv := true, recvCh := recvCh.Close())
    }

    /** trySendErr: a non-blocking send on the error slot. */
    function TrySendErr(e: string): PStream {
      if errCh.CanSend() then this.(errCh := errCh.Send(e)) else this
    }

    function Enqueue(x: Sent): PStream
      requires sendCh.CanSend()
    {
      this.(sendCh := sendCh.Send(x), hist := hist.(accepted := hist.accepted + [x]))
    }

    function Take(): PStream
      requires recvCh.CanRecv()
    {
      this.(recvCh := recvCh.Recv(), hist := hist.(taken := hist.taken + [recvCh.buf[0]])).Log(RData(recvCh.buf[0]))
    }

    function TakeErr(): PStream
      requires errCh.CanRecv()
    {
      this.(errCh := errCh.Recv()).Log(RError(errCh.buf[0]))
    }

    function Log(r: RecvResult): PStream {
      this.(hist := hist.(recvLog := hist.recvLog + [r]))
    }

    function LogRead(r: ReadResult): PStream {
      this.(hist := hist.(readLog := hist.readLog + [r]))
    }
  }

  const CHANNEL_CAPACITY: nat := 16

  /** NewStream: the record that is stored in the handle table. */
  function NewStream(kind: Kind): PStream {
    PStream(kind, true, false,
            MakeChan(CHANNEL_CAPACITY), MakeChan(CHANNEL_CAPACITY), MakeChan(1),
            false, false, HStart, Running,
            History([], [], [], [], map[], [], []))
  }

  // ----- exported functions, called by host threads -----

  /** Control points of a host thread inside one exported stream function. */
  datatype CallPc =
    | Idle
    | SendEnter(call: nat, msg: Bytes)
    | SendLock(call: nat, msg: Bytes)
    | SendSelect(call: nat, msg: Bytes)
    | SendRet(call: nat, code: int)
    | RecvEnter
    | RecvPoll
    | RecvPollErr
    | RecvWait
    | RecvDrained
    | RecvRecheck
    | RecvRet(result: RecvResult)
    | CloseSendEnter
    | CloseSendLock
    | CloseSendRet
    | CloseEnter
    | CloseCancel
    | CloseCloseSend
    | CloseCloseRecv
    | CloseRet

  /** The ready case a `select` takes; `Proceed` is the only choice outside a `select`. */
  datatype Choice = Proceed | OnData | OnError | OnDone

  predicate IsReturn(pc: CallPc) {
    pc.SendRet? || pc.RecvRet? || pc.CloseSendRet? || pc.CloseRet?
  }

  predicate CallEnabled(ps: PStream, pc: CallPc, c: Choice) {
    match pc
    case SendSelect(_, _) =>
      (c == OnData && (ps.sendCh.CanSend() || ps.sendCh.Closed())) || (c == OnDone && ps.cancelled)
    case RecvWait =>
      || (c == OnData && (ps.recvCh.CanRecv() || ps.recvCh.Drained()))
      || (c == OnError && ps.errCh.CanRecv())
      || (c == OnDone && ps.cancelled)
    case _ => c == Proceed && !pc.Idle? && !IsReturn(pc)
  }

  /** One step of a host thread inside an exported function. */
  function CallDo(ps: PStream, pc: CallPc, c: Choice): (PStream, CallPc)
    requires CallEnabled(ps, pc, c)
  {
    match pc
    case SendEnter(n, m) => if ps.registered then (ps, SendLock(n, m)) else (ps, SendRet(n, 1))
    case SendLock(n, m) => if ps.closeSend then (ps, SendRet(n, 3)) else (ps, SendSelect(n, m))
    case SendSelect(n, m) =>
      if c == OnDone then (ps, SendRet(n, 2))
      else if ps.sendCh.Closed() then (ps, SendRet(n, 3))  // send on closed channel, recovered
      else (ps.Enqueue(Sent(n, m)), SendRet(n, 0))
    case RecvEnter => if ps.registered then (ps, RecvPoll) else (ps.Log(RNoStream), RecvRet(RNoStream))
    case RecvPoll =>
      if ps.recvCh.CanRecv() then (ps.Take(), RecvRet(RData(ps.recvCh.buf[0])))
      else if ps.recvCh.Closed() then (ps, RecvDrained)
      else (ps, RecvPollErr)
    case RecvPollErr =>
      if ps.errCh.CanRecv() then (ps.TakeErr(), RecvRet(RError(ps.errCh.buf[0]))) else (ps, RecvWait)
    case RecvWait =>
      if c == OnDone then (ps, RecvRecheck)
      else if c == OnError then (ps.TakeErr(), RecvRet(RError(ps.errCh.buf[0])))
      else if ps.recvCh.CanRecv() then (ps.Take(), RecvRet(RData(ps.recvCh.buf[0])))
      else (ps, RecvDrained)
    case RecvDrained =>
      if ps.errCh.CanRecv() then (ps.TakeErr(), RecvRet(RError(ps.errCh.buf[0]))) else (ps.Log(REof), RecvRet(REof))
    case RecvRecheck =>
      if ps.recvCh.CanRecv() then (ps.Take(), RecvRet(RData(ps.recvCh.buf[0]))) else (ps.Log(REof), RecvRet(REof))
    case CloseSendEnter => (ps, if ps.registered then CloseSendLock else CloseSendRet)
    case CloseSendLock => (ps.CloseSendCh(), CloseSendRet)
    case CloseEnter => if ps.registered then (ps.(registered := false), CloseCancel) else (ps, CloseRet)
    case CloseCancel => (ps.(cancelled := true), CloseCloseSend)
    case CloseCloseSend => (ps.CloseSendCh(), CloseCloseRecv)
    case CloseCloseRecv => (ps.CloseRecvCh(), CloseRet)
    case _ => (ps, pc)  // no step from here is enabled
  }

  // ----- the handler goroutine -----

  /** Labels of handler steps. */
  datatype HandlerAct =
    | Begin
    | InitRecv(decodeError: Option<string>)
    | InitDone
    | UserSend(msg: Bytes)
    | UserRecv
    | UserReturn(err: Option<string>, isEof: bool, reply: Bytes)
    | UserPanic(text: string)
    | SendReady
    | SendOnClosed(panicText: string)
    | SendDone
    | RecvReady
    | RecvDone
    | ReportError
    | DeferCancel
    | DeferClose

  predicate HandlerEnabled(ps: PStream, a: HandlerAct) {
    match a
    case Begin => ps.pc == HStart
    case InitRecv(_) => ps.pc == HInit && (ps.sendCh.CanRecv() || ps.sendCh.Drained())
    case InitDone => ps.pc == HInit && ps.cancelled
    case UserSend(_) => ps.pc == HUser  // a client-streaming handler's SendAndClose too
    case UserRecv => ps.pc == HUser && (ps.kind == ClientStreaming || ps.kind == Bidi)
    case UserReturn(_, _, _) => ps.pc == HUser
    case UserPanic(_) => ps.pc == HUser
    case SendReady => ps.pc.HSend? && ps.recvCh.CanSend()
    case SendOnClosed(_) => ps.pc.HSend? && ps.recvCh.Closed()
    case SendDone => ps.pc.HSend? && ps.cancelled
    case RecvReady => ps.pc == HRecv && (ps.sendCh.CanRecv() || ps.sendCh.Drained())
    case RecvDone => ps.pc == HRecv && ps.cancelled
    case ReportError => ps.pc.HFail?
    case DeferCancel => ps.pc == HCancel
    case DeferClose => ps.pc == HClose
  }

  function Fail(ps: PStream, e: string): PStream {
    ps.(pc := HFail(e), outcome := Failed(e))
  }

  function Finish(ps: PStream): PStream {
    ps.(pc := HCancel, outcome := Succeeded)
  }

  /** A receive from the host-to-plugin channel that found a value or the channel closed. */
  function Dequeue(ps: PStream): PStream
    requires ps.sendCh.CanRecv() || ps.sendCh.Drained()
  {
    if ps.sendCh.CanRecv() then
      var x := ps.sendCh.buf[0];
      ps.(sendCh := ps.sendCh.Recv(), hist := ps.hist.(read := ps.hist.read + [x])).LogRead(ReadData(x))
    else
      ps.LogRead(ReadEof)
  }

  function HandlerDo(ps: PStream, a: HandlerAct): PStream
    requires HandlerEnabled(ps, a)
  {
    match a
    case Begin =>
      (match ps.kind
       case ServerStreaming => ps.(pc := HInit)
       case UnknownMethod => Finish(ps)
       case _ => ps.(pc := HUser))
    case InitRecv(e) =>
      // the first request; on a closed channel this is an empty message
      var q := Dequeue(ps);
      if e.Some? then Fail(q, e.value) else q.(pc := HUser)
    case InitDone => Finish(ps)
    case UserSend(m) => ps.(pc := HSend(m, false))
    case UserRecv => ps.(pc := HRecv)
    case UserReturn(e, isEof, reply) =>
      if ps.kind == ClientStreaming then
        (if e.Some? then Fail(ps, e.value) else ps.(pc := HSend(reply, true)))
      else if e.Some? && !isEof then Fail(ps, e.value)
      else Finish(ps)
    case UserPanic(e) => Fail(ps, e)
    case SendReady =>
      var q := ps.(recvCh := ps.recvCh.Send(ps.pc.msg), hist := ps.hist.(sent := ps.hist.sent + [ps.pc.msg]));
      if ps.pc.final then Finish(q) else q.(pc := HUser)
    case SendOnClosed(e) => Fail(ps, e)  // the panic is recovered by the deferred function
    case SendDone => if ps.pc.final then Finish(ps) else ps.(pc := HUser)
    case RecvReady => Dequeue(ps).(pc := HUser)
    case RecvDone => ps.LogRead(ReadCancelled).(pc := HUser)
    case ReportError => ps.TrySendErr(ps.pc.err).(pc := HCancel)
    case DeferCancel => ps.(cancelled := true, pc := HClose)
    case DeferClose => ps.CloseRecvCh().(pc := HDone)
  }
}
