/**
 * The in-process stream (pkg/synurang/synurang.go): a client and a server goroutine in
 * one process, joined by two bounded channels and a one-slot error channel.  One client
 * thread receives; any number of client threads send and close.
 */
module InProcessStream {
  import opened Basics
  import opened Channels

  /** The error values of Go that matter: io.EOF, the context's own error, any other. */
  datatype Error = Eof | ContextError | Text(text: string)

  /** What RecvMsg gives its caller, who cannot tell where an error value came from. */
  datatype Result = IData(msg: Bytes) | IError(err: Error)

  datatype ReadResult = SData(msg: Bytes) | SEof | SCancelled

  datatype Outcome = Running | Succeeded | Failed(err: Error)

  /** The server goroutine: the handler, then its two deferred closes, last one first. */
  datatype ServerPc =
    | User
    | Sending(msg: Bytes)
    | Reading
    | PutError(err: Error)
    | CloseErrCh
    | CloseRecvCh
    | Finished

  /** The receiving client thread inside RecvMsg. */
  datatype RecvPc =
    | NotReceiving
    | CheckStored
    | Poll
    | Wait
    | SawClosed
    | Store(err: Error)
    | Received(result: Result)

  /** A sending client thread. */
  datatype SendPc = NotSending | CheckClosed(msg: Bytes) | SendSelect(msg: Bytes) | SendDone(ok: bool) | Closing

  datatype History = History(
    accepted: seq<Bytes>, read: seq<Bytes>, sent: seq<Bytes>, taken: seq<Bytes>,
    log: seq<Result>, readLog: seq<ReadResult>)

  datatype Stream = Stream(
    cancelled: bool, sendCh: Chan<Bytes>, recvCh: Chan<Bytes>, errCh: Chan<Error>,
    closed: bool, streamErr: Option<Error>,
    server: ServerPc, outcome: Outcome, receiver: RecvPc, senders: seq<SendPc>, hist: History)

  /** The ready case a `select` takes. */
  datatype Choice = Proceed | OnData | OnError | OnDone

  datatype Act =
    | Cancel
    // server goroutine
    | ServerSend(msg: Bytes)
    | ServerRead
    | ServerReturn(err: Option<Error>)
    | ServerStep(choice: Choice)
    // receiving client thread
    | StartRecv
    | RecvStep(choice: Choice)
    // sending client threads
    | StartSend(t: nat, msg: Bytes)
    | StartCloseSend(t: nat)
    | SendStep(t: nat, choice: Choice)

  predicate ServerEnabled(s: Stream, c: Choice) {
    match s.server
    case User => false
    case Sending(_) => (c == OnData && s.recvCh.CanSend()) || (c == OnDone && s.cancelled)
    case Reading => (c == OnData && (s.sendCh.CanRecv() || s.sendCh.Drained())) || (c == OnDone && s.cancelled)
    case Finished => false
    case _ => c == Proceed
  }

  predicate RecvEnabled(s: Stream, c: Choice) {
    match s.receiver
    case NotReceiving => false
    case Wait =>
      || (c == OnData && (s.recvCh.CanRecv() || s.recvCh.Drained()))
      || (c == OnError && (s.errCh.CanRecv() || s.errCh.Drained()))
      || (c == OnDone && s.cancelled)
    case _ => c == Proceed
  }

  predicate SendEnabled(s: Stream, pc: SendPc, c: Choice) {
    match pc
    case NotSending => false
    case SendSelect(_) => (c == OnData && (s.sendCh.CanSend() || s.sendCh.Closed())) || (c == OnDone && s.cancelled)
    case _ => c == Proceed
  }

  predicate Enabled(s: Stream, a: Act) {
    match a
    case Cancel => true
    case ServerSend(_) => s.server == User
    case ServerRead => s.server == User
    case ServerReturn(_) => s.server == User
    case ServerStep(c) => ServerEnabled(s, c)
    case StartRecv => s.receiver == NotReceiving
    case RecvStep(c) => RecvEnabled(s, c)
    case StartSend(t, _) => t < |s.senders| && s.senders[t] == NotSending
    case StartCloseSend(t) => t < |s.senders| && s.senders[t] == NotSending
    case SendStep(t, c) => t < |s.senders| && SendEnabled(s, s.senders[t], c)
  }

  /** The receiver has decided on a result. */
  function Deliver(s: Stream, r: Result): Stream {
    s.(receiver := Received(r), hist := s.hist.(log := s.hist.log + [r]))
  }

  function TakeData(s: Stream): Stream
    requires s.recvCh.CanRecv()
  {
    var m := s.recvCh.buf[0];
    Deliver(s.(recvCh := s.recvCh.Recv(), hist := s.hist.(taken := s.hist.taken + [m])), IData(m))
  }

  function TakeError(s: Stream): Stream
    requires s.errCh.CanRecv()
  {
    s.(errCh := s.errCh.Recv(), receiver := Store(s.errCh.buf[0]))
  }

  function RecvDo(s: Stream, c: Choice): Stream
    requires RecvEnabled(s, c)
  {
    match s.receiver
    case CheckStored => if s.streamErr.Some? then Deliver(s, IError(s.streamErr.value)) else s.(receiver := Poll)
    case Poll =>
      if s.recvCh.CanRecv() then TakeData(s)
      else s.(receiver := if s.recvCh.Closed() then SawClosed else Wait)
    case Wait =>
      if c == OnDone then Deliver(s, IError(ContextError))
      else if c == OnData then (if s.recvCh.CanRecv() then TakeData(s) else s.(receiver := SawClosed))
      else if s.errCh.CanRecv() then TakeError(s)
      else s.(receiver := Poll)  // the error channel is closed and empty: go on draining
    case SawClosed => if s.errCh.CanRecv() then TakeError(s) else Deliver(s, IError(Eof))
    case Store(e) => Deliver(s.(streamErr := Some(e)), IError(e))
    case Received(_) => s.(receiver := NotReceiving)
    case NotReceiving => s  // not enabled
  }

  function ReadMessage(s: Stream): Stream
    requires s.sendCh.CanRecv()
  {
    var m := s.sendCh.buf[0];
    s.(server := User, sendCh := s.sendCh.Recv(),
       hist := s.hist.(read := s.hist.read + [m], readLog := s.hist.readLog + [SData(m)]))
  }

  function ReadNothing(s: Stream, r: ReadResult): Stream {
    s.(server := User, hist := s.hist.(readLog := s.hist.readLog + [r]))
  }

  function ServerDo(s: Stream, c: Choice): Stream
    requires ServerEnabled(s, c)
  {
    match s.server
    case Sending(m) =>
      if c == OnDone then s.(server := User)
      else s.(server := User, recvCh := s.recvCh.Send(m), hist := s.hist.(sent := s.hist.sent + [m]))
    case Reading =>
      if c == OnDone then ReadNothing(s, SCancelled)
      else if s.sendCh.CanRecv() then ReadMessage(s)
      else ReadNothing(s, SEof)
    case PutError(e) => s.(server := CloseErrCh, errCh := if s.errCh.CanSend() then s.errCh.Send(e) else s.errCh)
    case CloseErrCh => s.(server := CloseRecvCh, errCh := s.errCh.Close())
    case CloseRecvCh => s.(server := Finished, recvCh := s.recvCh.Close())
    case _ => s  // not enabled
  }

  function SendDo(s: Stream, t: nat, c: Choice): Stream
    requires t < |s.senders| && SendEnabled(s, s.senders[t], c)
  {
    match s.senders[t]
    case CheckClosed(m) => s.(senders := s.senders[t := if s.closed then SendDone(false) else SendSelect(m)])
    case SendSelect(m) =>
      if c == OnData && s.sendCh.CanSend() then
        s.(senders := s.senders[t := SendDone(true)], sendCh := s.sendCh.Send(m),
           hist := s.hist.(accepted := s.hist.accepted + [m]))
      else s.(senders := s.senders[t := SendDone(false)])  // cancelled, or the recovered panic
    case SendDone(_) => s.(senders := s.senders[t := NotSending])
    case Closing =>
      s.(senders := s.senders[t := NotSending], closed := true,
         sendCh := if s.closed then s.sendCh else s.sendCh.Close())
    case NotSending => s  // not enabled
  }

  function Do(s: Stream, a: Act): Stream
    requires Enabled(s, a)
  {
    match a
    case Cancel => s.(cancelled := true)
    case ServerSend(m) => s.(server := Sending(m))
    case ServerRead => s.(server := Reading)
    case ServerReturn(e) =>
      if e.Some? then s.(server := PutError(e.value), outcome := Failed(e.value))
      else s.(server := CloseErrCh, outcome := Succeeded)
    case ServerStep(c) => ServerDo(s, c)
    case StartRecv => s.(receiver := CheckStored)
    case RecvStep(c) => RecvDo(s, c)
    case StartSend(t, m) => s.(senders := s.senders[t := CheckClosed(m)])
    case StartCloseSend(t) => s.(senders := s.senders[t := Closing])
    case SendStep(t, c) => SendDo(s, t, c)
  }

  function Exec(s: Stream, acts: seq<Act>): Option<Stream>
    decreases |acts|
  {
    if acts == [] then Some(s)
    else if Enabled(s, acts[0]) then Exec(Do(s, acts[0]), acts[1..])
    else None
  }

  const CHANNEL_CAPACITY: nat := 16

  /** newFfiClientStream, with `n` client threads that send. */
  predicate Init(s: Stream) {
    && !s.cancelled && !s.closed && s.streamErr.None?
    && s.sendCh == MakeChan(CHANNEL_CAPACITY) && s.recvCh == MakeChan(CHANNEL_CAPACITY) && s.errCh == MakeChan(1)
    && s.server == User && s.outcome == Running && s.receiver == NotReceiving
    && (forall t | 0 <= t < |s.senders| :: s.senders[t] == NotSending)
    && s.hist == History([], [], [], [], [], [])
  }

  // ----- logs -----

  function Payloads(l: seq<Result>): seq<Bytes> {
    if l == [] then [] else Payloads(l[..|l|-1]) + (if l[|l|-1].IData? then [l[|l|-1].msg] else [])
  }

  /** After end-of-file there is no data and no other error but the context's. */
  predicate EofIsFinal(l: seq<Result>) {
    forall i, j | 0 <= i < j < |l| && l[i] == IError(Eof) :: l[j] == IError(Eof) || l[j] == IError(ContextError)
  }

  /** Once `e` was reported nothing else is. */
  predicate Sticks(l: seq<Result>, e: Error) {
    forall i, j | 0 <= i < j < |l| && l[i] == IError(e) :: l[j] == IError(e)
  }

  function Items(l: seq<ReadResult>): seq<Bytes> {
    if l == [] then [] else Items(l[..|l|-1]) + (if l[|l|-1].SData? then [l[|l|-1].msg] else [])
  }

  predicate HasReadEof(l: seq<ReadResult>) {
    l != [] && (l[|l|-1].SEof? || HasReadEof(l[..|l|-1]))
  }

  lemma Push(l: seq<Result>, r: Result)
    ensures Payloads(l + [r]) == Payloads(l) + (if r.IData? then [r.msg] else [])
    ensures EofIsFinal(l) && (IError(Eof) in l ==> r == IError(Eof) || r == IError(ContextError)) ==> EofIsFinal(l + [r])
  {
    assert (l + [r])[..|l|] == l;
  }

  lemma PushSticks(l: seq<Result>, e: Error)
    requires Sticks(l, e)
    ensures Sticks(l + [IError(e)], e)
  {
  }

  lemma PushRead(l: seq<ReadResult>, r: ReadResult)
    ensures Items(l + [r]) == Items(l) + (if r.SData? then [r.msg] else [])
    ensures HasReadEof(l + [r]) == (r.SEof? || HasReadEof(l))
  {
    assert (l + [r])[..|l|] == l;
  }

  // ----- the invariant -----

  /** The way from the client to the server: what was accepted was read or is in the channel. */
  predicate ToServer(ch: Chan<Bytes>, closed: bool, accepted: seq<Bytes>, read: seq<Bytes>, log: seq<ReadResult>) {
    && ch.Valid() && closed == ch.Closed()
    && accepted == read + ch.buf && Items(log) == read
    && (HasReadEof(log) ==> ch.Drained())
  }

  /** The way from the server to the client: what was sent was taken or is in the channel. */
  predicate ToClient(ch: Chan<Bytes>, sent: seq<Bytes>, taken: seq<Bytes>, log: seq<Result>) {
    ch.Valid() && sent == taken + ch.buf && Payloads(log) == taken
  }

  predicate Conserved(s: Stream) {
    && ToServer(s.sendCh, s.closed, s.hist.accepted, s.hist.read, s.hist.readLog)
    && ToClient(s.recvCh, s.hist.sent, s.hist.taken, s.hist.log)
    && s.errCh.Valid() && s.errCh.cap == 1
  }

  /** The server reads the first message. */
  lemma ReadMoves(ch: Chan<Bytes>, closed: bool, accepted: seq<Bytes>, read: seq<Bytes>, log: seq<ReadResult>)
    requires ToServer(ch, closed, accepted, read, log) && ch.CanRecv()
    ensures ToServer(ch.Recv(), closed, accepted, read + [ch.buf[0]], log + [SData(ch.buf[0])])
  {
    PushRead(log, SData(ch.buf[0]));
    assert ch.buf == [ch.buf[0]] + ch.buf[1..];
  }

  /** The server is told that the channel is at its end, or that the context is cancelled. */
  lemma ReadLogged(ch: Chan<Bytes>, closed: bool, accepted: seq<Bytes>, read: seq<Bytes>, log: seq<ReadResult>,
                   r: ReadResult)
    requires ToServer(ch, closed, accepted, read, log) && !r.SData? && (r.SEof? ==> ch.Drained())
    ensures ToServer(ch, closed, accepted, read, log + [r])
  {
    PushRead(log, r);
  }

  lemma AcceptMoves(ch: Chan<Bytes>, closed: bool, accepted: seq<Bytes>, read: seq<Bytes>, log: seq<ReadResult>,
                    m: Bytes)
    requires ToServer(ch, closed, accepted, read, log) && ch.CanSend()
    ensures ToServer(ch.Send(m), closed, accepted + [m], read, log)
  {
    assert read + (ch.buf + [m]) == read + ch.buf + [m];
  }

  lemma SendMoves(ch: Chan<Bytes>, sent: seq<Bytes>, taken: seq<Bytes>, log: seq<Result>, m: Bytes)
    requires ToClient(ch, sent, taken, log) && ch.CanSend()
    ensures ToClient(ch.Send(m), sent + [m], taken, log)
  {
    assert taken + (ch.buf + [m]) == taken + ch.buf + [m];
  }

  lemma TakeMoves(ch: Chan<Bytes>, sent: seq<Bytes>, taken: seq<Bytes>, log: seq<Result>)
    requires ToClient(ch, sent, taken, log) && ch.CanRecv()
    ensures ToClient(ch.Recv(), sent, taken + [ch.buf[0]], log + [IData(ch.buf[0])])
  {
    Push(log, IData(ch.buf[0]));
    assert ch.buf == [ch.buf[0]] + ch.buf[1..];
  }

  lemma ErrorLogged(ch: Chan<Bytes>, sent: seq<Bytes>, taken: seq<Bytes>, log: seq<Result>, e: Error)
    requires ToClient(ch, sent, taken, log)
    ensures ToClient(ch, sent, taken, log + [IError(e)])
  {
    Push(log, IError(e));
  }

  /** The deferred closes run in reverse order: the error channel first. */
  predicate CloseOrder(s: Stream) {
    && (s.recvCh.Closed() <==> s.server == Finished)
    && (s.errCh.Closed() <==> s.server == CloseRecvCh || s.server == Finished)
    && (s.outcome == Running <==> s.server == User || s.server == Reading || s.server.Sending?)
    && (s.server.PutError? ==> s.outcome == Failed(s.server.err))
  }

  /** The handler's error is in exactly one place: the channel, the receiver's hand, or stored. */
  predicate ErrorPlace(s: Stream) {
    && |s.errCh.buf| + (if s.receiver.Store? then 1 else 0) + (if s.streamErr.Some? then 1 else 0)
       == (if s.outcome.Failed? && !s.server.PutError? then 1 else 0)
    && (s.errCh.CanRecv() ==> s.outcome == Failed(s.errCh.buf[0]))
    && (s.receiver.Store? ==> s.outcome == Failed(s.receiver.err))
    && (s.streamErr.Some? ==> s.outcome == Failed(s.streamErr.value))
  }

  /** Where the error values in the log can come from, and what follows them. */
  predicate Results(s: Stream) {
    var l := s.hist.log;
    && (s.streamErr.Some? ==> l != [] && l[|l|-1] == IError(s.streamErr.value))
    && (forall i | 0 <= i < |l| && l[i].IError? && l[i].err.Text? :: s.streamErr == Some(l[i].err))
    && (IError(Eof) in l && s.streamErr != Some(Eof) ==>
          s.outcome == Succeeded && s.server == Finished && s.recvCh.buf == [])
    && (IError(ContextError) in l ==> s.cancelled || s.streamErr == Some(ContextError))
    && (s.streamErr.Some? && s.streamErr.value != ContextError ==> Sticks(l, s.streamErr.value))
    && EofIsFinal(l)
    && (s.receiver.SawClosed? ==> s.recvCh.Drained())
    && (s.streamErr.Some? ==> s.receiver == NotReceiving || s.receiver == CheckStored || s.receiver.Received?)
  }

  predicate Inv(s: Stream) {
    Conserved(s) && CloseOrder(s) && ErrorPlace(s) && Results(s)
  }

  /** Reporting an error value moves nothing but the log. */
  lemma ReportKeepsRest(s: Stream, e: Error)
    requires Conserved(s) && CloseOrder(s) && ErrorPlace(s) && !s.receiver.Store?
    ensures var n := Deliver(s, IError(e)); Conserved(n) && CloseOrder(n) && ErrorPlace(n)
  {
    ErrorLogged(s.recvCh, s.hist.sent, s.hist.taken, s.hist.log, e);
  }

  lemma EofKeeps(s: Stream)
    requires Inv(s) && s.streamErr.None? && s.receiver == SawClosed && !s.errCh.CanRecv()
    ensures Inv(Deliver(s, IError(Eof)))
  {
    ReportKeepsRest(s, Eof);
    EofResults(s);
  }

  lemma EofResults(s: Stream)
    requires Results(s) && s.streamErr.None? && s.outcome == Succeeded && s.server == Finished && s.recvCh.buf == []
    ensures Results(Deliver(s, IError(Eof)))
  {
    Push(s.hist.log, IError(Eof));
  }

  lemma ContextErrorKeeps(s: Stream)
    requires Inv(s) && s.streamErr.None? && s.receiver == Wait && s.cancelled
    ensures Inv(Deliver(s, IError(ContextError)))
  {
    ReportKeepsRest(s, ContextError);
    Push(s.hist.log, IError(ContextError));
  }

  lemma TakeDataKeeps(s: Stream)
    requires Inv(s) && s.recvCh.CanRecv() && s.streamErr.None? && !s.receiver.Store?
    ensures Inv(TakeData(s))
  {
    TakeMoves(s.recvCh, s.hist.sent, s.hist.taken, s.hist.log);
    TakeDataResults(s);
  }

  lemma TakeDataResults(s: Stream)
    requires Results(s) && s.recvCh.CanRecv() && s.streamErr.None?
    ensures Results(TakeData(s))
  {
    Push(s.hist.log, IData(s.recvCh.buf[0]));
  }

  lemma StoreKeeps(s: Stream)
    requires Inv(s) && s.receiver.Store?
    ensures Inv(RecvDo(s, Proceed))
  {
    ErrorLogged(s.recvCh, s.hist.sent, s.hist.taken, s.hist.log, s.receiver.err);
    StoreResults(s);
  }

  lemma StoreResults(s: Stream)
    requires Results(s) && s.receiver.Store? && s.streamErr.None? && s.outcome == Failed(s.receiver.err)
    ensures Results(RecvDo(s, Proceed))
  {
    var l, e := s.hist.log, s.receiver.err;
    Push(l, IError(e));
    if e != ContextError {
      assert IError(e) !in l;
      PushSticks(l, e);
    }
  }

  lemma StoredKeeps(s: Stream)
    requires Inv(s) && s.receiver.CheckStored?
    ensures Inv(RecvDo(s, Proceed))
  {
    if s.streamErr.Some? {
      ErrorLogged(s.recvCh, s.hist.sent, s.hist.taken, s.hist.log, s.streamErr.value);
      Push(s.hist.log, IError(s.streamErr.value));
      if s.streamErr.value != ContextError {
        PushSticks(s.hist.log, s.streamErr.value);
      }
    }
  }

  lemma TakeErrorKeeps(s: Stream)
    requires Inv(s) && s.errCh.CanRecv() && (s.receiver.Wait? || s.receiver.SawClosed?)
    ensures Inv(TakeError(s))
  {
  }

  lemma WaitKeeps(s: Stream, c: Choice)
    requires Inv(s) && RecvEnabled(s, c) && s.receiver == Wait
    ensures Inv(RecvDo(s, c))
  {
    if c == OnDone {
      ContextErrorKeeps(s);
    } else if c == OnData && s.recvCh.CanRecv() {
      TakeDataKeeps(s);
    } else if c == OnError && s.errCh.CanRecv() {
      TakeErrorKeeps(s);
    } else {
      assert RecvDo(s, c) == s.(receiver := if c == OnData then SawClosed else Poll);
    }
  }

  lemma RecvKeeps(s: Stream, c: Choice)
    requires Inv(s) && RecvEnabled(s, c)
    ensures Inv(RecvDo(s, c))
  {
    match s.receiver
    case CheckStored => StoredKeeps(s);
    case Store(_) => StoreKeeps(s);
    case Poll => if s.recvCh.CanRecv() { TakeDataKeeps(s); }
    case Wait => WaitKeeps(s, c);
    case SawClosed => if s.errCh.CanRecv() { TakeErrorKeeps(s); } else { EofKeeps(s); }
    case _ =>
  }

  lemma SendingKeeps(s: Stream, c: Choice)
    requires Inv(s) && ServerEnabled(s, c) && s.server.Sending?
    ensures Inv(ServerDo(s, c))
  {
    if c == OnData {
      SendMoves(s.recvCh, s.hist.sent, s.hist.taken, s.hist.log, s.server.msg);
    }
  }

  lemma ReadingConserves(s: Stream, c: Choice)
    requires Conserved(s) && ServerEnabled(s, c) && s.server == Reading
    ensures Conserved(ServerDo(s, c))
  {
    if c == OnDone {
      ReadLogged(s.sendCh, s.closed, s.hist.accepted, s.hist.read, s.hist.readLog, SCancelled);
    } else if s.sendCh.CanRecv() {
      ReadMoves(s.sendCh, s.closed, s.hist.accepted, s.hist.read, s.hist.readLog);
    } else {
      ReadLogged(s.sendCh, s.closed, s.hist.accepted, s.hist.read, s.hist.readLog, SEof);
    }
  }

  lemma ReadingKeeps(s: Stream, c: Choice)
    requires Inv(s) && ServerEnabled(s, c) && s.server == Reading
    ensures Inv(ServerDo(s, c))
  {
    ReadingConserves(s, c);
    var n := ServerDo(s, c);
    assert n.hist.log == s.hist.log && n.recvCh == s.recvCh && n.errCh == s.errCh && n.server == User;
  }

  lemma DeferredKeeps(s: Stream, c: Choice)
    requires Inv(s) && ServerEnabled(s, c) && !s.server.Sending? && s.server != Reading
    ensures Inv(ServerDo(s, c))
  {
    var n := ServerDo(s, c);
    assert n.hist == s.hist && n.sendCh == s.sendCh && n.recvCh.buf == s.recvCh.buf;
  }

  lemma ServerKeeps(s: Stream, c: Choice)
    requires Inv(s) && ServerEnabled(s, c)
    ensures Inv(ServerDo(s, c))
  {
    if s.server.Sending? {
      SendingKeeps(s, c);
    } else if s.server == Reading {
      ReadingKeeps(s, c);
    } else {
      DeferredKeeps(s, c);
    }
  }

  /** What a client send changes, and that nothing else matters to the invariant. */
  lemma SendFrame(s: Stream, t: nat, c: Choice)
    requires t < |s.senders| && SendEnabled(s, s.senders[t], c)
    ensures var n := SendDo(s, t, c);
      && n == s.(senders := n.senders, sendCh := n.sendCh, closed := n.closed, hist := s.hist.(accepted := n.hist.accepted))
      && ((n.sendCh == s.sendCh && n.closed == s.closed && n.hist.accepted == s.hist.accepted)
          || (!s.closed && n.closed && n.sendCh == s.sendCh.Close() && n.hist.accepted == s.hist.accepted)
          || (exists m :: s.sendCh.CanSend() && n.sendCh == s.sendCh.Send(m) && n.closed == s.closed
                          && n.hist.accepted == s.hist.accepted + [m]))
  {
    if s.senders[t].SendSelect? && c == OnData && s.sendCh.CanSend() {
      var m := s.senders[t].msg;
      assert SendDo(s, t, c).sendCh == s.sendCh.Send(m) && SendDo(s, t, c).hist.accepted == s.hist.accepted + [m];
    }
  }

  lemma SendKeeps(s: Stream, t: nat, c: Choice)
    requires Inv(s) && t < |s.senders| && SendEnabled(s, s.senders[t], c)
    ensures Inv(SendDo(s, t, c))
  {
    SendFrame(s, t, c);
    var n := SendDo(s, t, c);
    if n.hist.accepted != s.hist.accepted {
      var m :| s.sendCh.CanSend() && n.sendCh == s.sendCh.Send(m) && n.closed == s.closed
               && n.hist.accepted == s.hist.accepted + [m];
      AcceptMoves(s.sendCh, s.closed, s.hist.accepted, s.hist.read, s.hist.readLog, m);
    }
  }

  /** A step between two calls, or a cancellation. */
  predicate Plain(a: Act) {
    !a.ServerStep? && !a.RecvStep? && !a.SendStep?
  }

  lemma PlainConserves(s: Stream, a: Act)
    requires Conserved(s) && Enabled(s, a) && Plain(a)
    ensures Conserved(Do(s, a))
  {
    var n := Do(s, a);
    assert n.hist == s.hist && n.sendCh == s.sendCh && n.recvCh == s.recvCh && n.errCh == s.errCh && n.closed == s.closed;
  }

  lemma PlainPlaces(s: Stream, a: Act)
    requires CloseOrder(s) && ErrorPlace(s) && Enabled(s, a) && Plain(a)
    ensures CloseOrder(Do(s, a)) && ErrorPlace(Do(s, a))
  {
  }

  lemma PlainResults(s: Stream, a: Act)
    requires Results(s) && CloseOrder(s) && Enabled(s, a) && Plain(a)
    ensures Results(Do(s, a))
  {
    assert Do(s, a).hist == s.hist;
  }

  lemma StepInv(s: Stream, a: Act)
    requires Inv(s) && Enabled(s, a)
    ensures Inv(Do(s, a))
  {
    match a
    case ServerStep(c) => ServerKeeps(s, c);
    case RecvStep(c) => RecvKeeps(s, c);
    case SendStep(t, c) => SendKeeps(s, t, c);
    case _ =>
      PlainConserves(s, a);
      PlainPlaces(s, a);
      PlainResults(s, a);
  }

  lemma {:induction false} ExecInv(s: Stream, acts: seq<Act>)
    requires Inv(s) && Exec(s, acts).Some?
    ensures Inv(Exec(s, acts).value)
    decreases |acts|
  {
    if acts != [] {
      StepInv(s, acts[0]);
      ExecInv(Do(s, acts[0]), acts[1..]);
    }
  }

  lemma InitInv(s: Stream)
    requires Init(s)
    ensures Inv(s)
  {
  }

  // ----- whole runs -----

  predicate Grows(s: Stream, n: Stream) {
    && s.hist.log <= n.hist.log && s.hist.sent <= n.hist.sent
    && (s.outcome != Running ==> n.outcome == s.outcome && n.hist.sent == s.hist.sent)
  }

  lemma RecvGrows(s: Stream, c: Choice)
    requires RecvEnabled(s, c)
    ensures Grows(s, RecvDo(s, c))
  {
  }

  lemma ServerGrows(s: Stream, c: Choice)
    requires CloseOrder(s) && ServerEnabled(s, c)
    ensures Grows(s, ServerDo(s, c))
  {
  }

  lemma StepGrows(s: Stream, a: Act)
    requires CloseOrder(s) && Enabled(s, a)
    ensures Grows(s, Do(s, a))
  {
    match a
    case RecvStep(c) => RecvGrows(s, c);
    case ServerStep(c) => ServerGrows(s, c);
    case SendStep(t, c) => SendFrame(s, t, c);
    case _ => assert Do(s, a).hist == s.hist;
  }

  lemma {:induction false} ExecGrows(s: Stream, acts: seq<Act>)
    requires Inv(s) && Exec(s, acts).Some?
    ensures Grows(s, Exec(s, acts).value)
    decreases |acts|
  {
    if acts != [] {
      StepGrows(s, acts[0]);
      StepInv(s, acts[0]);
      ExecGrows(Do(s, acts[0]), acts[1..]);
    }
  }

  /** The messages received are always a prefix of the messages sent, cancelled or not. */
  lemma ReceivedIsPrefix(s0: Stream, acts: seq<Act>)
    requires Init(s0) && Exec(s0, acts).Some?
    ensures var h := Exec(s0, acts).value.hist;
      Payloads(h.log) <= h.sent && Items(h.readLog) <= h.accepted
  {
    InitInv(s0);
    ExecInv(s0, acts);
  }

  /**
   * What end-of-file is worth: in a run that has reported it, the handler returned nil
   * and everything it sent was received if and only if it did not return io.EOF itself.
   * From then on RecvMsg reports end-of-file, or the context's error after a cancellation.
   */
  lemma CompleteDelivery(s0: Stream, acts: seq<Act>, more: seq<Act>)
    requires Init(s0) && Exec(s0, acts).Some? && Exec(Exec(s0, acts).value, more).Some?
    requires IError(Eof) in Exec(s0, acts).value.hist.log
    ensures var s, n := Exec(s0, acts).value, Exec(Exec(s0, acts).value, more).value;
      && ((s.outcome == Succeeded && Payloads(s.hist.log) == s.hist.sent == n.hist.sent) <==> s.outcome != Failed(Eof))
      && s.hist.log <= n.hist.log
      && (forall i | |s.hist.log| <= i < |n.hist.log| ::
            n.hist.log[i] == IError(Eof) || (n.hist.log[i] == IError(ContextError) && n.cancelled))
  {
    InitInv(s0);
    ExecInv(s0, acts);
    var s := Exec(s0, acts).value;
    ExecGrows(s, more);
    ExecInv(s, more);
    var n := Exec(s, more).value;
    var k :| 0 <= k < |s.hist.log| && s.hist.log[k] == IError(Eof);
    assert n.hist.log[k] == IError(Eof);
    assert n.streamErr.Some? ==> n.streamErr == Some(Eof);
    forall i | |s.hist.log| <= i < |n.hist.log|
      ensures n.hist.log[i] == IError(Eof) || (n.hist.log[i] == IError(ContextError) && n.cancelled)
    {
      assert n.hist.log[i] in n.hist.log;
    }
  }

  /**
   * A failing handler is told from a finished one, unless its error is io.EOF: with any
   * other error RecvMsg never reports end-of-file.  An error of the handler that RecvMsg
   * has reported is all that it reports from then on; the context's error is another
   * matter, as RecvMsg also reports it by itself and then may go on with data.
   */
  lemma FailureLooksLikeEofOnlyIfItIs(s0: Stream, acts: seq<Act>)
    requires Init(s0) && Exec(s0, acts).Some?
    ensures var s := Exec(s0, acts).value;
      && (s.outcome.Failed? && IError(Eof) in s.hist.log ==> s.outcome == Failed(Eof))
      && (forall t | IError(Text(t)) in s.hist.log :: s.outcome == Failed(Text(t)))
      && (s.outcome.Failed? && s.outcome.err != ContextError ==> Sticks(s.hist.log, s.outcome.err))
  {
    InitInv(s0);
    ExecInv(s0, acts);
    var s := Exec(s0, acts).value;
    if s.outcome.Failed? && s.outcome.err != ContextError && s.streamErr.None? {
      assert IError(s.outcome.err) !in s.hist.log;
    }
  }

  /** Whatever the handler's error is: once RecvMsg has stored it, every later result is that error. */
  lemma StoredErrorSticks(s0: Stream, acts: seq<Act>, more: seq<Act>)
    requires Init(s0) && Exec(s0, acts).Some? && Exec(Exec(s0, acts).value, more).Some?
    requires Exec(s0, acts).value.streamErr.Some?
    ensures var s, n := Exec(s0, acts).value, Exec(Exec(s0, acts).value, more).value;
      && s.outcome == Failed(s.streamErr.value) && s.hist.log <= n.hist.log && n.streamErr == s.streamErr
      && forall i | 0 <= i < |n.hist.log| && |s.hist.log| - 1 <= i :: n.hist.log[i] == IError(s.streamErr.value)
  {
    InitInv(s0);
    ExecInv(s0, acts);
    StoredStays(Exec(s0, acts).value, more);
  }

  lemma {:induction false} StoredStays(s: Stream, acts: seq<Act>)
    requires Inv(s) && s.streamErr.Some? && Exec(s, acts).Some?
    ensures var n := Exec(s, acts).value;
      && s.hist.log <= n.hist.log && n.streamErr == s.streamErr
      && forall i | 0 <= i < |n.hist.log| && |s.hist.log| - 1 <= i :: n.hist.log[i] == IError(s.streamErr.value)
    decreases |acts|
  {
    if acts != [] {
      var n := Do(s, acts[0]);
      StoredStep(s, acts[0]);
      StepInv(s, acts[0]);
      StoredStays(n, acts[1..]);
      assert forall i | 0 <= i < |n.hist.log| && |s.hist.log| - 1 <= i :: Exec(s, acts).value.hist.log[i] == n.hist.log[i];
    }
  }

  lemma StoredStep(s: Stream, a: Act)
    requires Inv(s) && s.streamErr.Some? && Enabled(s, a)
    ensures var n := Do(s, a);
      n.streamErr == s.streamErr && (n.hist.log == s.hist.log || n.hist.log == s.hist.log + [IError(s.streamErr.value)])
  {
  }

  /**
   * A RecvMsg that runs by itself once the server goroutine has ended: the next message
   * if one is left, else the handler's error if it failed, else end-of-file - whether or
   * not the context has been cancelled.
   */
  lemma LoneReceive(s0: Stream, pre: seq<Act>, s: Stream) returns (acts: seq<Act>)
    requires Init(s0) && Exec(s0, pre) == Some(s)
    requires s.server == Finished && s.receiver == NotReceiving
    ensures Exec(s, acts).Some?
    ensures Exec(s, acts).value.hist.log == s.hist.log + [
      if s.streamErr.Some? then IError(s.streamErr.value)
      else if |s.hist.taken| < |s.hist.sent| then IData(s.hist.sent[|s.hist.taken|])
      else if s.outcome.Failed? then IError(s.outcome.err)
      else IError(Eof)]
  {
    InitInv(s0);
    ExecInv(s0, pre);
    var n;
    n, acts := Extend(s, s, [], StartRecv);
    n, acts := Extend(s, n, acts, RecvStep(Proceed));
    if s.streamErr.None? {
      n, acts := Extend(s, n, acts, RecvStep(Proceed));
      if s.recvCh.CanRecv() {
        assert s.hist.sent[|s.hist.taken|] == s.recvCh.buf[0];
      } else {
        n, acts := Extend(s, n, acts, RecvStep(Proceed));
        if n.receiver.Store? {
          n, acts := Extend(s, n, acts, RecvStep(Proceed));
        }
      }
    }
  }

  lemma {:induction false} ExecSnoc(s: Stream, acts: seq<Act>, a: Act)
    requires Exec(s, acts).Some? && Enabled(Exec(s, acts).value, a)
    ensures Exec(s, acts + [a]) == Some(Do(Exec(s, acts).value, a))
    decreases |acts|
  {
    if acts == [] {
      assert [a][1..] == [];
    } else {
      ExecSnoc(Do(s, acts[0]), acts[1..], a);
      assert (acts + [a])[1..] == acts[1..] + [a];
    }
  }

  lemma Extend(s0: Stream, s: Stream, acts: seq<Act>, a: Act) returns (n: Stream, acts': seq<Act>)
    requires Exec(s0, acts) == Some(s) && Enabled(s, a)
    ensures n == Do(s, a) && acts' == acts + [a] && Exec(s0, acts') == Some(n)
  {
    ExecSnoc(s0, acts, a);
    n, acts' := Do(s, a), acts + [a];
  }

  /**
   * Which receives can skip data: only one that began before the handler returned.  A
   * RecvMsg that begins later, with no error stored yet, gives data, or else everything
   * that was ever sent has been received - whatever the other goroutines do meanwhile.
   */
  lemma LateReceiveSkipsNothing(s0: Stream, pre: seq<Act>, s: Stream, more: seq<Act>, n: Stream)
    requires Init(s0) && Exec(s0, pre) == Some(s)
    requires s.receiver == NotReceiving && s.outcome != Running && s.streamErr.None?
    requires Exec(Do(s, StartRecv), more) == Some(n) && |n.hist.log| > |s.hist.log|
    ensures n.hist.log[|s.hist.log|].IData? || Payloads(n.hist.log) == n.hist.sent
  {
    InitInv(s0);
    ExecInv(s0, pre);
    StepInv(s, StartRecv);
    ExecInv(Do(s, StartRecv), more);
    LateRun(Do(s, StartRecv), more, |s.hist.log|);
  }

  /** A receive that began with `k` results in the log and after the handler returned. */
  predicate Late(s: Stream, k: nat) {
    && s.outcome != Running && k <= |s.hist.log|
    && if k < |s.hist.log| then s.hist.log[k].IData? || s.recvCh.buf == []
       else
         && s.streamErr.None?
         && (s.receiver == CheckStored || s.receiver == Poll
             || ((s.receiver == Wait || s.receiver == SawClosed || s.receiver.Store?) && s.recvCh.buf == []))
  }

  lemma LateStep(s: Stream, a: Act, k: nat)
    requires CloseOrder(s) && Late(s, k) && Enabled(s, a)
    ensures Late(Do(s, a), k)
  {
    match a
    case SendStep(t, c) => SendFrame(s, t, c);
    case RecvStep(c) => LateRecv(s, c, k);
    case ServerStep(c) => LateServer(s, c, k);
    case _ =>
  }

  lemma LateRecv(s: Stream, c: Choice, k: nat)
    requires Late(s, k) && RecvEnabled(s, c)
    ensures Late(RecvDo(s, c), k)
  {
  }

  /** A server that has returned sends nothing more. */
  lemma LateServer(s: Stream, c: Choice, k: nat)
    requires CloseOrder(s) && Late(s, k) && ServerEnabled(s, c)
    ensures Late(ServerDo(s, c), k)
  {
    var n := ServerDo(s, c);
    assert n.recvCh.buf == s.recvCh.buf && n.hist.log == s.hist.log;
  }

  lemma {:induction false} LateRun(s: Stream, acts: seq<Act>, k: nat)
    requires Inv(s) && Late(s, k) && Exec(s, acts).Some?
    ensures Late(Exec(s, acts).value, k)
    decreases |acts|
  {
    if acts != [] {
      LateStep(s, acts[0], k);
      StepInv(s, acts[0]);
      LateRun(Do(s, acts[0]), acts[1..], k);
    }
  }

  lemma StartsWaiting(s0: Stream) returns (acts: seq<Act>)
    requires Init(s0)
    ensures Exec(s0, acts) == Some(s0.(receiver := Wait))
  {
    var s;
    s, acts := Extend(s0, s0, [], StartRecv);
    s, acts := Extend(s0, s, acts, RecvStep(Proceed));
    s, acts := Extend(s0, s, acts, RecvStep(Proceed));
  }

  lemma SendsWhileWaiting(s0: Stream, acts: seq<Act>, m: Bytes) returns (s: Stream, acts': seq<Act>)
    requires Init(s0) && Exec(s0, acts) == Some(s0.(receiver := Wait))
    ensures Exec(s0, acts') == Some(s)
    ensures s == s0.(receiver := Wait, recvCh := s0.recvCh.Send(m), hist := s0.hist.(sent := [m]))
  {
    s, acts' := Extend(s0, s0.(receiver := Wait), acts, ServerSend(m));
    s, acts' := Extend(s0, s, acts', ServerStep(OnData));
  }

  lemma FailsWhileWaiting(s0: Stream, s: Stream, acts: seq<Act>, e: Error) returns (n: Stream, acts': seq<Act>)
    requires Exec(s0, acts) == Some(s) && s.server == User && s.errCh == MakeChan(1)
    ensures Exec(s0, acts') == Some(n)
    ensures n == s.(server := CloseErrCh, outcome := Failed(e), errCh := s.errCh.Send(e))
  {
    n, acts' := Extend(s0, s, acts, ServerReturn(Some(e)));
    n, acts' := Extend(s0, n, acts', ServerStep(Proceed));
  }

  /**
   * Data is not safe from an error: a receiver that already waits may take the error
   * first, and the message sent before it is then never delivered.  If the error is
   * io.EOF, the client sees a stream that ended properly.
   */
  lemma ErrorOvertakesData(m: Bytes, e: Error) returns (s0: Stream, acts: seq<Act>)
    ensures Init(s0) && Exec(s0, acts).Some?
    ensures var s := Exec(s0, acts).value;
      s.hist.sent == [m] && s.outcome == Failed(e) && s.hist.log == [IError(e)] && s.streamErr == Some(e)
  {
    s0 := Stream(false, MakeChan(16), MakeChan(16), MakeChan(1), false, None, User, Running, NotReceiving, [],
                 History([], [], [], [], [], []));
    var s;
    acts := StartsWaiting(s0);
    s, acts := SendsWhileWaiting(s0, acts, m);
    s, acts := FailsWhileWaiting(s0, s, acts, e);
    s, acts := Extend(s0, s, acts, RecvStep(OnError));
    s, acts := Extend(s0, s, acts, RecvStep(Proceed));
  }

  /** No channel is ever closed twice, and the server reads end-of-file only when it has read all. */
  lemma ChannelsCloseOnce(s0: Stream, acts: seq<Act>)
    requires Init(s0) && Exec(s0, acts).Some?
    ensures var s := Exec(s0, acts).value;
      && s.sendCh.closes == (if s.closed then 1 else 0)
      && s.recvCh.closes == (if s.server == Finished then 1 else 0)
      && s.errCh.closes == (if s.server == CloseRecvCh || s.server == Finished then 1 else 0)
      && (SEof in s.hist.readLog ==> s.closed && Items(s.hist.readLog) == s.hist.accepted)
  {
    InitInv(s0);
    ExecInv(s0, acts);
    ReadEofLogged(Exec(s0, acts).value.hist.readLog);
  }

  lemma {:induction false} ReadEofLogged(l: seq<ReadResult>)
    ensures HasReadEof(l) <==> SEof in l
  {
    if l != [] {
      ReadEofLogged(l[..|l|-1]);
      assert l == l[..|l|-1] + [l[|l|-1]];
    }
  }
}
