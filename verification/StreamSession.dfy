/**
 * Streaming sessions between Dart and Go (pkg/service/stream_handler.go).
 *
 * `Session` is one session together with its place in the registry; its functions are
 * the mutex sections of the source.  `Machine` interleaves the goroutine that runs the
 * session's handler (thread 0) with any number of other threads calling into it.
 */
module StreamSession {
  import opened Basics
  import opened Channels

  /** A callback to Dart. */
  datatype Event = EvData(msg: Bytes) | EvTrailer(pairs: map<string, string>) | EvEnd | EvError(text: Bytes)

  datatype Session = Session(
    registered: bool, closed: bool, inputClosed: bool,
    dataCh: Chan<Bytes>, doneCloses: nat, readyCloses: nat,
    trailers: map<string, string>, hasCallback: bool)
  {
    /** The part shared by all ways of ending a session: mark it closed and close its input. */
    function MarkClosed(): Session {
      this.(closed := true, inputClosed := true, dataCh := if inputClosed then dataCh else dataCh.Close())
    }

    /** The section of EndStream and ErrorStream; false: the session was closed already. */
    function EndSection(): (Session, bool) {
      if closed then (this, false) else (MarkClosed(), true)
    }

    /** The registry section of CloseStreamSession; false: the id was not registered. */
    function Unregister(): (Session, bool) {
      (this.(registered := false), registered)
    }

    /** The session section of CloseStreamSession. */
    function CloseSection(): Session {
      if closed then this else MarkClosed().(doneCloses := doneCloses + 1)
    }

    /** The section of CloseStreamInput. */
    function CloseInputSection(): Session {
      if closed || inputClosed then this else this.(inputClosed := true, dataCh := dataCh.Close())
    }

    /** The section of SignalStreamReady. */
    function ReadySection(): Session {
      if readyCloses > 0 then this else this.(readyCloses := readyCloses + 1)
    }
  }

  const DATA_CAPACITY: nat := 100

  function NewSession(hasCallback: bool): Session {
    Session(true, false, false, MakeChan(DATA_CAPACITY), 0, 0, map[], hasCallback)
  }

  datatype Op =
    | EndStream
    | ErrorStream(text: Bytes)
    | CloseStreamSession
    | CloseStreamInput
    | SignalStreamReady
    | SendToStream(msg: Bytes)
    | SendFromStream(msg: Bytes)
    | SetTrailer(key: string, value: string)
    | ReadData
    | ExitHandler

  datatype Pc =
    | Idle
    | EndLock
    | EndTrailer(pairs: map<string, string>)
    | EndNotify
    | EndDone
    | ErrLock(text: Bytes)
    | ErrNotify(text: Bytes)
    | ErrDone
    | ClsLookup(exit: bool)
    | ClsLock(exit: bool)
    | InLookup
    | InLock
    | ReadyLookup
    | ReadyLock
    | ToLookup(msg: Bytes)
    | ToCheck(msg: Bytes)
    | ToSelect(msg: Bytes)
    | FromCheck(msg: Bytes)
    | FromNotify(msg: Bytes)
    | Reading
    | Gone

  /**
   * `events` are the callbacks made, oldest first.  History: `accepted` and `read` are
   * what entered and left the data channel; `ender` is the thread that marked the
   * session closed and has not closed its DoneChan yet, `remover` the one that took the
   * id out of the registry and has not entered the session's section yet; `soleEnder`
   * says that so far only thread 0 sent data or ended the stream; `crashed` that a send
   * met a closed channel; `raced` that a trailer was set while EndStream was going through
   * the same map without the lock.
   */
  datatype Machine = Machine(
    session: Session, threads: seq<Pc>, events: seq<Event>,
    accepted: seq<Bytes>, read: seq<Bytes>,
    ender: Option<nat>, remover: Option<nat>, soleEnder: bool, crashed: bool, raced: bool)

  datatype Choice = Proceed | OnData | OnDone

  datatype Act = Begin(t: nat, op: Op) | Step(t: nat, choice: Choice)

  predicate Enabled(s: Machine, a: Act) {
    match a
    case Begin(t, op) => t < |s.threads| && s.threads[t] == Idle && (op.ReadData? || op.ExitHandler? ==> t == 0)
    case Step(t, c) => t < |s.threads| && StepEnabled(s.session, s.threads[t], c)
  }

  predicate StepEnabled(x: Session, pc: Pc, c: Choice) {
    match pc
    case Idle => false
    case Gone => false
    case Reading => c == Proceed && (x.dataCh.CanRecv() || x.dataCh.Drained())
    case ToSelect(_) =>
      (c == OnData && (x.dataCh.CanSend() || x.dataCh.Closed())) || (c == OnDone && x.doneCloses > 0)
    case _ => c == Proceed
  }

  function EntryPc(op: Op): Pc {
    match op
    case EndStream => EndLock
    case ErrorStream(e) => ErrLock(e)
    case CloseStreamSession => ClsLookup(false)
    case CloseStreamInput => InLookup
    case SignalStreamReady => ReadyLookup
    case SendToStream(m) => ToLookup(m)
    case SendFromStream(m) => FromCheck(m)
    case SetTrailer(_, _) => Idle  // one section, performed by Begin
    case ReadData => Reading
    case ExitHandler => ClsLookup(true)
  }

  /** The operations through which the Go side sends events. */
  predicate Speaks(op: Op) {
    op.EndStream? || op.ErrorStream? || op.SendFromStream?
  }

  /** EndStream goes through the trailers after it has let go of the lock. */
  predicate ReadsTrailers(x: Session, pc: Pc) {
    pc.EndTrailer? && pc.pairs != map[] && x.hasCallback
  }

  /** The session and the control point after one step of a thread. */
  function Advance(x: Session, pc: Pc, c: Choice): (Session, Pc)
    requires StepEnabled(x, pc, c)
  {
    match pc
    case EndLock =>
      var (y, ok) := x.EndSection();
      (y, if ok then EndTrailer(x.trailers) else Idle)
    case EndTrailer(_) => (x, EndNotify)
    case EndNotify => (x, EndDone)
    case EndDone => (x.(doneCloses := x.doneCloses + 1), Idle)
    case ErrLock(e) =>
      var (y, ok) := x.EndSection();
      (y, if ok then ErrNotify(e) else Idle)
    case ErrNotify(_) => (x, ErrDone)
    case ErrDone => (x.(doneCloses := x.doneCloses + 1), Idle)
    case ClsLookup(exit) =>
      var (y, found) := x.Unregister();
      (y, if found then ClsLock(exit) else if exit then Gone else Idle)
    case ClsLock(exit) => (x.CloseSection(), if exit then Gone else Idle)
    case InLookup => (x, if x.registered then InLock else Idle)
    case InLock => (x.CloseInputSection(), Idle)
    case ReadyLookup => (x, if x.registered then ReadyLock else Idle)
    case ReadyLock => (x.ReadySection(), Idle)
    case ToLookup(m) => (x, if x.registered then ToCheck(m) else Idle)
    case ToCheck(m) => (x, if x.inputClosed then Idle else ToSelect(m))
    case ToSelect(m) => (if Sends(x, pc, c) then x.(dataCh := x.dataCh.Send(m)) else x, Idle)
    case FromCheck(m) => (x, if x.closed then Idle else FromNotify(m))
    case FromNotify(_) => (x, Idle)
    case Reading => (if x.dataCh.CanRecv() then x.(dataCh := x.dataCh.Recv()) else x, Idle)
    case _ => (x, pc)  // not enabled
  }

  /** The step puts a chunk on the data channel. */
  predicate Sends(x: Session, pc: Pc, c: Choice) {
    pc.ToSelect? && c == OnData && x.dataCh.CanSend()
  }

  /** The step sends on a closed channel; SendToStream does not recover from that. */
  predicate Crashes(x: Session, pc: Pc, c: Choice) {
    pc.ToSelect? && c == OnData && !x.dataCh.CanSend()
  }

  /** The callback that the step makes, if one is registered. */
  function EventOf(x: Session, pc: Pc): seq<Event> {
    if !x.hasCallback then []
    else
      match pc
      case EndTrailer(pairs) => if pairs == map[] then [] else [EvTrailer(pairs)]
      case EndNotify => [EvEnd]
      case ErrNotify(e) => [EvError(e)]
      case FromNotify(m) => [EvData(m)]
      case _ => []
  }

  /** Who is ending the session after thread `t` moved from `pc` to `pc'`. */
  function NextEnder(ender: Option<nat>, t: nat, pc: Pc, pc': Pc): Option<nat> {
    if Ending(pc) == Ending(pc') then ender else if Ending(pc') then Some(t) else None
  }

  function NextRemover(remover: Option<nat>, t: nat, pc: Pc, pc': Pc): Option<nat> {
    if pc.ClsLock? == pc'.ClsLock? then remover else if pc'.ClsLock? then Some(t) else None
  }

  function StepOf(s: Machine, t: nat, c: Choice): Machine
    requires t < |s.threads| && StepEnabled(s.session, s.threads[t], c)
  {
    var x, pc := s.session, s.threads[t];
    var (y, pc') := Advance(x, pc, c);
    Machine(y, s.threads[t := pc'], s.events + EventOf(x, pc),
            s.accepted + (if Sends(x, pc, c) then [pc.msg] else []),
            s.read + (if pc == Reading && x.dataCh.CanRecv() then [x.dataCh.buf[0]] else []),
            NextEnder(s.ender, t, pc, pc'), NextRemover(s.remover, t, pc, pc'),
            s.soleEnder, s.crashed || Crashes(x, pc, c), s.raced)
  }

  function Do(s: Machine, a: Act): Machine
    requires Enabled(s, a)
  {
    match a
    case Begin(t, op) =>
      var trailers := if op.SetTrailer? then s.session.trailers[op.key := op.value] else s.session.trailers;
      s.(session := s.session.(trailers := trailers), threads := s.threads[t := EntryPc(op)],
         soleEnder := s.soleEnder && (Speaks(op) ==> t == 0),
         raced := s.raced || (op.SetTrailer? && exists u :: 0 <= u < |s.threads| && ReadsTrailers(s.session, s.threads[u])))
    case Step(t, c) => StepOf(s, t, c)
  }

  function Exec(s: Machine, acts: seq<Act>): Option<Machine>
    decreases |acts|
  {
    if acts == [] then Some(s)
    else if Enabled(s, acts[0]) then Exec(Do(s, acts[0]), acts[1..])
    else None
  }

  /** A session just created by Start*Stream. */
  predicate Init(s: Machine) {
    && s.session == NewSession(s.session.hasCallback) && |s.threads| > 0
    && (forall t | 0 <= t < |s.threads| :: s.threads[t] == Idle)
    && s.events == [] && s.accepted == [] && s.read == []
    && s.ender.None? && s.remover.None? && s.soleEnder && !s.crashed && !s.raced
  }

  // ----- who closes what -----

  /** Between marking the session closed and closing its DoneChan. */
  predicate Ending(pc: Pc) {
    pc.EndTrailer? || pc.EndNotify? || pc.EndDone? || pc.ErrNotify? || pc.ErrDone?
  }

  predicate Flags(x: Session) {
    && x.dataCh.cap == DATA_CAPACITY && x.dataCh.Valid()
    && x.inputClosed == x.dataCh.Closed()
    && (x.closed ==> x.inputClosed)
    && x.readyCloses <= 1 && x.doneCloses <= 1
  }

  predicate Closers(s: Machine) {
    && (forall t | 0 <= t < |s.threads| :: Ending(s.threads[t]) <==> s.ender == Some(t))
    && (forall t | 0 <= t < |s.threads| :: s.threads[t].ClsLock? <==> s.remover == Some(t))
    && (s.ender.Some? ==> s.ender.value < |s.threads|) && (s.remover.Some? ==> s.remover.value < |s.threads|)
    && s.session.doneCloses + (if s.ender.Some? then 1 else 0) == (if s.session.closed then 1 else 0)
    && (s.remover.Some? ==> !s.session.registered)
    && (!s.session.registered && s.remover.None? ==> s.session.closed)
    && |s.threads| > 0 && (s.threads[0] == Gone ==> !s.session.registered)
  }

  /** Chunks reach the handler in the order they were sent. */
  predicate Fifo(s: Machine) {
    s.accepted == s.read + s.session.dataCh.buf
  }

  lemma FlagsKept(x: Session, pc: Pc, c: Choice)
    requires Flags(x) && StepEnabled(x, pc, c) && (pc.EndDone? || pc.ErrDone? ==> x.doneCloses == 0)
    requires x.closed || x.doneCloses == 0
    ensures Flags(Advance(x, pc, c).0)
  {
  }

  lemma FifoSend(b: seq<Bytes>, read: seq<Bytes>, m: Bytes)
    ensures read + (b + [m]) == read + b + [m]
  {
  }

  lemma FifoRead(b: seq<Bytes>, read: seq<Bytes>)
    requires b != []
    ensures read + b == read + [b[0]] + b[1..]
  {
    assert b == [b[0]] + b[1..];
  }

  lemma BufferMoves(x: Session, pc: Pc, c: Choice)
    requires StepEnabled(x, pc, c)
    ensures Advance(x, pc, c).0.dataCh.buf ==
      if Sends(x, pc, c) then x.dataCh.buf + [pc.msg]
      else if pc == Reading && x.dataCh.CanRecv() then x.dataCh.buf[1..]
      else x.dataCh.buf
  {
  }

  lemma FifoKept(s: Machine, t: nat, c: Choice)
    requires Fifo(s) && t < |s.threads| && StepEnabled(s.session, s.threads[t], c)
    ensures Fifo(StepOf(s, t, c))
  {
    var x, pc, b := s.session, s.threads[t], s.session.dataCh.buf;
    BufferMoves(x, pc, c);
    if Sends(x, pc, c) {
      FifoSend(b, s.read, pc.msg);
    } else if pc == Reading && x.dataCh.CanRecv() {
      FifoRead(b, s.read);
    }
  }

  /** What one step does to the flags that say who closes what. */
  lemma StepEffect(x: Session, pc: Pc, c: Choice)
    requires StepEnabled(x, pc, c)
    ensures var (y, pc') := Advance(x, pc, c);
      && (Ending(pc') && !Ending(pc) ==> !x.closed)
      && (pc'.ClsLock? ==> x.registered && !pc.ClsLock?)
      && y.registered == (x.registered && !pc.ClsLookup?)
      && (pc.ClsLookup? && x.registered ==> pc'.ClsLock?)
      && y.closed == (x.closed || pc.ClsLock? || (Ending(pc') && !Ending(pc)))
      && y.doneCloses == x.doneCloses + (if (Ending(pc) && !Ending(pc')) || (pc.ClsLock? && !x.closed) then 1 else 0)
      && (pc'.Gone? ==> pc.ClsLookup? || pc.ClsLock? || pc.Gone?)
  {
  }

  lemma ClosersKept(s: Machine, t: nat, c: Choice)
    requires Closers(s) && t < |s.threads| && StepEnabled(s.session, s.threads[t], c)
    ensures Closers(StepOf(s, t, c))
  {
    StepEffect(s.session, s.threads[t], c);
  }

  // ----- the order of events -----

  /** How far a list of events has come: data only, trailers sent, ended, or out of order. */
  datatype Phase = DataPhase | TrailerPhase | EndedPhase | Disordered

  function NextPhase(p: Phase, e: Event): Phase {
    match e
    case EvData(_) => if p == DataPhase then DataPhase else Disordered
    case EvTrailer(_) => if p == DataPhase then TrailerPhase else Disordered
    case EvEnd => if p == DataPhase || p == TrailerPhase then EndedPhase else Disordered
    case EvError(_) => if p == DataPhase then EndedPhase else Disordered
  }

  function PhaseOf(events: seq<Event>): Phase {
    if events == [] then DataPhase else NextPhase(PhaseOf(events[..|events|-1]), events[|events|-1])
  }

  lemma PhaseSnoc(events: seq<Event>, e: Event)
    ensures PhaseOf(events + [e]) == NextPhase(PhaseOf(events), e)
  {
    assert (events + [e])[..|events|] == events;
  }

  /** `d` data events, followed by nothing, or (TRAILER? END), or ERROR. */
  predicate Split(events: seq<Event>, d: nat) {
    && d <= |events| && (forall i | 0 <= i < d :: events[i].EvData?)
    && var rest := events[d..];
       || rest == []
       || (|rest| == 1 && !rest[0].EvData?)
       || (|rest| == 2 && rest[0].EvTrailer? && rest[1].EvEnd?)
  }

  /** The phase computed event by event is not `Disordered` exactly when the list splits. */
  lemma {:induction false} PhaseMeansSplit(events: seq<Event>)
    ensures PhaseOf(events) != Disordered <==> exists d :: Split(events, d)
  {
    if PhaseOf(events) != Disordered {
      var d := SplitPoint(events);
    } else {
      forall d | Split(events, d)
        ensures false
      {
        SplitPhase(events, d);
      }
    }
  }

  lemma {:induction false} SplitPoint(events: seq<Event>) returns (d: nat)
    requires PhaseOf(events) != Disordered
    ensures Split(events, d)
    ensures PhaseOf(events) == DataPhase ==> d == |events|
    ensures PhaseOf(events) == TrailerPhase ==> d + 1 == |events| && events[d].EvTrailer?
  {
    d := 0;
    if events != [] {
      var front, last := events[..|events|-1], events[|events|-1];
      d := SplitPoint(front);
      if last.EvData? {
        d := |events|;
      }
      assert forall i | 0 <= i < |front| :: events[i] == front[i];
    }
  }

  lemma {:induction false} SplitPhase(events: seq<Event>, d: nat)
    requires Split(events, d)
    ensures PhaseOf(events) != Disordered
    ensures d == |events| ==> PhaseOf(events) == DataPhase
    ensures d + 1 == |events| && events[d].EvTrailer? ==> PhaseOf(events) == TrailerPhase
  {
    if events != [] {
      var front := events[..|events|-1];
      assert forall i | 0 <= i < |front| :: events[i] == front[i];
      if d == |events| {
        SplitPhase(front, |front|);
      } else {
        assert front[d..] == events[d..][..|events|-d-1];
        SplitPhase(front, d);
      }
    }
  }

  /** What the handler thread's position says about the events made so far. */
  predicate Spoken(s: Machine) {
    && (s.soleEnder ==> forall t | 1 <= t < |s.threads| :: Silent(s.threads[t]))
    && (s.soleEnder && |s.threads| > 0 ==> HandlerPhase(s.session, s.threads[0], PhaseOf(s.events)))
  }

  /** The thread makes no callback. */
  predicate Silent(pc: Pc) {
    !Ending(pc) && !pc.EndLock? && !pc.ErrLock? && !pc.FromCheck? && !pc.FromNotify?
  }

  predicate HandlerPhase(x: Session, pc: Pc, p: Phase) {
    (p != DataPhase ==> x.hasCallback) &&
    match pc
    case EndTrailer(_) => x.closed && p == DataPhase
    case EndNotify => x.closed && (p == DataPhase || p == TrailerPhase)
    case ErrNotify(_) => x.closed && p == DataPhase
    case FromNotify(_) => p == DataPhase
    case _ => p == DataPhase || (p == EndedPhase && x.closed)
  }

  lemma SpokenKept(s: Machine, t: nat, c: Choice)
    requires Spoken(s) && t < |s.threads| && StepEnabled(s.session, s.threads[t], c)
    ensures Spoken(StepOf(s, t, c))
  {
    var x, pc, es := s.session, s.threads[t], EventOf(s.session, s.threads[t]);
    StepSpeech(x, pc, c);
    if es == [] {
      assert s.events + es == s.events;
    } else {
      assert es == [es[0]];
      PhaseSnoc(s.events, es[0]);
    }
    if s.soleEnder && t == 0 {
      PhaseMoves(x, pc, c, PhaseOf(s.events));
    }
  }

  /** A silent thread makes no event and stays silent; a closed session stays closed. */
  lemma StepSpeech(x: Session, pc: Pc, c: Choice)
    requires StepEnabled(x, pc, c)
    ensures var (y, pc') := Advance(x, pc, c);
      && (Silent(pc) ==> EventOf(x, pc) == [] && Silent(pc'))
      && (x.closed ==> y.closed) && y.hasCallback == x.hasCallback && |EventOf(x, pc)| <= 1
  {
  }

  /** The handler's thread leaves the events in the phase that its next position wants. */
  lemma PhaseMoves(x: Session, pc: Pc, c: Choice, p: Phase)
    requires StepEnabled(x, pc, c) && HandlerPhase(x, pc, p)
    ensures var (y, pc') := Advance(x, pc, c);
      HandlerPhase(y, pc', if EventOf(x, pc) == [] then p else NextPhase(p, EventOf(x, pc)[0]))
  {
  }

  // ----- every run -----

  predicate Inv(s: Machine) {
    && Flags(s.session) && Closers(s) && Fifo(s) && Spoken(s)
    && (s.crashed ==> s.session.inputClosed)
  }

  lemma InitInv(s: Machine)
    requires Init(s)
    ensures Inv(s)
  {
  }

  lemma CrashOnlyAfterClose(x: Session, pc: Pc, c: Choice)
    requires Flags(x) && StepEnabled(x, pc, c)
    ensures Crashes(x, pc, c) <==> pc.ToSelect? && c == OnData && x.inputClosed
    ensures x.inputClosed ==> Advance(x, pc, c).0.inputClosed
  {
  }

  lemma StepInv(s: Machine, a: Act)
    requires Inv(s) && Enabled(s, a)
    ensures Inv(Do(s, a))
  {
    match a
    case Begin(t, op) =>
    case Step(t, c) =>
      FlagsKept(s.session, s.threads[t], c);
      ClosersKept(s, t, c);
      FifoKept(s, t, c);
      SpokenKept(s, t, c);
      CrashOnlyAfterClose(s.session, s.threads[t], c);
  }

  lemma {:induction false} ExecInv(s: Machine, acts: seq<Act>)
    requires Inv(s) && Exec(s, acts).Some?
    ensures Inv(Exec(s, acts).value)
    decreases |acts|
  {
    if acts != [] {
      StepInv(s, acts[0]);
      ExecInv(Do(s, acts[0]), acts[1..]);
    }
  }

  /**
   * Whatever threads do, each channel of the session is closed at most once; the data
   * channel is closed exactly when the input is marked closed, which a closed session
   * implies; and the handler reads a prefix of the chunks sent, in order.
   */
  lemma ChannelsCloseOnce(s0: Machine, acts: seq<Act>)
    requires Init(s0) && Exec(s0, acts).Some?
    ensures var s := Exec(s0, acts).value;
      && s.session.doneCloses <= 1 && s.session.readyCloses <= 1
      && s.session.dataCh.closes == (if s.session.inputClosed then 1 else 0)
      && (s.session.closed ==> s.session.inputClosed)
      && s.read <= s.accepted
  {
    InitInv(s0);
    ExecInv(s0, acts);
  }

  /**
   * When the handler's goroutine is gone the id is out of the registry, and unless some
   * other thread is in the middle of ending or closing this session, the session is
   * closed and so are its data and done channels.
   */
  lemma HandlerExitClosesSession(s0: Machine, acts: seq<Act>)
    requires Init(s0) && Exec(s0, acts).Some?
    requires var s := Exec(s0, acts).value; s.threads != [] && s.threads[0] == Gone
    ensures var s := Exec(s0, acts).value;
      && !s.session.registered
      && ((forall t | 1 <= t < |s.threads| :: !Ending(s.threads[t]) && !s.threads[t].ClsLock?) ==>
            s.session.closed && s.session.doneCloses == 1 && s.session.dataCh.closes == 1)
  {
    InitInv(s0);
    ExecInv(s0, acts);
  }

  /** The handler's thread alone speaks: data, then at most one ending, in the protocol's order. */
  lemma EventsWellOrdered(s0: Machine, acts: seq<Act>)
    requires Init(s0) && Exec(s0, acts).Some? && Exec(s0, acts).value.soleEnder
    ensures exists d :: Split(Exec(s0, acts).value.events, d)
  {
    InitInv(s0);
    ExecInv(s0, acts);
    PhaseMeansSplit(Exec(s0, acts).value.events);
  }

  /** `soleEnder` is what it claims: no other thread was ever told to speak. */
  lemma {:induction false} SoleEnderMeaning(s: Machine, acts: seq<Act>)
    requires Exec(s, acts).Some?
    ensures Exec(s, acts).value.soleEnder <==>
      s.soleEnder && forall i | 0 <= i < |acts| && acts[i].Begin? && Speaks(acts[i].op) :: acts[i].t == 0
    decreases |acts|
  {
    if acts != [] {
      SoleEnderMeaning(Do(s, acts[0]), acts[1..]);
      assert forall i | 0 < i < |acts| :: acts[i] == acts[1..][i-1];
    }
  }

  /** It can happen: one thread sends while another closes the input. */
  lemma SendCanCrash(m: Bytes) returns (s0: Machine, acts: seq<Act>)
    ensures Init(s0) && Exec(s0, acts).Some? && Exec(s0, acts).value.crashed
  {
    s0 := Machine(NewSession(true), [Idle, Idle, Idle], [], [], [], None, None, true, false, false);
    var s;
    acts := SenderChecks(s0, m);
    s, acts := Extend(s0, s0.(threads := [Idle, ToSelect(m), Idle]), acts, Begin(2, CloseStreamInput));
    s, acts := Extend(s0, s, acts, Step(2, Proceed));
    s, acts := Extend(s0, s, acts, Step(2, Proceed));
    s, acts := Extend(s0, s, acts, Step(1, OnData));
  }

  lemma SenderFindsSession(s0: Machine, m: Bytes) returns (acts: seq<Act>)
    requires Init(s0) && s0.threads == [Idle, Idle, Idle]
    ensures Exec(s0, acts) == Some(s0.(threads := [Idle, ToCheck(m), Idle]))
  {
    var s;
    s, acts := Extend(s0, s0, [], Begin(1, SendToStream(m)));
    s, acts := Extend(s0, s, acts, Step(1, Proceed));
    assert s.threads == [Idle, ToCheck(m), Idle];
  }

  lemma SenderChecks(s0: Machine, m: Bytes) returns (acts: seq<Act>)
    requires Init(s0) && s0.threads == [Idle, Idle, Idle]
    ensures Exec(s0, acts) == Some(s0.(threads := [Idle, ToSelect(m), Idle]))
  {
    var s;
    acts := SenderFindsSession(s0, m);
    s, acts := Extend(s0, s0.(threads := [Idle, ToCheck(m), Idle]), acts, Step(1, Proceed));
    assert s.threads == [Idle, ToSelect(m), Idle];
  }

  lemma {:induction false} ExecSnoc(s: Machine, acts: seq<Act>, a: Act)
    requires Exec(s, acts).Some? && Enabled(Exec(s, acts).value, a)
    ensures Exec(s, acts + [a]) == Some(Do(Exec(s, acts).value, a))
    decreases |acts|
  {
    if acts == [] {
      assert [a][1..] == [];
    } else {
      ExecSnoc(Do(s, acts[0]), acts[1..], a);
      assert (acts + [a])[1..] == acts[1..] + [a];
    }
  }

  lemma Extend(s0: Machine, s: Machine, acts: seq<Act>, a: Act) returns (n: Machine, acts': seq<Act>)
    requires Exec(s0, acts) == Some(s) && Enabled(s, a)
    ensures n == Do(s, a) && acts' == acts + [a] && Exec(s0, acts') == Some(n)
  {
    ExecSnoc(s0, acts, a);
    n, acts' := Do(s, a), acts + [a];
  }

  // ----- the source's form -----

  /** The record of one session; each method is one mutex section, EndStream's and ErrorStream's tail excepted. */
  class SessionRecord {
    var registered: bool
    var closed: bool
    var inputClosed: bool
    var dataCh: Chan<Bytes>
    var doneCloses: nat
    var readyCloses: nat
    var trailers: map<string, string>
    const hasCallback: bool

    ghost function State(): Session
      reads this
    {
      Session(registered, closed, inputClosed, dataCh, doneCloses, readyCloses, trailers, hasCallback)
    }

    constructor (hasCallback: bool)
      ensures State() == NewSession(hasCallback)
    {
      registered, closed, inputClosed := true, false, false;
      dataCh, doneCloses, readyCloses, trailers := MakeChan(DATA_CAPACITY), 0, 0, map[];
      this.hasCallback := hasCallback;
    }

    method EndSection() returns (ok: bool)
      modifies this
      ensures (State(), ok) == old(State()).EndSection()
      ensures ok == !old(closed) && closed && registered == old(registered)
      ensures ok ==> inputClosed && dataCh == if old(inputClosed) then old(dataCh) else old(dataCh).Close()
      ensures !ok ==> inputClosed == old(inputClosed) && dataCh == old(dataCh)
      ensures doneCloses == old(doneCloses) && readyCloses == old(readyCloses) && trailers == old(trailers)
    {
      if closed {
        return false;
      }
      closed := true;
      if !inputClosed {
        inputClosed := true;
        dataCh := dataCh.Close();
      }
      return true;
    }

    method CloseSection()
      modifies this
      ensures State() == old(State()).CloseSection()
      ensures closed && doneCloses == old(doneCloses) + (if old(closed) then 0 else 1)
      ensures inputClosed == (old(inputClosed) || !old(closed))
      ensures dataCh == if old(closed) || old(inputClosed) then old(dataCh) else old(dataCh).Close()
      ensures registered == old(registered) && readyCloses == old(readyCloses) && trailers == old(trailers)
    {
      if !closed {
        closed := true;
        doneCloses := doneCloses + 1;
        if !inputClosed {
          inputClosed := true;
          dataCh := dataCh.Close();
        }
      }
    }

    method CloseInput()
      modifies this
      ensures State() == old(State()).CloseInputSection()
      ensures inputClosed == (old(inputClosed) || !old(closed)) && closed == old(closed)
      ensures dataCh == if old(closed) || old(inputClosed) then old(dataCh) else old(dataCh).Close()
    {
      if !closed && !inputClosed {
        inputClosed := true;
        dataCh := dataCh.Close();
      }
    }

    method SignalReady()
      modifies this
      ensures State() == old(State()).ReadySection()
      ensures readyCloses == if old(readyCloses) > 0 then old(readyCloses) else 1
    {
      if readyCloses == 0 {
        readyCloses := 1;
      }
    }

    /** CloseStreamSession without interference between its two sections. */
    method CloseStreamSession()
      modifies this
      ensures State() == if old(registered) then old(State()).Unregister().0.CloseSection() else old(State())
      ensures !registered && closed == (old(closed) || old(registered))
      ensures doneCloses == old(doneCloses) + (if old(registered) && !old(closed) then 1 else 0)
      ensures dataCh == if old(registered) && !old(closed) && !old(inputClosed) then old(dataCh).Close() else old(dataCh)
    {
      var found := registered;
      registered := false;
      if found {
        CloseSection();
      }
    }
  }
}
