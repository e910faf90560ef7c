/**
 * What the calls on a session hand over, read off the calls themselves: the payloads and
 * texts that reach Dart, the chunks that reach the handler, the trailers, and what each
 * call has done when it returns.
 */
module StreamSessionMessages {
  import opened Basics
  import opened Channels
  import opened StreamSession
  import opened StreamSessionCalls

  /** The operation that thread `t` has begun last. */
  function Begun(acts: seq<Act>, t: nat): Option<Op> {
    if acts == [] then None
    else
      var last := acts[|acts|-1];
      if last.Begin? && last.t == t then Some(last.op) else Begun(acts[..|acts|-1], t)
  }

  /** The control points of an operation. */
  predicate Serves(op: Op, pc: Pc) {
    match op
    case EndStream => pc.EndLock? || pc.EndTrailer? || pc.EndNotify? || pc.EndDone?
    case ErrorStream(e) => pc == ErrLock(e) || pc == ErrNotify(e) || pc.ErrDone?
    case CloseStreamSession => pc == ClsLookup(false) || pc == ClsLock(false)
    case CloseStreamInput => pc.InLookup? || pc.InLock?
    case SignalStreamReady => pc.ReadyLookup? || pc.ReadyLock?
    case SendToStream(m) => pc == ToLookup(m) || pc == ToCheck(m) || pc == ToSelect(m)
    case SendFromStream(m) => pc == FromCheck(m) || pc == FromNotify(m)
    case SetTrailer(_, _) => false
    case ReadData => pc.Reading?
    case ExitHandler => pc == ClsLookup(true) || pc == ClsLock(true) || pc.Gone?
  }

  /** Every thread that is in a call is where its own call can be. */
  predicate Serving(s: Machine, acts: seq<Act>) {
    forall t | 0 <= t < |s.threads| && s.threads[t] != Idle ::
      Begun(acts, t).Some? && Serves(Begun(acts, t).value, s.threads[t])
  }

  lemma BegunSnoc(acts: seq<Act>, a: Act, t: nat)
    ensures Begun(acts + [a], t) == if a.Begin? && a.t == t then Some(a.op) else Begun(acts, t)
  {
    assert (acts + [a])[..|acts|] == acts;
  }

  lemma EntryServes(op: Op)
    ensures EntryPc(op) != Idle ==> Serves(op, EntryPc(op))
  {
  }

  lemma AdvanceServes(x: Session, pc: Pc, c: Choice, op: Op)
    requires StepEnabled(x, pc, c) && Serves(op, pc)
    ensures var next := Advance(x, pc, c).1; next == Idle || Serves(op, next)
  {
  }

  lemma ServingStep(s: Machine, past: seq<Act>, a: Act)
    requires Serving(s, past) && Enabled(s, a)
    ensures Serving(Do(s, a), past + [a])
  {
    forall t | 0 <= t < |s.threads| && Do(s, a).threads[t] != Idle
      ensures Begun(past + [a], t).Some? && Serves(Begun(past + [a], t).value, Do(s, a).threads[t])
    {
      BegunSnoc(past, a, t);
      if a.t == t {
        match a
        case Begin(_, op) => EntryServes(op);
        case Step(_, c) => AdvanceServes(s.session, s.threads[t], c, Begun(past, t).value);
      }
    }
  }

  // ----- what has been handed over, call by call -----

  /** The message of a send, in either direction. */
  function MessageOf(op: Option<Op>): seq<Bytes> {
    if op.None? then []
    else
      match op.value
      case SendFromStream(m) => [m]
      case SendToStream(m) => [m]
      case _ => []
  }

  /** What happened in a run: the state, and the messages of the calls that got past their checks. */
  datatype Story = Story(now: Machine, past: seq<Act>, passed: seq<Bytes>, chunks: seq<Bytes>, trailers: map<string, string>)

  /** A SendFromStream finds the session open. */
  predicate Passes(s: Machine, a: Act) {
    a.Step? && a.t < |s.threads| && s.threads[a.t].FromCheck? && !s.session.closed
  }

  /** A SendToStream puts its chunk on the channel. */
  predicate Delivers(s: Machine, a: Act) {
    a.Step? && a.t < |s.threads| && s.threads[a.t].ToSelect? && a.choice == OnData && s.session.dataCh.CanSend()
  }

  function Next(y: Story, a: Act): Story
    requires Enabled(y.now, a)
  {
    Story(Do(y.now, a), y.past + [a],
          y.passed + (if Passes(y.now, a) then MessageOf(Begun(y.past, a.t)) else []),
          y.chunks + (if Delivers(y.now, a) then MessageOf(Begun(y.past, a.t)) else []),
          if a.Begin? && a.op.SetTrailer? then y.trailers[a.op.key := a.op.value] else y.trailers)
  }

  /** The run told from `y` on. */
  function Tell(y: Story, acts: seq<Act>): Story
    requires Exec(y.now, acts).Some?
    decreases |acts|
  {
    if acts == [] then y else Tell(Next(y, acts[0]), acts[1..])
  }

  function Start(s: Machine): Story {
    Story(s, [], [], [], map[])
  }

  lemma {:induction false} TellEnds(y: Story, acts: seq<Act>)
    requires Exec(y.now, acts).Some?
    ensures Tell(y, acts).now == Exec(y.now, acts).value && Tell(y, acts).past == y.past + acts
    decreases |acts|
  {
    if acts == [] {
      assert y.past + acts == y.past;
    } else {
      TellEnds(Next(y, acts[0]), acts[1..]);
      FirstMoves(y.past, acts);
    }
  }

  lemma FirstMoves(past: seq<Act>, acts: seq<Act>)
    requires acts != []
    ensures past + [acts[0]] + acts[1..] == past + acts
  {
  }

  /** The payloads among the events. */
  function DataOf(events: seq<Event>): seq<Bytes> {
    if events == [] then []
    else DataOf(events[..|events|-1]) + (if events[|events|-1].EvData? then [events[|events|-1].msg] else [])
  }

  /** The message between the check and the callback. */
  function InFlight(pc: Pc): seq<Bytes> {
    if pc.FromNotify? then [pc.msg] else []
  }

  /** With one speaker the payloads are the messages that passed, but for one still in flight. */
  predicate DataMatches(y: Story) {
    y.now.soleEnder && |y.now.threads| > 0 ==>
      if y.now.session.hasCallback then DataOf(y.now.events) + InFlight(y.now.threads[0]) == y.passed
      else y.now.events == []
  }

  predicate Matches(y: Story) {
    && Serving(y.now, y.past) && DataMatches(y)
    && y.now.accepted == y.chunks && y.now.session.trailers == y.trailers
  }

  lemma DataSnoc(events: seq<Event>, e: Event)
    ensures DataOf(events + [e]) == DataOf(events) + (if e.EvData? then [e.msg] else [])
  {
    assert (events + [e])[..|events|] == events;
  }

  /** A step of the speaker moves a message on, or leaves them all where they are. */
  lemma SpeakerMoves(x: Session, pc: Pc, c: Choice, op: Op)
    requires StepEnabled(x, pc, c) && Serves(op, pc) && x.hasCallback
    ensures var next, es := Advance(x, pc, c).1, EventOf(x, pc);
      && |es| <= 1
      && InFlight(pc) + (if pc.FromCheck? && !x.closed then MessageOf(Some(op)) else [])
         == (if es != [] && es[0].EvData? then [es[0].msg] else []) + InFlight(next)
  {
  }

  /** A step of the speaker. */
  lemma SpeakerStep(s: Machine, past: seq<Act>, passed: seq<Bytes>, c: Choice)
    requires Serving(s, past) && Enabled(s, Step(0, c)) && s.session.hasCallback
    requires DataOf(s.events) + InFlight(s.threads[0]) == passed
    ensures var n := Do(s, Step(0, c));
      DataOf(n.events) + InFlight(n.threads[0])
      == passed + (if Passes(s, Step(0, c)) then MessageOf(Begun(past, 0)) else [])
  {
    var es, next := EventOf(s.session, s.threads[0]), Advance(s.session, s.threads[0], c).1;
    SpeakerMoves(s.session, s.threads[0], c, Begun(past, 0).value);
    DataMore(s.events, es);
    Regroup(DataOf(s.events), InFlight(s.threads[0]), es, InFlight(next), passed,
            if Passes(s, Step(0, c)) then MessageOf(Begun(past, 0)) else []);
  }

  lemma DataMore(events: seq<Event>, es: seq<Event>)
    requires |es| <= 1
    ensures DataOf(events + es) == DataOf(events) + (if es != [] && es[0].EvData? then [es[0].msg] else [])
  {
    if es == [] {
      assert events + es == events;
    } else {
      assert es == [es[0]];
      DataSnoc(events, es[0]);
    }
  }

  /** A step of a thread that does not speak. */
  lemma SilentStep(y: Story, t: nat, c: Choice)
    requires Enabled(y.now, Step(t, c)) && t != 0 && y.now.soleEnder && Silent(y.now.threads[t]) && DataMatches(y)
    ensures DataMatches(Next(y, Step(t, c)))
  {
    StepSpeech(y.now.session, y.now.threads[t], c);
    assert y.now.events + [] == y.now.events && y.passed + [] == y.passed;
  }

  lemma DataStep(y: Story, t: nat, c: Choice)
    requires Serving(y.now, y.past) && Spoken(y.now) && DataMatches(y) && Enabled(y.now, Step(t, c))
    ensures DataMatches(Next(y, Step(t, c)))
  {
    if y.now.soleEnder {
      if t != 0 {
        SilentStep(y, t, c);
      } else if y.now.session.hasCallback {
        SpeakerStep(y.now, y.past, y.passed, c);
      } else {
        StepSpeech(y.now.session, y.now.threads[0], c);
        assert y.now.events + [] == y.now.events;
      }
    }
  }

  lemma Regroup(data: seq<Bytes>, before: seq<Bytes>, es: seq<Event>, after: seq<Bytes>, passed: seq<Bytes>, new_: seq<Bytes>)
    requires data + before == passed
    requires before + new_ == (if es != [] && es[0].EvData? then [es[0].msg] else []) + after
    ensures data + (if es != [] && es[0].EvData? then [es[0].msg] else []) + after == passed + new_
  {
    var d := if es != [] && es[0].EvData? then [es[0].msg] else [];
    assert data + d + after == data + (d + after);
    assert data + (before + new_) == data + before + new_;
  }

  lemma ChunksStep(s: Machine, past: seq<Act>, t: nat, c: Choice)
    requires Serving(s, past) && Enabled(s, Step(t, c))
    ensures Do(s, Step(t, c)).accepted ==
      s.accepted + (if Delivers(s, Step(t, c)) then MessageOf(Begun(past, t)) else [])
  {
  }

  lemma TrailersStay(x: Session, pc: Pc, c: Choice)
    requires StepEnabled(x, pc, c)
    ensures Advance(x, pc, c).0.trailers == x.trailers
  {
  }

  lemma BeginMatches(y: Story, t: nat, op: Op)
    requires Matches(y) && Enabled(y.now, Begin(t, op))
    ensures Matches(Next(y, Begin(t, op)))
  {
    ServingStep(y.now, y.past, Begin(t, op));
    assert y.passed + [] == y.passed && y.chunks + [] == y.chunks;
  }

  lemma MatchesStep(y: Story, a: Act)
    requires Matches(y) && Spoken(y.now) && Enabled(y.now, a)
    ensures Matches(Next(y, a))
  {
    match a
    case Begin(t, op) => BeginMatches(y, t, op);
    case Step(t, c) =>
      ServingStep(y.now, y.past, a);
      DataStep(y, t, c);
      ChunksStep(y.now, y.past, t, c);
      TrailersStay(y.now.session, y.now.threads[t], c);
  }

  lemma {:induction false} TellMatches(y: Story, acts: seq<Act>)
    requires Matches(y) && Inv(y.now) && Exec(y.now, acts).Some?
    ensures Matches(Tell(y, acts))
    decreases |acts|
  {
    if acts != [] {
      MatchesStep(y, acts[0]);
      StepInv(y.now, acts[0]);
      TellMatches(Next(y, acts[0]), acts[1..]);
    }
  }

  /** The messages of the SendFromStream calls that found the session open, in the order of their checks. */
  function Passed(s0: Machine, acts: seq<Act>): seq<Bytes>
    requires Exec(s0, acts).Some?
  {
    Tell(Start(s0), acts).passed
  }

  /** The messages of the SendToStream calls that took the channel, in that order. */
  function Chunks(s0: Machine, acts: seq<Act>): seq<Bytes>
    requires Exec(s0, acts).Some?
  {
    Tell(Start(s0), acts).chunks
  }

  /** The trailers that the SetTrailer calls amount to. */
  function TrailersSet(s0: Machine, acts: seq<Act>): map<string, string>
    requires Exec(s0, acts).Some?
  {
    Tell(Start(s0), acts).trailers
  }

  /**
   * In every run with one speaker the payloads that reach Dart are, in order, the
   * messages of the SendFromStream calls that found the session open, but for one whose
   * call is between its check and the callback.
   */
  lemma DataIsWhatWasSent(s0: Machine, acts: seq<Act>, s: Machine)
    requires Init(s0) && Exec(s0, acts) == Some(s) && s.soleEnder
    ensures |s.threads| > 0
    ensures if s.session.hasCallback then DataOf(s.events) + InFlight(s.threads[0]) == Passed(s0, acts) else s.events == []
  {
    InitInv(s0);
    ExecInv(s0, acts);
    TellEnds(Start(s0), acts);
    TellMatches(Start(s0), acts);
  }

  /**
   * In every run: what entered the data channel are the messages of the SendToStream calls
   * that took it, in order; and the trailers are those that SetTrailer was called with.
   */
  lemma ChunksAndTrailersAreTheCalls(s0: Machine, acts: seq<Act>, s: Machine)
    requires Init(s0) && Exec(s0, acts) == Some(s)
    ensures s.accepted == Chunks(s0, acts) && s.session.trailers == TrailersSet(s0, acts)
  {
    InitInv(s0);
    TellEnds(Start(s0), acts);
    TellMatches(Start(s0), acts);
  }

  // ----- what a call has done when it returns -----

  /** What a speaking call sends to Dart if it finds the session open. */
  function Owed(op: Op, x: Session): seq<Event> {
    match op
    case EndStream => (if x.trailers == map[] then [] else [EvTrailer(x.trailers)]) + [EvEnd]
    case ErrorStream(e) => [EvError(e)]
    case SendFromStream(m) => [EvData(m)]
    case _ => []
  }

  /** What a speaking call has still to send. */
  function Remaining(pc: Pc): seq<Event> {
    match pc
    case EndTrailer(pairs) => (if pairs == map[] then [] else [EvTrailer(pairs)]) + [EvEnd]
    case EndNotify => [EvEnd]
    case ErrNotify(e) => [EvError(e)]
    case FromNotify(m) => [EvData(m)]
    case _ => []
  }

  /** Everything owed has been sent since, or will be. */
  predicate Paying(owed: seq<Event>, events: seq<Event>, base: nat, pc: Pc) {
    base <= |events| && forall e | e in owed :: e in events[base..] || e in Remaining(pc)
  }

  /** The thread is past the section in which its call found the session open. */
  predicate Speaking(pc: Pc) {
    Ending(pc) || pc.FromNotify? || pc == Idle
  }

  lemma SpeakerPays(x: Session, pc: Pc, c: Choice)
    requires StepEnabled(x, pc, c) && Speaking(pc) && x.hasCallback
    ensures var next := Advance(x, pc, c).1; Speaking(next) && Remaining(pc) == EventOf(x, pc) + Remaining(next)
  {
  }

  lemma PayingStep(s: Machine, a: Act, t: nat, owed: seq<Event>, base: nat)
    requires Enabled(s, a) && t < |s.threads| && s.session.hasCallback && Speaking(s.threads[t])
    requires a.Begin? ==> a.t != t
    requires Paying(owed, s.events, base, s.threads[t])
    ensures var n := Do(s, a);
      && |n.threads| == |s.threads| && n.session.hasCallback && Speaking(n.threads[t])
      && Paying(owed, n.events, base, n.threads[t])
  {
    if a.Step? {
      var es := EventOf(s.session, s.threads[a.t]);
      assert (s.events + es)[base..] == s.events[base..] + es;
      StepSpeech(s.session, s.threads[a.t], a.choice);
      if a.t == t {
        SpeakerPays(s.session, s.threads[t], a.choice);
      }
    }
  }

  lemma {:induction false} PayingRun(s: Machine, acts: seq<Act>, t: nat, owed: seq<Event>, base: nat)
    requires Exec(s, acts).Some? && OneCall(acts, t)
    requires t < |s.threads| && s.session.hasCallback && Speaking(s.threads[t]) && Paying(owed, s.events, base, s.threads[t])
    ensures var n := Exec(s, acts).value; t < |n.threads| && Paying(owed, n.events, base, n.threads[t])
    decreases |acts|
  {
    if acts != [] {
      PayingStep(s, acts[0], t, owed, base);
      OneCallSuffix(acts, t, 1);
      PayingRun(Do(s, acts[0]), acts[1..], t, owed, base);
    }
  }

  /** The call's first step, and the state in which it is taken. */
  lemma {:induction false} FirstStep(s: Machine, acts: seq<Act>, t: nat) returns (i: nat, m: Machine)
    requires Exec(s, acts).Some? && OneCall(acts, t) && t < |s.threads|
    requires t < |Exec(s, acts).value.threads| && Exec(s, acts).value.threads[t] != s.threads[t]
    ensures i < |acts| && acts[i].Step? && acts[i].t == t
    ensures Exec(s, acts[..i]) == Some(m) && t < |m.threads| && m.threads[t] == s.threads[t]
    ensures m.session.hasCallback == s.session.hasCallback && Enabled(m, acts[i])
    ensures Exec(Do(m, acts[i]), acts[i + 1..]) == Exec(s, acts)
    decreases |acts|
  {
    var n := Do(s, acts[0]);
    assert !(acts[0].Begin? && acts[0].t == t);
    if acts[0].t == t {
      i, m := 0, s;
      assert acts[..0] == [];
    } else {
      OneCallSuffix(acts, t, 1);
      if acts[0].Step? {
        StepSpeech(s.session, s.threads[acts[0].t], acts[0].choice);
      }
      i, m := FirstStep(n, acts[1..], t);
      assert acts[..i + 1][0] == acts[0] && acts[..i + 1][1..] == acts[1..][..i];
      assert acts[1..][i + 1..] == acts[i + 2..];
      i := i + 1;
    }
  }

  /**
   * A whole SendFromStream, EndStream or ErrorStream, in any company, on a session with a
   * callback: if its own section found the session open then when it returns Dart has got
   * what it owes since then - the message, the trailers as they were and END, or its text
   * - and an ending has closed the session.
   */
  lemma ReturnedCallHasSpoken(s: Machine, t: nat, op: Op, more: seq<Act>, n: Machine) returns (i: nat, m: Machine)
    requires Enabled(s, Begin(t, op)) && Speaks(op) && s.session.hasCallback
    requires Exec(Do(s, Begin(t, op)), more) == Some(n) && OneCall(more, t)
    requires t < |n.threads| && n.threads[t] == Idle
    ensures i < |more| && more[i] == Step(t, Proceed) && Exec(Do(s, Begin(t, op)), more[..i]) == Some(m)
    ensures !m.session.closed ==>
      && |m.events| <= |n.events| && (forall e | e in Owed(op, m.session) :: e in n.events[|m.events|..])
  {
    var b := Do(s, Begin(t, op));
    i, m := FirstStep(b, more, t);
    if !m.session.closed {
      OneCallSuffix(more, t, i + 1);
      SpeaksFromHere(m, t, op, more[i + 1..]);
    }
  }

  lemma OneCallSuffix(acts: seq<Act>, t: nat, i: nat)
    requires i <= |acts| && OneCall(acts, t)
    ensures OneCall(acts[i..], t)
  {
    var rest := acts[i..];
    forall k | 0 <= k < |rest| && rest[k].Begin?
      ensures rest[k].t != t
    {
      assert rest[k] == acts[i + k];
    }
  }

  /** The section of the call has found the session open. */
  lemma SpeaksFromHere(m: Machine, t: nat, op: Op, rest: seq<Act>)
    requires t < |m.threads| && Speaks(op) && m.threads[t] == EntryPc(op) && m.session.hasCallback && !m.session.closed
    requires Exec(Do(m, Step(t, Proceed)), rest).Some? && OneCall(rest, t)
    ensures var n := Exec(Do(m, Step(t, Proceed)), rest).value;
      t < |n.threads| && Paying(Owed(op, m.session), n.events, |m.events|, n.threads[t])
  {
    var k := Do(m, Step(t, Proceed));
    assert k.threads[t] == Advance(m.session, m.threads[t], Proceed).1 && k.events == m.events;
    PayingRun(k, rest, t, Owed(op, m.session), |m.events|);
  }

  /** What an operation leaves behind once it has got to `pc`; nothing of it is ever undone. */
  predicate Achieved(op: Op, x: Session, pc: Pc) {
    match op
    case EndStream => pc != EndLock ==> x.closed
    case ErrorStream(e) => pc != ErrLock(e) ==> x.closed
    case CloseStreamSession => pc != ClsLookup(false) ==> !x.registered
    case CloseStreamInput => pc == Idle ==> x.inputClosed || !x.registered
    case SignalStreamReady => pc == Idle ==> x.readyCloses > 0 || !x.registered
    case _ => true
  }

  /** Ended, closed, signalled and unregistered sessions stay so. */
  lemma AdvanceLasts(x: Session, pc: Pc, c: Choice)
    requires StepEnabled(x, pc, c)
    ensures var y := Advance(x, pc, c).0;
      && (x.closed ==> y.closed) && (x.inputClosed ==> y.inputClosed)
      && (x.readyCloses > 0 ==> y.readyCloses > 0) && (!x.registered ==> !y.registered)
  {
  }

  lemma AdvanceAchieves(x: Session, pc: Pc, c: Choice, op: Op)
    requires StepEnabled(x, pc, c) && Serves(op, pc) && Achieved(op, x, pc) && (x.closed ==> x.inputClosed)
    ensures var (y, next) := Advance(x, pc, c); Achieved(op, y, next)
  {
  }

  lemma {:induction false} AchievedRun(s: Machine, acts: seq<Act>, t: nat, op: Op)
    requires Inv(s) && Exec(s, acts).Some? && OneCall(acts, t) && t < |s.threads|
    requires Achieved(op, s.session, s.threads[t]) && (s.threads[t] == Idle || Serves(op, s.threads[t]))
    ensures var n := Exec(s, acts).value; t < |n.threads| && Achieved(op, n.session, n.threads[t])
    decreases |acts|
  {
    if acts != [] {
      AchievedStep(s, acts[0], t, op);
      StepInv(s, acts[0]);
      OneCallSuffix(acts, t, 1);
      AchievedRun(Do(s, acts[0]), acts[1..], t, op);
    }
  }

  lemma AchievedLasts(op: Op, x: Session, y: Session, pc: Pc)
    requires Achieved(op, x, pc)
    requires (x.closed ==> y.closed) && (x.inputClosed ==> y.inputClosed)
    requires (x.readyCloses > 0 ==> y.readyCloses > 0) && (!x.registered ==> !y.registered)
    ensures Achieved(op, y, pc)
  {
  }

  lemma AchievedOwn(s: Machine, t: nat, c: Choice, op: Op)
    requires Flags(s.session) && Enabled(s, Step(t, c)) && Serves(op, s.threads[t])
    requires Achieved(op, s.session, s.threads[t])
    ensures var n := Do(s, Step(t, c));
      Achieved(op, n.session, n.threads[t]) && (n.threads[t] == Idle || Serves(op, n.threads[t]))
  {
    AdvanceServes(s.session, s.threads[t], c, op);
    AdvanceAchieves(s.session, s.threads[t], c, op);
  }

  /** What a step of another thread, or the beginning of its call, leaves of a session. */
  lemma OtherLasts(s: Machine, a: Act, t: nat)
    requires Enabled(s, a) && t < |s.threads| && a.t != t
    ensures var x, n := s.session, Do(s, a);
      && |n.threads| == |s.threads| && n.threads[t] == s.threads[t]
      && (x.closed ==> n.session.closed) && (x.inputClosed ==> n.session.inputClosed)
      && (x.readyCloses > 0 ==> n.session.readyCloses > 0) && (!x.registered ==> !n.session.registered)
  {
    if a.Step? {
      AdvanceLasts(s.session, s.threads[a.t], a.choice);
    }
  }

  lemma AchievedStep(s: Machine, a: Act, t: nat, op: Op)
    requires Flags(s.session) && Enabled(s, a) && t < |s.threads| && (a.Begin? ==> a.t != t)
    requires Achieved(op, s.session, s.threads[t]) && (s.threads[t] == Idle || Serves(op, s.threads[t]))
    ensures var n := Do(s, a);
      && |n.threads| == |s.threads| && Achieved(op, n.session, n.threads[t])
      && (n.threads[t] == Idle || Serves(op, n.threads[t]))
  {
    if a.t == t {
      AchievedOwn(s, t, a.choice, op);
    } else {
      OtherLasts(s, a, t);
      AchievedLasts(op, s.session, Do(s, a).session, s.threads[t]);
    }
  }

  /**
   * Whole calls in any company: when EndStream or ErrorStream returns the session is
   * closed; when CloseStreamInput or SignalStreamReady returns the input is closed or the
   * ready channel is, unless the id is no longer registered; when CloseStreamSession
   * returns it is not.
   */
  lemma ReturnedCallHasEffect(s0: Machine, pre: seq<Act>, s: Machine, t: nat, op: Op, more: seq<Act>, n: Machine)
    requires Init(s0) && Exec(s0, pre) == Some(s) && Enabled(s, Begin(t, op)) && !op.SetTrailer?
    requires Exec(Do(s, Begin(t, op)), more) == Some(n) && OneCall(more, t)
    requires t < |n.threads| && n.threads[t] == Idle
    ensures op.EndStream? || op.ErrorStream? ==> n.session.closed && n.session.inputClosed
    ensures op.CloseStreamSession? ==> !n.session.registered
    ensures op.CloseStreamInput? ==> !n.session.registered || (n.session.inputClosed && n.session.dataCh.Closed())
    ensures op.SignalStreamReady? ==> !n.session.registered || n.session.readyCloses == 1
  {
    InvAfter(s0, pre, Begin(t, op));
    EntryServes(op);
    ExecInv(Do(s, Begin(t, op)), more);
    AchievedRun(Do(s, Begin(t, op)), more, t, op);
  }

  /** A thread that reads: whether it can go on, and what it has read then. */
  lemma ReadingStep(m: Machine, t: nat)
    requires t < |m.threads| && m.threads[t] == Reading && Flags(m.session) && Fifo(m)
    ensures Enabled(m, Step(t, Proceed)) <==> |m.read| < |m.accepted| || m.session.inputClosed
    ensures Enabled(m, Step(t, Proceed)) ==>
      && Do(m, Step(t, Proceed)).threads[t] == Idle
      && Do(m, Step(t, Proceed)).read == if |m.read| < |m.accepted| then m.accepted[..|m.read| + 1] else m.accepted
  {
    if m.session.dataCh.CanRecv() {
      assert m.accepted[..|m.read| + 1] == m.read + [m.session.dataCh.buf[0]];
    } else {
      assert m.accepted == m.read;
    }
  }

  /**
   * The handler's next read, in every run: with a chunk on the channel it gets the first
   * chunk that was accepted and not read; with none it waits, unless the input is closed,
   * and then it is told so.
   */
  lemma ReadGetsNextChunk(s0: Machine, acts: seq<Act>, s: Machine)
    requires Init(s0) && Exec(s0, acts) == Some(s) && Enabled(s, Begin(0, ReadData))
    ensures var m := Do(s, Begin(0, ReadData));
      && (Enabled(m, Step(0, Proceed)) <==> |s.read| < |s.accepted| || s.session.inputClosed)
      && (Enabled(m, Step(0, Proceed)) ==>
            && Do(m, Step(0, Proceed)).threads[0] == Idle
            && Do(m, Step(0, Proceed)).read ==
                 if |s.read| < |s.accepted| then s.accepted[..|s.read| + 1] else s.accepted)
  {
    InvAfter(s0, acts, Begin(0, ReadData));
    ReadingStep(Do(s, Begin(0, ReadData)), 0);
  }
}
