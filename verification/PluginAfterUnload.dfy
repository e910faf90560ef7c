/**
 * Handlers after the library is gone: Close waits for the calls of the host, but not for
 * the goroutines that the plugin runs for its streams.
 */
module PluginAfterUnload {
  import opened Basics
  import opened PluginServer
  import opened PluginHost
  import opened PluginSystem
  import opened PluginSafety
  import opened PluginClosing
  import opened PluginDelivery
  import Race = PluginCloseRace
  import Runs = PluginStreamRuns

  // ----- what a handler that is left can do -----

  /** On a stream that is closed for good no channel operation of the handler waits. */
  lemma HandlerNeverWaits(ps: PStream) returns (a: HandlerAct)
    requires Runs.Conserved(ps) && FullyClosed(ps) && ps.pc != HDone
    ensures HandlerEnabled(ps, a)
  {
    match ps.pc
    case HStart => a := HandlerAct.Begin;
    case HInit => a := InitDone;
    case HUser => a := UserPanic("");
    case HSend(_, _) => a := SendDone;
    case HRecv => a := RecvDone;
    case HFail(_) => a := ReportError;
    case HCancel => a := DeferCancel;
    case _ => a := DeferClose;
  }

  /** What the host got from a stream, and what was sent to it. */
  predicate SameForHost(ps: PStream, qs: PStream) {
    qs.hist.recvLog == ps.hist.recvLog && qs.hist.sent == ps.hist.sent && qs.hist.accepted == ps.hist.accepted
  }

  /** The handler can put nothing more on the closed channel. */
  lemma HandlerIsMute(ps: PStream, a: HandlerAct)
    requires ps.recvCh.Closed() && FullyClosed(ps) && HandlerEnabled(ps, a)
    ensures var q := HandlerDo(ps, a); SameForHost(ps, q) && q.recvCh.Closed() && FullyClosed(q)
  {
    match a
    case InitRecv(_) => assert SameForHost(ps, Dequeue(ps)) && Dequeue(ps).recvCh == ps.recvCh;
    case RecvReady => assert SameForHost(ps, Dequeue(ps)) && Dequeue(ps).recvCh == ps.recvCh;
    case _ =>
  }

  predicate AllClosed(s: Sys) {
    forall h | h in s.streams :: FullyClosed(s.streams[h]) && s.streams[h].recvCh.Closed()
  }

  /** After unloading the host's threads do not touch the streams. */
  lemma HostIsOut(s: Sys, t: nat, p: Pick)
    requires Inv(s) && s.unloads == 1 && Enabled(s, Step(t, p))
    ensures StepOf(s, t, p).streams == s.streams && StepOf(s, t, p).unloads == 1
  {
    DrainedHoldsNothing(s, t);
  }

  lemma NothingMoreStep(s: Sys, a: Act, h: nat)
    requires Inv(s) && s.unloads == 1 && AllClosed(s) && h in s.streams && Enabled(s, a)
    ensures var n := Do(s, a); n.unloads == 1 && AllClosed(n) && h in n.streams && SameForHost(s.streams[h], n.streams[h])
  {
    match a
    case Begin(_, _) =>
    case Step(t, p) => HostIsOut(s, t, p);
    case Handler(k, act) => HandlerIsMute(s.streams[k], act);
  }

  lemma {:induction false} NothingMore(s: Sys, more: seq<Act>, h: nat)
    requires Inv(s) && s.unloads == 1 && AllClosed(s) && h in s.streams && Exec(s, more).Some?
    ensures var n := Exec(s, more).value; h in n.streams && SameForHost(s.streams[h], n.streams[h])
    decreases |more|
  {
    if more != [] {
      NothingMoreStep(s, more[0], h);
      StepInv(s, more[0]);
      NothingMore(Do(s, more[0]), more[1..], h);
    }
  }

  /**
   * Once the library is unloaded, every handler that is left is on a cancelled stream and
   * never waits on a channel again, and whatever it does, no host thread gets anything
   * more from it and nothing more is sent to it.
   */
  lemma HandlersLeftAreCutOff(s0: Sys, acts: seq<Act>, more: seq<Act>, h: nat)
    requires Init(s0) && Exec(s0, acts).Some? && Exec(Exec(s0, acts).value, more).Some?
    requires Exec(s0, acts).value.unloads == 1 && h in Exec(s0, acts).value.streams
    ensures var ps := Exec(s0, acts).value.streams[h];
      ps.cancelled && (ps.pc != HDone ==> exists a :: HandlerEnabled(ps, a))
    ensures var s, n := Exec(s0, acts).value, Exec(Exec(s0, acts).value, more).value;
      h in n.streams && SameForHost(s.streams[h], n.streams[h])
  {
    RunInv(s0, acts);
    UnloadLeavesStreamsClosed(s0, acts);
    var s := Exec(s0, acts).value;
    forall k | k in s.streams
      ensures s.streams[k].recvCh.Closed()
    {
      EveryStreamKeepsItsInvariant(s0, acts, k);
    }
    NothingMore(s, more, h);
    EveryStreamKeepsItsInvariant(s0, acts, h);
    if s.streams[h].pc != HDone {
      var a := HandlerNeverWaits(s.streams[h]);
    }
  }

  /**
   * The closes that leave nothing behind: if the data channel of a stream that the host
   * has not closed is closed, its handler is done and has no step left.
   */
  lemma ClosedByHandlerMeansDone(s0: Sys, acts: seq<Act>, h: nat)
    requires Init(s0) && Exec(s0, acts).Some? && h in Exec(s0, acts).value.streams
    requires var ps := Exec(s0, acts).value.streams[h]; ps.registered && ps.recvCh.Closed()
    ensures var ps := Exec(s0, acts).value.streams[h]; ps.pc == HDone && forall a :: !HandlerEnabled(ps, a)
  {
    EveryStreamKeepsItsInvariant(s0, acts, h);
  }

  // ----- a run that leaves one behind -----

  const HOST: Host := Race.SERVING

  const CLOSING: Host := HOST.(closed := true, activeStreams := {})

  const AT_WORK: PStream := NewStream(Bidi).(pc := HUser)

  /** Close by thread 0: the record, the thread, the stream and who is responsible for it. */
  function Closing(host: Host, pc: Thread, ps: PStream, owner: Owner, calls: multiset<nat>): Sys {
    Sys(host, Race.LIB, [pc, Ready, Ready], map[1 := ps], 1, 0, map[1 := owner], calls, false, 0)
  }

  const PICK: Pick := Race.PICK.(stream := 1)

  lemma BeginsClose()
    ensures Race.Reached(Closing(CLOSING, ClsLoop({1}, 4), AT_WORK, Held(0), multiset{}))
  {
    Race.OpensStream();
    var s := Closing(HOST, Ready, AT_WORK, Tracked, multiset{});
    Race.Extend(Race.STREAM_OPEN, Handler(1, HandlerAct.Begin), s);
    var n := Closing(HOST, Starting(ClosePlugin), AT_WORK, Tracked, multiset{});
    Race.Extend(s, Act.Begin(0, ClosePlugin), n);
    CollectsStream(n);
  }

  lemma CollectsStream(n: Sys)
    requires n == Closing(HOST, Starting(ClosePlugin), AT_WORK, Tracked, multiset{}) && Race.Reached(n)
    ensures Race.Reached(Closing(CLOSING, ClsLoop({1}, 4), AT_WORK, Held(0), multiset{}))
  {
    var m := Closing(CLOSING, ClsLoop({1}, 4), AT_WORK, Held(0), multiset{});
    assert NextOwner(n, 0, n.threads[0], PICK) == m.owner;
    Race.Extend(n, Step(0, PICK), m);
  }

  const WHY: Purpose := ForPluginClose({}, 4)

  lemma StartsStreamClose()
    ensures Race.Reached(Closing(CLOSING.(wg := 1), InCall(1, CloseEnter, WHY), AT_WORK, Called(0), multiset{1}))
  {
    BeginsClose();
    var s := Closing(CLOSING, ClsLoop({1}, 4), AT_WORK, Held(0), multiset{});
    var n := Closing(CLOSING.(wg := 1), ClsAdded(1, {}, 4), AT_WORK, Held(0), multiset{});
    assert {1} - {1} == {};
    Race.Extend(s, Step(0, PICK), n);
    CallsClose(n);
  }

  lemma CallsClose(n: Sys)
    requires n == Closing(CLOSING.(wg := 1), ClsAdded(1, {}, 4), AT_WORK, Held(0), multiset{}) && Race.Reached(n)
    ensures Race.Reached(Closing(CLOSING.(wg := 1), InCall(1, CloseEnter, WHY), AT_WORK, Called(0), multiset{1}))
  {
    Race.Extend(n, Step(0, PICK), Closing(CLOSING.(wg := 1), InCall(1, CloseEnter, WHY), AT_WORK, Called(0), multiset{1}));
  }

  lemma CloseStep(at: CallPc, ps: PStream, next: CallPc, qs: PStream)
    requires Race.Reached(Closing(CLOSING.(wg := 1), InCall(1, at, WHY), ps, Called(0), multiset{1}))
    requires !IsReturn(at) && CallEnabled(ps, at, Proceed) && CallDo(ps, at, Proceed) == (qs, next)
    ensures Race.Reached(Closing(CLOSING.(wg := 1), InCall(1, next, WHY), qs, Called(0), multiset{1}))
  {
    var s := Closing(CLOSING.(wg := 1), InCall(1, at, WHY), ps, Called(0), multiset{1});
    assert StreamAt(s, 1) == ps && PutStream(s, 1, qs) == map[1 := qs];
    Race.Extend(s, Step(0, PICK), Closing(CLOSING.(wg := 1), InCall(1, next, WHY), qs, Called(0), multiset{1}));
  }

  const CUT_OFF: PStream := AT_WORK.(registered := false, cancelled := true).CloseSendCh().CloseRecvCh()

  lemma ClosesStream()
    ensures Race.Reached(Closing(CLOSING.(wg := 1), InCall(1, CloseRet, WHY), CUT_OFF, Called(0), multiset{1}))
  {
    StartsStreamClose();
    var p1 := AT_WORK.(registered := false);
    var p2 := p1.(cancelled := true);
    CloseStep(CloseEnter, AT_WORK, CloseCancel, p1);
    CloseStep(CloseCancel, p1, CloseCloseSend, p2);
    CloseStep(CloseCloseSend, p2, CloseCloseRecv, p2.CloseSendCh());
    CloseStep(CloseCloseRecv, p2.CloseSendCh(), CloseRet, CUT_OFF);
  }

  lemma Returns()
    ensures Race.Reached(Closing(CLOSING, ClsLoop({}, 4), CUT_OFF, Called(0), multiset{1}))
  {
    ClosesStream();
    var s := Closing(CLOSING.(wg := 1), InCall(1, CloseRet, WHY), CUT_OFF, Called(0), multiset{1});
    var n := Closing(CLOSING.(wg := 1), ClsAfter({}, 4), CUT_OFF, Called(0), multiset{1});
    assert Runs.RecordReturn(CUT_OFF, CloseRet) == CUT_OFF && PutStream(s, 1, CUT_OFF) == map[1 := CUT_OFF];
    Race.Extend(s, Step(0, PICK), n);
    Releases0(n);
  }

  lemma Releases0(n: Sys)
    requires n == Closing(CLOSING.(wg := 1), ClsAfter({}, 4), CUT_OFF, Called(0), multiset{1}) && Race.Reached(n)
    ensures Race.Reached(Closing(CLOSING, ClsLoop({}, 4), CUT_OFF, Called(0), multiset{1}))
  {
    Race.Extend(n, Step(0, PICK), Closing(CLOSING, ClsLoop({}, 4), CUT_OFF, Called(0), multiset{1}));
  }

  lemma Waits()
    ensures Race.Reached(Closing(CLOSING, ClsWait, CUT_OFF, Called(0), multiset{1}))
  {
    Returns();
    var s := Closing(CLOSING, ClsLoop({}, 4), CUT_OFF, Called(0), multiset{1});
    Race.Extend(s, Step(0, PICK), Closing(CLOSING, ClsWait, CUT_OFF, Called(0), multiset{1}));
  }

  const DRAINED: Sys :=
    Closing(CLOSING, ClsUnload, CUT_OFF, Called(0), multiset{1}).(drained := true)

  lemma Drains()
    ensures Race.Reached(DRAINED)
  {
    Waits();
    Race.Extend(Closing(CLOSING, ClsWait, CUT_OFF, Called(0), multiset{1}), Step(0, PICK), DRAINED);
  }

  const UNLOADED: Sys :=
    DRAINED.(host := CLOSING.(handle := 0), threads := [Ready, Ready, Ready], unloads := 1)

  lemma Unloads()
    ensures Race.Reached(UNLOADED)
  {
    Drains();
    Race.Extend(DRAINED, Step(0, PICK), UNLOADED);
  }

  /** The library is unloaded, and a handler is in the middle of its work. */
  lemma HandlerLeftBehind() returns (s0: Sys, acts: seq<Act>)
    ensures Init(s0) && Exec(s0, acts).Some?
    ensures var s := Exec(s0, acts).value; s.unloads == 1 && 1 in s.streams && s.streams[1].pc == HUser
  {
    Unloads();
    s0, acts :| Init(s0) && Exec(s0, acts) == Some(UNLOADED);
  }
}
