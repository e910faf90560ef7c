/**
 * A run that shows the limit of "after Close's loop no call is blocked": Close already
 * waits while a StreamRecv still hangs, because a concurrent StreamClose took the handle
 * out of the record before Close looked, and has not reached the library yet.
 */
module PluginCloseRace {
  import opened Basics
  import opened PluginServer
  import opened PluginHost
  import opened PluginSystem
  import opened PluginSafety
  import opened PluginClosing

  lemma {:induction false} ExecSnoc(s: Sys, acts: seq<Act>, a: Act)
    requires Exec(s, acts).Some? && Enabled(Exec(s, acts).value, a)
    ensures Exec(s, acts + [a]) == Some(Do(Exec(s, acts).value, a))
    decreases |acts|
  {
    if acts == [] {
      assert [a][1..] == [] && [] + [a] == [a];
    } else {
      ExecSnoc(Do(s, acts[0]), acts[1..], a);
      assert (acts + [a])[1..] == acts[1..] + [a];
    }
  }

  /** The state `s` is reached from a plugin just loaded. */
  ghost predicate Reached(s: Sys) {
    exists s0, acts :: Init(s0) && Exec(s0, acts) == Some(s)
  }

  lemma Extend(s: Sys, a: Act, n: Sys)
    requires Reached(s) && Enabled(s, a) && n == Do(s, a)
    ensures Reached(n)
  {
    var s0, acts :| Init(s0) && Exec(s0, acts) == Some(s);
    ExecSnoc(s0, acts, a);
  }

  const FUNCS: StreamFuncs := StreamFuncs(1, 2, 3, 4)

  /** A receive, called through the library's function for it. */
  const RECEIVING: Purpose := ForOp(OpRecv, 2)

  const PICK: Pick := Pick(Proceed, Bidi, true, 0)

  /** `s` with the record and one thread moved. */
  function Moved(s: Sys, host: Host, threads: seq<Thread>): Sys {
    s.(host := host, threads := threads)
  }

  lemma BeginCall(s: Sys, t: nat, req: Request, ts: seq<Thread>)
    requires Reached(s) && t < |s.threads| && s.threads[t].Ready? && ts == s.threads[t := Starting(req)]
    ensures Reached(Moved(s, s.host, ts))
  {
    Extend(s, Act.Begin(t, req), Moved(s, s.host, ts));
  }

  /** A step outside the library that concerns no stream. */
  lemma QuietStep(s: Sys, t: nat, host: Host, ts: seq<Thread>)
    requires Reached(s) && t < |s.threads| == |ts| && StepEnabled(s, s.threads[t], PICK) && ts == s.threads[t := ts[t]]
    requires var at := s.threads[t];
      && OwnershipQuiet(at, PICK) && !at.InCall? && !at.ClsWait? && !at.ClsUnload? && !(at.OpHeld? && at.op.OpSend?)
      && Advance(s.host, s.lib, at, PICK, s.counter + 1, s.calls, CallPc.Idle) == (host, ts[t])
    ensures Reached(Moved(s, host, ts))
  {
    Extend(s, Step(t, PICK), Moved(s, host, ts));
  }

  /** A step inside the library that leaves the stream as it is. */
  lemma CallStep(s: Sys, t: nat, h: nat, at: CallPc, next: CallPc, ts: seq<Thread>)
    requires Reached(s) && t < |s.threads| && s.threads[t] == InCall(h, at, RECEIVING) && h in s.streams
    requires !IsReturn(at) && CallEnabled(s.streams[h], at, Proceed)
    requires CallDo(s.streams[h], at, Proceed) == (s.streams[h], next) && ts == s.threads[t := InCall(h, next, RECEIVING)]
    ensures Reached(Moved(s, s.host, ts))
  {
    assert s.streams[h := s.streams[h]] == s.streams;
    Extend(s, Step(t, PICK), Moved(s, s.host, ts));
  }

  lemma OpenStep(s: Sys, n: Sys, t: nat)
    requires Reached(s) && t < |s.threads| && s.threads[t].OpnIn?
    requires var h := s.counter + 1;
      n == s.(threads := s.threads[t := OpnGot(h)], streams := s.streams[h := NewStream(Bidi)], counter := h,
              owner := s.owner[h := Held(t)])
    ensures Reached(n)
  {
    Extend(s, Step(t, PICK), n);
  }

  lemma TrackStep(s: Sys, n: Sys, t: nat, h: nat)
    requires Reached(s) && t < |s.threads| && s.threads[t] == OpnGot(h) && !s.host.closed
    requires n == s.(host := s.host.Track(h).0, threads := s.threads[t := OpnOut], owner := s.owner[h := Tracked])
    ensures Reached(n)
  {
    Extend(s, Step(t, PICK), n);
  }

  lemma ClaimStep(s: Sys, n: Sys, t: nat, h: nat)
    requires Reached(s) && t < |s.threads| && s.threads[t] == Starting(StreamClose(h))
    requires s.host.ClaimStream(h).1.Claimed?
    requires n == s.(host := s.host.ClaimStream(h).0, threads := s.threads[t := ScHeld(h, CloseFn(s.host))],
                     owner := s.owner[h := Held(t)])
    ensures Reached(n)
  {
    Extend(s, Step(t, PICK), n);
  }

  lemma BeginCloseStep(s: Sys, t: nat, fn: nat, ts: seq<Thread>)
    requires Reached(s) && t < |s.threads| && s.threads[t] == Starting(ClosePlugin)
    requires s.host.BeginClose().1 == Closing({}, fn) && forall h | h in s.owner :: !s.owner[h].Tracked?
    requires ts == s.threads[t := ClsLoop({}, fn)]
    ensures Reached(Moved(s, s.host.BeginClose().0, ts))
  {
    assert (map h | h in s.owner :: if s.owner[h].Tracked? then Held(t) else s.owner[h]) == s.owner;
    Extend(s, Step(t, PICK), Moved(s, s.host.BeginClose().0, ts));
  }

  // ----- the run -----

  const LIB: Library := Library(map[], map["s" := 5], FUNCS)

  const LOADED: Sys := Sys(Loaded(9), LIB, [Ready, Ready, Ready], map[], 0, 0, map[], multiset{}, false, 0)

  const SERVING: Host := Host(9, false, map[], map["s" := 5], Some(FUNCS), {1}, 0)

  /** One stream is open, and no thread is in a call. */
  const STREAM_OPEN: Sys :=
    Sys(SERVING, LIB, [Ready, Ready, Ready], map[1 := NewStream(Bidi)], 1, 0, map[1 := Tracked], multiset{}, false, 0)

  /** The plugin as it was loaded, with thread 0 at `pc`. */
  function Opening(host: Host, pc: Thread): Sys {
    Moved(LOADED, host, [pc, Ready, Ready])
  }

  lemma OpeningStep(host: Host, pc: Thread, host': Host, pc': Thread)
    requires Reached(Opening(host, pc)) && OwnershipQuiet(pc, PICK)
    requires pc.Starting? || pc.OpnHeld? || pc.OpnMiss? || pc.OpnReady?
    requires Advance(host, LIB, pc, PICK, 1, 0, CallPc.Idle) == (host', pc')
    ensures Reached(Opening(host', pc'))
  {
    QuietStep(Opening(host, pc), 0, host', [pc', Ready, Ready]);
  }

  const FOUND: Host := SERVING.(activeStreams := {}, wg := 1)

  lemma BeginsOpen()
    ensures Reached(Opening(LOADED.host, Starting(OpenStream("s"))))
  {
    assert Exec(LOADED, []) == Some(LOADED);
    BeginCall(LOADED, 0, OpenStream("s"), Opening(LOADED.host, Starting(OpenStream("s"))).threads);
  }

  lemma MissesOpener(h: Host)
    requires h == LOADED.host.(wg := 1)
    ensures Reached(Opening(h, OpnMiss("s")))
  {
    BeginsOpen();
    OpeningStep(LOADED.host, Starting(OpenStream("s")), h, OpnHeld("s"));
    OpeningStep(h, OpnHeld("s"), h, OpnMiss("s"));
  }

  lemma EntersLibrary()
    ensures Reached(Opening(FOUND, OpnIn("s", 5)))
  {
    var h := LOADED.host.(wg := 1);
    MissesOpener(h);
    FindsOpener(h);
    OpeningStep(FOUND, OpnReady("s", 5), FOUND, OpnIn("s", 5));
  }

  lemma FindsOpener(h: Host)
    requires h == LOADED.host.(wg := 1) && Reached(Opening(h, OpnMiss("s")))
    ensures Reached(Opening(FOUND, OpnReady("s", 5)))
  {
    OpeningStep(h, OpnMiss("s"), FOUND, OpnReady("s", 5));
  }

  lemma GetsStream() returns (n: Sys)
    ensures Reached(n) && n == Moved(STREAM_OPEN, FOUND, [OpnGot(1), Ready, Ready]).(owner := map[1 := Held(0)])
  {
    EntersLibrary();
    n := Moved(STREAM_OPEN, FOUND, [OpnGot(1), Ready, Ready]).(owner := map[1 := Held(0)]);
    OpenStep(Opening(FOUND, OpnIn("s", 5)), n, 0);
  }

  lemma TracksStream() returns (n: Sys)
    ensures Reached(n) && n == Moved(STREAM_OPEN, SERVING.(wg := 1), [OpnOut, Ready, Ready])
  {
    var s := GetsStream();
    n := Moved(STREAM_OPEN, SERVING.(wg := 1), [OpnOut, Ready, Ready]);
    TrackStep(s, n, 0, 1);
  }

  lemma OpensStream()
    ensures Reached(STREAM_OPEN)
  {
    var n := TracksStream();
    QuietStep(n, 0, SERVING, [Ready, Ready, Ready]);
  }

  /** The state with one stream open and thread 1 at `pc`, on behalf of which the counter is one. */
  function ThreadAt(pc: Thread): Sys {
    Moved(STREAM_OPEN, SERVING.(wg := 1), [Ready, pc, Ready])
  }

  lemma EntersReceive()
    ensures Reached(ThreadAt(InCall(1, RecvEnter, RECEIVING)))
  {
    OpensStream();
    var op := StreamOp(OpRecv, 1);
    BeginCall(STREAM_OPEN, 1, op, [Ready, Starting(op), Ready]);
    QuietStep(Moved(STREAM_OPEN, SERVING, [Ready, Starting(op), Ready]), 1, SERVING.(wg := 1),
              [Ready, OpHeld(OpRecv, 1), Ready]);
    QuietStep(ThreadAt(OpHeld(OpRecv, 1)), 1, SERVING.(wg := 1), [Ready, InCall(1, RecvEnter, RECEIVING), Ready]);
  }

  lemma ReceiveSteps(at: CallPc, next: CallPc)
    requires Reached(ThreadAt(InCall(1, at, RECEIVING))) && !IsReturn(at)
    requires CallEnabled(NewStream(Bidi), at, Proceed) && CallDo(NewStream(Bidi), at, Proceed) == (NewStream(Bidi), next)
    ensures Reached(ThreadAt(InCall(1, next, RECEIVING)))
  {
    CallStep(ThreadAt(InCall(1, at, RECEIVING)), 1, 1, at, next, [Ready, InCall(1, next, RECEIVING), Ready]);
  }

  lemma WaitsToReceive()
    ensures Reached(ThreadAt(InCall(1, RecvWait, RECEIVING)))
  {
    EntersReceive();
    ReceiveSteps(RecvEnter, RecvPoll);
    ReceiveSteps(RecvPoll, RecvPollErr);
    ReceiveSteps(RecvPollErr, RecvWait);
  }

  /** Thread 2 has claimed the stream, and thread 0 is at `pc`. */
  function StreamClaimed(pc: Thread, closed: bool): Sys {
    Moved(STREAM_OPEN, SERVING.(activeStreams := {}, wg := 2, closed := closed),
          [pc, InCall(1, RecvWait, RECEIVING), ScHeld(1, 4)])
    .(owner := map[1 := Held(2)])
  }

  lemma ClaimsStream()
    ensures Reached(StreamClaimed(Ready, false))
  {
    WaitsToReceive();
    var recv := InCall(1, RecvWait, RECEIVING);
    var s := ThreadAt(recv);
    BeginCall(s, 2, StreamClose(1), [Ready, recv, Starting(StreamClose(1))]);
    ClaimStep(Moved(s, s.host, [Ready, recv, Starting(StreamClose(1))]), StreamClaimed(Ready, false), 2, 1);
  }

  /** Close has passed its loop and waits; the receive is blocked on an open stream. */
  lemma ReceiveBlockedWhileCloseWaits() returns (s0: Sys, acts: seq<Act>)
    ensures Init(s0) && Exec(s0, acts).Some?
    ensures var s := Exec(s0, acts).value;
      |s.threads| == 3 && s.threads[0].ClsWait? && Blocked(s, s.threads[1]) && s.threads[2] == ScHeld(1, 4)
  {
    ClaimsStream();
    ClosesPlugin();
    s0, acts :| Init(s0) && Exec(s0, acts) == Some(StreamClaimed(ClsWait, true));
  }

  lemma ClosesPlugin()
    requires Reached(StreamClaimed(Ready, false))
    ensures Reached(StreamClaimed(ClsWait, true))
  {
    BeginCall(StreamClaimed(Ready, false), 0, ClosePlugin, StreamClaimed(Starting(ClosePlugin), false).threads);
    BeginsClose();
    var s := StreamClaimed(ClsLoop({}, 4), true);
    QuietStep(s, 0, s.host, StreamClaimed(ClsWait, true).threads);
  }

  lemma BeginsClose()
    requires Reached(StreamClaimed(Starting(ClosePlugin), false))
    ensures Reached(StreamClaimed(ClsLoop({}, 4), true))
  {
    BeginCloseStep(StreamClaimed(Starting(ClosePlugin), false), 0, 4, StreamClaimed(ClsLoop({}, 4), true).threads);
  }
}
