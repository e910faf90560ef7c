/**
 * The in-process stream read off the calls: what a whole SendMsg or CloseSend has done
 * when it returns, what the server then reads, what the server sent, and how it ended.
 */
module InProcessRuns {
  import opened Basics
  import opened Channels
  import opened InProcessStream

  /** No further call of sender `t` begins. */
  predicate OneCall(acts: seq<Act>, t: nat) {
    forall k | 0 <= k < |acts| :: !(acts[k].StartSend? && acts[k].t == t) && !(acts[k].StartCloseSend? && acts[k].t == t)
  }

  lemma OneCallRest(acts: seq<Act>, t: nat)
    requires acts != [] && OneCall(acts, t)
    ensures OneCall(acts[1..], t)
  {
    var rest := acts[1..];
    forall k | 0 <= k < |rest|
      ensures !(rest[k].StartSend? && rest[k].t == t) && !(rest[k].StartCloseSend? && rest[k].t == t)
    {
      assert rest[k] == acts[k + 1];
    }
  }

  // ----- CloseSend -----

  /** A step of another thread leaves a sender where it is; a closed stream stays closed and accepts nothing. */
  lemma StepLasts(s: Stream, a: Act, t: nat)
    requires Enabled(s, a) && t < |s.senders| && s.closed == s.sendCh.Closed()
    ensures var n := Do(s, a);
      && |n.senders| == |s.senders| && n.closed == n.sendCh.Closed()
      && (s.closed ==> n.closed && n.hist.accepted == s.hist.accepted)
      && (!(a.SendStep? && a.t == t) && !(a.StartSend? && a.t == t) && !(a.StartCloseSend? && a.t == t) ==>
            n.senders[t] == s.senders[t])
  {
    match a
    case ServerStep(c) => ServerLasts(s, c);
    case RecvStep(c) => RecvLasts(s, c);
    case _ =>
  }

  lemma ServerLasts(s: Stream, c: Choice)
    requires ServerEnabled(s, c)
    ensures var n := ServerDo(s, c);
      n.senders == s.senders && n.closed == s.closed && n.sendCh.Closed() == s.sendCh.Closed()
      && n.hist.accepted == s.hist.accepted
  {
  }

  lemma RecvLasts(s: Stream, c: Choice)
    requires RecvEnabled(s, c)
    ensures var n := RecvDo(s, c);
      n.senders == s.senders && n.closed == s.closed && n.sendCh == s.sendCh && n.hist.accepted == s.hist.accepted
  {
  }

  /** Before its section, or done. */
  predicate HalfClosing(s: Stream, pc: SendPc) {
    pc == Closing || (pc == NotSending && s.closed)
  }

  lemma {:induction false} HalfCloseRun(s: Stream, acts: seq<Act>, t: nat)
    requires Exec(s, acts).Some? && OneCall(acts, t) && s.closed == s.sendCh.Closed()
    requires t < |s.senders| && HalfClosing(s, s.senders[t])
    ensures var n := Exec(s, acts).value;
      t < |n.senders| && HalfClosing(n, n.senders[t]) && n.closed == n.sendCh.Closed()
    decreases |acts|
  {
    if acts != [] {
      StepLasts(s, acts[0], t);
      OneCallRest(acts, t);
      HalfCloseRun(Do(s, acts[0]), acts[1..], t);
    }
  }

  lemma {:induction false} ClosedRun(s: Stream, acts: seq<Act>)
    requires Exec(s, acts).Some? && s.closed && s.sendCh.Closed() && |s.senders| > 0
    ensures Exec(s, acts).value.closed && Exec(s, acts).value.hist.accepted == s.hist.accepted
    decreases |acts|
  {
    if acts != [] {
      StepLasts(s, acts[0], 0);
      ClosedRun(Do(s, acts[0]), acts[1..]);
    }
  }

  /** A whole CloseSend, in any company: when it returns the channel is closed, and nothing is accepted any more. */
  lemma CloseSendCloses(s0: Stream, pre: seq<Act>, s: Stream, t: nat, more: seq<Act>, n: Stream, later: seq<Act>)
    requires Init(s0) && Exec(s0, pre) == Some(s) && Enabled(s, StartCloseSend(t))
    requires Exec(Do(s, StartCloseSend(t)), more) == Some(n) && OneCall(more, t)
    requires t < |n.senders| && n.senders[t] == NotSending && Exec(n, later).Some?
    ensures n.closed && n.sendCh.Closed()
    ensures Exec(n, later).value.closed && Exec(n, later).value.hist.accepted == n.hist.accepted
  {
    InitInv(s0);
    ExecInv(s0, pre);
    HalfCloseRun(Do(s, StartCloseSend(t)), more, t);
    ClosedRun(n, later);
  }

  /**
   * Once the client has closed its side, and without cancellation, a read of the server
   * never waits: it gives the next message that was accepted, or end-of-file after the last.
   */
  lemma LoneRead(s0: Stream, acts: seq<Act>, s: Stream)
    requires Init(s0) && Exec(s0, acts) == Some(s)
    requires s.closed && !s.cancelled && s.server == User
    ensures var m := Do(s, ServerRead); Enabled(m, ServerStep(OnData)) && !Enabled(m, ServerStep(OnDone))
    ensures var n, h := Do(Do(s, ServerRead), ServerStep(OnData)), s.hist;
      && n.server == User
      && n.hist.readLog == h.readLog + [if |h.read| < |h.accepted| then SData(h.accepted[|h.read|]) else SEof]
  {
    InitInv(s0);
    ExecInv(s0, acts);
    if s.sendCh.CanRecv() {
      assert s.hist.accepted[|s.hist.read|] == s.sendCh.buf[0];
    }
  }

  // ----- SendMsg -----

  /** The sender's step that puts the message on the channel. */
  predicate Puts(s: Stream, a: Act, t: nat) {
    && a == SendStep(t, OnData) && t < |s.senders| && s.senders[t].SendSelect? && s.sendCh.CanSend()
  }

  /** Where a SendMsg of `msg` is; `put` says whether it has put its message on the channel. */
  predicate Sending(pc: SendPc, msg: Bytes, put: bool) {
    match pc
    case CheckClosed(m) => m == msg && !put
    case SendSelect(m) => m == msg && !put
    case SendDone(ok) => ok == put
    case _ => false
  }

  /** How often the run puts a message of sender `t` on the channel. */
  function PutsOf(s: Stream, acts: seq<Act>, t: nat): nat
    requires Exec(s, acts).Some?
    decreases |acts|
  {
    if acts == [] then 0
    else (if Puts(s, acts[0], t) then 1 else 0) + PutsOf(Do(s, acts[0]), acts[1..], t)
  }

  lemma SendingStep(s: Stream, a: Act, t: nat, msg: Bytes, put: bool)
    requires Enabled(s, a) && t < |s.senders| && s.closed == s.sendCh.Closed() && Sending(s.senders[t], msg, put)
    requires !(a.SendStep? && a.t == t && s.senders[t].SendDone?)
    requires !(a.StartSend? && a.t == t) && !(a.StartCloseSend? && a.t == t)
    ensures var n := Do(s, a);
      && |n.senders| == |s.senders| && n.closed == n.sendCh.Closed()
      && Sending(n.senders[t], msg, put || Puts(s, a, t))
      && (put ==> !Puts(s, a, t))
      && (Puts(s, a, t) ==> n.hist.accepted == s.hist.accepted + [msg])
  {
    StepLasts(s, a, t);
  }

  /** The result has not been taken by the caller yet. */
  predicate NotTaken(s: Stream, acts: seq<Act>, t: nat)
    requires Exec(s, acts).Some?
    decreases |acts|
  {
    acts == [] ||
    (!(acts[0].SendStep? && acts[0].t == t && t < |s.senders| && s.senders[t].SendDone?)
     && NotTaken(Do(s, acts[0]), acts[1..], t))
  }

  lemma {:induction false} SendingRun(s: Stream, acts: seq<Act>, t: nat, msg: Bytes, put: bool)
    requires Exec(s, acts).Some? && OneCall(acts, t) && NotTaken(s, acts, t) && s.closed == s.sendCh.Closed()
    requires t < |s.senders| && Sending(s.senders[t], msg, put)
    ensures var n := Exec(s, acts).value;
      && t < |n.senders| && PutsOf(s, acts, t) <= (if put then 0 else 1)
      && Sending(n.senders[t], msg, put || PutsOf(s, acts, t) > 0)
    decreases |acts|
  {
    if acts != [] {
      SendingStep(s, acts[0], t, msg, put);
      OneCallRest(acts, t);
      SendingRun(Do(s, acts[0]), acts[1..], t, msg, put || Puts(s, acts[0], t));
    }
  }

  /**
   * A whole SendMsg, in any company: when it has its result, that is success if and only
   * if one of its steps put its message on the channel, and none does so twice.
   */
  lemma SendMsgResult(s0: Stream, pre: seq<Act>, s: Stream, t: nat, msg: Bytes, more: seq<Act>, n: Stream)
    requires Init(s0) && Exec(s0, pre) == Some(s) && Enabled(s, StartSend(t, msg))
    requires var b := Do(s, StartSend(t, msg)); Exec(b, more) == Some(n) && OneCall(more, t) && NotTaken(b, more, t)
    requires t < |n.senders| && n.senders[t].SendDone?
    ensures var b := Do(s, StartSend(t, msg));
      PutsOf(b, more, t) <= 1 && (n.senders[t].ok <==> PutsOf(b, more, t) == 1)
  {
    InitInv(s0);
    ExecInv(s0, pre);
    SendingRun(Do(s, StartSend(t, msg)), more, t, msg, false);
  }

  /**
   * A SendMsg that is not disturbed: refused on a closed stream; else on the channel if
   * there is room, and refused if there is none and the context is cancelled.
   */
  lemma LoneSend(s: Stream, t: nat, msg: Bytes) returns (n: Stream, acts: seq<Act>)
    requires Enabled(s, StartSend(t, msg)) && (s.closed || s.cancelled || s.sendCh.CanSend())
    ensures Exec(s, acts) == Some(n) && |n.senders| == |s.senders|
    ensures var ok := !s.closed && s.sendCh.CanSend();
      && n.senders[t] == SendDone(ok)
      && n.sendCh == (if ok then s.sendCh.Send(msg) else s.sendCh)
      && n.hist == (if ok then s.hist.(accepted := s.hist.accepted + [msg]) else s.hist)
      && Do(n, SendStep(t, Proceed)) == n.(senders := n.senders[t := NotSending])
  {
    n, acts := Extend(s, s, [], StartSend(t, msg));
    n, acts := Extend(s, n, acts, SendStep(t, Proceed));
    if !s.closed {
      n, acts := Extend(s, n, acts, SendStep(t, if s.sendCh.CanSend() then OnData else OnDone));
    }
  }

  // ----- cancellation -----

  /** Each of the four selects of the stream has its context case ready. */
  predicate NobodyHangs(s: Stream) {
    && (s.server.Sending? || s.server == Reading ==> Enabled(s, ServerStep(OnDone)))
    && (s.receiver == Wait ==> Enabled(s, RecvStep(OnDone)))
    && (forall t | 0 <= t < |s.senders| && s.senders[t].SendSelect? :: Enabled(s, SendStep(t, OnDone)))
  }

  lemma {:induction false} StaysCancelled(s: Stream, acts: seq<Act>)
    requires s.cancelled && Exec(s, acts).Some?
    ensures Exec(s, acts).value.cancelled
    decreases |acts|
  {
    if acts != [] {
      CancelStep(s, acts[0]);
      StaysCancelled(Do(s, acts[0]), acts[1..]);
    }
  }

  lemma CancelStep(s: Stream, a: Act)
    requires s.cancelled && Enabled(s, a)
    ensures Do(s, a).cancelled
  {
    if a.SendStep? {
      SendFrame(s, a.t, a.choice);
    }
  }

  /**
   * Once the context has been cancelled no call of either side hangs, ever again; and a
   * receive that has its result returns it.
   */
  lemma CancelReleasesEveryone(s0: Stream, pre: seq<Act>, s: Stream, more: seq<Act>, n: Stream)
    requires Exec(s0, pre) == Some(s) && Exec(Do(s, Cancel), more) == Some(n)
    ensures n.cancelled && NobodyHangs(n)
    ensures n.receiver.Received? ==> Do(n, RecvStep(Proceed)) == n.(receiver := NotReceiving)
  {
    StaysCancelled(Do(s, Cancel), more);
  }

  // ----- the server -----

  /** The message that the server means to send. */
  function Meant(acts: seq<Act>): Bytes {
    if acts == [] then []
    else if acts[|acts|-1].ServerSend? then acts[|acts|-1].msg
    else Meant(acts[..|acts|-1])
  }

  ghost predicate Returned(acts: seq<Act>, e: Option<Error>) {
    exists k :: 0 <= k < |acts| && acts[k] == ServerReturn(e)
  }

  lemma HistorySnoc(acts: seq<Act>, a: Act)
    ensures Meant(acts + [a]) == if a.ServerSend? then a.msg else Meant(acts)
    ensures forall e :: Returned(acts + [a], e) <==> Returned(acts, e) || a == ServerReturn(e)
  {
    var more := acts + [a];
    assert more[..|acts|] == acts;
    forall e
      ensures Returned(more, e) <==> Returned(acts, e) || a == ServerReturn(e)
    {
      if Returned(acts, e) {
        var k :| 0 <= k < |acts| && acts[k] == ServerReturn(e);
        assert more[k] == ServerReturn(e);
      }
      if a == ServerReturn(e) {
        assert more[|acts|] == ServerReturn(e);
      }
    }
  }

  /** The outcome is what the handler returned, and what it is sending is what it was last told to. */
  ghost predicate Told(s: Stream, past: seq<Act>) {
    && CloseOrder(s)
    && (s.outcome == Succeeded <==> Returned(past, None))
    && (forall e :: s.outcome == Failed(e) <==> Returned(past, Some(e)))
    && (s.server.Sending? ==> s.server.msg == Meant(past))
  }

  lemma ServerOutcome(s: Stream, c: Choice)
    requires ServerEnabled(s, c)
    ensures ServerDo(s, c).outcome == s.outcome && !ServerDo(s, c).server.Sending?
  {
  }

  lemma RecvOutcome(s: Stream, c: Choice)
    requires RecvEnabled(s, c)
    ensures RecvDo(s, c).outcome == s.outcome && RecvDo(s, c).server == s.server
  {
  }

  lemma ToldStep(s: Stream, past: seq<Act>, a: Act)
    requires Told(s, past) && Enabled(s, a) && CloseOrder(Do(s, a))
    ensures Told(Do(s, a), past + [a])
  {
    HistorySnoc(past, a);
    match a
    case ServerStep(c) => ServerOutcome(s, c);
    case RecvStep(c) => RecvOutcome(s, c);
    case SendStep(t, c) => SendFrame(s, t, c);
    case _ =>
  }

  lemma {:induction false} ToldRun(s: Stream, past: seq<Act>, acts: seq<Act>, all: seq<Act>)
    requires Inv(s) && Told(s, past) && Exec(s, acts).Some? && all == past + acts
    ensures Told(Exec(s, acts).value, all)
    decreases |acts|
  {
    if acts == [] {
      assert all == past;
    } else {
      StepInv(s, acts[0]);
      ToldStep(s, past, acts[0]);
      assert all == past + [acts[0]] + acts[1..];
      ToldRun(Do(s, acts[0]), past + [acts[0]], acts[1..], all);
    }
  }

  /** In every run: the outcome is exactly what the handler returned, and each message sent is the one it was told to send. */
  lemma OutcomeIsTheHandlers(s0: Stream, acts: seq<Act>)
    requires Init(s0) && Exec(s0, acts).Some?
    ensures var s := Exec(s0, acts).value;
      && (s.outcome == Succeeded <==> Returned(acts, None))
      && (forall e :: s.outcome == Failed(e) <==> Returned(acts, Some(e)))
      && (s.server.Sending? && s.recvCh.CanSend() ==>
            Enabled(s, ServerStep(OnData)) && Do(s, ServerStep(OnData)).hist.sent == s.hist.sent + [Meant(acts)])
  {
    InitInv(s0);
    ToldRun(s0, [], acts, acts);
    if Exec(s0, acts).value.server.Sending? && Exec(s0, acts).value.recvCh.CanSend() {
      SendsMeant(Exec(s0, acts).value, acts);
    }
  }

  lemma SendsMeant(s: Stream, past: seq<Act>)
    requires Told(s, past) && s.server.Sending? && s.recvCh.CanSend()
    ensures Enabled(s, ServerStep(OnData)) && Do(s, ServerStep(OnData)).hist.sent == s.hist.sent + [Meant(past)]
  {
  }
}
