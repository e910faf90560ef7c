/**
 * The exported stream functions as the source writes them (pkg/plugin/server.go): the
 * stream record is an object that they change in place.  Each is proved to do what the
 * atomic steps of PluginServer do when no other thread moves in between.
 */
module PluginCalls {
  import opened Basics
  import opened Channels
  import opened PluginServer

  /** Steps that a call has left at most. */
  function Left(pc: CallPc): nat {
    match pc
    case SendEnter(_, _) => 3 case SendLock(_, _) => 2 case SendSelect(_, _) => 1
    case RecvEnter => 5 case RecvPoll => 4 case RecvPollErr => 3 case RecvWait => 2
    case RecvDrained => 1 case RecvRecheck => 1
    case CloseSendEnter => 2 case CloseSendLock => 1
    case CloseEnter => 4 case CloseCancel => 3 case CloseCloseSend => 2 case CloseCloseRecv => 1
    case _ => 0
  }

  /** `sel` where the call is at a `select`. */
  function ChoiceAt(pc: CallPc, sel: Choice): Choice {
    if pc.SendSelect? || pc.RecvWait? then sel else Proceed
  }

  /** The steps of one call with nothing in between, up to its return or to a `select` that waits. */
  function Alone(ps: PStream, pc: CallPc, sel: Choice): (PStream, CallPc)
    decreases Left(pc)
  {
    if !CallEnabled(ps, pc, ChoiceAt(pc, sel)) then (ps, pc)
    else
      var (q, next) := CallDo(ps, pc, ChoiceAt(pc, sel));
      Alone(q, next, sel)
  }

  lemma Next(ps: PStream, pc: CallPc, sel: Choice)
    requires CallEnabled(ps, pc, ChoiceAt(pc, sel))
    ensures var r := CallDo(ps, pc, ChoiceAt(pc, sel)); Alone(ps, pc, sel) == Alone(r.0, r.1, sel)
  {
  }

  /** A receive up to its last `select`. */
  lemma Polls(ps: PStream, sel: Choice)
    ensures Alone(ps, RecvEnter, sel) ==
      if !ps.registered then (ps.Log(RNoStream), RecvRet(RNoStream))
      else if ps.recvCh.CanRecv() then (ps.Take(), RecvRet(RData(ps.recvCh.buf[0])))
      else if ps.recvCh.Closed() then CallDo(ps, RecvDrained, Proceed)
      else if ps.errCh.CanRecv() then (ps.TakeErr(), RecvRet(RError(ps.errCh.buf[0])))
      else Alone(ps, RecvWait, sel)
  {
    Next(ps, RecvEnter, sel);
    if ps.registered {
      Next(ps, RecvPoll, sel);
      if !ps.recvCh.CanRecv() {
        if ps.recvCh.Closed() {
          Next(ps, RecvDrained, sel);
        } else {
          Next(ps, RecvPollErr, sel);
        }
      }
    }
  }

  /** A receive prefers data to an error, an error to end-of-file, and end-of-file to waiting. */
  lemma ReceiveOrder(ps: PStream, sel: Choice)
    ensures Alone(ps, RecvEnter, sel) ==
      if !ps.registered then (ps.Log(RNoStream), RecvRet(RNoStream))
      else if ps.recvCh.CanRecv() then (ps.Take(), RecvRet(RData(ps.recvCh.buf[0])))
      else if ps.errCh.CanRecv() then (ps.TakeErr(), RecvRet(RError(ps.errCh.buf[0])))
      else if ps.recvCh.Closed() || (ps.cancelled && sel == OnDone) then (ps.Log(REof), RecvRet(REof))
      else (ps, RecvWait)
  {
    Polls(ps, sel);
    if ps.registered && !ps.recvCh.CanRecv() && !ps.recvCh.Closed() && !ps.errCh.CanRecv() {
      WaitsLast(ps, sel);
    }
  }

  lemma WaitsLast(ps: PStream, sel: Choice)
    requires !ps.recvCh.CanRecv() && !ps.recvCh.Closed() && !ps.errCh.CanRecv()
    ensures Alone(ps, RecvWait, sel) ==
      if ps.cancelled && sel == OnDone then (ps.Log(REof), RecvRet(REof)) else (ps, RecvWait)
  {
    if ps.cancelled && sel == OnDone {
      Next(ps, RecvWait, sel);
    }
  }

  /** The meaning of the result codes of Send. */
  lemma SendCodes(ps: PStream, call: nat, msg: Bytes, sel: Choice)
    requires ps.closeSend == ps.sendCh.Closed()
    ensures Alone(ps, SendEnter(call, msg), sel) ==
      if !ps.registered then (ps, SendRet(call, 1))
      else if ps.closeSend then (ps, SendRet(call, 3))
      else if sel == OnDone && ps.cancelled then (ps, SendRet(call, 2))
      else if sel == OnData && ps.sendCh.CanSend() then (ps.Enqueue(Sent(call, msg)), SendRet(call, 0))
      else (ps, SendSelect(call, msg))
  {
    Next(ps, SendEnter(call, msg), sel);
    if ps.registered {
      Next(ps, SendLock(call, msg), sel);
    }
  }

  /** Close never waits, and takes effect once. */
  lemma CloseEffect(ps: PStream, sel: Choice)
    ensures Alone(ps, CloseEnter, sel) ==
      (if ps.registered then ps.(registered := false, cancelled := true).CloseSendCh().CloseRecvCh() else ps, CloseRet)
  {
    Next(ps, CloseEnter, sel);
    if ps.registered {
      Next(ps.(registered := false), CloseCancel, sel);
      ClosesChannels(ps.(registered := false, cancelled := true), sel);
    }
  }

  lemma ClosesChannels(ps: PStream, sel: Choice)
    ensures Alone(ps, CloseCloseSend, sel) == (ps.CloseSendCh().CloseRecvCh(), CloseRet)
  {
    Next(ps, CloseCloseSend, sel);
    Next(ps.CloseSendCh(), CloseCloseRecv, sel);
  }

  /** After a close, the handle is unknown: every further call reports that and changes nothing but the log. */
  lemma CallsAfterClose(ps: PStream, call: nat, msg: Bytes, sel: Choice)
    ensures
      var q := Alone(ps, CloseEnter, sel).0;
      && (ps.registered ==> q.closeSend && q.closeRecv && q.cancelled)
      && Alone(q, CloseEnter, sel) == (q, CloseRet)
      && Alone(q, SendEnter(call, msg), sel) == (q, SendRet(call, 1))
      && Alone(q, RecvEnter, sel) == (q.Log(RNoStream), RecvRet(RNoStream))
      && Alone(q, CloseSendEnter, sel) == (q, CloseSendRet)
  {
    CloseEffect(ps, sel);
    var q := Alone(ps, CloseEnter, sel).0;
    CloseEffect(q, sel);
    ReceiveOrder(q, sel);
    Next(q, SendEnter(call, msg), sel);
    Next(q, CloseSendEnter, sel);
  }

  class PluginStream {
    const kind: Kind
    var registered: bool
    var cancelled: bool
    var sendCh: Chan<Sent>
    var recvCh: Chan<Bytes>
    var errCh: Chan<string>
    var closeSend: bool
    var closeRecv: bool
    ghost var handler: HandlerPc
    ghost var outcome: Outcome
    ghost var hist: History

    ghost function State(): PStream
      reads this
    {
      PStream(kind, registered, cancelled, sendCh, recvCh, errCh, closeSend, closeRecv, handler, outcome, hist)
    }

    constructor (k: Kind)
      ensures State() == NewStream(k)
    {
      kind, registered, cancelled, closeSend, closeRecv := k, true, false, false, false;
      sendCh, recvCh, errCh := MakeChan(CHANNEL_CAPACITY), MakeChan(CHANNEL_CAPACITY), MakeChan(1);
      handler, outcome, hist := HStart, Running, History([], [], [], [], map[], [], []);
    }

    method CloseSendCh()
      modifies this`closeSend, this`sendCh
      ensures State() == old(State()).CloseSendCh()
      ensures closeSend && sendCh == if old(closeSend) then old(sendCh) else old(sendCh).Close()
    {
      if !closeSend {
        closeSend := true;
        sendCh := sendCh.Close();
      }
    }

    method CloseRecvCh()
      modifies this`closeRecv, this`recvCh
      ensures State() == old(State()).CloseRecvCh()
      ensures closeRecv && recvCh == if old(closeRecv) then old(recvCh) else old(recvCh).Close()
    {
      if !closeRecv {
        closeRecv := true;
        recvCh := recvCh.Close();
      }
    }

    /** The generated trySendErr. */
    method TrySendErr(e: string)
      modifies this`errCh
      ensures State() == old(State()).TrySendErr(e)
      ensures errCh == if old(errCh).CanSend() then old(errCh).(buf := old(errCh).buf + [e]) else old(errCh)
    {
      if errCh.CanSend() {
        errCh := errCh.Send(e);
      }
    }

    /** Synurang_Stream_Send; None when it waits in the `select`. */
    method Send(call: nat, msg: Bytes, sel: Choice) returns (code: Option<int>)
      requires closeSend == sendCh.Closed()
      modifies this
      ensures (State(), if code.Some? then SendRet(call, code.value) else SendSelect(call, msg))
           == Alone(old(State()), SendEnter(call, msg), sel)
      ensures code == Some(0) <==> registered && !closeSend && sel == OnData && old(sendCh).CanSend()
      ensures code == Some(1) <==> !registered
      ensures code == Some(2) <==> registered && !closeSend && sel == OnDone && cancelled
      ensures code == Some(3) <==> registered && closeSend
      ensures code.None? || code.value in {0, 1, 2, 3}
      ensures sendCh == if code == Some(0) then old(sendCh).(buf := old(sendCh).buf + [Sent(call, msg)]) else old(sendCh)
    {
      SendCodes(State(), call, msg, sel);
      if !registered {
        return Some(1);
      }
      if closeSend {
        return Some(3);
      }
      if sel == OnData && sendCh.CanSend() {
        sendCh := sendCh.Send(Sent(call, msg));
        hist := hist.(accepted := hist.accepted + [Sent(call, msg)]);
        return Some(0);
      }
      if sel == OnDone && cancelled {
        return Some(2);
      }
      return None;
    }

    method TakeData() returns (r: RecvResult)
      requires recvCh.CanRecv()
      modifies this`recvCh, this`hist
      ensures State() == old(State()).Take() && r == RData(old(recvCh.buf[0]))
    {
      r := RData(recvCh.buf[0]);
      hist := hist.(taken := hist.taken + [recvCh.buf[0]], recvLog := hist.recvLog + [r]);
      recvCh := recvCh.Recv();
    }

    method TakeError() returns (r: RecvResult)
      requires errCh.CanRecv()
      modifies this`errCh, this`hist
      ensures State() == old(State()).TakeErr() && r == RError(old(errCh.buf[0]))
    {
      r := RError(errCh.buf[0]);
      hist := hist.(recvLog := hist.recvLog + [r]);
      errCh := errCh.Recv();
    }

    /** The branch after a cancellation: one more look at the data, and none at the error. */
    method Recheck() returns (r: RecvResult)
      modifies this
      ensures (State(), RecvRet(r)) == CallDo(old(State()), RecvRecheck, Proceed)
    {
      r := REof;
      if recvCh.CanRecv() {
        r := TakeData();
      } else {
        hist := hist.(recvLog := hist.recvLog + [r]);
      }
    }

    /** The branch for a channel that is closed and empty. */
    method AtClosed() returns (r: RecvResult)
      modifies this
      ensures (State(), RecvRet(r)) == CallDo(old(State()), RecvDrained, Proceed)
    {
      r := REof;
      if errCh.CanRecv() {
        r := TakeError();
      } else {
        hist := hist.(recvLog := hist.recvLog + [r]);
      }
    }

    /** The last `select`, whatever happened since the polls; None when it waits. */
    method Wait(sel: Choice) returns (r: Option<RecvResult>)
      modifies this
      ensures (State(), if r.Some? then RecvRet(r.value) else RecvWait) == Alone(old(State()), RecvWait, sel)
    {
      var result := REof;
      if sel == OnData && recvCh.CanRecv() {
        result := TakeData();
      } else if sel == OnData && recvCh.Closed() {
        result := AtClosed();
      } else if sel == OnError && errCh.CanRecv() {
        result := TakeError();
      } else if sel == OnDone && cancelled {
        result := Recheck();
      } else {
        return None;
      }
      return Some(result);
    }

    /** Synurang_Stream_Recv; None when it waits in the last `select`. */
    method Recv(sel: Choice) returns (r: Option<RecvResult>)
      modifies this
      ensures (State(), if r.Some? then RecvRet(r.value) else RecvWait) == Alone(old(State()), RecvEnter, sel)
      ensures r == Some(RNoStream) <==> !registered
      ensures r.Some? && r.value.RData? <==> registered && old(recvCh).CanRecv()
      ensures r.Some? && r.value.RData? ==> r.value.msg == old(recvCh).buf[0] && recvCh.buf == old(recvCh).buf[1..]
      ensures r.Some? && r.value.RError? <==> registered && !old(recvCh).CanRecv() && old(errCh).CanRecv()
      ensures r.Some? && r.value.RError? ==> r.value.err == old(errCh).buf[0] && errCh.buf == old(errCh).buf[1..]
      ensures r == Some(REof) <==>
        registered && !old(recvCh).CanRecv() && !old(errCh).CanRecv() && (recvCh.Closed() || (cancelled && sel == OnDone))
    {
      Polls(State(), sel);
      ReceiveOrder(State(), sel);
      var result := RNoStream;
      if !registered {
        hist := hist.(recvLog := hist.recvLog + [result]);
      } else if recvCh.CanRecv() {
        result := TakeData();
      } else if recvCh.Closed() {
        result := AtClosed();
      } else if errCh.CanRecv() {
        result := TakeError();
      } else {
        r := Wait(sel);
        return;
      }
      return Some(result);
    }

    /** Synurang_Stream_CloseSend. */
    method CloseSend()
      modifies this
      ensures (State(), CloseSendRet) == Alone(old(State()), CloseSendEnter, Proceed)
      ensures closeSend == (old(closeSend) || registered)
      ensures sendCh == if registered && !old(closeSend) then old(sendCh).Close() else old(sendCh)
      ensures registered == old(registered) && cancelled == old(cancelled) && hist == old(hist)
      ensures recvCh == old(recvCh) && errCh == old(errCh) && closeRecv == old(closeRecv)
    {
      Next(State(), CloseSendEnter, Proceed);
      if registered {
        CloseSendCh();
      }
    }

    /** Synurang_Stream_Close. */
    method Close()
      modifies this
      ensures (State(), CloseRet) == Alone(old(State()), CloseEnter, Proceed)
      ensures !registered && cancelled == (old(cancelled) || old(registered))
      ensures sendCh == if old(registered) && !old(closeSend) then old(sendCh).Close() else old(sendCh)
      ensures recvCh == if old(registered) && !old(closeRecv) then old(recvCh).Close() else old(recvCh)
      ensures errCh == old(errCh) && hist == old(hist)
    {
      CloseEffect(State(), Proceed);
      if !registered {
        return;
      }
      registered := false;
      cancelled := true;
      CloseSendCh();
      CloseRecvCh();
    }
  }
}
