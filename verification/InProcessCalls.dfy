/**
 * The client side of the in-process stream as the source writes it
 * (pkg/synurang/synurang.go): methods of an object.  Each is proved to do what the
 * atomic steps of InProcessStream do when no other goroutine moves in between.
 */
module InProcessCalls {
  import opened Basics
  import opened Channels
  import opened InProcessStream

  function Left(pc: RecvPc): nat {
    match pc
    case CheckStored => 5 case Poll => 4 case SawClosed => 3 case Store(_) => 2 case Wait => 1 case _ => 0
  }

  /**
   * The steps of RecvMsg with nothing in between; `sels` says which case each of its
   * `select` statements takes.  It stops with a result, or waiting.
   */
  function Alone(s: Stream, sels: seq<Choice>): Stream
    decreases |sels|, Left(s.receiver)
  {
    match s.receiver
    case NotReceiving => s
    case Received(_) => s
    case Wait => if sels == [] || !RecvEnabled(s, sels[0]) then s else Alone(RecvDo(s, sels[0]), sels[1..])
    case _ => Alone(RecvDo(s, Proceed), sels)
  }

  lemma NextPhase(s: Stream, sels: seq<Choice>)
    requires s.receiver.CheckStored? || s.receiver.Poll? || s.receiver.SawClosed? || s.receiver.Store?
    ensures Alone(s, sels) == Alone(RecvDo(s, Proceed), sels)
  {
  }

  /**
   * A stored error comes first, then data; a closed and empty channel gives the pending
   * error or end-of-file.
   */
  lemma ReceiveOrder(s: Stream, sels: seq<Choice>)
    requires s.receiver == CheckStored
    ensures s.streamErr.Some? ==> Alone(s, sels) == Deliver(s, IError(s.streamErr.value))
    ensures s.streamErr.None? && s.recvCh.CanRecv() ==> Alone(s, sels) == TakeData(s)
    ensures s.streamErr.None? && s.recvCh.Drained() ==> Alone(s, sels) == AtClosed(s)
  {
    NextPhase(s, sels);
    if s.streamErr.None? {
      var p := s.(receiver := Poll);
      NextPhase(p, sels);
      if s.recvCh.Drained() {
        SawClosedAlone(p.(receiver := SawClosed), sels);
      }
    }
  }

  /** The receiver has found the data channel closed and empty. */
  function AtClosed(s: Stream): Stream {
    if s.errCh.CanRecv() then StoreError(s) else Deliver(s, IError(Eof))
  }

  function StoreError(s: Stream): Stream
    requires s.errCh.CanRecv()
  {
    var e := s.errCh.buf[0];
    Deliver(s.(errCh := s.errCh.Recv(), streamErr := Some(e)), IError(e))
  }

  lemma SawClosedAlone(s: Stream, sels: seq<Choice>)
    requires s.receiver == SawClosed
    ensures Alone(s, sels) == AtClosed(s)
  {
    NextPhase(s, sels);
    if s.errCh.CanRecv() {
      NextPhase(TakeError(s), sels);
    }
  }

  /** The second `select`, when the first has found nothing and the channel open. */
  lemma WaitAlone(s: Stream, sels: seq<Choice>)
    requires s.receiver == Wait && s.recvCh.buf == [] && !s.recvCh.Closed()
    ensures Alone(s, sels) ==
      if sels != [] && sels[0] == OnDone && s.cancelled then Deliver(s, IError(ContextError))
      else if sels != [] && sels[0] == OnError && s.errCh.CanRecv() then StoreError(s)
      else if sels != [] && sels[0] == OnError && s.errCh.Drained() then Alone(s.(receiver := Poll), sels[1..])
      else s
  {
    if sels != [] && sels[0] == OnError && s.errCh.CanRecv() {
      NextPhase(TakeError(s), sels[1..]);
    }
  }

  /**
   * Between the server's two deferred closes the error channel is closed and the data
   * channel is not: a waiting receiver can then go round its loop any number of times.
   */
  lemma {:induction false} ReceiverSpins(s: Stream, n: nat)
    requires s.receiver == Wait && s.recvCh.buf == [] && !s.recvCh.Closed() && s.errCh.Drained()
    ensures Alone(s, seq(n, _ => OnError)) == s
  {
    if n > 0 {
      var sels := seq(n, _ => OnError);
      assert sels[1..] == seq(n - 1, _ => OnError);
      WaitAlone(s, sels);
      NextPhase(s.(receiver := Poll), sels[1..]);
      ReceiverSpins(s, n - 1);
    }
  }

  class FfiClientStream {
    var cancelled: bool
    var sendCh: Chan<Bytes>
    var recvCh: Chan<Bytes>
    var errCh: Chan<Error>
    var closed: bool
    var streamErr: Option<Error>
    ghost var server: ServerPc
    ghost var outcome: Outcome
    ghost var receiver: RecvPc
    ghost var senders: seq<SendPc>
    ghost var hist: History

    ghost function State(): Stream
      reads this
    {
      Stream(cancelled, sendCh, recvCh, errCh, closed, streamErr, server, outcome, receiver, senders, hist)
    }

    constructor ()
      ensures Init(State()) && senders == []
    {
      cancelled, closed, streamErr := false, false, None;
      sendCh, recvCh, errCh := MakeChan(CHANNEL_CAPACITY), MakeChan(CHANNEL_CAPACITY), MakeChan(1);
      server, outcome, receiver, senders := User, Running, NotReceiving, [];
      hist := History([], [], [], [], [], []);
    }

    method CloseSend()
      modifies this`closed, this`sendCh
      ensures State() == old(State()).(closed := true, sendCh := if old(closed) then old(sendCh) else old(sendCh).Close())
    {
      if !closed {
        closed := true;
        sendCh := sendCh.Close();
      }
    }

    /** The section of SendMsg; between it and the `select` another thread may close. */
    method CheckOpen() returns (open: bool)
      ensures open == !closed
    {
      return !closed;
    }

    /** The `select` of SendMsg: true when the message is on the channel, None when it waits. */
    method SelectSend(msg: Bytes, sel: Choice) returns (ok: Option<bool>)
      modifies this`sendCh, this`hist
      ensures ok == Some(true) <==> sel == OnData && old(sendCh).CanSend()
      ensures ok == Some(false) <==> (sel == OnData && old(sendCh).Closed()) || (sel == OnDone && cancelled)
      ensures ok == Some(true) ==>
        sendCh == old(sendCh).Send(msg) && hist == old(hist).(accepted := old(hist).accepted + [msg])
      ensures ok != Some(true) ==> sendCh == old(sendCh) && hist == old(hist)
    {
      if sel == OnDone && cancelled {
        return Some(false);
      }
      if sel == OnData {
        if sendCh.Closed() {
          return Some(false);  // the panic of a send on a closed channel, recovered
        }
        if sendCh.CanSend() {
          sendCh := sendCh.Send(msg);
          hist := hist.(accepted := hist.accepted + [msg]);
          return Some(true);
        }
      }
      return None;
    }

    method SendMsg(msg: Bytes, sel: Choice) returns (ok: Option<bool>)
      modifies this`sendCh, this`hist
      ensures ok == Some(true) <==> !closed && sel == OnData && old(sendCh).CanSend()
      ensures ok == Some(false) <==> closed || (sel == OnData && old(sendCh).Closed()) || (sel == OnDone && cancelled)
      ensures ok == Some(true) ==>
        sendCh == old(sendCh).Send(msg) && hist == old(hist).(accepted := old(hist).accepted + [msg])
      ensures ok != Some(true) ==> sendCh == old(sendCh) && hist == old(hist)
    {
      var open := CheckOpen();
      if !open {
        return Some(false);
      }
      ok := SelectSend(msg, sel);
    }

    method Report(r: Result)
      modifies this`receiver, this`hist
      ensures State() == Deliver(old(State()), r)
      ensures receiver == Received(r) && hist == old(hist).(log := old(hist).log + [r])
    {
      receiver := Received(r);
      hist := hist.(log := hist.log + [r]);
    }

    method TakeMessage() returns (r: Result)
      requires recvCh.CanRecv()
      modifies this`recvCh, this`receiver, this`hist
      ensures State() == TakeData(old(State())) && receiver == Received(r)
      ensures r == IData(old(recvCh).buf[0]) && recvCh.buf == old(recvCh).buf[1..] && hist.log == old(hist).log + [r]
    {
      r := IData(recvCh.buf[0]);
      hist := hist.(taken := hist.taken + [recvCh.buf[0]]);
      recvCh := recvCh.Recv();
      Report(r);
    }

    method KeepError() returns (r: Result)
      requires errCh.CanRecv()
      modifies this`errCh, this`streamErr, this`receiver, this`hist
      ensures State() == StoreError(old(State())) && receiver == Received(r)
      ensures r == IError(old(errCh).buf[0]) && streamErr == Some(old(errCh).buf[0])
      ensures errCh.buf == old(errCh).buf[1..] && hist.log == old(hist).log + [r]
    {
      r := IError(errCh.buf[0]);
      streamErr := Some(errCh.buf[0]);
      errCh := errCh.Recv();
      Report(r);
    }

    /** RecvMsg; None when it waits, or when `sels` runs out while it goes round. */
    method RecvMsg(sels: seq<Choice>) returns (r: Option<Result>)
      requires receiver == CheckStored
      modifies this
      ensures State() == Alone(old(State()), sels)
      ensures r == if receiver.Received? then Some(receiver.result) else None
    {
      NextPhase(State(), sels);
      var result := IError(Eof);
      if streamErr.Some? {
        result := IError(streamErr.value);
        Report(result);
        return Some(result);
      }
      receiver := Poll;
      var i := 0;
      while true
        invariant i <= |sels| && receiver == Poll
        invariant Alone(State(), sels[i..]) == Alone(old(State()), sels)
        decreases |sels| - i
      {
        NextPhase(State(), sels[i..]);
        if recvCh.CanRecv() {
          result := TakeMessage();
          return Some(result);
        }
        if recvCh.Closed() {
          receiver := SawClosed;
          SawClosedAlone(State(), sels[i..]);
          if errCh.CanRecv() {
            result := KeepError();
          } else {
            Report(result);
          }
          return Some(result);
        }
        receiver := Wait;
        WaitAlone(State(), sels[i..]);
        if i == |sels| {
          return None;
        }
        if sels[i] == OnDone && cancelled {
          result := IError(ContextError);
          Report(result);
          return Some(result);
        }
        if sels[i] == OnError && errCh.CanRecv() {
          result := KeepError();
          return Some(result);
        }
        if !(sels[i] == OnError && errCh.Drained()) {
          return None;
        }
        receiver := Poll;
        i := i + 1;
      }
      return None;
    }
  }
}
