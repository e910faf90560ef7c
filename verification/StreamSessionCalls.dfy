/**
 * Whole calls on a streaming session, and its trailers: what must have happened for a
 * SendToStream to meet a closed channel, and for the trailers to be set while they are sent.
 */
module StreamSessionCalls {
  import opened Basics
  import opened Channels
  import opened StreamSession

  // ----- positions in a run -----

  lemma {:induction false} PrefixRuns(s: Machine, acts: seq<Act>, k: nat)
    requires k <= |acts| && Exec(s, acts).Some?
    ensures Exec(s, acts[..k]).Some?
    decreases k
  {
    if k > 0 {
      PrefixRuns(Do(s, acts[0]), acts[1..], k - 1);
      assert acts[..k][1..] == acts[1..][..k - 1];
    }
  }

  /** The state after the first `k` actions. */
  function At(s: Machine, acts: seq<Act>, k: nat): Machine
    requires k <= |acts| && Exec(s, acts).Some?
  {
    PrefixRuns(s, acts, k);
    Exec(s, acts[..k]).value
  }

  lemma {:induction false} NextState(s: Machine, acts: seq<Act>, k: nat)
    requires k < |acts| && Exec(s, acts).Some?
    ensures Enabled(At(s, acts, k), acts[k]) && At(s, acts, k + 1) == Do(At(s, acts, k), acts[k])
    decreases k
  {
    PrefixRuns(s, acts, k);
    PrefixRuns(s, acts, k + 1);
    if k == 0 {
      assert acts[..1] == [acts[0]] && acts[..0] == [] && acts[..1][1..] == [];
    } else {
      NextState(Do(s, acts[0]), acts[1..], k - 1);
      assert acts[..k][1..] == acts[1..][..k - 1] && acts[..k + 1][1..] == acts[1..][..k];
    }
  }

  lemma FirstState(s: Machine, acts: seq<Act>)
    requires Exec(s, acts).Some?
    ensures At(s, acts, 0) == s && At(s, acts, |acts|) == Exec(s, acts).value
  {
    assert acts[..0] == [] && acts[..|acts|] == acts;
  }

  // ----- SendToStream -----

  /** No further call of thread `t` begins. */
  predicate OneCall(acts: seq<Act>, t: nat) {
    forall k | 0 <= k < |acts| && acts[k].Begin? :: acts[k].t != t
  }

  /** Before the check. */
  predicate Unchecked(pc: Pc) {
    pc.ToLookup? || pc.ToCheck?
  }

  /** How a step moves a thread that is inside SendToStream. */
  lemma SenderMoves(s: Machine, a: Act, t: nat)
    requires Enabled(s, a) && t < |s.threads| && (Unchecked(s.threads[t]) || s.threads[t].ToSelect? || s.threads[t] == Idle)
    requires a.Begin? ==> a.t != t
    ensures var pc, n := s.threads[t], Do(s, a); |n.threads| == |s.threads| && var pc' := n.threads[t];
      && (a.t != t ==> pc' == pc)
      && (a.t == t ==> !pc.Idle? && (pc.ToSelect? ==> pc' == Idle))
      && (a.t == t && Unchecked(pc) ==>
            || Unchecked(pc') || pc' == Idle
            || (pc.ToCheck? && pc'.ToSelect? && a == Step(t, Proceed) && !s.session.inputClosed && n.session == s.session))
  {
    if a.t == t {
      assert Do(s, a).threads[t] == Advance(s.session, s.threads[t], a.choice).1;
    }
  }

  lemma {:induction false} IdleStays(b: Machine, acts: seq<Act>, k: nat, t: nat)
    requires k <= |acts| && Exec(b, acts).Some? && OneCall(acts, t)
    requires t < |At(b, acts, k).threads| && At(b, acts, k).threads[t] == Idle
    ensures t < |At(b, acts, |acts|).threads| && At(b, acts, |acts|).threads[t] == Idle
    decreases |acts| - k
  {
    if k < |acts| {
      NextState(b, acts, k);
      SenderMoves(At(b, acts, k), acts[k], t);
      IdleStays(b, acts, k + 1, t);
    }
  }

  /** A call that comes to its `select` has passed its check, with the input open. */
  lemma {:induction false} FindCheck(b: Machine, acts: seq<Act>, k: nat, t: nat) returns (i: nat)
    requires k <= |acts| && Exec(b, acts).Some? && OneCall(acts, t)
    requires t < |At(b, acts, k).threads| && Unchecked(At(b, acts, k).threads[t])
    requires t < |At(b, acts, |acts|).threads| && At(b, acts, |acts|).threads[t].ToSelect?
    ensures i < |acts| && acts[i] == Step(t, Proceed)
    ensures var m, n := At(b, acts, i), At(b, acts, i + 1);
      && t < |m.threads| && m.threads[t].ToCheck? && !m.session.inputClosed
      && t < |n.threads| && n.threads[t].ToSelect? && n.session == m.session
    decreases |acts| - k
  {
    i := k;
    if k < |acts| {
      NextState(b, acts, k);
      SenderMoves(At(b, acts, k), acts[k], t);
      if !At(b, acts, k + 1).threads[t].ToSelect? {
        if At(b, acts, k + 1).threads[t] == Idle {
          IdleStays(b, acts, k + 1, t);
        }
        i := FindCheck(b, acts, k + 1, t);
      }
    }
  }

  /** Between the check and the `select` the thread does nothing, so another one closed the input. */
  lemma {:induction false} FindClose(b: Machine, acts: seq<Act>, k: nat, t: nat) returns (j: nat)
    requires k <= |acts| && Exec(b, acts).Some? && OneCall(acts, t)
    requires var m := At(b, acts, k); t < |m.threads| && m.threads[t].ToSelect? && !m.session.inputClosed
    requires var n := At(b, acts, |acts|); t < |n.threads| && n.threads[t].ToSelect? && n.session.inputClosed
    ensures k <= j < |acts| && acts[j].t != t
    ensures !At(b, acts, j).session.inputClosed && At(b, acts, j + 1).session.inputClosed
    decreases |acts| - k
  {
    j := k;
    if k < |acts| {
      NextState(b, acts, k);
      SenderMoves(At(b, acts, k), acts[k], t);
      if acts[k].t == t {
        IdleStays(b, acts, k + 1, t);
      }
      if !At(b, acts, k + 1).session.inputClosed {
        j := FindClose(b, acts, k + 1, t);
      }
    }
  }

  /** The call's own check, which finds the input open. */
  predicate Checks(b: Machine, acts: seq<Act>, i: nat, t: nat)
    requires Exec(b, acts).Some?
  {
    && i < |acts| && acts[i] == Step(t, Proceed)
    && t < |At(b, acts, i).threads| && At(b, acts, i).threads[t].ToCheck? && !At(b, acts, i).session.inputClosed
  }

  /** Action `j` is that of a thread other than `t` and closes the input. */
  predicate ClosesInput(b: Machine, acts: seq<Act>, j: nat, t: nat)
    requires Exec(b, acts).Some?
  {
    && j < |acts| && acts[j].t != t
    && !At(b, acts, j).session.inputClosed && At(b, acts, j + 1).session.inputClosed
  }

  predicate ClosedSince(b: Machine, acts: seq<Act>, i: nat, t: nat)
    requires Exec(b, acts).Some?
  {
    exists j: nat | i < j < |acts| :: ClosesInput(b, acts, j, t)
  }

  /**
   * A whole SendToStream, in any company: its next step meets a closed channel if and
   * only if it is the send of its `select`, and between the call's own check and now
   * another thread has closed the input.
   */
  lemma CrashIffClosedInBetween(s0: Machine, pre: seq<Act>, s: Machine, t: nat, m: Bytes,
                                more: seq<Act>, n: Machine, c: Choice)
      returns (i: nat)
    requires Init(s0) && Exec(s0, pre) == Some(s) && Enabled(s, Begin(t, SendToStream(m)))
    requires Exec(Do(s, Begin(t, SendToStream(m))), more) == Some(n) && OneCall(more, t)
    requires Enabled(n, Step(t, c)) && !n.crashed
    ensures n.threads[t].ToSelect? ==> Checks(Do(s, Begin(t, SendToStream(m))), more, i, t)
    ensures Do(n, Step(t, c)).crashed <==>
      n.threads[t].ToSelect? && c == OnData && ClosedSince(Do(s, Begin(t, SendToStream(m))), more, i, t)
  {
    var b := Do(s, Begin(t, SendToStream(m)));
    InvAfter(s0, pre, Begin(t, SendToStream(m)));
    ExecInv(b, more);
    CrashOnlyAfterClose(n.session, n.threads[t], c);
    i := 0;
    if n.threads[t].ToSelect? {
      i := ClosedSinceCheck(b, more, t);
    }
  }

  lemma InvAfter(s0: Machine, pre: seq<Act>, a: Act)
    requires Init(s0) && Exec(s0, pre).Some? && Enabled(Exec(s0, pre).value, a)
    ensures Inv(Do(Exec(s0, pre).value, a))
  {
    InitInv(s0);
    ExecInv(s0, pre);
    StepInv(Exec(s0, pre).value, a);
  }

  lemma ClosedSinceCheck(b: Machine, more: seq<Act>, t: nat) returns (i: nat)
    requires Exec(b, more).Some? && OneCall(more, t) && t < |b.threads| && Unchecked(b.threads[t])
    requires var n := Exec(b, more).value; t < |n.threads| && n.threads[t].ToSelect?
    ensures Checks(b, more, i, t)
    ensures ClosedSince(b, more, i, t) <==> Exec(b, more).value.session.inputClosed
  {
    FirstState(b, more);
    i := FindCheck(b, more, 0, t);
    if Exec(b, more).value.session.inputClosed {
      var j := FindClose(b, more, i + 1, t);
      assert ClosesInput(b, more, j, t);
    }
    forall j: nat | ClosesInput(b, more, j, t)
      ensures Exec(b, more).value.session.inputClosed
    {
      InputStaysClosed(b, more, j + 1);
    }
  }

  lemma {:induction false} InputStaysClosed(b: Machine, acts: seq<Act>, k: nat)
    requires k <= |acts| && Exec(b, acts).Some? && At(b, acts, k).session.inputClosed
    ensures At(b, acts, |acts|).session.inputClosed
    decreases |acts| - k
  {
    if k < |acts| {
      NextState(b, acts, k);
      StepStaysClosed(At(b, acts, k), acts[k]);
      InputStaysClosed(b, acts, k + 1);
    }
  }

  lemma StepStaysClosed(s: Machine, a: Act)
    requires Enabled(s, a) && s.session.inputClosed
    ensures Do(s, a).session.inputClosed
  {
    if a.Step? {
      AdvanceStaysClosed(s.session, s.threads[a.t], a.choice);
    }
  }

  lemma AdvanceStaysClosed(x: Session, pc: Pc, c: Choice)
    requires StepEnabled(x, pc, c) && x.inputClosed
    ensures Advance(x, pc, c).0.inputClosed
  {
  }

  // ----- trailers -----

  /** One thread alone sets trailers and ends the stream. */
  predicate OneOwner(acts: seq<Act>, t: nat) {
    forall k | 0 <= k < |acts| && acts[k].Begin? && (acts[k].op.SetTrailer? || acts[k].op.EndStream?) :: acts[k].t == t
  }

  /** Nobody but `t` is on the way to send the trailers. */
  predicate OnlySender(s: Machine, t: nat) {
    forall u | 0 <= u < |s.threads| && u != t :: !s.threads[u].EndLock? && !s.threads[u].EndTrailer?
  }

  lemma OwnerStep(s: Machine, a: Act, t: nat)
    requires Enabled(s, a) && !s.raced && OnlySender(s, t)
    requires a.Begin? && (a.op.SetTrailer? || a.op.EndStream?) ==> a.t == t
    ensures !Do(s, a).raced && OnlySender(Do(s, a), t)
  {
    if a.Step? {
      StepToTrailer(s.session, s.threads[a.t], a.choice);
    }
  }

  lemma StepToTrailer(x: Session, pc: Pc, c: Choice)
    requires StepEnabled(x, pc, c)
    ensures var next := Advance(x, pc, c).1;
      !next.EndLock? && (next.EndTrailer? ==> pc.EndLock? || pc.EndTrailer?)
  {
  }

  lemma {:induction false} OwnerRun(s: Machine, acts: seq<Act>, t: nat)
    requires Exec(s, acts).Some? && OneOwner(acts, t) && !s.raced && OnlySender(s, t)
    ensures !Exec(s, acts).value.raced
    decreases |acts|
  {
    if acts != [] {
      OwnerStep(s, acts[0], t);
      assert forall k | 0 <= k < |acts[1..]| :: acts[1..][k] == acts[k + 1];
      OwnerRun(Do(s, acts[0]), acts[1..], t);
    }
  }

  /** The trailers are safe in the hands of one thread. */
  lemma NoRaceWithOneOwner(s0: Machine, acts: seq<Act>, t: nat)
    requires Init(s0) && Exec(s0, acts).Some? && OneOwner(acts, t)
    ensures !Exec(s0, acts).value.raced
  {
    OwnerRun(s0, acts, t);
  }

  /** Two threads are enough: one sets a trailer while the other, past the lock, sends them. */
  lemma TrailersCanRace() returns (s0: Machine, acts: seq<Act>)
    ensures Init(s0) && Exec(s0, acts).Some? && Exec(s0, acts).value.raced
  {
    s0 := Machine(NewSession(true), [Idle, Idle], [], [], [], None, None, true, false, false);
    var s;
    s, acts := Extend(s0, s0, [], Begin(0, SetTrailer("k", "v")));
    s, acts := Extend(s0, s, acts, Begin(0, EndStream));
    s, acts := Extend(s0, s, acts, Step(0, Proceed));
    assert "k" in s.session.trailers;
    assert ReadsTrailers(s.session, s.threads[0]);
    s, acts := Extend(s0, s, acts, Begin(1, SetTrailer("k", "w")));
  }
}
