/**
 * Pending Go-to-Dart requests (pkg/service/ffi_utils.go): a table from request ids to
 * one-slot channels, guarded by a mutex, filled by CreateRequest and emptied by
 * HandleResponse, by the time-out of WaitForResponse and by CleanupPending.
 */
module RequestHandler {
  import opened Basics
  import opened Channels

  /** What is sent on a channel: the response that HandleResponse was given for an id, or nil. */
  datatype Reply = Response(id: nat, data: Bytes) | CleanedUp

  /** A channel is known by a number of its own, which has nothing to do with request ids. */
  datatype Pc =
    | Idle
    | Creating(id: nat, ch: nat)     // has an id and a channel, not yet in the table
    | Waiting(id: nat, ch: nat)      // in WaitForResponse
    | TimedOut(id: nat)              // about to delete the entry
    | Handling(id: nat, data: Bytes)
    | Sending(id: nat, ch: nat, data: Bytes)  // took the channel out of the table
    | Cleaning

  /**
   * `chans` are the channels made so far.  History: `madeFor` is the request that a
   * channel was made for, `sends` counts the values put on it, `dropped` counts the
   * times CleanupPending took its default branch.
   */
  datatype Handler = Handler(
    pending: map<nat, nat>, ids: nat, chans: map<nat, Chan<Reply>>, threads: seq<Pc>,
    madeFor: map<nat, nat>, sends: map<nat, nat>, dropped: nat)

  datatype Act =
    | CreateRequest(t: nat, ch: nat)
    | WaitForResponse(t: nat, id: nat, ch: nat)
    | HandleResponse(t: nat, id: nat, data: Bytes)
    | CleanupPending(t: nat)
    | Step(t: nat, timeout: bool)

  /** The maker of a channel gets one that does not exist yet; all other arguments are free. */
  predicate Enabled(s: Handler, a: Act) {
    a.t < |s.threads| && s.chans.Keys == s.sends.Keys &&
    match a
    case CreateRequest(t, ch) => s.threads[t] == Idle && ch !in s.chans
    case WaitForResponse(t, id, ch) => s.threads[t] == Idle && ch in s.chans
    case HandleResponse(t, _, _) => s.threads[t] == Idle
    case CleanupPending(t) => s.threads[t] == Idle
    case Step(t, timeout) => StepEnabled(s, s.threads[t], timeout)
  }

  predicate StepEnabled(s: Handler, pc: Pc, timeout: bool) {
    match pc
    case Idle => false
    case Waiting(_, ch) => timeout || (ch in s.chans && s.chans[ch].CanRecv())
    case Sending(_, ch, _) => ch in s.chans && s.chans[ch].CanSend()
    case _ => true
  }

  /** The non-blocking send of CleanupPending. */
  function CleanOne(c: Chan<Reply>): Chan<Reply> {
    if c.CanSend() then c.Send(CleanedUp) else c
  }

  /** CleanupPending's loop as a whole: every pending channel gets a cleaned-up reply if it has room. */
  function Cleanup(s: Handler): Handler
    requires s.chans.Keys == s.sends.Keys
  {
    s.(pending := map[],
       chans := map ch | ch in s.chans :: if ch in s.pending.Values then CleanOne(s.chans[ch]) else s.chans[ch],
       sends := map ch | ch in s.sends ::
         if ch in s.pending.Values && s.chans[ch].CanSend() then s.sends[ch] + 1 else s.sends[ch],
       dropped := s.dropped + |set id | id in s.pending && s.pending[id] in s.chans && !s.chans[s.pending[id]].CanSend()|)
  }

  function StepOf(s: Handler, t: nat, timeout: bool): Handler
    requires Enabled(s, Step(t, timeout))
  {
    match s.threads[t]
    case Creating(id, ch) => s.(pending := s.pending[id := ch], threads := s.threads[t := Idle])
    case Waiting(id, ch) =>
      if timeout then s.(threads := s.threads[t := TimedOut(id)])
      else s.(chans := s.chans[ch := s.chans[ch].Recv()], threads := s.threads[t := Idle])
    case TimedOut(id) => s.(pending := s.pending - {id}, threads := s.threads[t := Idle])
    case Handling(id, data) =>
      s.(pending := s.pending - {id},
         threads := s.threads[t := if id in s.pending then Sending(id, s.pending[id], data) else Idle])
    case Sending(id, ch, data) =>
      s.(chans := s.chans[ch := s.chans[ch].Send(Response(id, data))], sends := s.sends[ch := s.sends[ch] + 1],
         threads := s.threads[t := Idle])
    case Cleaning => Cleanup(s).(threads := s.threads[t := Idle])
    case Idle => s  // not enabled
  }

  function Do(s: Handler, a: Act): Handler
    requires Enabled(s, a)
  {
    match a
    case CreateRequest(t, ch) =>
      var id := s.ids + 1;
      s.(ids := id, chans := s.chans[ch := MakeChan(1)], sends := s.sends[ch := 0], madeFor := s.madeFor[ch := id],
         threads := s.threads[t := Creating(id, ch)])
    case WaitForResponse(t, id, ch) => s.(threads := s.threads[t := Waiting(id, ch)])
    case HandleResponse(t, id, data) => s.(threads := s.threads[t := Handling(id, data)])
    case CleanupPending(t) => s.(threads := s.threads[t := Cleaning])
    case Step(t, timeout) => StepOf(s, t, timeout)
  }

  predicate Init(s: Handler) {
    && s.pending == map[] && s.ids == 0 && s.chans == map[] && s.sends == map[] && s.madeFor == map[] && s.dropped == 0
    && forall t | 0 <= t < |s.threads| :: s.threads[t] == Idle
  }

  function Exec(s: Handler, acts: seq<Act>): Option<Handler>
    decreases |acts|
  {
    if acts == [] then Some(s)
    else if Enabled(s, acts[0]) then Exec(Do(s, acts[0]), acts[1..])
    else None
  }

  // ----- the invariant -----

  /** A one-slot channel that is never closed and carries replies to the request it was made for. */
  predicate ChannelOk(s: Handler, ch: nat)
    requires ch in s.chans && s.chans.Keys == s.sends.Keys == s.madeFor.Keys
  {
    var c := s.chans[ch];
    && c.cap == 1 && c.closes == 0 && |c.buf| <= 1
    && (c.buf != [] && c.buf[0].Response? ==> c.buf[0].id == s.madeFor[ch])
    && s.sends[ch] <= 1 && (s.sends[ch] == 0 ==> c.buf == [])
    && 1 <= s.madeFor[ch] <= s.ids
  }

  predicate ChannelsOk(s: Handler) {
    && s.chans.Keys == s.sends.Keys == s.madeFor.Keys
    && forall ch | ch in s.chans :: ChannelOk(s, ch)
  }

  /** The channel was made for the request, and nothing has been put on it. */
  predicate Untouched(s: Handler, id: nat, ch: nat) {
    ch in s.madeFor && s.madeFor[ch] == id && ch in s.sends && s.sends[ch] == 0
  }

  /** The thread will put the channel in the table, or has taken it out to answer. */
  predicate Holds(pc: Pc) {
    pc.Creating? || pc.Sending?
  }

  /**
   * An unanswered channel is in the table under its own request's id, or in the hands of
   * one thread, and nowhere else.
   */
  predicate Places(s: Handler) {
    && (forall id | id in s.pending :: Untouched(s, id, s.pending[id]))
    && (forall t | 0 <= t < |s.threads| && Holds(s.threads[t]) ::
          Untouched(s, s.threads[t].id, s.threads[t].ch) && s.threads[t].id !in s.pending)
    && (forall t, u | 0 <= t < |s.threads| && 0 <= u < |s.threads| && t != u && Holds(s.threads[t]) && Holds(s.threads[u]) ::
          s.threads[t].id != s.threads[u].id)
  }

  predicate Inv(s: Handler) {
    ChannelsOk(s) && Places(s) && s.dropped == 0
  }

  lemma SameChannels(s: Handler, n: Handler)
    requires ChannelsOk(s) && n.chans == s.chans && n.sends == s.sends && n.madeFor == s.madeFor && n.ids == s.ids
    ensures ChannelsOk(n)
  {
    forall ch | ch in n.chans
      ensures ChannelOk(n, ch)
    {
      assert ChannelOk(s, ch);
    }
  }

  lemma CreateChannels(s: Handler, t: nat, ch: nat)
    requires ChannelsOk(s) && Enabled(s, CreateRequest(t, ch))
    ensures ChannelsOk(Do(s, CreateRequest(t, ch)))
  {
    var n := Do(s, CreateRequest(t, ch));
    forall c | c in n.chans
      ensures ChannelOk(n, c)
    {
      assert c != ch ==> ChannelOk(s, c);
    }
  }

  lemma CreatePlaces(s: Handler, t: nat, ch: nat)
    requires Places(s) && Enabled(s, CreateRequest(t, ch))
    requires forall u | 0 <= u < |s.threads| && Holds(s.threads[u]) :: s.threads[u].id <= s.ids && s.threads[u].ch != ch
    requires forall id | id in s.pending :: id <= s.ids && s.pending[id] != ch
    ensures Places(Do(s, CreateRequest(t, ch)))
  {
  }

  lemma CreateKeeps(s: Handler, t: nat, ch: nat)
    requires Inv(s) && Enabled(s, CreateRequest(t, ch))
    ensures Inv(Do(s, CreateRequest(t, ch)))
  {
    CreateChannels(s, t, ch);
    forall u | 0 <= u < |s.threads| && Holds(s.threads[u])
      ensures s.threads[u].id <= s.ids && s.threads[u].ch != ch
    {
      assert ChannelOk(s, s.threads[u].ch);
    }
    forall id | id in s.pending
      ensures id <= s.ids && s.pending[id] != ch
    {
      assert ChannelOk(s, s.pending[id]);
    }
    CreatePlaces(s, t, ch);
  }

  /** The channel of a request that some thread holds is not in the table. */
  lemma HeldIsNotPending(s: Handler, u: nat)
    requires Places(s) && u < |s.threads| && Holds(s.threads[u])
    ensures s.threads[u].ch !in s.pending.Values
  {
    forall id | id in s.pending
      ensures s.pending[id] != s.threads[u].ch
    {
      assert Untouched(s, id, s.pending[id]);
    }
  }

  lemma CleanupPlaces(s: Handler, n: Handler, t: nat)
    requires Places(s) && s.chans.Keys == s.sends.Keys && t < |s.threads|
    requires n == Cleanup(s).(threads := s.threads[t := Idle])
    ensures Places(n)
  {
    forall u | 0 <= u < |n.threads| && Holds(n.threads[u])
      ensures Untouched(n, n.threads[u].id, n.threads[u].ch)
    {
      HeldIsNotPending(s, u);
    }
  }

  lemma CleanupKeeps(s: Handler, t: nat)
    requires Inv(s) && Enabled(s, Step(t, false)) && s.threads[t] == Cleaning
    ensures Inv(StepOf(s, t, false))
  {
    CleanupChannels(s);
    SameChannels(Cleanup(s), StepOf(s, t, false));
    CleanupPlaces(s, StepOf(s, t, false), t);
  }

  /** Every pending channel is empty and has room, so nothing is dropped. */
  lemma CleanupChannels(s: Handler)
    requires ChannelsOk(s) && forall id | id in s.pending :: Untouched(s, id, s.pending[id])
    ensures ChannelsOk(Cleanup(s)) && Cleanup(s).dropped == s.dropped
  {
    forall id | id in s.pending
      ensures s.chans[s.pending[id]].CanSend()
    {
      assert ChannelOk(s, s.pending[id]);
    }
    assert (set id | id in s.pending && s.pending[id] in s.chans && !s.chans[s.pending[id]].CanSend()) == {};
    forall ch | ch in s.chans
      ensures ChannelOk(Cleanup(s), ch)
    {
      assert ChannelOk(s, ch);
      if ch in s.pending.Values {
        var id :| id in s.pending && s.pending[id] == ch;
      }
    }
  }

  /** An entry enters the table, or leaves it for nobody or for its one answerer. */
  lemma TableKeeps(s: Handler, t: nat, timeout: bool)
    requires Inv(s) && Enabled(s, Step(t, timeout))
    requires s.threads[t].Creating? || s.threads[t].TimedOut? || s.threads[t].Handling?
    ensures Inv(StepOf(s, t, timeout))
  {
    SameChannels(s, StepOf(s, t, timeout));
  }

  lemma WaitKeeps(s: Handler, t: nat, timeout: bool)
    requires Inv(s) && Enabled(s, Step(t, timeout)) && s.threads[t].Waiting?
    ensures Inv(StepOf(s, t, timeout))
  {
    var n := StepOf(s, t, timeout);
    forall ch | ch in n.chans
      ensures ChannelOk(n, ch)
    {
      assert ChannelOk(s, ch);
    }
  }

  lemma SendKeeps(s: Handler, t: nat, timeout: bool)
    requires Inv(s) && Enabled(s, Step(t, timeout)) && s.threads[t].Sending?
    ensures Inv(StepOf(s, t, timeout))
  {
    var n := StepOf(s, t, timeout);
    forall ch | ch in n.chans
      ensures ChannelOk(n, ch)
    {
      assert ChannelOk(s, ch);
    }
  }

  lemma ThreadKeeps(s: Handler, t: nat, timeout: bool)
    requires Inv(s) && Enabled(s, Step(t, timeout))
    ensures Inv(StepOf(s, t, timeout))
  {
    match s.threads[t]
    case Cleaning => CleanupKeeps(s, t);
    case Waiting(_, _) => WaitKeeps(s, t, timeout);
    case Sending(_, _, _) => SendKeeps(s, t, timeout);
    case _ => TableKeeps(s, t, timeout);
  }

  /** A call begins: nothing but the thread's control point changes. */
  lemma BeginKeeps(s: Handler, a: Act)
    requires Inv(s) && Enabled(s, a) && !a.CreateRequest? && !a.Step?
    ensures Inv(Do(s, a))
  {
    SameChannels(s, Do(s, a));
  }

  lemma StepInv(s: Handler, a: Act)
    requires Inv(s) && Enabled(s, a)
    ensures Inv(Do(s, a))
  {
    match a
    case CreateRequest(t, ch) => CreateKeeps(s, t, ch);
    case Step(t, timeout) => ThreadKeeps(s, t, timeout);
    case _ => BeginKeeps(s, a);
  }

  lemma {:induction false} ExecInv(s: Handler, acts: seq<Act>)
    requires Inv(s) && Exec(s, acts).Some?
    ensures Inv(Exec(s, acts).value)
    decreases |acts|
  {
    if acts != [] {
      StepInv(s, acts[0]);
      ExecInv(Do(s, acts[0]), acts[1..]);
    }
  }

  // ----- what holds in every run -----

  /**
   * In every run: the channel of a pending request is empty and was made for it, no two
   * requests share one, every channel gets at most one value and no response but its own
   * request's, and CleanupPending never drops a reply.
   */
  lemma PendingChannelsAreEmpty(s0: Handler, acts: seq<Act>)
    requires Init(s0) && Exec(s0, acts).Some?
    ensures var s := Exec(s0, acts).value;
      && (forall id | id in s.pending ::
            s.pending[id] in s.chans && s.chans[s.pending[id]].buf == []
            && s.pending[id] in s.madeFor && s.madeFor[s.pending[id]] == id)
      && (forall i, j | i in s.pending && j in s.pending && s.pending[i] == s.pending[j] :: i == j)
      && (forall ch | ch in s.sends :: s.sends[ch] <= 1)
      && (forall ch, r | ch in s.chans && r in s.chans[ch].buf && r.Response? :: ch in s.madeFor && r.id == s.madeFor[ch])
      && s.dropped == 0
  {
    ExecInv(s0, acts);
    var s := Exec(s0, acts).value;
    forall ch | ch in s.chans
      ensures s.sends[ch] <= 1 && (s.sends[ch] == 0 ==> s.chans[ch].buf == [])
      ensures forall r | r in s.chans[ch].buf && r.Response? :: r.id == s.madeFor[ch]
    {
      assert ChannelOk(s, ch);
    }
  }

  /** HandleResponse never blocks on the channel it took out of the table. */
  lemma SendNeverBlocks(s0: Handler, acts: seq<Act>, t: nat)
    requires Init(s0) && Exec(s0, acts).Some?
    requires var s := Exec(s0, acts).value; t < |s.threads| && s.threads[t].Sending?
    ensures Enabled(Exec(s0, acts).value, Step(t, false))
  {
    ExecInv(s0, acts);
    var s := Exec(s0, acts).value;
    assert ChannelOk(s, s.threads[t].ch);
  }

  /** CleanupPending empties the table and wakes exactly the requests that were in it. */
  lemma CleanupAnswersPending(s0: Handler, acts: seq<Act>, ch: nat)
    requires Init(s0) && Exec(s0, acts).Some? && ch in Exec(s0, acts).value.chans
    ensures var s := Exec(s0, acts).value;
      s.chans.Keys == s.sends.Keys && Cleanup(s).pending == map[] && ch in s.madeFor
      && Cleanup(s).chans[ch] ==
           if s.madeFor[ch] in s.pending && s.pending[s.madeFor[ch]] == ch then s.chans[ch].(buf := [CleanedUp])
           else s.chans[ch]
  {
    ExecInv(s0, acts);
    var s := Exec(s0, acts).value;
    assert ChannelOk(s, ch);
    if ch in s.pending.Values {
      var id :| id in s.pending && s.pending[id] == ch;
    }
  }

  // ----- the source's form -----

  /** The table and the channels, with one method for each section of the source. */
  class RequestTable {
    var pending: map<nat, nat>
    var nextId: nat
    var chans: map<nat, Chan<Reply>>

    constructor ()
      ensures pending == map[] && nextId == 0 && chans == map[]
    {
      pending, nextId, chans := map[], 0, map[];
    }

    /** The two steps of CreateRequest; `ch` is the channel that the run time makes. */
    method CreateRequest(ch: nat) returns (id: nat)
      requires ch !in chans
      modifies this
      ensures id == nextId == old(nextId) + 1
      ensures pending == old(pending)[id := ch] && chans == old(chans)[ch := MakeChan(1)]
    {
      nextId := nextId + 1;
      id := nextId;
      chans := chans[ch := MakeChan(1)];
      pending := pending[id := ch];
    }

    /** The section of HandleResponse: at most one caller ever gets the channel of an id. */
    method Take(id: nat) returns (ch: Option<nat>)
      modifies this`pending
      ensures ch == if id in old(pending) then Some(old(pending)[id]) else None
      ensures pending == old(pending) - {id}
    {
      if id !in pending {
        assert pending - {id} == pending;
        return None;
      }
      ch := Some(pending[id]);
      pending := pending - {id};
    }

    /** The `select` with a default branch. */
    method TrySend(ch: nat) returns (sent: bool)
      requires ch in chans
      modifies this`chans
      ensures chans == old(chans)[ch := CleanOne(old(chans)[ch])] && sent == old(chans)[ch].CanSend()
    {
      sent := chans[ch].CanSend();
      if sent {
        chans := chans[ch := chans[ch].Send(CleanedUp)];
      } else {
        assert chans[ch := chans[ch]] == chans;
      }
    }

    /** CleanupPending: the loop over the table, in any order, with its non-blocking sends. */
    method CleanupPending() returns (dropped: nat)
      requires pending.Values <= chans.Keys && Distinct(pending)
      modifies this`pending, this`chans
      ensures pending == map[] && chans == Cleaned(old(chans), old(pending).Values)
      ensures (forall ch | ch in old(pending).Values :: old(chans)[ch].CanSend()) ==> dropped == 0
    {
      dropped := 0;
      ghost var was, all, done := chans, pending.Values, {};
      while pending != map[]
        invariant Distinct(pending) && Split(all, done, pending)
        invariant chans == Cleaned(was, done)
        invariant (forall ch | ch in all :: was[ch].CanSend()) ==> dropped == 0
        decreases |pending|
      {
        var id :| id in pending;
        var ch := pending[id];
        RemoveOne(all, done, pending, id);
        CleanedMore(was, done, ch);
        var sent := TrySend(ch);
        if !sent {
          dropped := dropped + 1;
        }
        pending := pending - {id};
        done := done + {ch};
      }
    }
  }

  /** No two requests share a channel. */
  ghost predicate Distinct(pending: map<nat, nat>) {
    forall i, j | i in pending && j in pending && pending[i] == pending[j] :: i == j
  }

  /** The channels after a non-blocking send of the cleaned-up reply on some of them. */
  function Cleaned(chans: map<nat, Chan<Reply>>, some: set<nat>): map<nat, Chan<Reply>> {
    map ch | ch in chans :: if ch in some then CleanOne(chans[ch]) else chans[ch]
  }

  lemma CleanedMore(chans: map<nat, Chan<Reply>>, done: set<nat>, ch: nat)
    requires ch in chans && ch !in done
    ensures Cleaned(chans, done)[ch] == chans[ch]
    ensures Cleaned(chans, done)[ch := CleanOne(chans[ch])] == Cleaned(chans, done + {ch})
  {
  }

  /** The channels of the table are those of `all` that are not done. */
  ghost predicate Split(all: set<nat>, done: set<nat>, pending: map<nat, nat>) {
    done <= all && forall v :: v in pending.Values <==> v in all && v !in done
  }

  lemma RemoveOne(all: set<nat>, done: set<nat>, m: map<nat, nat>, id: nat)
    requires id in m && Distinct(m) && Split(all, done, m)
    ensures Distinct(m - {id}) && Split(all, done + {m[id]}, m - {id}) && |m - {id}| < |m|
  {
    var n := m - {id};
    assert n.Keys == m.Keys - {id};
    forall v
      ensures v in n.Values <==> v in m.Values && v != m[id]
    {
      if v in m.Values && v != m[id] {
        var i :| i in m && m[i] == v;
        assert i in n && n[i] == v;
      }
    }
    assert m[id] in m.Values;
    assert |n.Keys| == |n| && |m.Keys| == |m|;
  }
}
