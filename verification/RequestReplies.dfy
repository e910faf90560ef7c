/**
 * Which data a Go-to-Dart request gets: that of the one HandleResponse that took its
 * channel out of the table, read off the calls themselves.
 */
module RequestReplies {
  import opened Basics
  import opened Channels
  import opened RequestHandler

  /** The call that thread `t` has begun last. */
  function Begun(acts: seq<Act>, t: nat): Option<Act> {
    if acts == [] then None
    else
      var last := acts[|acts|-1];
      if !last.Step? && last.t == t then Some(last) else Begun(acts[..|acts|-1], t)
  }

  lemma BegunSnoc(acts: seq<Act>, a: Act, t: nat)
    ensures Begun(acts + [a], t) == if !a.Step? && a.t == t then Some(a) else Begun(acts, t)
  {
    assert (acts + [a])[..|acts|] == acts;
  }

  /** A value that WaitForResponse returned, the id and the channel that it was called with. */
  datatype Received = Received(id: nat, ch: nat, reply: Reply)

  /**
   * A run with its calls: `taken` is, for each channel that some HandleResponse took from
   * the table, the data which that call was given; `received` lists what the calls of
   * WaitForResponse returned.
   */
  datatype Story = Story(now: Handler, past: seq<Act>, taken: map<nat, Bytes>, received: seq<Received>)

  /** The step in which HandleResponse finds its id in the table. */
  predicate Takes(s: Handler, a: Act) {
    a.Step? && a.t < |s.threads| && s.threads[a.t].Handling? && s.threads[a.t].id in s.pending
  }

  /** The step in which WaitForResponse gets a value. */
  predicate Gets(s: Handler, a: Act) {
    && a.Step? && !a.timeout && a.t < |s.threads| && s.threads[a.t].Waiting?
    && s.threads[a.t].ch in s.chans && s.chans[s.threads[a.t].ch].CanRecv()
  }

  function DataOf(call: Option<Act>): Bytes {
    if call.Some? && call.value.HandleResponse? then call.value.data else []
  }

  function Next(y: Story, a: Act): Story
    requires Enabled(y.now, a)
  {
    Story(Do(y.now, a), y.past + [a],
          if Takes(y.now, a) then y.taken[y.now.pending[y.now.threads[a.t].id] := DataOf(Begun(y.past, a.t))] else y.taken,
          if Gets(y.now, a) then
            var pc := y.now.threads[a.t];
            y.received + [Received(pc.id, pc.ch, y.now.chans[pc.ch].buf[0])]
          else y.received)
  }

  function Tell(y: Story, acts: seq<Act>): Story
    requires Exec(y.now, acts).Some?
    decreases |acts|
  {
    if acts == [] then y else Tell(Next(y, acts[0]), acts[1..])
  }

  function Start(s: Handler): Story {
    Story(s, [], map[], [])
  }

  /** A thread that handles a response carries what its call was given. */
  predicate Carries(y: Story, pc: Pc, call: Option<Act>) {
    match pc
    case Handling(id, data) =>
      call.Some? && call.value.HandleResponse? && call.value.id == id && call.value.data == data
    case Sending(_, ch, data) => ch in y.taken && y.taken[ch] == data
    case _ => true
  }

  /** A response is what the taker of its channel was given. */
  predicate IsTaken(taken: map<nat, Bytes>, ch: nat, r: Reply) {
    r.Response? ==> ch in taken && taken[ch] == r.data
  }

  predicate Matches(y: Story) {
    && (forall t | 0 <= t < |y.now.threads| :: Carries(y, y.now.threads[t], Begun(y.past, t)))
    && (forall ch, r | ch in y.now.chans && r in y.now.chans[ch].buf :: IsTaken(y.taken, ch, r))
    && (forall i | 0 <= i < |y.received| :: IsTaken(y.taken, y.received[i].ch, y.received[i].reply))
    && (forall ch | ch in y.taken :: ch in y.now.chans)
  }

  /** What was taken once has nobody else to take it: its channel is in no other thread's hands. */
  lemma TakenElsewhere(s: Handler, t: nat, u: nat)
    requires Inv(s) && t < |s.threads| && u < |s.threads|
    requires s.threads[t].Handling? && s.threads[t].id in s.pending && s.threads[u].Sending?
    ensures s.threads[u].ch != s.pending[s.threads[t].id]
  {
  }

  /** The channel of an entry in the table is empty. */
  lemma PendingIsEmpty(s: Handler, id: nat)
    requires Inv(s) && id in s.pending
    ensures s.pending[id] in s.chans && s.chans[s.pending[id]].buf == []
  {
    assert ChannelOk(s, s.pending[id]);
  }

  /** The step that takes a channel. */
  lemma TakeMatches(y: Story, a: Act)
    requires Matches(y) && Inv(y.now) && Enabled(y.now, a) && Takes(y.now, a)
    requires forall i | 0 <= i < |y.received| :: y.received[i].reply.Response? ==>
      y.received[i].ch != y.now.pending[y.now.threads[a.t].id]
    ensures Matches(Next(y, a))
  {
    var s, n, z := y.now, Do(y.now, a), Next(y, a);
    var id := s.threads[a.t].id;
    var ch := s.pending[id];
    PendingIsEmpty(s, id);
    forall u | 0 <= u < |n.threads|
      ensures Carries(z, n.threads[u], Begun(z.past, u))
    {
      BegunSnoc(y.past, a, u);
      if u != a.t && s.threads[u].Sending? {
        TakenElsewhere(s, a.t, u);
      }
    }
  }

  /** Any other step. */
  lemma OtherMatches(y: Story, a: Act)
    requires Matches(y) && Inv(y.now) && Enabled(y.now, a) && !Takes(y.now, a)
    ensures Matches(Next(y, a))
  {
    var n, z := Do(y.now, a), Next(y, a);
    forall u | 0 <= u < |n.threads|
      ensures Carries(z, n.threads[u], Begun(z.past, u))
    {
      BegunSnoc(y.past, a, u);
    }
    forall ch, r | ch in n.chans && r in n.chans[ch].buf
      ensures IsTaken(z.taken, ch, r)
    {
      BufferStep(y, a, ch, r);
    }
  }

  /** A value in a channel was there before, or is nil, or is put there by the thread that took it. */
  lemma BufferStep(y: Story, a: Act, ch: nat, r: Reply)
    requires Matches(y) && Inv(y.now) && Enabled(y.now, a) && !Takes(y.now, a)
    requires ch in Do(y.now, a).chans && r in Do(y.now, a).chans[ch].buf
    ensures IsTaken(y.taken, ch, r)
  {
    if r.Response? && !(ch in y.now.chans && r in y.now.chans[ch].buf) {
      NewResponse(y.now, a, ch, r);
      assert Carries(y, y.now.threads[a.t], Begun(y.past, a.t));
    }
  }

  lemma NewResponse(s: Handler, a: Act, ch: nat, r: Reply)
    requires Enabled(s, a) && ch in Do(s, a).chans && r in Do(s, a).chans[ch].buf
    requires r.Response? && !(ch in s.chans && r in s.chans[ch].buf)
    ensures a.Step? && s.threads[a.t].Sending? && s.threads[a.t].ch == ch && s.threads[a.t].data == r.data
  {
  }

  /** The channel has had its value, and has been emptied for good. */
  predicate Spent(s: Handler, ch: nat) {
    ch in s.chans && s.chans[ch].buf == [] && ch in s.sends && s.sends[ch] > 0
  }

  /** Every value that has been received has left a spent channel behind, each its own. */
  predicate Answered(y: Story) {
    && (forall i | 0 <= i < |y.received| :: Spent(y.now, y.received[i].ch))
    && (forall i, j | 0 <= i < j < |y.received| :: y.received[i].ch != y.received[j].ch)
  }

  /** Nothing is put on a spent channel: whoever sends has a channel that had no value yet. */
  lemma SpentStays(s: Handler, a: Act, ch: nat)
    requires Inv(s) && Enabled(s, a) && Spent(s, ch)
    ensures Spent(Do(s, a), ch)
  {
    if a.Step? && s.threads[a.t].Cleaning? {
      SpentIsNotPending(s, ch);
    }
  }

  lemma SpentIsNotPending(s: Handler, ch: nat)
    requires Places(s) && Spent(s, ch)
    ensures ch !in s.pending.Values
  {
  }

  lemma AnsweredStep(y: Story, a: Act)
    requires Answered(y) && Inv(y.now) && Enabled(y.now, a)
    ensures Answered(Next(y, a))
  {
    forall i | 0 <= i < |y.received|
      ensures Spent(Do(y.now, a), y.received[i].ch)
    {
      SpentStays(y.now, a, y.received[i].ch);
    }
    if Gets(y.now, a) {
      assert ChannelOk(y.now, y.now.threads[a.t].ch);
    }
  }

  lemma {:induction false} TellMatches(y: Story, acts: seq<Act>)
    requires Matches(y) && Answered(y) && Inv(y.now) && Exec(y.now, acts).Some?
    ensures Matches(Tell(y, acts)) && Answered(Tell(y, acts)) && Tell(y, acts).now == Exec(y.now, acts).value
    decreases |acts|
  {
    if acts != [] {
      if Takes(y.now, acts[0]) {
        TakeMatches(y, acts[0]);
      } else {
        OtherMatches(y, acts[0]);
      }
      AnsweredStep(y, acts[0]);
      StepInv(y.now, acts[0]);
      TellMatches(Next(y, acts[0]), acts[1..]);
    }
  }

  /**
   * In every run: a response that is on a channel, or that WaitForResponse returned from
   * it, is the data of the HandleResponse that took the channel out of the table; and no
   * two calls of WaitForResponse get a value from the same channel.
   */
  lemma ReplyIsTheTakers(s0: Handler, acts: seq<Act>)
    requires Init(s0) && Exec(s0, acts).Some?
    ensures var y, s := Tell(Start(s0), acts), Exec(s0, acts).value;
      && (forall ch, r | ch in s.chans && r in s.chans[ch].buf :: IsTaken(y.taken, ch, r))
      && (forall i | 0 <= i < |y.received| :: IsTaken(y.taken, y.received[i].ch, y.received[i].reply))
      && (forall i, j | 0 <= i < j < |y.received| :: y.received[i].ch != y.received[j].ch)
  {
    TellMatches(Start(s0), acts);
  }

  // ----- one request from beginning to end -----

  lemma {:induction false} TellSnoc(y: Story, acts: seq<Act>, a: Act)
    requires Exec(y.now, acts).Some? && Tell(y, acts).now == Exec(y.now, acts).value
    requires Enabled(Tell(y, acts).now, a)
    ensures Exec(y.now, acts + [a]).Some? && Tell(y, acts + [a]) == Next(Tell(y, acts), a)
    ensures Exec(y.now, acts + [a]).value == Next(Tell(y, acts), a).now
    decreases |acts|
  {
    if acts == [] {
      assert [a][1..] == [];
    } else {
      TellSnoc(Next(y, acts[0]), acts[1..], a);
      assert (acts + [a])[1..] == acts[1..] + [a];
    }
  }

  lemma Extend(y: Story, z: Story, acts: seq<Act>, a: Act) returns (z': Story, acts': seq<Act>)
    requires Exec(y.now, acts).Some? && Tell(y, acts) == z && z.now == Exec(y.now, acts).value && Enabled(z.now, a)
    ensures Exec(y.now, acts').Some? && Tell(y, acts') == z' && z'.now == Exec(y.now, acts').value && z' == Next(z, a)
  {
    TellSnoc(y, acts, a);
    z', acts' := Next(z, a), acts + [a];
  }

  /** CreateRequest by itself puts a fresh id with a fresh, empty channel into the table. */
  lemma Creates(y: Story, t: nat, ch: nat) returns (z: Story, acts: seq<Act>)
    requires y.now.chans.Keys == y.now.sends.Keys
    requires t < |y.now.threads| && y.now.threads[t] == Idle && ch !in y.now.chans
    ensures Exec(y.now, acts).Some? && Tell(y, acts) == z && z.now == Exec(y.now, acts).value
    ensures var s, id := y.now, y.now.ids + 1;
      && z.now.pending == s.pending[id := ch] && z.now.chans == s.chans[ch := MakeChan(1)]
      && z.now.sends.Keys == z.now.chans.Keys && z.now.threads == s.threads && z.received == y.received
  {
    z, acts := MakesChannel(y, t, ch);
    z, acts := EntersTable(y, z, acts, t);
    assert z.now.threads == y.now.threads;
  }

  lemma MakesChannel(y: Story, t: nat, ch: nat) returns (z: Story, acts: seq<Act>)
    requires y.now.chans.Keys == y.now.sends.Keys
    requires t < |y.now.threads| && y.now.threads[t] == Idle && ch !in y.now.chans
    ensures Exec(y.now, acts).Some? && Tell(y, acts) == z && z.now == Exec(y.now, acts).value
    ensures var s := y.now;
      z.now == s.(ids := s.ids + 1, chans := s.chans[ch := MakeChan(1)], sends := s.sends[ch := 0],
                  madeFor := s.madeFor[ch := s.ids + 1], threads := s.threads[t := Creating(s.ids + 1, ch)])
      && z.received == y.received
  {
    z, acts := Extend(y, y, [], CreateRequest(t, ch));
  }

  lemma EntersTable(y0: Story, y: Story, pre: seq<Act>, t: nat) returns (z: Story, acts: seq<Act>)
    requires Exec(y0.now, pre).Some? && Tell(y0, pre) == y && y.now == Exec(y0.now, pre).value
    requires t < |y.now.threads| && y.now.threads[t].Creating? && y.now.chans.Keys == y.now.sends.Keys
    ensures Exec(y0.now, acts).Some? && Tell(y0, acts) == z && z.now == Exec(y0.now, acts).value
    ensures var pc := y.now.threads[t];
      z.now == y.now.(pending := y.now.pending[pc.id := pc.ch], threads := y.now.threads[t := Idle])
      && z.received == y.received
  {
    z, acts := Extend(y0, y, pre, Step(t, false));
  }

  /** HandleResponse by itself takes the entry and puts its data on the channel. */
  lemma Handles(y0: Story, y: Story, pre: seq<Act>, u: nat, id: nat, data: Bytes) returns (z: Story, acts: seq<Act>)
    requires Exec(y0.now, pre).Some? && Tell(y0, pre) == y && y.now == Exec(y0.now, pre).value
    requires u < |y.now.threads| && y.now.threads[u] == Idle && y.now.chans.Keys == y.now.sends.Keys
    requires id in y.now.pending && y.now.pending[id] in y.now.chans && y.now.chans[y.now.pending[id]] == MakeChan(1)
    ensures Exec(y0.now, acts).Some? && Tell(y0, acts) == z && z.now == Exec(y0.now, acts).value
    ensures var ch := y.now.pending[id];
      && z.now.pending == y.now.pending - {id} && z.now.threads == y.now.threads
      && z.now.chans == y.now.chans[ch := MakeChan(1).Send(Response(id, data))]
      && z.now.sends.Keys == z.now.chans.Keys && z.received == y.received
  {
    z, acts := Extend(y0, y, pre, HandleResponse(u, id, data));
    z, acts := Extend(y0, z, acts, Step(u, false));
    z, acts := Extend(y0, z, acts, Step(u, false));
    assert z.now.threads == y.now.threads;
  }

  /** One request, its response and the wait for it, undisturbed: the wait returns the data that was sent for the id. */
  lemma LoneRequest(s0: Handler, pre: seq<Act>, s: Handler, t: nat, u: nat, ch: nat, data: Bytes)
      returns (z: Story, acts: seq<Act>)
    requires Init(s0) && Exec(s0, pre) == Some(s)
    requires t < |s.threads| && u < |s.threads| && s.threads[t] == Idle && s.threads[u] == Idle && ch !in s.chans
    ensures Exec(s, acts).Some? && Tell(Start(s), acts) == z && z.now == Exec(s, acts).value
    ensures z.received == [Received(s.ids + 1, ch, Response(s.ids + 1, data))] && s.ids + 1 !in z.now.pending
  {
    SameKeys(s0, pre);
    var r := Received(s.ids + 1, ch, Response(s.ids + 1, data));
    assert Start(s).received + [r] == [r];
    z, acts := RequestRun(Start(s), t, u, ch, data);
  }

  lemma SameKeys(s0: Handler, pre: seq<Act>)
    requires Init(s0) && Exec(s0, pre).Some?
    ensures Exec(s0, pre).value.chans.Keys == Exec(s0, pre).value.sends.Keys
  {
    ExecInv(s0, pre);
  }

  lemma RequestRun(y: Story, t: nat, u: nat, ch: nat, data: Bytes) returns (z: Story, acts: seq<Act>)
    requires y.now.chans.Keys == y.now.sends.Keys && ch !in y.now.chans
    requires t < |y.now.threads| && u < |y.now.threads| && y.now.threads[t] == Idle && y.now.threads[u] == Idle
    ensures Exec(y.now, acts).Some? && Tell(y, acts) == z && z.now == Exec(y.now, acts).value
    ensures var id := y.now.ids + 1;
      z.received == y.received + [Received(id, ch, Response(id, data))] && id !in z.now.pending
  {
    var id := y.now.ids + 1;
    z, acts := Creates(y, t, ch);
    z, acts := Handles(y, z, acts, u, id, data);
    z, acts := Waits(y, z, acts, t, id, ch);
  }

  /** WaitForResponse by itself returns the value on its channel. */
  lemma Waits(y0: Story, y: Story, pre: seq<Act>, t: nat, id: nat, ch: nat) returns (z: Story, acts: seq<Act>)
    requires Exec(y0.now, pre).Some? && Tell(y0, pre) == y && y.now == Exec(y0.now, pre).value
    requires t < |y.now.threads| && y.now.threads[t] == Idle && y.now.chans.Keys == y.now.sends.Keys
    requires ch in y.now.chans && y.now.chans[ch].CanRecv()
    ensures Exec(y0.now, acts).Some? && Tell(y0, acts) == z && z.now == Exec(y0.now, acts).value
    ensures z.received == y.received + [Received(id, ch, y.now.chans[ch].buf[0])] && z.now.pending == y.now.pending
  {
    z, acts := Extend(y0, y, pre, WaitForResponse(t, id, ch));
    z, acts := Extend(y0, z, acts, Step(t, false));
  }

  /** A WaitForResponse that times out takes its id out of the table and nothing else. */
  lemma TimesOut(y: Story, t: nat, id: nat, ch: nat) returns (z: Story, acts: seq<Act>)
    requires t < |y.now.threads| && y.now.threads[t] == Idle && y.now.chans.Keys == y.now.sends.Keys && ch in y.now.chans
    ensures Exec(y.now, acts).Some? && Tell(y, acts) == z && z.now == Exec(y.now, acts).value
    ensures z.now == y.now.(pending := y.now.pending - {id}) && z.received == y.received
  {
    z, acts := Extend(y, y, [], WaitForResponse(t, id, ch));
    z, acts := Extend(y, z, acts, Step(t, true));
    z, acts := Extend(y, z, acts, Step(t, false));
    assert z.now.threads == y.now.threads;
  }

  lemma TwoSteps(s: Handler, a: Act, b: Act)
    requires Enabled(s, a) && Enabled(Do(s, a), b)
    ensures Exec(s, [a, b]) == Some(Do(Do(s, a), b))
  {
    assert [a, b][1..] == [b];
    assert Exec(Do(s, a), [b]) == Some(Do(Do(s, a), b));
  }

  /** A response for an id that is not in the table, late or made up, changes nothing. */
  lemma UnknownResponseIsIgnored(s: Handler, t: nat, id: nat, data: Bytes)
    requires t < |s.threads| && s.threads[t] == Idle && s.chans.Keys == s.sends.Keys && id !in s.pending
    ensures Exec(s, [HandleResponse(t, id, data), Step(t, false)]) == Some(s)
  {
    var n := Do(s, HandleResponse(t, id, data));
    TwoSteps(s, HandleResponse(t, id, data), Step(t, false));
    assert s.pending - {id} == s.pending && n.threads[t := Idle] == s.threads;
  }

  /** A CleanupPending that is called answers what is pending and empties the table. */
  lemma CleansUp(s: Handler, t: nat)
    requires t < |s.threads| && s.threads[t] == Idle && s.chans.Keys == s.sends.Keys
    ensures var n := Do(s, CleanupPending(t));
      && n == s.(threads := n.threads) && Cleanup(n).pending == map[]
      && Exec(s, [CleanupPending(t), Step(t, false)]) == Some(Cleanup(n).(threads := s.threads))
  {
    var n := Do(s, CleanupPending(t));
    assert n.threads[t := Idle] == s.threads;
    TwoSteps(s, CleanupPending(t), Step(t, false));
    CleaningStep(n, t);
  }

  lemma CleaningStep(n: Handler, t: nat)
    requires t < |n.threads| && n.threads[t] == Cleaning && n.chans.Keys == n.sends.Keys
    ensures Do(n, Step(t, false)) == Cleanup(n).(threads := n.threads[t := Idle])
  {
  }
}
