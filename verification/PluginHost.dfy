/**
 * The host's record of a loaded plugin (pkg/synurang/plugin.go).
 *
 * `Host` is the value of that record; its functions are the mutex sections of the
 * source, each of them one atomic step.  The class `Plugin` performs the same sections
 * on fields and is proved to do what the functions say.  The library itself is foreign:
 * what a symbol look-up finds is an argument.
 */
module PluginHost {
  import opened Basics

  datatype StreamFuncs = StreamFuncs(send: nat, recv: nat, closeSend: nat, close: nat) {
    predicate Complete() {
      send != 0 && recv != 0 && closeSend != 0 && close != 0
    }
  }

  /** What the library exports, 0 for what it does not: the functions of each service, and the stream functions. */
  datatype Library = Library(invokers: map<string, nat>, openers: map<string, nat>, funcs: StreamFuncs) {
    function Invoker(service: string): nat {
      if service in invokers then invokers[service] else 0
    }

    function Opener(service: string): nat {
      if service in openers then openers[service] else 0
    }
  }

  datatype Lookup = Found(ptr: nat) | LookupClosed | LookupMissing

  datatype Acquired = Acquired | PluginClosed | NoStreamFuncs

  /** What StreamClose decided under the lock. */
  datatype Claim = NotMine | ClaimedSilently | Claimed(closeFn: nat)

  /** What Close took from the record under its first lock. */
  datatype Closing = AlreadyClosed | Closing(handles: set<nat>, closeFn: nat)

  datatype Host = Host(
    handle: nat, closed: bool,
    invokers: map<string, nat>, streamOpeners: map<string, nat>, streamFuncs: Option<StreamFuncs>,
    activeStreams: set<nat>, wg: nat)
  {
    /** First section of Invoke and of OpenStream. */
    function Acquire(): (Host, bool) {
      if closed then (this, false) else (this.(wg := wg + 1), true)
    }

    function AcquireForStreamOp(): (Host, Acquired) {
      if closed then (this, PluginClosed)
      else if streamFuncs.None? then (this, NoStreamFuncs)
      else (this.(wg := wg + 1), Acquired.Acquired)
    }

    function Add(): Host {
      this.(wg := wg + 1)
    }

    function Done(): Host
      requires wg > 0
    {
      this.(wg := wg - 1)
    }

    /** Second section of getInvoker; `sym` is what the symbol look-up would give. */
    function ResolveInvoker(service: string, sym: nat): (Host, Lookup) {
      if closed || handle == 0 then (this, LookupClosed)
      else if service in invokers then (this, Found(invokers[service]))
      else if sym == 0 then (this, LookupMissing)
      else (this.(invokers := invokers[service := sym]), Found(sym))
    }

    function EnsureStreamFuncs(syms: StreamFuncs): (Host, bool) {
      if streamFuncs.Some? then (this, true)
      else if !syms.Complete() then (this, false)
      else (this.(streamFuncs := Some(syms)), true)
    }

    /** Second section of getStreamOpener. */
    function ResolveOpener(service: string, syms: StreamFuncs, sym: nat): (Host, Lookup) {
      if closed || handle == 0 then (this, LookupClosed)
      else if service in streamOpeners then (this, Found(streamOpeners[service]))
      else
        var (h, ok) := EnsureStreamFuncs(syms);
        if !ok || sym == 0 then (h, LookupMissing)
        else (h.(streamOpeners := h.streamOpeners[service := sym]), Found(sym))
    }

    /** Last section of OpenStream: false means that the stream must be closed again. */
    function Track(stream: nat): (Host, bool) {
      if closed then (this, false) else (this.(activeStreams := activeStreams + {stream}), true)
    }

    /** The section of StreamClose. */
    function ClaimStream(stream: nat): (Host, Claim) {
      if closed || handle == 0 || stream !in activeStreams then (this, NotMine)
      else
        var h := this.(activeStreams := activeStreams - {stream});
        if streamFuncs.None? then (h, ClaimedSilently)
        else (h.(wg := wg + 1), Claimed(streamFuncs.value.close))
    }

    /** First section of Close. */
    function BeginClose(): (Host, Closing) {
      if closed then (this, AlreadyClosed)
      else (this.(closed := true, activeStreams := {}),
            Closing(activeStreams, if streamFuncs.Some? then streamFuncs.value.close else 0))
    }

    /** Last section of Close; the flag says whether the library was unloaded. */
    function Unload(): (Host, bool) {
      (this.(handle := 0), handle != 0)
    }
  }

  /** What LoadPlugin builds once the library is open and exports Synurang_Free. */
  function Loaded(handle: nat): Host {
    Host(handle, false, map[], map[], None, {}, 0)
  }

  lemma CollectOne(hs: seq<nat>, h: nat)
    ensures (set x | x in hs + [h]) == (set x | x in hs) + {h}
    ensures forall i | 0 <= i < |hs| :: hs[i] in (set x | x in hs)
  {
  }

  /** The record as the source keeps it, with one method for each mutex section. */
  class Plugin {
    var handle: nat
    var closed: bool
    var invokers: map<string, nat>
    var streamOpeners: map<string, nat>
    var streamFuncs: Option<StreamFuncs>
    var activeStreams: map<nat, bool>
    var wg: nat
    ghost var closeCalls: seq<nat>  // the stream close calls made into the library

    ghost function State(): Host
      reads this
    {
      Host(handle, closed, invokers, streamOpeners, streamFuncs, activeStreams.Keys, wg)
    }

    constructor (libraryHandle: nat)
      ensures State() == Loaded(libraryHandle) && closeCalls == []
    {
      handle, closed, wg := libraryHandle, false, 0;
      invokers, streamOpeners, streamFuncs, activeStreams, closeCalls := map[], map[], None, map[], [];
    }

    method Acquire() returns (ok: bool)
      modifies this`wg
      ensures (State(), ok) == old(State()).Acquire()
      ensures (ok <==> !closed) && wg == old(wg) + (if ok then 1 else 0)
    {
      if closed {
        return false;
      }
      wg := wg + 1;
      return true;
    }

    method AcquireForStreamOp() returns (r: Acquired)
      modifies this`wg
      ensures (State(), r) == old(State()).AcquireForStreamOp()
      ensures (r == PluginClosed <==> closed) && (r == NoStreamFuncs <==> !closed && streamFuncs.None?)
      ensures wg == old(wg) + (if r.Acquired? then 1 else 0)
    {
      if closed {
        return PluginClosed;
      }
      if streamFuncs.None? {
        return NoStreamFuncs;
      }
      wg := wg + 1;
      return Acquired.Acquired;
    }

    /** The answer is what is cached for the service, else what the library exports, which is cached from then on. */
    method ResolveInvoker(service: string, sym: nat) returns (r: Lookup)
      modifies this`invokers
      ensures (State(), r) == old(State()).ResolveInvoker(service, sym)
      ensures r == LookupClosed <==> closed || handle == 0
      ensures forall fn :: r == Found(fn) <==>
        !closed && handle != 0 && if service in old(invokers) then fn == old(invokers)[service] else fn == sym && sym != 0
      ensures r == LookupMissing <==> !closed && handle != 0 && service !in old(invokers) && sym == 0
      ensures invokers == if r.Found? then old(invokers)[service := r.ptr] else old(invokers)
    {
      if closed || handle == 0 {
        return LookupClosed;
      }
      if service in invokers {
        return Found(invokers[service]);
      }
      if sym == 0 {
        return LookupMissing;
      }
      invokers := invokers[service := sym];
      return Found(sym);
    }

    method EnsureStreamFuncs(syms: StreamFuncs) returns (ok: bool)
      modifies this`streamFuncs
      ensures (State(), ok) == old(State()).EnsureStreamFuncs(syms)
      ensures ok <==> old(streamFuncs).Some? || syms.Complete()
      ensures streamFuncs == if old(streamFuncs).None? && ok then Some(syms) else old(streamFuncs)
    {
      if streamFuncs.Some? {
        return true;
      }
      if syms.send == 0 || syms.recv == 0 || syms.closeSend == 0 || syms.close == 0 {
        return false;
      }
      streamFuncs := Some(syms);
      return true;
    }

    /** The same for the function that opens streams, which is of use only with all four stream functions. */
    method ResolveOpener(service: string, syms: StreamFuncs, sym: nat) returns (r: Lookup)
      modifies this`streamFuncs, this`streamOpeners
      ensures (State(), r) == old(State()).ResolveOpener(service, syms, sym)
      ensures r == LookupClosed <==> closed || handle == 0
      ensures forall fn :: r == Found(fn) <==>
        && !closed && handle != 0
        && if service in old(streamOpeners) then fn == old(streamOpeners)[service]
           else fn == sym && sym != 0 && (old(streamFuncs).Some? || syms.Complete())
      ensures streamOpeners == if r.Found? then old(streamOpeners)[service := r.ptr] else old(streamOpeners)
      ensures streamFuncs == old(streamFuncs) || (old(streamFuncs).None? && syms.Complete() && streamFuncs == Some(syms))
      ensures r.Found? && service !in old(streamOpeners) ==> streamFuncs.Some?
    {
      if closed || handle == 0 {
        return LookupClosed;
      }
      if service in streamOpeners {
        return Found(streamOpeners[service]);
      }
      var ok := EnsureStreamFuncs(syms);
      if !ok || sym == 0 {
        return LookupMissing;
      }
      streamOpeners := streamOpeners[service := sym];
      return Found(sym);
    }

    method Track(stream: nat) returns (ok: bool)
      modifies this`activeStreams
      ensures (State(), ok) == old(State()).Track(stream)
      ensures (ok <==> !closed) && activeStreams.Keys == old(activeStreams).Keys + (if closed then {} else {stream})
    {
      if closed {
        return false;
      }
      activeStreams := activeStreams[stream := true];
      assert activeStreams.Keys == old(activeStreams.Keys) + {stream};
      return true;
    }

    method ClaimStream(stream: nat) returns (r: Claim)
      modifies this`activeStreams, this`wg
      ensures (State(), r) == old(State()).ClaimStream(stream)
      ensures r == NotMine <==> closed || handle == 0 || stream !in old(activeStreams)
      ensures activeStreams.Keys == old(activeStreams).Keys - (if r == NotMine then {} else {stream})
      ensures r.Claimed? <==> r != NotMine && streamFuncs.Some?
      ensures r.Claimed? ==> r.closeFn == streamFuncs.value.close
      ensures wg == old(wg) + (if r.Claimed? then 1 else 0)
    {
      if closed || handle == 0 {
        return NotMine;
      }
      if stream !in activeStreams {
        return NotMine;
      }
      activeStreams := activeStreams - {stream};
      if streamFuncs.None? {
        return ClaimedSilently;
      }
      wg := wg + 1;
      return Claimed(streamFuncs.value.close);
    }

    /** First section of Close: collects the handles in whatever order the map yields them. */
    method BeginClose() returns (first: bool, handles: seq<nat>, closeFn: nat)
      modifies this`closed, this`activeStreams
      ensures State() == old(State()).BeginClose().0
      ensures first == old(State()).BeginClose().1.Closing?
      ensures first ==> old(State()).BeginClose().1 == Closing((set h | h in handles), closeFn)
      ensures forall i, j | 0 <= i < j < |handles| :: handles[i] != handles[j]
      ensures closed && first == !old(closed) && activeStreams.Keys == if first then {} else old(activeStreams).Keys
      ensures (set h | h in handles) == if first then old(activeStreams).Keys else {}
      ensures first ==> closeFn == if streamFuncs.Some? then streamFuncs.value.close else 0
    {
      handles, closeFn := [], 0;
      if closed {
        return false, handles, closeFn;
      }
      closed := true;
      ghost var all := activeStreams.Keys;
      var rest := activeStreams.Keys;
      while rest != {}
        invariant rest <= activeStreams.Keys == all && closed
        invariant (set h | h in handles) == activeStreams.Keys - rest
        invariant forall i, j | 0 <= i < j < |handles| :: handles[i] != handles[j]
        decreases rest
      {
        var h :| h in rest;
        CollectOne(handles, h);
        assert activeStreams.Keys - (rest - {h}) == (activeStreams.Keys - rest) + {h};
        handles := handles + [h];
        rest := rest - {h};
      }
      assert (set h | h in handles) == all;
      activeStreams := map[];
      assert activeStreams.Keys == {};
      if streamFuncs.Some? {
        closeFn := streamFuncs.value.close;
      }
      first := true;
    }

    method Unload() returns (unloaded: bool)
      modifies this`handle
      ensures (State(), unloaded) == old(State()).Unload()
      ensures handle == 0 && (unloaded <==> old(handle) != 0)
    {
      unloaded := handle != 0;
      if handle != 0 {
        handle := 0;
      }
    }

    /**
     * The whole of Close without interference; false when it waits for calls in flight.
     * It closes every tracked stream once, in some order, leaves the WaitGroup as it
     * was, and unloads when nothing is in flight; closing again does nothing.
     */
    method Close() returns (finished: bool)
      requires streamFuncs.Some? ==> streamFuncs.value.Complete()
      modifies this
      ensures old(closed) ==> finished && State() == old(State()) && closeCalls == old(closeCalls)
      ensures !old(closed) ==>
        && closed && activeStreams == map[] && wg == old(wg)
        && multiset(closeCalls) == multiset(old(closeCalls))
             + (if streamFuncs.Some? then multiset(old(activeStreams).Keys) else multiset{})
        && (finished <==> wg == 0) && handle == (if finished then 0 else old(handle))
    {
      var first, handles, closeFn := BeginClose();
      if !first {
        return true;
      }
      EachOnce(handles);
      if closeFn != 0 {
        for i := 0 to |handles|
          invariant wg == old(wg) && closed && activeStreams == map[] && handle == old(handle)
          invariant streamFuncs == old(streamFuncs)
          invariant closeCalls == old(closeCalls) + handles[..i]
        {
          wg := wg + 1;
          closeCalls := closeCalls + [handles[i]];
          wg := wg - 1;
        }
        assert handles[..|handles|] == handles;
      }
      if wg != 0 {
        return false;
      }
      var unloaded := Unload();
      return true;
    }

    /** The whole of StreamClose without interference: a tracked stream of an open plugin is closed, once. */
    method StreamClose(stream: nat)
      requires streamFuncs.Some? ==> streamFuncs.value.Complete()
      modifies this
      ensures activeStreams.Keys == old(activeStreams).Keys - (if closed || handle == 0 then {} else {stream})
      ensures closeCalls == old(closeCalls) +
        if !closed && handle != 0 && stream in old(activeStreams) && streamFuncs.Some? then [stream] else []
      ensures wg == old(wg) && closed == old(closed) && handle == old(handle) && streamFuncs == old(streamFuncs)
    {
      var claim := ClaimStream(stream);
      if claim.Claimed? {
        closeCalls := closeCalls + [stream];
        wg := wg - 1;
      }
    }
  }

  lemma {:induction false} EachOnce(hs: seq<nat>)
    requires forall i, j | 0 <= i < j < |hs| :: hs[i] != hs[j]
    ensures multiset(hs) == multiset(set h | h in hs)
  {
    if hs != [] {
      var front, last := hs[..|hs|-1], hs[|hs|-1];
      EachOnce(front);
      CollectOne(front, last);
      assert hs == front + [last];
    }
  }
}
