# Synurang: verified models of its lifecycle, channel, cache and scheduling code

Synurang carries gRPC over FFI. Its difficult code is not the marshalling but the
protocols around it: who may call into a shared library while it is being unloaded, who
closes which channel, what a receiver sees when data, errors and cancellation race, what
the cache may forget, and how requests are spread over workers. This project models that
code and proves what holds over every run.

Concurrent components are step systems. A state and a label determine the next state
(`Enabled`, `Do`), and `Exec` runs a list of labels, so a theorem about all lists of
labels is a theorem about every interleaving, every choice of a `select`, and everything
the user's handlers and callers may do. One step is one mutex section, one channel
operation, one atomic swap or one boundary of a foreign call. Objects that the source
changes in place are also classes here; the contract of a method says what the fields
are afterwards, and equates them with a step, with the steps of an undisturbed call, or
with a specification function.

| file | models |
|---|---|
| `Channels` | bytes, options, Go's buffered channels (closing is counted) |
| `PluginServer`, `PluginCalls` | one stream inside the plugin: exported functions and handler goroutine, as steps and as an object |
| `PluginStreamRuns`, `PluginWholeCalls`, `PluginHalfClose` | all runs of one stream, and whole receives and half-closes within them |
| `PluginHandlerRuns` | those runs read off the handler's own calls: how it ended and what it sent |
| `PluginHost` | the host's record of a loaded plugin, as a value and as an object |
| `PluginSystem` | host threads, record, WaitGroup and all streams together |
| `PluginSafety`, `PluginClosing`, `PluginProgress`, `PluginDelivery`, `PluginCloseRace`, `PluginAfterUnload` | all runs of that system, and the handlers that outlive it |
| `PluginPointers`, `PluginRequests` | which functions of the library those runs call, and what one call of the host does |
| `PluginConn`, `PluginConnReplies`, `PluginConnEndings` | the client's view of a stream: flag, two mutexes, `withContext` goroutines; what its calls return, and how its receives end |
| `PluginEndToEnd`, `PluginEndOfFile` | that view on top of the stream's runs, from the handler to the caller of RecvMsg |
| `InProcessStream`, `InProcessCalls`, `InProcessRuns` | the in-process stream, as steps and as an object, and whole calls on it |
| `StreamSession`, `StreamSessionCalls`, `StreamSessionMessages`, `DartListener` | sessions between Dart and Go, whole calls on them, what they hand over, and what Dart's stream controller gets |
| `RequestHandler`, `RequestReplies` | pending Go-to-Dart requests, and which data each gets |
| `CacheTable`, `CacheEviction`, `CacheTtl`, `CacheAccessBatch`, `CacheLruRuns`, `CacheLruCalls` | the cache |
| `IsolatePool`, `IsolatePoolOutcomes`, `Sums` | the pool of Dart isolates, and how its requests end |
| `MetadataCodec` | the metadata text: Dart's printer, Go's parser |

Several things that one might expect of the code are not true of it. Each of these has a
run or an input that shows it, and beside it the exact condition, or the calls that are
safe from it:

- A handler of an in-process stream that returns io.EOF looks to the client like one that
  ended properly, even with messages undelivered (`InProcessStream.ErrorOvertakesData`
  with that error). End-of-file is worth what it seems exactly when the handler did not
  return it (`InProcessStream.CompleteDelivery`).
- A handler's error can be reported to the host of a plugin as end-of-file
  (`HandlerErrorReportedAsEof`), only by a receive whose own look at the error slot came
  before the handler's report (`HiddenErrorCameAfterLook`): never by one that begins after
  it, unless some other receive has reported the error (`ReceiveAfterReport`).
- Both receivers can let an error overtake a message (`ErrorOvertakesData`). What a plugin
  stream's receive skips was sent after its own first look at the channel
  (`OvertakenWereSentAfterPoll`); in process, a receive that begins after the handler
  returned skips nothing (`LateReceiveSkipsNothing`).
- After Close's handle loop a StreamRecv can still be blocked
  (`ReceiveBlockedWhileCloseWaits`), exactly while another thread has yet to cancel its
  stream (`BlockedIffCancelIsPending`).
- A comment in Close says that no thread is inside the library when it is unloaded. That
  is true of the host's threads (`NoCallIntoUnloadedLibrary`), not of the goroutines that
  the library runs for its streams (`HandlerLeftBehind`). Each that is left is on a
  cancelled stream, never waits on a channel again and can deliver nothing more
  (`HandlersLeftAreCutOff`); a stream whose data channel was found closed before the host
  closed it leaves none (`ClosedByHandlerMeansDone`).
- SendToStream can meet a closed channel (`SendCanCrash`), exactly when another thread
  has closed the input between the call's own check and its `select`
  (`CrashIffClosedInBetween`).
- Trailers can be set while they are sent, on the same map (`TrailersCanRace`), but not if
  one thread both sets them and ends the stream (`NoRaceWithOneOwner`).
- An error text that is malformed UTF-8 never reaches the Dart listener, which then waits
  for ever on a session that has ended (`MalformedErrorIsNeverHeard`): a listener is done
  if and only if an event came that is END, or an ERROR whose text is empty or well-formed
  up to the first zero (`ListenerSeesTheStream`, `ClosedAtMostOnce`).
- An error text that does reach it can be altered (`TextCanGrow`); the exact condition is
  `ErrorTextArrivesIff`.
- Get and Contains disagree about a row in the second in which it expires
  (`DisagreementInTheLastSecond`), and for ever about one whose time to live was too large
  for a 64-bit sum with the clock (`WrappedRowStaysAndIsDenied`, `ExpiryWrapsIff`), and
  about no other (`GetAndContainsDisagree`).
- The clean-up can be noticed by a Contains or Keys that read the clock before it and
  queries after it (`OvertakenQueryNotices`), exactly for rows that expire between the two
  readings (`CleanupNoticedIff`), and by no other call (`CleanupIsInvisible`).
- Deduplicating LRU updates by store and key joined with `|` can lose one
  (`CollisionLosesUpdate`), exactly when two targets collide
  (`BatchHarmlessIffNoCollision`).
- A flush of LRU updates can set an access time back, over a Put (`PutIsSetBack`) or over
  another Get (`GetIsSetBack`), exactly when the row was last written by a Put that read
  the clock after the update's Get did, or with the update of a Get that read the clock
  and queued its update in the middle of that one (`FlushSetsBackIffOvertaken`).
- io.EOF from RecvMsg of a plugin stream need not mean that the handler succeeded: once
  the client's flag is set the plugin is not asked at all (`EofWithoutAsking`). To a client
  that has neither closed nor cancelled it means success exactly when no receive was
  answered with an error and none is left in the plugin's error slot
  (`EofMeansSuccessIff`).
- A cancelled RecvMsg of a plugin stream can lose a message
  (`CancelledReceiveLosesMessage`), exactly if the plugin had answered a receive that
  returned with the context's error, and never more than one
  (`PluginConn.ReceivedIsPrefix`, `PluginEndToEnd.MissingIffHeld`). RecvMsg also loses a
  message that it cannot decode (`NothingIsLostWithoutCancellation`).
- Metadata can come back changed (`NewlineIsLost`), exactly when its keys and values do not
  avoid the format's own characters (`RoundTripIffClean`).

Assumptions: Go's channels, mutexes, atomics and WaitGroup behave as documented; foreign
calls return, and the library's own exports behave as `PluginServer` says; the clock does
not go back where the theorem says so.

## Model

| member | source | states |
|---|---|---|
| PluginSafety.NoCallIntoUnloadedLibrary | pkg/synurang/plugin.go:121-170 | in every run of any number of calls: the library is unloaded at most once, and once it is, no thread is inside it and no enabled step looks up a symbol in it or starts, continues or ends a call into it |
| PluginSafety.WaitGroupStaysZero | pkg/synurang/plugin.go:156-170 | once Close's Wait has passed, the WaitGroup counter is zero and is zero in every continuation |
| PluginSafety.EveryStreamClosedExactlyOnce | pkg/synurang/plugin.go:129-154 | no handle is closed twice, and at unloading every handle that stream-open ever returned has been closed exactly once, whether by Close, StreamClose or OpenStream's late check |
| PluginSafety.HandlesFreshAndFunctionsPresent | pkg/synurang/plugin.go:254-275 | handles are fresh and non-zero; a cached opener or tracked stream implies that the stream functions are set, and every step that needs them finds them |
| PluginSafety.ExecInv | pkg/synurang/plugin.go:205-448 | the counter equals the Adds held by threads, at most one Close is past its first section, and each open stream is the record's or one thread's to close: kept by every action |
| PluginClosing.BlockedCallsWillBeCancelled | pkg/synurang/plugin.go:129-154 | after Close began, a blocked Send or Recv has some other thread on its way to cancel that very stream, and that thread can step |
| PluginClosing.BlockedIffCancelIsPending | pkg/plugin/server.go:242-254 | after Close began, a waiting call with nothing to wake it, whose handler has not ended, is blocked if and only if some thread has yet to cancel its stream |
| PluginClosing.CallsOnClosedStreamsComplete | pkg/plugin/server.go:101-107 | no call is blocked on a stream whose close call has returned |
| PluginClosing.UnloadLeavesStreamsClosed | pkg/plugin/server.go:242-254 | at unloading every stream is unregistered, cancelled and closed in both directions |
| PluginCloseRace.ReceiveBlockedWhileCloseWaits | pkg/synurang/plugin.go:427-448 | a run in which Close is past its handle loop and a StreamRecv is blocked, because a StreamClose took the handle first |
| PluginAfterUnload.HandlersLeftAreCutOff | pkg/synurang/plugin.go:144-170 | after unloading, in every continuation: each handler that is left is on a cancelled stream and has an enabled step, and what the host received, sent and had accepted on any stream no longer changes |
| PluginAfterUnload.ClosedByHandlerMeansDone | test/plugin/api/example_ffi.pb.go:153-168 | if the data channel of a stream that is still registered is closed, its handler is done and has no step left |
| PluginAfterUnload.HandlerLeftBehind | pkg/synurang/plugin.go:156-170 | a run in which the library is unloaded and a handler is in the middle of its work |
| PluginProgress.CloseTakesBoundedWork | pkg/synurang/plugin.go:144-170 | however threads are scheduled after Close began, the steps taken by calls in progress are bounded by the work left in the state |
| PluginProgress.CloseIsNeverStuck | pkg/synurang/plugin.go:156-159 | while Close is unfinished some thread in a call can step, and if it is a running unary call then only unary calls hold the WaitGroup |
| PluginProgress.WorkFalls | pkg/synurang/plugin.go:121-170 | after Close began every action keeps or lowers the work left, and every step of a call past its first section lowers it |
| PluginDelivery.EveryStreamKeepsItsInvariant | pkg/plugin/server.go:29-56 | seen from one stream, every run of the whole system is a run of that stream and keeps its invariant |
| PluginDelivery.DeliveryInTheSystem | pkg/synurang/plugin.go:369-448 | in the whole system, on every stream: prefix delivery both ways, completeness after success, honest Send codes, no channel closed twice |
| PluginPointers.ThreadsCallTheRightFunctions | pkg/synurang/plugin.go:173-310 | in every run the record caches, for a service, only what the library exports for that very service, and never a null pointer; a thread that is about to invoke or open, or does, holds the library's pointer for its service; a thread inside a stream function entered it by the record's pointer for that function; whoever is about to close a stream holds the record's pointer for closing |
| PluginRequests.ThreadsDoWhatTheyWereAsked | pkg/synurang/plugin.go:205-448 | from its beginning to its end, in any company, a call stays on the way of its own request: its own service, operation, message and stream |
| PluginRequests.InvokeReachesTheService | pkg/synurang/plugin.go:173-225 | an undisturbed Invoke on an open plugin enters the library by the function exported for its service, which is then cached, or ends and has changed nothing if there is none |
| PluginRequests.OpenStreamOpens | pkg/synurang/plugin.go:278-351 | an undisturbed OpenStream on an open plugin leaves one new stream in the record if the library exports the open function and all four stream functions and grants it, else none, and the WaitGroup as it was |
| PluginRequests.StreamOpEnters | pkg/synurang/plugin.go:369-424 | an undisturbed stream operation enters the library by the record's function for it, on its own stream and with its own message |
| PluginRequests.StreamCloseSendCloses | pkg/synurang/plugin.go:415-424 | a StreamCloseSend on an open stream, in any company: when it has left the library, or has returned and the plugin is open, the stream's send channel is closed unless the stream was unregistered meanwhile, and then some Close has closed it or is about to |
| PluginRequests.HandlerReadsTheRest | test/plugin/api/example_ffi.pb.go:280-294 | from then on in the system, without cancellation, each read of the handler gives the next message accepted by then, and end-of-file after the last |
| PluginHost.Plugin.constructor | pkg/synurang/plugin.go:110-117 | the record LoadPlugin builds |
| PluginHost.Plugin.Acquire | pkg/synurang/plugin.go:205-213 | first section of Invoke and OpenStream |
| PluginHost.Plugin.AcquireForStreamOp | pkg/synurang/plugin.go:353-366 | takes the WaitGroup only if open and stream functions exist |
| PluginHost.Plugin.ResolveInvoker | pkg/synurang/plugin.go:181-202 | on an open plugin the answer is the cached pointer, else the symbol if it is not null, which is then cached, else missing; nothing is looked up on a closed one |
| PluginHost.Plugin.EnsureStreamFuncs | pkg/synurang/plugin.go:254-275 | sets the four functions together or not at all |
| PluginHost.Plugin.ResolveOpener | pkg/synurang/plugin.go:278-309 | the same for the function that opens streams, which is found only if all four stream functions are there |
| PluginHost.Plugin.Track | pkg/synurang/plugin.go:332-345 | tracks a new stream unless the plugin was closed meanwhile |
| PluginHost.Plugin.ClaimStream | pkg/synurang/plugin.go:427-448 | takes the handle out of the record, once, and gives out the record's pointer for closing |
| PluginHost.Plugin.BeginClose | pkg/synurang/plugin.go:121-142 | marks the record closed and collects exactly the tracked handles, each once, in any map order, with the record's pointer for closing |
| PluginHost.Plugin.Unload | pkg/synurang/plugin.go:161-170 | clears the library handle once |
| PluginHost.Plugin.Close | pkg/synurang/plugin.go:121-170 | the whole call, undisturbed: closes every tracked stream once in any order, leaves the WaitGroup as it was, unloads when nothing is in flight, and does nothing the second time |
| PluginHost.Plugin.StreamClose | pkg/synurang/plugin.go:427-448 | the whole call, undisturbed: closes a tracked stream of an open plugin, once |
| PluginStreamRuns.ReceivedIsPrefix | pkg/plugin/server.go:118-210 | in every interleaving the host receives a prefix of what the handler sent |
| PluginStreamRuns.CompleteDelivery | pkg/plugin/server.go:118-210 | handler succeeded and host did not close early: after the first end-of-file all messages have been received in order and only end-of-file follows |
| PluginStreamRuns.LoneReceive | pkg/plugin/server.go:118-210 | once the handler is done, a receive gives the next undelivered message, else the undelivered error, else end-of-file |
| PluginStreamRuns.ErrorsAreTheHandlers | test/plugin/api/example_ffi.pb.go:153-236 | an error reaches the host at most once and only if the handler failed with it |
| PluginStreamRuns.HandlerErrorReportedAsEof | pkg/plugin/server.go:194-209 | a run in which the handler failed, the host closed nothing, and a receive reports end-of-file |
| PluginWholeCalls.ReceiveAfterReport | pkg/plugin/server.go:111-210 | a receive that begins after the failed handler's report, in any company: end-of-file only if the error was delivered to some receive, and neither while a sent message is undelivered |
| PluginWholeCalls.HiddenErrorCameAfterLook | pkg/plugin/server.go:144-209 | a receive that reports end-of-file over a failed handler's error that nobody got made its own look at the error slot before the handler's report: the second poll, or the look after a data channel that the host had closed |
| PluginWholeCalls.OvertakenWereSentAfterPoll | pkg/plugin/server.go:118-158 | a receive that reports an error or end-of-file found, at its first poll, everything sent so far received; what it leaves in the channel was sent later |
| PluginStreamRuns.ErrorOvertakesData | pkg/plugin/server.go:144-158 | a run in which the error is reported before a message that was sent earlier |
| PluginStreamRuns.SendCodeIsZeroIffEnqueued | pkg/plugin/server.go:80-108 | a finished Send reported 0 exactly when its message was enqueued, and once, whatever CloseSend and Close do |
| PluginStreamRuns.HandlerReadsEverything | test/plugin/api/example_ffi.pb.go:280-294 | the handler reads the enqueued messages in order; end-of-file only after all of them; no other result without cancellation |
| PluginStreamRuns.LoneRead | test/plugin/api/example_ffi.pb.go:280-294 | after CloseSend and without cancellation a handler's read never waits and gives the next accepted message, or end-of-file when there is none |
| PluginHalfClose.CloseSendCloses | pkg/plugin/server.go:214-239 | a CloseSend that begins on a stream and returns, in any company: the send channel is closed unless the stream was unregistered meanwhile, and then some Close has closed it or is about to; once it is closed nothing is accepted any more |
| PluginHalfClose.ReadAfterCloseSend | test/plugin/api/example_ffi.pb.go:280-294 | after it, without cancellation, a read of the handler never waits and gives the next message accepted when CloseSend returned, or end-of-file after the last |
| PluginHalfClose.ReadsToTheEnd | test/plugin/api/example_ffi.pb.go:280-294 | a handler that goes on reading a half-closed stream gets every message that was accepted, in order, and then end-of-file |
| PluginHandlerRuns.OutcomeIsTheHandlers | test/plugin/api/example_ffi.pb.go:153-236 | in every run the handler has failed with an error exactly if it panicked with it, met a closed channel, could not decode its request, or returned it, io.EOF of a streaming method excepted; what has ended otherwise has succeeded |
| PluginHandlerRuns.SentIsWhatWasSaid | test/plugin/api/example_ffi.pb.go:252-264 | in every run the messages on the way to the host are those of the handler's sends that found room, and its reply, in order |
| PluginHandlerRuns.UserCodeRunsInTurn | test/plugin/api/example_ffi.pb.go:165-236 | user code runs only for a known method, for a server-streaming one only after the first request was read, and never again once it has returned or panicked; the handler ends only if it has, or was cut short by a cancelled or undecodable first request or a closed channel |
| PluginStreamRuns.ClosedAtMostOnce | pkg/plugin/server.go:214-231 | neither channel of a stream is ever closed twice |
| PluginStreamRuns.ExecInv | test/plugin/api/example_ffi.pb.go:153-264 | what the stream's channels, error slot, flags, handler position and logs have to do with each other, kept by every step |
| PluginCalls.ReceiveOrder | pkg/plugin/server.go:111-210 | an undisturbed receive prefers data to an error, an error to end-of-file, end-of-file to waiting |
| PluginCalls.SendCodes | pkg/plugin/server.go:80-108 | meaning of each result code of an undisturbed Send |
| PluginCalls.CloseEffect | pkg/plugin/server.go:242-254 | Close unregisters, cancels and closes both channels, and never waits |
| PluginCalls.CallsAfterClose | pkg/plugin/server.go:59-69 | after Close every call finds no stream and changes nothing but the log |
| PluginCalls.PluginStream.constructor | pkg/plugin/server.go:43-56 | NewStream |
| PluginCalls.PluginStream.CloseSendCh | pkg/plugin/server.go:214-221 | closes the channel once |
| PluginCalls.PluginStream.CloseRecvCh | pkg/plugin/server.go:225-232 | closes the channel once |
| PluginCalls.PluginStream.TrySendErr | test/plugin/api/example_ffi.pb.go:24-29 | non-blocking send on the error slot |
| PluginCalls.PluginStream.Send | pkg/plugin/server.go:80-108 | equals the composed steps of Send with no interference |
| PluginCalls.PluginStream.Recheck | pkg/plugin/server.go:194-209 | the branch after a cancellation: data that is there, else end-of-file, whatever the error slot holds |
| PluginCalls.PluginStream.Wait | pkg/plugin/server.go:161-209 | the last select, whatever happened since the polls |
| PluginCalls.PluginStream.Recv | pkg/plugin/server.go:111-210 | polls, then the last select: equals the composed steps of Recv with no interference |
| PluginCalls.PluginStream.CloseSend | pkg/plugin/server.go:235-239 | closes the send channel of a registered stream, once, and changes nothing else; equals the composed steps |
| PluginCalls.PluginStream.Close | pkg/plugin/server.go:242-254 | equals the composed steps of Close |
| PluginConn.PluginToldOnce | pkg/synurang/plugin_conn.go:244-255 | the plugin is told to close at most once, exactly once when the stream is closed and all calls are over; a call that returned the context's error left the stream closed |
| PluginConn.OneCallAtATime | pkg/synurang/plugin_conn.go:206-241 | at most one receive and at most one send or half-close are in the plugin at a time |
| PluginConn.NobodyIsStuck | pkg/synurang/plugin_conn.go:33-64 | a worker never blocks on its result, a caller of a finished worker finds the result, and while a worker is left one can move |
| PluginConn.FailureEndsReceiving | pkg/synurang/plugin_conn.go:217-230 | an error or end-of-file is the plugin's last answer to a receive, and no receive reaches the plugin after it |
| PluginConn.ReceivedIsPrefix | pkg/synurang/plugin_conn.go:168-185 | a lone receiver gets what the plugin delivered in order, at most one message missing; with no receive pending one is missing if and only if a receive returned with the context's error after the plugin had answered it with a message |
| PluginConn.CancelledReceiveLosesMessage | pkg/synurang/plugin_conn.go:52-63 | a run in which cancellation loses a message |
| PluginConn.DeliveredIffDecoded | pkg/synurang/plugin_conn.go:183 | the messages that reach the application are all that were taken if and only if every one of them could be decoded |
| PluginConn.RunWorkerIsAlone | pkg/synurang/plugin_conn.go:206-255 | the steps of an undisturbed call add up to its specification, mutexes released |
| PluginConnReplies.RepliesAreThePlugins | pkg/synurang/plugin_conn.go:206-241 | in every run a call that returned its worker's reply returned the plugin's answer to that very call, or, not having asked, that the stream is closed; the messages that a lone receiver's calls returned, in order, are those taken |
| PluginConnReplies.CallAfterCancelAsksNothing | pkg/synurang/plugin_conn.go:33-38 | a call with a context that is over never asks the plugin and can only return the context's error |
| PluginConn.PluginStream.Send | pkg/synurang/plugin_conn.go:206-213 | under the send mutex, calls the plugin unless closed |
| PluginConn.PluginStream.Recv | pkg/synurang/plugin_conn.go:217-230 | under the receive mutex, calls the plugin unless closed, and closes on failure |
| PluginConn.PluginStream.CloseSend | pkg/synurang/plugin_conn.go:233-240 | under the send mutex, calls the plugin unless closed |
| PluginConn.PluginStream.CloseInternal | pkg/synurang/plugin_conn.go:244-249 | takes no mutex, and tells the plugin exactly if the flag was not set |
| PluginEndToEnd.ReturnedIsPrefixOfSent | pkg/synurang/plugin_conn.go:168-185 | what RecvMsg returned is a prefix of what the handler sent, and of the messages taken from the plugin at most one is missing |
| PluginEndToEnd.NothingIsLostWithoutCancellation | pkg/synurang/plugin_conn.go:168-184 | with no receive pending and no cancellation nothing taken is missing; if StreamRecv met end-of-file on a stream not closed before, after a success, then RecvMsg has had all that was sent, whatever has closed the stream since; all of it reached the application if and only if every message could be decoded |
| PluginEndOfFile.EofMeansSuccessIff | pkg/synurang/plugin_conn.go:217-230 | to a client that has not closed or cancelled, on a plugin not closed: when a receive returns io.EOF the handler has succeeded if and only if no receive was answered with an error and the plugin's error slot is empty, and then all that was sent has been received once no receive is pending |
| PluginConnEndings.EndingIsThePlugins | pkg/synurang/plugin_conn.go:217-230 | without Close and cancellation a receive ends with io.EOF or an error only if the plugin's last answer was no message |
| PluginConnEndings.EofWithoutAsking | pkg/synurang/plugin_conn.go:217-222 | a run in which a receive returns io.EOF and the plugin was never asked |
| PluginEndToEnd.MissingIffHeld | pkg/synurang/plugin_conn.go:33-64 | a message taken from the plugin is missing exactly while it is on its way back or answered to a receive whose caller has not taken it |
| InProcessStream.ReceivedIsPrefix | pkg/synurang/synurang.go:219-293 | messages received are always a prefix of those sent, both ways |
| InProcessStream.CompleteDelivery | pkg/synurang/synurang.go:151-161 | in a run that has reported end-of-file, the handler returned nil and everything was received if and only if it did not return io.EOF itself; from then on only end-of-file, or the context's error after a cancellation |
| InProcessStream.FailureLooksLikeEofOnlyIfItIs | pkg/synurang/synurang.go:219-293 | a failing handler yields end-of-file only if its error is io.EOF; an error of its own that was reported is all that is reported from then on |
| InProcessStream.StoredErrorSticks | pkg/synurang/synurang.go:219-226 | once a handler's error, whichever, is stored every later result is that error |
| InProcessStream.LateReceiveSkipsNothing | pkg/synurang/synurang.go:235-291 | a RecvMsg that begins after the handler returned gives data, or else everything sent has been received |
| InProcessStream.LoneReceive | pkg/synurang/synurang.go:219-293 | after the server ended, a receive gives the next message, else the error, else end-of-file, cancelled or not |
| InProcessStream.ErrorOvertakesData | pkg/synurang/synurang.go:256-291 | a run in which the error is reported and a message sent before it is not delivered, for any error of the handler, io.EOF included |
| InProcessStream.ChannelsCloseOnce | pkg/synurang/synurang.go:151-161 | each channel is closed at most once and when; the server sees end-of-file only after reading everything |
| InProcessRuns.CloseSendCloses | pkg/synurang/synurang.go:174-182 | a whole CloseSend, in any company: when it returns the channel is closed and nothing is accepted any more |
| InProcessRuns.LoneRead | pkg/synurang/synurang.go:337-355 | after it, without cancellation, a read of the server never waits and gives the next accepted message, or end-of-file after the last |
| InProcessRuns.SendMsgResult | pkg/synurang/synurang.go:188-217 | a whole SendMsg, in any company, reports success if and only if it put its message on the channel, and never does so twice |
| InProcessRuns.LoneSend | pkg/synurang/synurang.go:188-217 | undisturbed it is refused on a closed stream, enqueues if there is room, and is refused if there is none and the context is over |
| InProcessRuns.CancelReleasesEveryone | pkg/synurang/synurang.go:188-370 | once the context is cancelled no select of either side is left without a ready case, for good |
| InProcessRuns.OutcomeIsTheHandlers | pkg/synurang/synurang.go:151-161 | in every run the outcome is exactly what the handler returned, and what the server puts on the channel is what it was last told to send |
| InProcessCalls.ReceiveOrder | pkg/synurang/synurang.go:219-253 | stored error, then data, then at a closed channel the pending error or end-of-file |
| InProcessCalls.WaitAlone | pkg/synurang/synurang.go:256-291 | what the second select of an undisturbed RecvMsg does |
| InProcessCalls.ReceiverSpins | pkg/synurang/synurang.go:281-290 | between the server's two deferred closes RecvMsg can go round its loop any number of times |
| InProcessCalls.FfiClientStream.constructor | pkg/synurang/synurang.go:130-149 | newFfiClientStream |
| InProcessCalls.FfiClientStream.CloseSend | pkg/synurang/synurang.go:174-182 | closes the channel once |
| InProcessCalls.FfiClientStream.SelectSend | pkg/synurang/synurang.go:204-216 | the select after the check: a channel that was closed meanwhile refuses the message |
| InProcessCalls.FfiClientStream.SendMsg | pkg/synurang/synurang.go:188-217 | exactly when a message is enqueued, refused or left waiting |
| InProcessCalls.FfiClientStream.RecvMsg | pkg/synurang/synurang.go:219-293 | the loop equals the composed steps of RecvMsg for any choices of its selects |
| StreamSession.ChannelsCloseOnce | pkg/service/stream_handler.go:139-222 | DataChan, DoneChan and ReadyChan are each closed at most once, closed implies inputClosed, DataChan is closed exactly when the input is, and the handler reads chunks in order |
| StreamSession.HandlerExitClosesSession | pkg/service/stream_handler.go:445-472 | after the handler exits the id is unregistered and, with no other thread inside an ending, the session and both channels are closed |
| StreamSession.EventsWellOrdered | pkg/service/stream_handler.go:385-435 | with the handler's thread as only speaker the events are DATA*, then nothing, TRAILER? END, or ERROR |
| StreamSession.PhaseMeansSplit | pkg/service/stream_handler.go:250-263 | the event-by-event phase is orderly exactly when the list splits in that way |
| StreamSession.SoleEnderMeaning | pkg/service/stream_handler.go:385-435 | the history flag means that no other thread was told to send or end |
| StreamSessionMessages.DataIsWhatWasSent | pkg/service/stream_handler.go:250-263 | in every run with one speaker the payloads sent to Dart are, in order, the messages of the SendFromStream calls that found the session open, but for one that is between its check and the callback |
| StreamSessionMessages.ChunksAndTrailersAreTheCalls | pkg/service/stream_handler.go:181-200 | in every run the chunks accepted are the messages of the SendToStream calls that enqueued, in order, and the trailers are what the SetTrailer calls made of them |
| StreamSessionMessages.ReadGetsNextChunk | pkg/service/stream_handler.go:110-129 | in every run the handler's next read gives the first chunk accepted and not read, waits if there is none, or is told that the input is closed |
| StreamSessionMessages.ReturnedCallHasSpoken | pkg/service/stream_handler.go:385-435 | a whole SendFromStream, EndStream or ErrorStream, in any company, whose section found the session open: when it returns Dart has been sent its message, or the trailers as they were and END, or its own text |
| StreamSessionMessages.ReturnedCallHasEffect | pkg/service/stream_handler.go:139-222 | whole calls in any company: after EndStream and ErrorStream the session is closed, after CloseStreamInput the input, after SignalStreamReady the ready channel once, unless the id is not registered, and after CloseStreamSession it is not |
| StreamSessionCalls.CrashIffClosedInBetween | pkg/service/stream_handler.go:181-201 | a whole SendToStream in any company: its next step meets a closed channel if and only if it is the send of its select and another thread has closed the input since the call's own check |
| StreamSessionCalls.NoRaceWithOneOwner | pkg/service/stream_handler.go:361-404 | if one thread alone sets trailers and ends the stream, no trailer is ever set while they are sent |
| StreamSessionCalls.TrailersCanRace | pkg/service/stream_handler.go:395-404 | a run of two threads in which one is |
| StreamSession.SendCanCrash | pkg/service/stream_handler.go:181-201 | a run in which a send meets a closed channel |
| StreamSession.SessionRecord.constructor | pkg/service/stream_handler.go:110-129 | a new session |
| StreamSession.SessionRecord.EndSection | pkg/service/stream_handler.go:385-397 | the section shared by EndStream and ErrorStream |
| StreamSession.SessionRecord.CloseSection | pkg/service/stream_handler.go:147-158 | the session section of CloseStreamSession |
| StreamSession.SessionRecord.CloseInput | pkg/service/stream_handler.go:164-178 | closes the input once |
| StreamSession.SessionRecord.SignalReady | pkg/service/stream_handler.go:204-221 | closes ReadyChan once |
| StreamSession.SessionRecord.CloseStreamSession | pkg/service/stream_handler.go:139-161 | both sections, only for a registered id |
| DartListener.ListenerSeesTheStream | lib/synurang.dart:1442-1496 | for orderly events the controller gets the non-empty payloads in order and then the ending, and is done if and only if the last event is END, or ERROR with a text that is empty or well-formed UTF-8 up to the first zero |
| DartListener.ErrorTextArrivesIff | lib/synurang.dart:1484-1492 | the error text arrives unchanged exactly when it is not empty, well-formed and free of zeros, and a zero follows it in memory, or what makes up for a byte order mark that is dropped |
| DartListener.TextCanGrow | lib/synurang.dart:1484-1486 | a text that is read on into the memory behind it |
| DartListener.MalformedErrorIsNeverHeard | lib/synurang.dart:1484-1494 | a run that ends with an error of one malformed byte, after which the session is over and the listener still active with nothing heard |
| DartListener.ClosedAtMostOnce | lib/synurang.dart:1442-1496 | for any events the controller is closed at most once, and last, and if and only if one of them ends the listener |
| DartListener.SessionReachesListener | lib/synurang.dart:1442-1496 | over every interleaving of a session with one speaker the controller gets the non-empty messages of the SendFromStream calls that found the session open, in order, and then the ending, and is done exactly when an event ends it |
| RequestHandler.PendingChannelsAreEmpty | pkg/service/ffi_utils.go:36-89 | the channel of a pending request is empty and was made for it, no two requests share one, each channel gets at most one value and no response but its own request's, CleanupPending never takes its default branch |
| RequestHandler.SendNeverBlocks | pkg/service/ffi_utils.go:63-75 | HandleResponse never blocks |
| RequestHandler.CleanupAnswersPending | pkg/service/ffi_utils.go:79-89 | CleanupPending wakes exactly the pending requests |
| RequestReplies.ReplyIsTheTakers | pkg/service/ffi_utils.go:48-75 | in every run a response on a channel, or returned by WaitForResponse, is the data of the HandleResponse that took the channel out of the table; no two waits get a value from the same channel |
| RequestReplies.LoneRequest | pkg/service/ffi_utils.go:36-75 | one request, its response and the wait, undisturbed: the wait returns the data sent for its id, and the id is gone |
| RequestReplies.TimesOut | pkg/service/ffi_utils.go:48-61 | a wait that times out takes its id out of the table and changes nothing else |
| RequestReplies.UnknownResponseIsIgnored | pkg/service/ffi_utils.go:63-71 | a response for an id that is not in the table changes nothing |
| RequestReplies.CleansUp | pkg/service/ffi_utils.go:79-89 | a CleanupPending that is called answers what is pending and empties the table |
| RequestHandler.RequestTable.CreateRequest | pkg/service/ffi_utils.go:36-45 | a fresh id with an empty channel enters the table |
| RequestHandler.RequestTable.Take | pkg/service/ffi_utils.go:63-71 | gives the channel of an id to one caller only |
| RequestHandler.RequestTable.CleanupPending | pkg/service/ffi_utils.go:79-89 | the loop empties the table in any map order, answers each channel in it that has room and touches no other |
| CacheEviction.Evictor.EvictOverCapacity | pkg/service/cache.go:375-453 | after one pass every store meets all its limits at once, every removed row was accessed no later than every row left in its store, and stores within their limits lost nothing |
| CacheEviction.Evictor.EnforceBytes | pkg/service/cache.go:405-449 | terminates, the running total is the sum of what is left, and with the last batch of at most 50 restored the store would be too large |
| CacheEviction.Evictor.EnforceEntries | pkg/service/cache.go:384-402 | deletes exactly the excess, oldest first, for any order of ties |
| CacheEviction.Evictor.OldestRows | pkg/service/cache.go:138-143 | meaning of the ORDER BY ... LIMIT query, ties in any order |
| CacheEviction.DeleteOldestTrims | pkg/service/cache.go:124-133 | deleting a store's oldest rows keeps the LRU order, other stores, counts and sums |
| CacheEviction.TrimmedTransitive | pkg/service/cache.go:405-449 | successive deletions of the oldest amount to one |
| CacheEviction.LimitsAfter | pkg/service/cache.go:375-453 | enforcing one limit breaks no other |
| CacheTable.SumPick | pkg/service/cache.go:135-137 | SUM(size) does not depend on the order of rows |
| CacheTtl.CleanupIsInvisible | pkg/service/cache.go:369-372 | for any calls, overlapping ones included, of which no query uses a reading of the clock from before a clean-up that ran in front of it: all answers are the same with and without clean-ups |
| CacheTtl.CleanupNoticedIff | pkg/service/cache.go:539-553 | a clean-up between the reading and the query of a Contains changes its answer exactly if the row expires between the two readings |
| CacheTtl.OvertakenQueryNotices | pkg/service/cache.go:539-553 | calls for which it does |
| CacheTtl.ContainsImpliesGet | pkg/service/cache.go:539-553 | Contains true implies that Get serves the stored value in that second |
| CacheTtl.GetAndContainsDisagree | pkg/service/cache.go:475-478 | for every row and reading of the clock: they disagree exactly in the second of expiry, and about a negative expiry time |
| CacheTtl.ExpiryWrapsIff | pkg/service/cache.go:503-505 | a Put writes a negative expiry time exactly when the clock and the time to live exceed 64 bits |
| CacheTtl.WrappedRowStaysAndIsDenied | pkg/service/cache.go:475-478 | such a row is served by Get, denied by Contains and Keys, and kept by the clean-up, at any time |
| CacheTtl.DisagreementInTheLastSecond | pkg/service/cache.go:475-478 | a row that Get serves and Contains denies |
| CacheTtl.KeysAreWhatContainsAccepts | pkg/service/cache.go:556-586 | Keys lists exactly the keys Contains accepts |
| CacheTtl.PutThenGet | pkg/service/cache.go:456-516 | a value is served until its time is over, clean-ups and deferred accesses included, if nobody writes its key |
| CacheTtl.DeletedIsGone | pkg/service/cache.go:519-526 | after Delete, and any calls that do not put the key again, Get gives nothing, Contains says no and Keys does not list it; every other row is as it was |
| CacheTtl.ClearedIsGone | pkg/service/cache.go:529-536 | the same for every key of a cleared store; rows of other stores are as they were |
| CacheTtl.PutLeaves | pkg/service/cache.go:478-516 | what a Put leaves, while nobody writes the row: value, access time, and the cost or else the length as its size; a Get that serves it queues an update exactly when the Put is more than a minute old; no other row changes |
| CacheTtl.CacheService.Put | pkg/service/cache.go:497-516 | writes the row with expiry (a 64-bit sum that wraps), access time and size |
| CacheTtl.CacheService.Get | pkg/service/cache.go:456-494 | serves the row unless past its time, and queues an access update if the last one is old and the channel has room |
| CacheTtl.CacheService.Contains | pkg/service/cache.go:539-553 | the query's condition |
| CacheTtl.CacheService.Keys | pkg/service/cache.go:556-586 | lists each matching row's key, once |
| CacheTtl.CacheService.Delete | pkg/service/cache.go:519-526 | removes exactly the row of the key |
| CacheTtl.CacheService.Clear | pkg/service/cache.go:529-536 | removes exactly the rows of the store |
| CacheTtl.CacheService.CleanupExpired | pkg/service/cache.go:369-372 | deletes exactly the expired rows |
| CacheAccessBatch.AccessUpdateLoop | pkg/service/cache.go:295-352 | for any wake-ups and map order the loop ends as the specified states say, and if no two updates collide as if each had been applied by itself |
| CacheAccessBatch.TimerArmedIffPending | pkg/service/cache.go:295-352 | after any wake-ups fewer than 250 updates are pending, each under its own composite key, and the timer is armed exactly when one is |
| CacheAccessBatch.LoopIsOneByOne | pkg/service/cache.go:309-352 | after any wake-ups without collisions, flushing what is pending gives the rows that one-at-a-time updates give |
| CacheAccessBatch.FlushAccessUpdates | pkg/service/cache.go:354-366 | writes a batch with the same result in any order |
| CacheAccessBatch.BatchHarmlessIffNoCollision | pkg/service/cache.go:309-352 | deduplication is harmless on every table exactly when no two targets share a composite key |
| CacheAccessBatch.SeparatorFreeNamesDoNotCollide | pkg/service/cache.go:309-352 | store names without the separator never collide |
| CacheAccessBatch.CollisionLosesUpdate | pkg/service/cache.go:309-352 | two names that collide, and the update that is lost |
| CacheLruRuns.FlushSetsBackIffOvertaken | pkg/service/cache.go:354-366 | for any calls, overlapping as they like, under a clock that does not go back: writing an update sets the row's access time back exactly when the row was last written with a later time by a Put that read the clock after the update's Get, or with the update of a Get that lies within it |
| CacheLruRuns.WithoutOverlapOnlyPutOvertakes | pkg/service/cache.go:354-366 | if calls do not overlap, exactly when a Put with a later reading wrote the row after the update was queued and nothing has since |
| CacheLruRuns.PutIsSetBack | pkg/service/cache.go:478-511 | a run in which a Put's access time is set back |
| CacheLruRuns.GetIsSetBack | pkg/service/cache.go:478-491 | a run with no Put in which a Get's access time is set back |
| CacheLruCalls.LoneGet | pkg/service/cache.go:456-494 | the steps of an undisturbed Get there queue the update that CacheTtl's Get does, room permitting, and change no row |
| CacheLruCalls.LonePut | pkg/service/cache.go:497-516 | the steps of an undisturbed Put leave the rows that CacheTtl's Put does |
| CacheLruCalls.LoneRemoval | pkg/service/cache.go:519-536 | Delete, Clear and the clean-up are one step there, with the rows that CacheTtl gives |
| CacheLruCalls.LoneUpdate | pkg/service/cache.go:354-366 | writing one update of a batch gives its row the update's time and changes nothing else |
| IsolatePool.LoadBound | lib/synurang.dart:731-751 | under any mix of responses, errors and time-outs no worker has more pending than the peak number in flight divided by the workers, rounded up |
| IsolatePool.PeakIsTheMaximum | lib/synurang.dart:721-751 | the peak in that bound is the largest number in flight at any point of the run |
| IsolatePool.PoolAccounting | lib/synurang.dart:844-910 | completers and assignments have the same ids, each count is the number of ids assigned, each id is settled once or still open |
| IsolatePool.LateResponsesAreIgnored | lib/synurang.dart:866-910 | a response or error for a settled request changes nothing |
| IsolatePool.ResetSettlesEverything | lib/synurang.dart:754-778 | reset settles exactly the open requests, once |
| IsolatePoolOutcomes.FirstEventDecides | lib/synurang.dart:744-880 | over any list of events an id is answered, failed or timed out exactly if the first event for it after its Send is its response, its error or its time-out, and shut down exactly if it is still open at the reset |
| IsolatePoolOutcomes.CompletedCountsReplies | lib/synurang.dart:903-910 | the workers' counters of completed requests add up to the answers and errors, time-outs and late replies aside |
| IsolatePool.LeastIsLeast | lib/synurang.dart:731-737 | the loop's pick has the fewest pending, the first of those |
| IsolatePool.CoreIsolateManager.SendRequest | lib/synurang.dart:721-741 | assigns a fresh id to a least loaded worker |
| IsolatePool.CoreIsolateManager.UpdateWorkerStats | lib/synurang.dart:903-910 | releases the worker of an id, if it has one |
| IsolatePool.CoreIsolateManager.CompleteRequest | lib/synurang.dart:876-880 | settles an open request as answered and releases its worker, and does nothing for another id |
| IsolatePool.CoreIsolateManager.CompleteError | lib/synurang.dart:867-872 | settles an open request as failed and releases its worker, and does nothing for another id |
| IsolatePool.CoreIsolateManager.OnTimeout | lib/synurang.dart:744-751 | settles a request by time-out without counting a completion |
| IsolatePool.CoreIsolateManager.Shutdown | lib/synurang.dart:754-778 | the reset of the pool's bookkeeping |
| MetadataCodec.ParseUndoesPrint | cmd/server/main.go:307-329 | the Go parser recovers exactly the map and the timeout from the Dart encoding, in whatever entry order |
| MetadataCodec.RoundTripIffClean | lib/synurang.dart:315-325 | metadata comes back exactly when keys are non-empty, free of `=` and newline and not the timeout key, and values are free of newline |
| MetadataCodec.ParseFindsLast | cmd/server/main.go:307-329 | for any text whatever: a key has the value that the last line which assigns to it gives it, no other key is there, and the time-out is what the last line with a readable one says, or 0 |
| MetadataCodec.NewlineIsLost | lib/synurang.dart:315-325 | a value that does not come back |
| MetadataCodec.SplittingLosesNothing | cmd/server/main.go:331-344 | the lines written out again are the text, up to a final terminator, and no line contains one |
| MetadataCodec.LinesOfUnlines | cmd/server/main.go:331-344 | splitting finds in a text exactly its terminated lines and a non-empty remainder |
| MetadataCodec.ScanUndoesDecimal | cmd/server/main.go:320-322 | scanning a printed 64-bit number gives the number |
| MetadataCodec.ScanReads | cmd/server/main.go:320-322 | of blanks, at most one sign and digits up to anything else the scan gives the number they spell, or nothing if it exceeds 64 bits |
| MetadataCodec.SplitLines | cmd/server/main.go:331-344 | the loop computes the lines of the text |
| MetadataCodec.IndexOf | cmd/server/main.go:346-353 | the first position of a byte, or -1 |
| MetadataCodec.ParseMetadata | cmd/server/main.go:307-329 | the loop computes the specified map and timeout |
| MetadataCodec.EncodeMetadata | lib/synurang.dart:315-325 | the loop prints the timeout and then the entries in order |

## Left out

- PluginSafety.NoCallIntoUnloadedLibrary: speaks of host threads; the handler goroutines that a plugin starts are not in the WaitGroup, see HandlerLeftBehind and HandlersLeftAreCutOff.
- PluginClosing.BlockedCallsWillBeCancelled: that no call at all is blocked after Close's loop is false, see ReceiveBlockedWhileCloseWaits; the exact condition is BlockedIffCancelIsPending.
- PluginConn.ReceivedIsPrefix: assumes a lone receiving thread, which grpc.ClientStream demands of its callers.
- PluginEndToEnd.ReturnedIsPrefixOfSent: sends and half-closes move freely on the plugin's side, and are not tied to the client's calls; a close there only needs the client's flag to be set, or to come from outside.
- InProcessStream.FailureLooksLikeEofOnlyIfItIs: says nothing of a handler that returns the context's own error, which RecvMsg may also have reported by itself before going on with data; StoredErrorSticks covers it from the moment it is stored.
- InProcessCalls.FfiClientStream.RecvMsg: takes the picks of its selects as a list and stops when the list runs out.
- RequestHandler.CleanupAnswersPending: in the step system CleanupPending's loop is one step, as it holds the mutex throughout; the loop itself is RequestTable.CleanupPending.
- CacheAccessBatch.AccessUpdateLoop: no other writer of the rows while it runs; with one, CacheLruRuns says what can happen.
- DartListener.ListenerSeesTheStream: the text format of trailers is not modelled, a trailer event carries its pairs; trailers that cannot be decoded are lost without any effect on the controller. What memory holds after an error text is an argument.
- StreamSessionCalls.NoRaceWithOneOwner: what Go does at a concurrent map access is not modelled; the run goes on with the trailers as they were when the stream was ended.
- MetadataCodec.ParseUndoesPrint: strings are their UTF-8 bytes, Sscanf's blanks are the ASCII ones, and the nil map that parseMetadata returns for empty input is the empty map.
- Stream handles, request ids and call numbers are unbounded; their 64-bit counters never wrap in the model.
- NewStream's counter increment and its store into the handle table are one step.
- A handler is one thread of control, in plugins and in process: one that sends in one goroutine and receives in another is not covered.
- dlopen, dlsym, cgo, malloc and free, finalizers: foreign calls are abstract steps whose results are labels; what the library exports does not change while it is loaded.
- IsolatePoolOutcomes.FirstEventDecides: says how a request ends, not which bytes its answer or error carries, nor what a worker does with it.
- Protobuf: messages are byte strings, whether one can be decoded is a label; framing bytes of replies are constructors.
- Unary error payloads and the maximum-size check: the latter is the label under which no call is made.
- A panic of the in-process stream's handler, which ends the whole process.
- SQLite errors, pragmas, prepared statements, VACUUM and GetStats: each query is its meaning on rows.
- Cache Pause and Resume and all real-time durations: timers are labels, the clock is an argument.
- Session headers and CloseSend of sessions, which impose no order on events.
- InvokeDartStream, InvokeDartClientStream and InvokeDartBidiStream: time-outs around the session model.
- Reset while the isolate pool is being created, and changing its size then.
- gRPC servers, listeners, interceptors, the code generator, Rust and C++ stubs, example applications.
