# A verified model of ttrpc

ttrpc multiplexes many unary and streaming calls over one framed connection. This project models the
protocol engine of the Go implementation in Dafny and proves what it promises: over every interleaving of
the goroutines on both ends, over every sequence of bytes on the wire, and over every order in which a map
is visited.

`dafny verify dfyconfig.toml` checks everything.

## How the model is built

**Two engines as transition systems.** `ClientEngine` (client.go, stream.go) and `ServerEngine`
(server.go's `serverConn.run`, services.go) have one event for each step another goroutine can observe:
each critical section, each branch of a `select`, the gap between registering a stream and sending its
request, the gap between removing a stream from the map and closing it, the gap between starting a handler
and storing its stream. `Apply` performs an event, or leaves the state alone where the event is not
possible, so that a run is any sequence of events and `After(cfg, es)` is the state it leads to. A `select`
is a choice among the branches that are ready; `default` is possible only when no other is. Timeouts,
contexts ending and failing connections are events that may happen at any time. The state carries history
(what was deposited, taken, handed over, returned), so that a theorem about all runs is a statement about
all reachable states.

**What was asked for.** Beside the engines, functions of the sequence of events alone record what the callers,
the methods and the environment asked for, with every frame, status and error written out again:
`ClientHistory` (streams, requests, objects sent), `ClientOutcomes` (what calls return, why streams are closed),
`ServerHistory` (what methods say, what the loop takes), `ServerLoop` (what the loop looked at, how it is left),
`ServerRefusals` (what sendStatus is called for). Each is proved equal to what the engine has done after every
run. `SystemHistory` carries them over to the joint system, so that the end-to-end theorems compare what one
side's callers got with what the other side's callers passed in. `JointRuns` and `Conversations` build runs in
which calls and streams succeed.

| step | source |
|---|---|
| `BeginCreate`, `CheckClosed`, `Register`, `SendRequest` | createStream, client.go:395-431 |
| `LoopTop`, `ReadFrame`, `ReadFails`, `Lookup` | receiveLoop and getStream, client.go:349-374 and 443-448 |
| `Deliver` | receive, stream.go:72-100, and the close at client.go:376-377 |
| `CloseConn`, `CleanupBegin`, `CleanupOne`, `CleanupEnd` | run and cleanupStreams, client.go:340-343 and 450-458 |
| `RecvMsg`, `CallerDone`, `ClientDone`, `NoticeClosed`, `Take`, `NothingPending`, `Handle` | client.go:252-317 and 533-571 |
| `Unlink`, `Finish` | deleteStream, client.go:436-441, and what RecvMsg does after it, client.go:289-313 |
| `Loop`, `Dispatch`, `Store`, `Count`, `AbortStatus`, `PutErr`, `CloseErr` | the receiver, server.go:374-495, and handle, services.go:105-164 |
| `Offer`, `FinishData` | data and closeSend, services.go:182-210, server.go:419-442 |
| `Look`, `TakeStatus`, `TakeFrom`, `Write`, `Forget`, `Discount`, `TakeErr`, `SeeShutdown`, `End` | the response loop, server.go:497-568, and the deferred calls at 351-354 |
| the method events | services.go:112-146 and 212-234 |

**The joint system.** `System` connects the engines by two byte streams: what one side reads is parsed from
the bytes the other side has written. The framing round trip makes the wire a FIFO of frames, and the
end-to-end theorems follow: calls get their own answers, streams are FIFOs, ids are never refused, buffers
are never shared.

**Objects.** What the source does by updating objects in place is also written that way and proved against
the same functions the engines use: the framed channel with its fixed header buffers and pool (`Channels`),
the bounded queues (`StreamObjects`), the stream table and receive loop (`ClientObjects`), the connection set
(`ServerObjects`), metadata over shared backing arrays (`Metadata`), the options (`Interceptors`).
`Refinement` proves that the engines' steps of a call, run without interruption, reach what the object's
contract allows; `ServerObjects` that the server's critical sections are the steps of the `Shutdown` machine.

**What is left abstract.** The protobuf codec (`Config`: decoding undoes encoding), the service table, and
the connection (`Fate`: how much of a write it takes).

Stream ids are 32-bit and wrap. `IdsUniqueIff` proves that no id is given out twice exactly as long as at
most 2^31 streams are created on a connection; the results that need unique ids say so with `Small`.

## What does not hold

Each of these is a property the code's own comments or names suggest, with a run or an input on which it
fails and the exact condition under which it holds.

- **`active` is the number of streams in the map.** A method can answer before the receiver has stored its
  stream: the response loop then deletes nothing and the entry that is stored afterwards is never deleted.
  `ServerMap.ActiveAgainstMap`: in every reachable state the two differ by exactly the closing responses that
  found no entry, but for a stream between being stored and being counted, or deleted and discounted; so, no
  such step being under way, they agree if and only if every closing response so far found its entry.
  `ServerMap.ActiveIsNotMapSize` is a run on which they differ.
- **A finished stream leaves the map.** The same race leaves a stale entry, for good (`ServerMap.StaleStays`).
  `ServerMap.StreamEntry`: whatever happens to other streams, a stream whose own id sendStatus has not been used
  for is in the map exactly from when it is stored until it is deleted, except that it stays there for ever if its
  closing response was processed before it was stored; so, once stored and finished, it has left the map if and
  only if its response was not processed that early. The run of `ServerMap.ActiveIsNotMapSize` leaves one.
- **`active` counts the registered streams that have not finished, and is never negative.**
  `ServerProperties.ActiveLedger` gives its exact value and the exact condition;
  `ServerProperties.ActiveCanBeNegative` is a run on which it is -1: sendStatus discounts a stream that was
  never counted.
- **A call that has failed leaves nothing behind in the client.** `createStream` registers a stream before it sends
  the request, and where the send fails nobody deletes it: `ClientMap.FailedCallStays` is a run, for every request that
  is too long, with the stream in the map of a client that goes on. `ClientMap.MapIff`: until the cleanup a stream
  is in the map if and only if no call has deleted it, so one whose request could not be sent always
  stays.
- **io.EOF means the method's object has been returned.** A method whose server does not stream but calls
  SendMsg anyway makes the client give the stream up. `EndToEnd.EofWithoutObject` is a run of both endpoints, for
  every such method and object, in which RecvMsg has returned ErrProtocol and io.EOF and nothing else.
  `EndToEnd.StreamDelivery`: where io.EOF has been returned the property holds exactly if the method has not
  called SendMsg against its kind.
- **The pool protects itself.** A buffer put back twice is handed to two reads
  (`BufferPool.TwicePutIsShared`); `BufferPool.PutOwnedIff` is exactly when a put is harmless. That no run
  puts one back twice rests on the discipline proved in `Ownership`.
- **Append changes its own key's list only.** Set keeps the slice it is given, so two keys set to one slice
  with room to grow share it, and what is appended to the second overwrites what was appended to the first
  (`Metadata.MD.AliasedLists`). `Metadata.MD.AppendExactly`: on any lists, shared or not, the property holds if and
  only if every other list is undisturbed, that is, unless there is room behind the key's list and the new values
  differ there from what another list reads; `Metadata.MD.AppendShows` says the same of each other list.

## Model

| member | source | states |
|---|---|---|
| EndToEnd.CallMatching | client.go:533-571 | what a unary call returns, on every run: one outcome at most; an error if it has taken no message; else exactly the response that came under its own id, with status and payload what the server's method ended with, a method that ran for this very call's request: always if its status is OK, and for any other status unless sendStatus was used for the stream |
| EndToEnd.FailureReported | client.go:285-287 | where the client has read as many messages as the method has said things and the method failed, one of its calls has returned, or is about to, the status the method failed with |
| EndToEnd.CallCanSucceed | client.go:533-571 | for every object there is a run in which a unary method ends with it and the call returns it |
| EndToEnd.StreamCanSucceed | client.go:210-317 | for all lists of objects there is a run in which the method receives all of the one list and io.EOF, and the client all of the other and io.EOF |
| EndToEnd.StreamDelivery | client.go:252-317 | for every kind of streaming method and every run: what RecvMsg has returned is a prefix of the objects the server's method passed to SendMsg and ended with, in order; for a method whose server does not stream, that is at most the one object it ended with; and where io.EOF has been returned, the method has succeeded and all of them were returned before it, exactly unless it called SendMsg where its kind forbids it |
| EndToEnd.EofWithoutObject | client.go:293-298 | for every method whose client streams and whose server does not, and every object it sends anyway, there is a run of both endpoints in which its client's calls have returned exactly ErrProtocol and io.EOF |
| EndToEnd.NothingWithoutMethod | client.go:285-290 | a stream no method runs for returns no object and no io.EOF, whatever sendStatus answers |
| Deliveries.SingleObject | services.go:142-146 | a method whose server does not stream hands over no object but the one it produced, and that one once it has succeeded and its response was taken |
| EndToEnd.MethodInput | services.go:189-234 | a streaming method runs for a request a caller of this client made, and its RecvMsg returns, in order, the objects passed to SendMsg on that very stream, after the request's own unless its client streams and the request carries none: a prefix of them unless a data() failed, else a subsequence of one; and if none failed, io.EOF comes only after all that is ever sent on it |
| EndToEnd.IdsNeverRefused | server.go:402-452 | against this client the odd-id and must-increment checks always pass, data never meets a nil handler, and lastStreamID is the last request received |
| UnaryAnswers.OkResponse | server.go:517-531 | a response with status OK on the wire was produced by the method of its own stream |
| Deliveries.JudgeOut | client.go:271-316 | how the client reads each frame the server writes for a method of every streaming kind: which object, if any, whether the stream ends, when it reads io.EOF, and the status of a failure; an empty object is not "no data" |
| Deliveries.JudgeStatus | client.go:285-287 | a response of sendStatus is an error to a streaming client and does not end the stream |
| ClientRuns.IdsUniqueIff | client.go:420-422 | no stream id is given out twice if and only if at most 2^31 streams are created, and exactly then is the k-th id 2k+1 |
| ClientRuns.RequestOrder | client.go:390-431 | the k-th stream gets the k-th id, and request ids on the wire are odd and strictly increasing under every interleaving and failed send |
| ClientRuns.StreamLanguage | client.go:210-250 | per stream the wire carries a prefix of one request, or of one request, data, and one closing frame for a streaming client |
| ClientRuns.ClosedForSending | client.go:210-250 | once a stream's frames on the wire hold one with remote-closed set, the request of a client that does not stream included, it is the last, and in no continuation does another follow |
| ClientHistory.WireIsAsked | client.go:210-250 | computed from what callers asked alone: which streams exist, with which kind and request, how the first send of each ended, which may still send, and the frames of each on the wire: its request, the objects of its SendMsg calls as passed, and its closing frame |
| ClientHistory.PayloadsAreSent | client.go:225-250 | the objects in a stream's data frames on the wire are, in order, exactly those passed to the SendMsg calls whose frame the connection took |
| ClientRuns.NoGapDelivery | stream.go:72-100 | messages taken and queued for a stream are a prefix of the frames read for it, and all of them until one is dropped; the queue stays within its capacity |
| ClientRuns.DropIsFinal | stream.go:73-77 | once a message for a stream has been dropped, none is ever queued for it again |
| ClientRuns.Isolation | stream.go:67-71 | whatever happens to other streams, full queues, drops and timeouts included, and whatever arrives under other ids, a stream's queue and close state stay as they are, in any continuation that does not act on that very stream |
| ClientRuns.TimeoutsBounded | stream.go:88-98 | each stream makes the receive loop wait out at most one timeout, so all runs wait out at most as many as streams were created |
| ClientRuns.NobodyLost | client.go:436-458 | every stream is in the map, or closed with an error, or about to be closed by whoever removed it; after cleanup the map is empty |
| ClientMap.MapIff | client.go:420-441 | on every run, until the cleanup, a stream is in the map if and only if no call has deleted it; a unary call whose request was sent has, once it returns; one whose request could not be sent stays |
| ClientMap.FailedCallStays | client.go:429-431 | for every request that is too long, a run that leaves its stream in the map of an open client |
| ClientRuns.CleanedForever | client.go:398-419 | nothing is registered after the cleanup, in any continuation |
| ClientRuns.WaitersExit | client.go:257-269 | after the cleanup every call still running has a step it can take, and each brings it closer to returning |
| ClientRuns.BufferDiscipline | client.go:274-313 | no received buffer is put back twice, or while the loop, a queue or a call still holds its message |
| ClientRuns.EofForever | client.go:253-255 | after the end of a stream, in any continuation, the results gain exactly one io.EOF for each further RecvMsg and nothing else |
| ClientOutcomes.CallsReturn | client.go:252-317 | on every run, what a stream's calls have returned, or are about to, is in order exactly what each step calls for: io.EOF after the end, the error of a context, of a closed client or of a closed and drained stream, or the decoding of the message taken, written out by frame type, flags and status |
| ClientOutcomes.ClosedForAReason | stream.go:51-98 | the error a stream is closed with is the first of: RESOURCE_EXHAUSTED for an oversized message, ErrStreamFull for a full queue, ErrClosed for a deleted stream, and in the cleanup the error the receive loop ended with; no stream is closed for another reason |
| ClientOutcomes.SortedRun | client.go:362-383 | a message past the size bound closes its stream, and only such a message does so instead of being delivered; none is ever queued |
| ClientOutcomes.LoopEndsRun | client.go:349-367 | the receive loop ends with ErrClosed if the client was closed when it looked, and else with the error of the read that failed |
| ClientOutcomes.ClosedWhenTold | client.go:320-342 | the client is closed exactly if Close was called or its receive loop has ended |
| ClientOutcomes.ClosedClientStops | client.go:349-425 | once the client is closed the receive loop at its top ends, and no call creates a stream |
| ClientOutcomes.LoopCleansUp | client.go:340-343 | a receive loop that has ended closes the client and goes on to the cleanup |
| ClientOutcomes.CleanupProceeds | client.go:450-458 | the cleanup can take out any stream of the map and ends when there is none |
| ClientOutcomes.CallsAreFree | client.go:257-269 | a waiting call returns as soon as its context ends, and a unary one when the client is closed, whatever is queued; and a call on an open stream can always be made |
| BufferReturns.ClientReturns | client.go:274-313 | the buffer of every message a call is done with goes back to the pool, but for those the code keeps: data read as a protocol error or as the bare end |
| ClientRuns.RunInv | client.go:340-458 | the client's invariant holds in every reachable state |
| ClientTable.UnstrandedCaller | client.go:407-425 | a new stream is reachable through the map from the moment it exists |
| ClientTable.UnstrandedConsume | client.go:436-441 | removing a stream and closing it leaves it reachable or about to be closed |
| ClientTable.ShutCaller | client.go:409-418 | no caller registers a stream once cleanup has the lock |
| ClientDelivery.NoGapDeliver | stream.go:72-100 | each branch of both selects keeps delivery free of gaps |
| ClientDelivery.NoGapLookup | client.go:369-374 | looking a stream up keeps delivery free of gaps |
| ClientDelivery.QueuesDeliver | stream.go:78-98 | the queue is what was deposited and not consumed, bounded, and no second timeout is possible |
| ClientBuffers.BuffersHandle | client.go:271-313 | finishing with one message puts back its own buffer and no other |
| ClientCalls.StreamConsumeOk | client.go:252-317 | every step of RecvMsg keeps its results equal to the decoding of what it took, errors included, and no message but the last taken one ends the stream |
| ClientCalls.UnaryConsumeOk | client.go:543-570 | dispatch takes at most one message and returns once: the decoded response, an error for what does not decode, and ErrProtocol for what is no response |
| ClientSends.SendsCaller | client.go:389-434 | every step of a caller keeps the order of requests and each stream's language on the wire |
| ServerMap.ActiveAgainstMap | server.go:490-552 | the exact difference between the active counter and the number of streams in the map in every reachable state, and that outside the two windows they agree if and only if every closing response found its entry |
| ServerMap.StreamEntry | server.go:466-552 | a stream whose own id sendStatus was not used for is in the map if and only if it has been stored and not yet deleted, or its closing response was processed before it was stored; and its entry is its own |
| ServerMap.StaleEntries | server.go:466-552 | on every run the stale entries, but for ids sendStatus was used for, are those of the methods answered before their stream was stored; where it was used for none they are as many as closing responses that found no entry, and active is the map's size if and only if there is none |
| ServerMap.StaleStays | server.go:546-552 | a stale entry stays in every continuation, unless sendStatus is used for its id |
| ServerMap.ActiveIsNotMapSize | server.go:481-491 | a run with one unary call that ends with active 0 and a stale entry in the map |
| ServerProperties.ActiveLedger | server.go:488-552 | the exact value of the active counter, and when it is the number of registered and unfinished streams |
| ServerProperties.ActiveCanBeNegative | server.go:356-372 | one request under an even id drives the counter to -1 |
| ServerProperties.TerminalFrame | server.go:517-552 | a stream's frames are its method's responses in order, with at most one terminal frame, the last, of the type its kind calls for |
| ServerHistory.HandedIsSaid | services.go:112-146 | what a method has handed over, and the response it is blocked on, are in order exactly the responses of its SendMsg calls and of its end, with every field written out, less those it gave up because the connection was over |
| ServerHistory.WireIsTaken | server.go:516-545 | the frames on the wire are those of the responses the loop took, in order and none left out, until it leaves; then at most the last is missing |
| ServerHistory.ContextsEnd | services.go:111-146 | a method's context has ended exactly if it was cancelled: no failed data() and no closing frame ends it |
| ServerRefusals.RefusalsAreTaken | server.go:356-488 | sendStatus is called for exactly the messages that call for it, with the code each calls for, and each call is taken by the response loop in order, but for one it is blocked on and one given up because the connection is over |
| ServerProperties.HandlerInput | services.go:172-234 | RecvMsg's results and queue are a subsequence of the client's data, a prefix of it if no data() failed; io.EOF only after a closing frame, with the queue drained and everything received before that frame returned; no send on or second close of the closed channel |
| ServerProperties.ClosedInputIsFinal | services.go:182-192 | nothing enters a method's queue after the client closed the stream for sending, in any continuation |
| ServerClosings.ClosedIff | server.go:434-442 | unless sendStatus was used for its id, a method's input is closed if and only if its client's closing frame has been received, but while the receiver is handling data |
| ServerClosings.RecvMsgDrains | services.go:223-234 | on every run a method's RecvMsg returns the oldest item, and io.EOF exactly when its queue is closed and drained |
| ServerProperties.DataIsolation | server.go:410-432 | what a method is offered in any continuation is a subsequence of the data received under its own id: no other stream's data reaches its queue, none of it twice or out of order |
| ServerEnds.EndsFinishData | server.go:434-442 | a queue is closed by a closing frame of its own stream, with all data received up to that frame queued before, unless a data() has failed |
| ServerProperties.LoopWindsDown | server.go:497-568 | once the receiver has stopped, in any continuation the response loop takes at most as many turns as there are responses and errors left, and one more, with which it leaves |
| ServerProperties.LoopCanLeave | server.go:503-567 | after the shutdown signal, on every connection, the loop can leave or a counted stream can still hand something over |
| ServerLoop.LoopLeaves | server.go:497-568 | in every reachable state the exact steps by which the loop is left: a response that cannot be encoded or written, the end of the connection from recvErr, and the shutdown signal only if the counter it last looked at was not positive; and the published state is active if and only if that counter was positive |
| ServerLoop.BusyStays | server.go:503-516 | from the top of the loop with a positive counter, in every continuation in which the loop at most looks at the counter, the shutdown signal does not end it |
| ServerLoop.ErrIsFailure | server.go:385-391 | recvErr holds exactly the error of the read that failed until the loop takes it |
| ServerLoop.ErrReachesLoop | server.go:553-564 | once the receiver has failed or stopped, taking from recvErr makes the loop leave if the connection has ended and look at the counter again otherwise |
| ServerLoop.ToldToShutDown | server.go:356-383 | a connection is told to shut down only from outside, and stays told |
| ServerLoop.ReceiverStops | server.go:374-391 | once the loop has ended a receiver between messages stops and closes recvErr, however its read ends |
| ServerLoop.LoopAndMethodsStop | server.go:351-372 | a loop that has left ends, and a method blocked on a response then gives it up |
| ServerProperties.BlockedCanExit | server.go:374-391 | recvErr is put at most once, so its sender never blocks; after the loop every blocked respond and sendStatus can return |
| ServerProperties.BufferDiscipline | server.go:419-464 | no received buffer is put back twice, or while the receiver or an unread closure can read it |
| BufferReturns.ServerReturns | server.go:419-464 | the buffer of every request a method runs for, and of every object a method has received, has gone back to the pool |
| ServerRuns.RunInv | server.go:328-569 | the server's invariant holds in every reachable state |
| ServerTasks.RequestEffects | server.go:443-491 | a request either starts exactly the method it names, under an id above all before, or starts nothing and is refused |
| ServerInputs.InputsDispatch | server.go:410-432 | what data() is called with is the client's data in order, without a gap while the stream is in the map |
| ServerEnds.AnswersReceiver | server.go:356-372 | sendStatus only ever answers an id that was received |
| ServerLedger.CountsReceiver | server.go:490-491 | every receiver step keeps the ledger of registrations and closes |
| ServerLedger.ErrStep | server.go:345-391 | at most one value is ever put on recvErr, and none after it is closed |
| ServerWire.WireWriteTask | server.go:517-545 | a written response extends the frames of its own stream and no other's |
| ServerBuffers.BuffersRecvMsg | server.go:419-424 | running a queued closure puts back a buffer no other closure reads |
| Services.FinishIsCall | services.go:71-103 | the responses a running method can end with are exactly those unaryCall and streamCall can produce |
| Services.FinalFrameOf | server.go:518-545 | the frame each way of ending is written as, with its flags, status and payload |
| SystemRuns.SysRun | client.go:340-458 | the joint invariant holds after every run of both endpoints over the wire |
| SystemHistory.Sides | channel.go:120-162 | every run of the joint system is a run of each endpoint whose reads are what the wire holds, so that what holds over all runs of one endpoint holds end to end |
| SystemRuns.NothingRefused | server.go:402-452 | whatever message the receiver is about to dispatch is acceptable |
| SystemLinks.LinkedStep | channel.go:120-162 | what each side has read stays a prefix of what the other has written, byte for byte |
| SystemCalls.TaskOfStream | server.go:452-481 | every method runs for exactly the request, and with the kind, of the client's stream of its id |
| SystemCalls.NothingEarlyCaller | client.go:407-431 | no frame for a stream is read before the stream is registered |
| Framing.FrameStreamRoundTrip | channel.go:120-162 | the frames one side sends within the bound are exactly those the other side receives, followed by a bare io.EOF |
| Framing.ReadAllResync | channel.go:126-132 | oversized frames are passed over exactly, everything else arrives in order, and a bare io.EOF is reported exactly on a frame boundary |
| Framing.HeaderRoundTrip | channel.go:72-94 | the ten header bytes decode to the header that was encoded |
| Framing.HeaderBytes | channel.go:72-94 | the header is the length and the stream id, most significant byte first, then type and flags |
| Framing.ParseEncoded | channel.go:120-143 | a frame followed by anything reads back as itself, or as its header past the bound, using exactly its own bytes |
| Framing.ParseCutFrame | channel.go:73-76 | a frame cut short never reads as a frame, and is a bare io.EOF only if nothing of it arrived |
| Framing.SendKeepsWriter | channel.go:145-162 | a send keeps what was sent before, adds at most its own frame, and leaves whole frames and at most one cut one |
| Framing.NextFrame | channel.go:120-143 | a reader in step with the writer reads the next frame written and stays in step |
| Channels.BufferPool.Get | channel.go:164-178 | a buffer with room for the size that is not free and that nobody holds |
| Channels.BufferPool.Put | channel.go:180-182 | the buffer, if there is one, goes back to the pool, which stays in order if and only if it was not in it already |
| Channels.Channel.ReadFull | channel.go:72-76 | short reads add up to the bytes asked for, in order, or to all there are |
| Channels.Channel.ReadMessageHeader | channel.go:72-84 | the header of the next ten bytes, or which way the input ended |
| Channels.Channel.Recv | channel.go:120-143 | returns what Parse says of the remaining bytes, in a buffer nobody else holds, and consumes exactly those bytes |
| Channels.Channel.WriteMessageHeader | channel.go:86-94 | writes the ten header bytes through the fixed buffer |
| Channels.Channel.Send | channel.go:145-162 | puts on the connection, and reports, what the framing's Send says, for every way the connection can fail |
| BufferPool.GetOwned | channel.go:164-178 | handing out keeps every buffer with at most one holder, and no held buffer free |
| BufferPool.PutOwned | channel.go:180-182 | a single put keeps that |
| BufferPool.PutOwnedIff | channel.go:180-182 | a put keeps single ownership if and only if the buffer is neither free nor held by another read |
| BufferPool.TwicePutIsShared | channel.go:180-182 | a second put of one buffer lets two reads be given it |
| Ownership.BuffersOwned | channel.go:96-182 | over every run of both endpoints the buffer of a message still held anywhere is not free, not shared, and large enough |
| Ownership.EveryReadHasBuffer | channel.go:134-142 | a message has a buffer, for exactly its length, if and only if it has data |
| Ownership.PutReachesPool | channel.go:180-182 | on every run a buffer either endpoint puts back is in the pool right after that step |
| Ownership.PoolStep | channel.go:164-182 | every step of either endpoint keeps buffers owned |
| Refinement.ReceiveIsAllowed | stream.go:72-100 | whatever branches its selects take, an uninterrupted receive of the engine ends in what Stream.Receive's contract allows |
| Refinement.AllowedIsReceived | stream.go:72-100 | and every outcome that contract allows is reached by some branches |
| Refinement.DataIsAllowed | services.go:189-210 | an uninterrupted data of the engine ends in what StreamHandler.Data's contract allows, never in a send on a closed channel |
| Refinement.CreateIsAllowed | client.go:389-434 | the engine's steps of createStream, uninterrupted, do what Client.CreateStream's contract says |
| StreamObjects.Stream.CloseWithError | stream.go:51-61 | only the first close has an effect; a nil error becomes ErrClosed |
| StreamObjects.Stream.Receive | stream.go:72-100 | the message is queued exactly if nil is returned; a closed stream never takes one; a dropped message leaves the stream closed or the connection over |
| StreamObjects.StreamHandler.CloseSend | services.go:182-187 | the channel is closed once, and nothing queued is lost |
| StreamObjects.StreamHandler.Data | services.go:189-210 | an item is queued in order or refused with a reason; nothing is sent on the closed channel |
| StreamObjects.StreamHandler.RecvMsg | services.go:223-234 | the oldest item, or io.EOF exactly when the queue is closed and drained |
| ClientObjects.Client.CreateStream | client.go:389-434 | the next id, in the table before its request is sent; nothing at all if the connection has been closed |
| ClientObjects.Client.DeleteStream | client.go:436-441 | out of the table, then closed |
| ClientObjects.Client.CleanupStreams | client.go:450-458 | the table is emptied and every stream in it closed with the error, keeping its messages |
| ClientObjects.Client.Turn | client.go:355-383 | reads one message, delivers it to its own stream only, or closes that stream if it is oversized or its queue full |
| ClientObjects.Client.ReceiveLoop | client.go:349-385 | reads exactly the frames of the session its bytes hold and delivers to each stream its own, in order, and all of them unless an oversized message of its own or a full queue closes it |
| ClientObjects.Client.Run | client.go:340-347 | then every stream is closed, with the error the loop ended with unless it was closed before, and keeps what the loop delivered |
| ClientObjects.ClosedByPeer | client.go:460-476 | at which byte a connection must end for the error to be ErrClosed, and at which for a failed read |
| ClientObjects.ClientSender.CloseSend | client.go:210-223 | one closing frame, counted only once sent; refused without sending otherwise |
| ClientObjects.ClientSender.SendMsg | client.go:225-250 | one data frame, or refused without sending |
| ClientObjects.ClientReceiver.Await | client.go:257-269 | a pending message wins over the end of the stream |
| ClientObjects.ClientReceiver.RecvMsg | client.go:252-317 | returns what the engine's Judge makes of the oldest message, which it takes, or the error of its context or of the closed stream, taking nothing; and removes and closes the stream exactly when Judge says so |
| Shutdown.NeverGrows | server.go:224-236 | once the server is done its connection set never grows, in any continuation |
| Shutdown.ShutdownIsComplete | server.go:147-175 | when a Shutdown call has returned other than by its context, no connection is left and none ever comes |
| Shutdown.NobodyForgotten | server.go:286-299 | every connection accepted is in the set, told to shut down, over, or not yet added |
| Shutdown.ListenersAreLeaving | server.go:76-87 | after the server is done a listener still in the set is about to be closed by its Serve call |
| Shutdown.ActiveSpared | server.go:252-263 | however many Shutdown calls sweep, a connection published as active stays in the set and is not told to shut down until it publishes itself idle, ends, or the server is closed |
| Shutdown.SweepSuffices | server.go:147-175 | a sweep that finds every connection idle is the last: from then on the set is empty, and in every continuation the Shutdown call has returned, and without a context error, exactly if it has taken one more step |
| Shutdown.ShutdownTurns | server.go:147-175 | in every reachable state what each step of a Shutdown call does: close the listeners and mark the server done, sweep, count, return without an error of its context if no connection is left and else wait, and then sweep again or give up |
| Shutdown.ShutdownReturns | server.go:160-172 | from any point of a Shutdown call, with no connection active, four of its own steps end it |
| Shutdown.GivesUpByContext | server.go:167-169 | a Shutdown call returns an error of its context only if its context has ended |
| Shutdown.StateIsPublished | server.go:311-318 | the state of a connection is what it published last, and idle before |
| Shutdown.Serves | server.go:75-145 | a server that is not done accepts: a new Serve call listens, and a connection it accepts runs and is in the set |
| Shutdown.Leaves | server.go:202-243 | a Serve call that leaves closes its listener, and a run that ends takes its connection out of the set |
| ServerObjects.ServerTable.AddConnection | server.go:224-236 | the set grows by exactly the connection unless the server is done |
| ServerObjects.ServerTable.NewConn | server.go:286-299 | a connection is in the set and open, or refused and told to shut down |
| ServerObjects.ServerTable.CloseIdleConns | server.go:252-263 | exactly the idle connections are signalled and removed while iterating |
| ServerObjects.ServerTable.CloseListeners | server.go:214-222 | all listeners are closed and forgotten; the error is one of theirs, if any failed |
| ServerObjects.ServerTable.Close | server.go:178-196 | nothing is left, and everything was told |
| ServerObjects.NewConnIsStep | server.go:286-299 | newConn on the objects is Accept and AddConnection of the Shutdown machine |
| ServerObjects.DelConnectionIsStep | server.go:238-243 | delConnection on the objects is the machine's RunExits |
| ServerObjects.SweepIsStep | server.go:252-263 | closeIdleConns on the objects is the sweep of a Shutdown call |
| ServerObjects.BeginIsStep | server.go:147-156 | the first critical section of Shutdown is the machine's first step of the call |
| ServerObjects.CloseIsStep | server.go:178-196 | Close on the objects is the machine's Close |
| Metadata.RequestRoundTrip | metadata.go:93-108 | for every order of visiting the map, reading back what was put in a request gives the same lists but for the empty ones |
| Metadata.MD.SetRequest | metadata.go:93-102 | appends the pairs of every key once, each key's values in order |
| Metadata.MD.FromRequest | metadata.go:104-108 | appends pair by pair to the lists, in place where there is room, disturbing no other list |
| Metadata.MD.Clone | metadata.go:68-91 | a copy equal by value in one fresh array with exactly enough room, nil lists still nil, windows disjoint and unable to grow; of a nil map a nil map |
| Metadata.MD.Append | metadata.go:52-63 | on any lists, shared or not: the key's list grows by the values, in place exactly if there is room, and of all cells of all lists exactly those behind it are overwritten |
| Metadata.MD.AppendShows | metadata.go:52-63 | on any lists, another key's list reads as before if and only if no cell it shows is overwritten by a different value |
| Metadata.MD.AppendExactly | metadata.go:52-63 | the map afterwards is the map with the values appended to the key's list and nothing else changed, if and only if every other list is undisturbed |
| Metadata.MD.AppendApart | metadata.go:52-63 | in particular, on lists that share no cells no other list changes, even when the append is in place, and they still share none |
| Metadata.MD.AliasedLists | metadata.go:42-63 | two keys set to one slice with room: after an append to each, both lists end in what the second append wrote |
| Metadata.MD.Set | metadata.go:42-49 | replaces the key's list, or deletes the key if there are no values |
| Metadata.MD.Get | metadata.go:29-37 | the list of the lower-cased key, found exactly if it is not empty |
| Metadata.AppendTo | metadata.go:52-63 | the built-in append: in place within capacity, else in a new array |
| Metadata.Copy | metadata.go:86-88 | the built-in copy |
| Metadata.GatherList | metadata.go:104-108 | adding a key's values one by one is appending them at once |
| Interceptors.ChainIsFold | client.go:96-108 | the recursive builder is the right fold of the list over the final call |
| Interceptors.ChainAppend | config.go:78-86 | a chain in front of a chain is one chain |
| Interceptors.ChainedRuns | config.go:58-76 | the chain option runs what was installed before around the new interceptors around the call |
| Interceptors.TwoChains | config.go:58-76 | the option for xs and then for ys behaves as one option for xs ++ ys, on client and server |
| Interceptors.PassingOrder | client.go:96-108 | interceptors that pass the call on run in list order around the final call, which is made once |
| Interceptors.ClientOptions.WithChain | client.go:75-94 | installs the chain onto what was installed |
| Interceptors.ServerOptions.WithChain | config.go:58-76 | installs the chain onto what was installed |
| Interceptors.ServerOptions.WithUnaryInterceptor | config.go:47-55 | refused, changing nothing, once something is installed |

## Left out

- Sockets, Accept and its backoff, the handshake, real clocks, logging: input and output of the process.
- The protobuf and grpc status libraries: `Config` stands for them. Metadata and timeouts of a request are
  not part of the engines' `Req`; metadata has its own module.
- The text of errors: `Err` keeps only what a caller can distinguish. Which operating system errors
  filterCloseErr rewrites is not modelled.
- Deadlines: a context ends at any moment, by an event.
- A peer that stops reading: a write either takes some bytes or fails, and does not block for ever.
- Two goroutines sending on one client stream at once: `localClosed` is unguarded in the source, so the
  engine has one sender per stream.
- A client whose descriptors do not match the service: `System.Allowed` excludes it. The server engine
  alone models data for a unary stream as the panic it is.
- The encoding of request objects in Call and NewStream, and Call's decoding of the reply into the caller's
  object: the engines start from the encoded request and end with the decoded response.
- The localClosed field of streamHandler: no statement of the source ever sets it.
- UserOnCloseWait, convertCode, fullPath, the string methods: single branches.
- The receiver and response loop of serverConn.run as methods: they are goroutines that interleave, so they
  are transition systems only.
- ServerEngine.HasInitialData: a nil and an empty request payload are the same here, because a decoded
  request has no empty payload that is not nil.
- Services.Decodable: the object a response carries, and the empty object where a nil one is sent as a
  response, can be decoded by the client.
- StreamObjects.Stream.Receive: states the call while nothing else touches the stream; the engine has every
  interleaving, and `Refinement` proves that the two agree where nothing interferes.
- StreamObjects.StreamHandler.Data: the same.
- ClientObjects.Client.ReceiveLoop: the loop on its own, with no consumer and no Close running; every
  interleaving is in ClientRuns.
- Channels.Channel.Flush: a frame's bytes reach the connection at the flush, where the buffered writer may
  pass some on before; the bytes, their order and the sticky error are the same.
- Two goroutines of one method sending at once: a method has at most one SendMsg pending; it may receive
  meanwhile.
- A method's RecvMsg returning the error of its context: it takes nothing from the queue.
- Metadata.MD.FromRequest: into a map whose lists share no cells, as the one made for each request is.
- Shutdown.ActiveSpared: speaks of the state a connection has published; a connection may have accepted a
  request since it published itself idle.
