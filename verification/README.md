# Taffy voice assistant: a verified model

This project models the parts of the Taffy repository where several processes share state, and
proves what they keep over whole runs. One voice turn crosses all of them: the furniture cuts the
microphone stream into segments, the Server and the Worker pass them to the ASR service, a final
text starts an LLM call, the LLM's tool calls travel back to the Server, the Server changes a
device, and the change reaches the simulated device over MQTT and the app over the push hub.

## How the model is built

Code that updates objects in place is a `class` whose methods are proved equal to functions on
values. Concurrent behaviour is a state machine: a `State`, a `Step`, `Enabled` and `Apply`, and a
run is a sequence of states joined by enabled steps. Theorems about runs hold for every
interleaving of these steps. Fields described as history are written by steps and stand for
nothing in the code; where a guard mentions one, it only names the goroutine's own entry.

| file | what it models |
|---|---|
| `Wire.dfy` | frames exchanged between furniture, Server, Worker and ASR service |
| `Worker.dfy` | the Worker's session object, its two reading loops, tool-call loop and provider fallback |
| `Protocol.dfy` | one voice session: goroutines of Worker and Server, FIFO connections, every interleaving. `React`, `ReactToAsr` and `PopForRequest` of `Worker.dfy` are single steps of it, so the two writes of one reading iteration, and a pop with the snapshot after it, are not separated; the tool-call loop `EmitAll` is cut into one step per remembered call and one per frame |
| `Sums.dfy`, `ProtocolAccounting.dfy` | counting slots: where each reply a session owes is, and how each step moves it |
| `ProtocolSafety.dfy` | invariants of every reachable session state; conservation and reply accounting |
| `ProtocolPairing.dfy` | the pending map is exact and second rounds replay their first round, but for entries a client's own result has taken |
| `ProtocolReplies.dfy` | which replies never come: those of calls whose arguments are not JSON |
| `ProtocolProgress.dfy` | a session comes to rest once the client sends nothing and the ASR service does nothing |
| `ProtocolTransport.dfy` | what the connections carry through: context, audio, client frames |
| `ProtocolTrace.dfy` | what every step writes, which texts start an LLM call, and what becomes of every frame and event read, stated apart from the functions that decide it |
| `ProtocolOutcome.dfy` | every result traced back to its execution, every second round to its result, every reply and every audio frame to the answer it comes from |
| `Vad.dfy` | the end-point detector and its window condition |
| `Chunks.dfy` | cutting a byte stream into 19200-byte pieces |
| `Uplink.dfy`, `UplinkWindows.dfy` | the microphone loop, and its refinement by windows of the stream |
| `UplinkLeaving.dfy` | resuming the loop, and leaving it in the middle of a frame |
| `Pcm.dfy` | sample conversion at both ends |
| `AsrService.dfy`, `VoicePath.dfy` | the streaming ASR endpoint; packetisation invariance; microphone to decoder |
| `Devices.dfy` | the Server's device states, voice commands, scenes, the HTTP merge, the status merge |
| `Simulator.dfy`, `Twin.dfy` | the simulated device; one command on both sides; convergence over two queues |
| `Overlay.dfy` | the app's cards as an overlay on the Server's states |
| `PushHub.dfy`, `CardDelivery.dfy` | the hub's bounded queues; from the hub to a card |
| `Binding.dfy` | binding, renaming, unbinding, heartbeats and user deletion, interleaved |
| `CommandLog.dfy` | the command log of a voice session under concurrent handlers |
| `Tokens.dfy` | access tokens, the clock and the blacklist |

A slot is one reply a session owes: the first-round reply of a turn, or the second-round reply of
one tool call. It is planned until its call is remembered, held while the call is outstanding, and
past once its second round has begun. `Sum` over goroutines and frames counts slots; a query selects
which ones.

### Where the code falls short of an obvious claim

Each of these is proved as an exact condition or with a concrete run.

- A tool call whose arguments are not JSON is remembered but never sent
  (`worker/internal/handler/orchestrate.go:281-287`). At rest a call has had its reply exactly if its
  arguments are JSON (`CallIsAnsweredIff`), a turn all its replies exactly if this holds of all its
  calls (`QuiescentReplies`), and an id is still cached exactly if it does not hold of some call
  (`OnlyUnencodableRemain`); `LostReply` is a run.
- The Server passes on a `device_command_result` or `device_info` that a client sends
  (`server/internal/handler/voice.go:247`). Reply accounting does not mind. A client's result does
  harm exactly if it finds an entry: the pending map has been exact in every state exactly if none
  did (`MapExactIff`), and a second round replays its first exactly if its own entry was not taken
  (`SecondRoundsReplayTheirFirst`); `StolenEntry` is a run. A client's `device_info` replaces the
  context (`EveryLlmCallSeesThePush`).
- Two live commands with one tool id lose a row of the command log: `PendingAtQuiescence` gives the
  exact condition, `RepeatedIdLosesRow` a run that also records the wrong outcome. A handler sends
  its result before it marks its row (`server/internal/handler/voice.go:328-329`), so it counts as
  live for longer at the Server than its call is outstanding at the Worker.
- A microphone loop cancelled inside a send can leave a start without its end, an end without a
  start, or send audio twice: `BalancedWhenCutIff`, `RepeatsWhenCutIff`; `FillsBuffer` is a stream.
- A report whose merged state the database refuses is lost as a whole, and the two copies of a
  device then differ, exactly in that case (`QuietTwinsConverge`). With the columns of the table it
  happens exactly if the controls leave a brightness on the device that does not fit its INT column
  (`ConvergedIff`): the Server ignores the brightness of a light's `turn_on`, stores, and publishes
  it. The mode never causes it. `LightDiverges` is a run, with a brightness of 3000000000;
  `CarefulCallersConverge` is what a caller can see to.
- The HTTP path changes the Server's copy without publishing: `UnpublishedPutDiverges`.
- A light switched on with a brightness, and an action the device type does not have, mean different
  things on the two sides: `SquareCommutesIff`.
- A segment with an odd number of bytes makes the ASR endpoint fail and close, without an `eos`:
  `SegmentIsDecoded` covers both cases. The furniture never sends one.
- An event older than what a card was loaded from leaves a mixture: `StaleEventMixesStates`. It is
  repaired by the next event that is no older than the load.
- That a device is bound at most once, that no owner follows another, and that a bind without a
  name keeps the present name each hold in all runs exactly if the database's comparison of bind
  codes matches the empty code with no other (`PromisesKeptIff`); `BoundTwice` is a run that breaks
  all three.
- The first heartbeat takes a device off the list of bindable devices while its code still binds:
  `BindableIsListedIff`.
- An owner who renames a device to the name and room it has is answered like somebody who is not the
  owner, because no row is affected: `Binding.DeviceRepo.RenameDevice`.
- One logout holds exactly when the store is up at every check and the entry outlives the token
  (`RevocationHoldsIff`), and a login in the second of a logged-out token's issue yields that revoked
  token again (`SameSecondLoginIsRejected`).

## Model

| member | source | states |
|---|---|---|
| `Worker.SessionObject.HandleUpstream` | worker/internal/handler/orchestrate.go:120-196 | one frame from the Server: ping is answered, a device_info that parses replaces the context, a result that parses starts one handler, a text starts one LLM call with the context of that moment (or reports that no provider is configured), an empty text is answered at once, anything else is forwarded to the ASR service and touches nothing |
| `Worker.SessionObject.HandleAsrEvent` | worker/internal/handler/orchestrate.go:201-253 | one ASR event: passed on under its new name, constructor by constructor; with providers a non-empty final starts one LLM call with the context of that moment and an empty one is answered at once; nothing else is started or written |
| `Worker.SessionObject.EmitToolCalls` | worker/internal/handler/orchestrate.go:278-288 | the tool-call loop remembers and sends the calls one by one, in order |
| `Worker.SessionObject.BeginSecondRound` | worker/internal/handler/orchestrate.go:300-321 | the entry of the result's id is removed; the request replays its name and arguments, or the safe defaults, under the current context; its content is the failure text with the message, the message, or the success text, in three cases |
| `Worker.SessionObject.RememberToolCall` | worker/internal/handler/session.go:85-89 | the entry of this id becomes the call; every other entry stays |
| `Worker.SessionObject.PopToolCall` | worker/internal/handler/session.go:93-101 | the entry is returned and removed; nothing else changes, and a missing one is reported |
| `Worker.SessionObject.SetDeviceContext` | worker/internal/handler/session.go:60-71 | the cached context becomes the pushed one; a frame that does not parse leaves the old one |
| `Worker.EmitAllCaches` | worker/internal/handler/orchestrate.go:278-281 | after the loop every id of the round is cached under its last call, every other entry and the context are untouched |
| `Worker.EmitAllSends` | worker/internal/handler/orchestrate.go:278-288 | exactly the calls with encodable arguments are sent, each once, in order |
| `Worker.PostWithFallback` | worker/internal/handler/llm.go:72-97 | the first provider that answers wins and no later one is asked; if all fail the last error is reported; no provider is its own error |
| `ProtocolAccounting.StepTally` | worker/internal/handler/orchestrate.go:257-334 | the whole effect of any step of a session on any set of reply slots: planned to held when remembered, held to past when popped, planned to past when answered directly, one slot to one per tool call when answered with calls |
| `ProtocolAccounting.BalancedStep` | worker/internal/handler/orchestrate.go:257-334 | no step creates or loses a slot |
| `ProtocolSafety.RunSound` | worker/internal/handler/orchestrate.go:257-334 | every reachable state is well typed (frames and goroutines refer to the calls the LLM asked for) and conserves every slot |
| `ProtocolSafety.EverySlotInExactlyOnePlace` | server/internal/handler/voice.go:254-330 | in every reachable state of Worker and Server, each slot that exists is in exactly one of: to be answered or emitted, remembered-unsent, in flight as a command, executing, in flight as a result, in an unpopped handler, leaked, in a second round, replied; other slots are nowhere |
| `ProtocolSafety.ReplyAccounting` | worker/internal/handler/orchestrate.go:257-334 | over all interleavings, even with repeated tool ids: replies sent + replies owed + leaked calls = sum of max(1, k) over answered turns + turns still waiting, per turn and in total |
| `ProtocolSafety.AudioFollowsItsReply` | worker/internal/handler/orchestrate.go:293-296 | every tts_audio comes after an llm_result with the text it speaks, and that text is not empty |
| `ProtocolReplies.RunEncodable` | worker/internal/handler/orchestrate.go:281-287 | in every reachable state, whatever has been sent, is executing, has come back, is being handled or has been replied belongs to a call with JSON arguments |
| `ProtocolReplies.CallIsAnsweredIff` | worker/internal/handler/orchestrate.go:278-334 | once nothing runs or is in flight, a call has had its one reply exactly if its arguments are JSON, and is leaked exactly if they are not |
| `ProtocolReplies.QuiescentReplies` | worker/internal/handler/orchestrate.go:257-334 | once nothing runs or is in flight, a turn with k tool calls has produced exactly max(1, k) terminal frames, less one per call whose arguments are not JSON; all of them iff all its calls have JSON arguments |
| `ProtocolReplies.OnlyUnencodableRemain` | worker/internal/handler/orchestrate.go:281-309 | once nothing runs or is in flight, an id is still cached iff some call with this id has arguments that are not JSON and its entry was not taken by a client's own result |
| `ProtocolReplies.LostReply` | worker/internal/handler/orchestrate.go:278-291 | a run: one text, one call whose arguments are not JSON, everything at rest, the text echoed, no reply, the call still cached |
| `ProtocolReplies.StolenEntry` | worker/internal/handler/orchestrate.go:299-309 | a run with distinct ids: a result of the client's own under a live id takes the entry, and the Server's result finds none and replays the defaults |
| `ProtocolProgress.InternalStepsProgress` | worker/internal/handler/orchestrate.go:120-334 | every step of Worker and Server, the reading of ASR events included, with any answer of the LLM, lowers a well-founded measure of the work left |
| `ProtocolProgress.ComesToRest` | server/internal/handler/voice.go:254-330 | from every reachable state, steps of Worker and Server alone lead to a state where nothing runs, nothing is in flight and every event of the ASR service has been read, whatever the LLM keeps answering |
| `ProtocolPairing.PlaceStep` | worker/internal/handler/orchestrate.go:278-309 | a call becomes outstanding only when asked for, held exactly when remembered, and free exactly when popped |
| `ProtocolPairing.RunPaired` | worker/internal/handler/session.go:84-101 | with ids distinct while outstanding, in every reachable state: outstanding calls are cached as themselves, but for those whose entry a client's own result has taken, whose id is not cached; nothing else is cached; outstanding ids are distinct; a second round replays its call iff that call's entry was not taken |
| `ProtocolPairing.PendingMapIsExact` | worker/internal/handler/session.go:84-101 | in every reachable state the pending map holds exactly the ids that are remembered-unsent, in flight as a command, executing, in flight as a result, in an unpopped handler or leaked, but for entries taken by a client's own result, each with the name and arguments of its own call |
| `ProtocolPairing.SecondRoundsReplayTheirFirst` | worker/internal/handler/llm.go:116-155 | a second round of a call finds its entry and replays the id, name and arguments its own first round asked for, whatever order results return in, exactly if no result of a client's own had taken that entry |
| `ProtocolPairing.MapExactIff` | worker/internal/handler/orchestrate.go:299-309 | the pending map has held the outstanding calls and nothing else in every state so far iff no result of a client's own has found an entry; one that finds none does no harm |
| `ProtocolPairing.NothingStolenIff` | worker/internal/handler/orchestrate.go:304-309 | an entry has been taken iff a second round without a call of its own found one |
| `ProtocolPairing.NothingStolenWithoutClientResults` | server/internal/handler/voice.go:228-252 | as long as clients send no device_command_result, no entry is taken |
| `ProtocolPairing.OnlyLeaksRemain` | worker/internal/handler/orchestrate.go:281-309 | once nothing runs or is in flight, exactly the ids of calls that could not be sent are still cached, but for entries taken by a client's own result |
| `ProtocolTransport.EveryLlmCallSeesThePush` | server/internal/handler/voice.go:124-137 | every LLM call of a session, first or second round, started by text or through the ASR service, sees a context announced before it, never the initial empty one if the push succeeded, and exactly the one pushed unless a client sends a device_info |
| `ProtocolTransport.RunContexts` | worker/internal/handler/orchestrate.go:164-167 | in every reachable state the context is that of the last device_info read that parses, and no call has been made before the first frame was read |
| `ProtocolTransport.RunForwards` | worker/internal/handler/orchestrate.go:120-148 | the ASR service is sent exactly the audio frames the Worker has read, in order; the furniture is sent, in order, everything the Worker wrote except device commands |
| `ProtocolTransport.DrainedMedia` | server/internal/handler/voice.go:228-252 | once the connection to the Worker is drained, the ASR service has been sent exactly the client's audio frames, whatever results and pushes the Server mixed in |
| `ProtocolTrace.SaysStep` | worker/internal/handler/orchestrate.go:120-334 | step by step, which frames the Worker writes, in order: a table without the functions of the session |
| `ProtocolTrace.WrittenIsStory` | worker/internal/handler/orchestrate.go:120-334 | over any run, the frames written to the Server are exactly what the steps of the table say, in order |
| `ProtocolTrace.EveryTriggerStartsATurn` | worker/internal/handler/orchestrate.go:177-253 | in every reachable state, with providers, the LLM calls started are, as a multiset of texts, the non-empty texts read from the Server and the non-empty finals read from the ASR service; without providers there are none |
| `ProtocolTrace.TriggerStartsCall` | worker/internal/handler/orchestrate.go:188-253 | a trigger opens the next turn and starts one first round, with its text and the context of the last device_info read that parses |
| `ProtocolTrace.EveryEventIsPassedOn` | worker/internal/handler/orchestrate.go:200-228 | in every reachable state, every ASR event read has been passed on once under its new name, every ping answered once, every non-empty text echoed once, and no other such frame written |
| `ProtocolTrace.EveryEmptyTextIsAnswered` | worker/internal/handler/orchestrate.go:179-251 | in every reachable state, the replies that belong to no turn are one per empty text, one per empty final, one per text without a provider, and the answers to results of the client's own |
| `ProtocolTrace.EventsArrive` | worker/internal/handler/orchestrate.go:201-212 | everything the ASR service emits is there for the Worker to read, in order |
| `ProtocolOutcome.FirstCallsCarryTexts` | worker/internal/handler/orchestrate.go:188-253 | a waiting first round asks with the text of its own turn |
| `ProtocolOutcome.RunTold` | worker/internal/handler/orchestrate.go:169-174 | in every reachable state each handler and each second round, of a call or stray, comes from a result frame that was read, and the second round is told that frame's outcome |
| `ProtocolOutcome.ResultsAreExecuted` | server/internal/handler/voice.go:308-328 | a result frame of the Server's own carries the outcome of the execution of its call |
| `ProtocolOutcome.OutcomeIsCarried` | server/internal/handler/voice.go:326-328 | once a call has been executed its outcome is, in every later state, on its way back, with its handler, or told to its second round |
| `ProtocolOutcome.ExecutedOnce` | server/internal/handler/voice.go:254-330 | over any run, whatever the tool ids, no call is executed twice |
| `ProtocolOutcome.SecondRoundIsTold` | worker/internal/handler/orchestrate.go:313-318 | the call of a second round has been executed, and that one execution decides the content: the failure text and the message, the message, or the success text |
| `ProtocolOutcome.EveryOutcomeIsTold` | worker/internal/handler/orchestrate.go:300-321 | once nothing runs or is in flight, every execution has a second round that was told its outcome |
| `ProtocolOutcome.SecondRoundSeesContext` | worker/internal/handler/orchestrate.go:311-321 | a second round is sent with the context of the last device_info that had been read and parsed when its handler began, and its LLM call carries exactly the recorded request |
| `ProtocolOutcome.FirstReplyIff` | worker/internal/handler/orchestrate.go:263-294 | in every reachable state a first-round reply of a turn is in the trace iff the turn has been answered without calls, with exactly that answer's text or error |
| `ProtocolOutcome.SecondReplyIff` | worker/internal/handler/orchestrate.go:324-331 | in every reachable state a reply to a call is in the trace iff its second round has been answered so |
| `ProtocolOutcome.AudioIff` | worker/internal/handler/tts.go:30-56 | audio is in the trace iff speech is configured, the text is not empty, and the synthesis of that very reply has succeeded |
| `ProtocolOutcome.EveryReplyIsSpoken` | worker/internal/handler/orchestrate.go:293-333 | every reply with a text has its synthesis running or finished |
| `Vad.VadSegmenter.constructor` | furniture/mock_furniture.py:91-97 | both thresholds are positive, and are the whole frames that fit into the given times when those are at least one frame |
| `Vad.VadSegmenter.Feed` | furniture/mock_furniture.py:109-133 | one frame moves the counters and fires as the transition function says; a frame of the wrong size does nothing |
| `Vad.VadSegmenter.Reset` | furniture/mock_furniture.py:103-107 | back to the initial counters |
| `Vad.CountersAreRuns` | furniture/mock_furniture.py:109-133 | the two counters are the lengths of the current runs since the last event, and stay below their thresholds |
| `Vad.DetectorMeetsWindow` | furniture/mock_furniture.py:109-133 | for all positive thresholds and every history: start fires iff idle and the last N_s frames since the last event are all speech, end fires iff speaking and the last N_e frames since the start are all silent |
| `Vad.EventsAlternate` | furniture/mock_furniture.py:109-133 | starts and ends alternate, beginning with a start |
| `Chunks.PiecesKeep` | model/asr_server/app.py:437-439 | cutting a buffer into strides loses and reorders nothing |
| `Chunks.PiecesAreSlices` | model/asr_server/app.py:437-439 | stride i is bytes 19200 i up to 19200 (i + 1) |
| `Chunks.PiecesCount` | model/asr_server/app.py:437-439 | a buffer of n bytes gives floor(n / 19200) strides and n mod 19200 bytes stay |
| `Chunks.PiecesResume` | model/asr_server/app.py:435-439 | cutting can be interrupted: the rest of the first part goes in front of the second |
| `Uplink.LiveStream.TakeFrame` | furniture/mock_furniture.py:286-328 | one frame through the loop body: dropped while paused, fed to the detector, start fills from the look-back, end flushes and pauses, speech is buffered and flushed at 600 ms, silence is remembered |
| `Uplink.LiveStream.FlushSegmentBuf` | furniture/mock_furniture.py:279-283 | a non-empty segment buffer is sent as one frame and emptied |
| `Uplink.LiveStream.FillFromLookback` | furniture/mock_furniture.py:313-316 | the buffer becomes the remembered frames in order, and the memory is emptied |
| `Uplink.LiveStream.StreamLive` | furniture/mock_furniture.py:285-340 | the whole loop over any number of frames, with the final flush and end when left between frames while speaking |
| `UplinkWindows.WindowsArePlaced` | furniture/mock_furniture.py:286-328 | each window starts at the first frame where the start condition holds since listening resumed, ends at the first frame where the end condition holds since its start, and reaches back as far as the look-back allows |
| `UplinkWindows.LoopRefines` | furniture/mock_furniture.py:272-328 | at every moment the loop's buffers, counters and trace are those of the windows of the stream |
| `UplinkWindows.UplinkIsRenderedWindows` | furniture/mock_furniture.py:286-340 | for every stream and every verdict function, the complete uplink is start, 600 ms pieces, end for each window in order, and the returned count is the number of windows |
| `UplinkWindows.UplinkIsPrefix` | furniture/mock_furniture.py:286-340 | at any moment the uplink is a prefix of complete segments |
| `UplinkWindows.WindowsAreShort` | furniture/mock_furniture.py:272-316 | a window has at most ten frames before its start frame, none older than the last resume, and stops before the end frame |
| `UplinkWindows.PacketSizes` | furniture/mock_furniture.py:323-326 | every binary frame of a segment but its last is exactly 19200 bytes, none is empty or longer, together they are the payload |
| `UplinkLeaving.ResumeOnlyUnpauses` | furniture/mock_furniture.py:294-303 | the frame that ends a pause only ends the pause: it is dropped, and the detector it resets is always reset already |
| `UplinkLeaving.ShapeOfLoop` | furniture/mock_furniture.py:286-328 | between frames the uplink is a word of (start binary* end)*, with an open segment exactly while the detector speaks |
| `UplinkLeaving.BalancedWhenCutIff` | furniture/mock_furniture.py:309-338 | cancelled inside a send while one more frame is handled, the loop leaves a balanced uplink exactly if it was not in the last flush, and the start or end being sent had gone out |
| `UplinkLeaving.AudioWhenCut` | furniture/mock_furniture.py:279-338 | the audio that has gone out after such a cancellation: what was buffered twice, once, or not at all, by where it struck |
| `UplinkLeaving.RepeatsWhenCutIff` | furniture/mock_furniture.py:279-283 | more audio goes out than was buffered exactly if the cancellation strikes after a full buffer has gone out and before it is emptied |
| `UplinkLeaving.FillsBuffer` | furniture/mock_furniture.py:323-326 | a stream that gets there: speech from the first frame on, at the twentieth |
| `Pcm.BytesRoundTrip` | furniture/mock_furniture.py:236-239 | little-endian 16-bit encoding and decoding give back every sample value |
| `Pcm.SamplesRoundTrip` | model/asr_server/app.py:282-289 | decoding and encoding give back every pair of bytes |
| `Pcm.Quantise` | furniture/mock_furniture.py:236-237 | clip, scale and truncate always fits 16 bits, symmetrically |
| `Pcm.SampleError` | furniture/mock_furniture.py:236-237 | one sample through encoder and decoder moves by less than 2/32768 from the clipped input |
| `Pcm.HearsWhatWasSaid` | model/asr_server/app.py:282-289 | a sequence of samples comes back with the same length, each within 2/32768 of the clipped original |
| `Pcm.Decode` | model/asr_server/app.py:282-289 | conversion succeeds iff the bytes are whole samples, and gives half as many values as bytes |
| `Pcm.DecodeConcat` | model/asr_server/app.py:282-289 | whole-sample pieces decode one by one to the decoding of the whole |
| `Pcm.StridesDecodeSegment` | model/asr_server/app.py:437-442 | decoding stride by stride and then the remainder gives the samples of the whole even-length segment |
| `AsrService.AsrConnection.RunStreamChunk` | model/asr_server/app.py:292-308 | one decoder call is added to those made since the cache was cleared, and the text depends on exactly those |
| `AsrService.AsrConnection.CloseSegment` | model/asr_server/app.py:394-418 | an end makes one final call on the remaining bytes, sends the text if there is any, then eos, and clears the segment |
| `AsrService.AsrConnection.Receive` | model/asr_server/app.py:367-454 | one message: start with the sample-rate check, end, ignored end, audio, ping, unknown and malformed control frames, failure on half a sample or an unreadable frame, and nothing after a failure |
| `AsrService.AsrConnection.ReceiveAudio` | model/asr_server/app.py:428-454 | audio opens a segment if none is open, joins the buffer, and the stride loop drains it |
| `AsrService.AsrConnection.DecodeStride` | model/asr_server/app.py:438-453 | one stride leaves the buffer, is decoded as not final, and gives a partial if anything was recognised |
| `AsrService.AsrConnection.Serve` | model/asr_server/app.py:355-454 | the whole receive loop is the fold of one message |
| `AsrService.DrainIsPieces` | model/asr_server/app.py:437-453 | the stride loop decodes the full pieces of the buffer in order and keeps the rest |
| `AsrService.PacketsDoNotMatter` | model/asr_server/app.py:428-454 | inside a segment, any packets call the decoder on the full pieces of their concatenation, and the rest is buffered |
| `AsrService.IdleFramesDoNothing` | model/asr_server/app.py:367-425 | pings, unknown or malformed frames, refused starts and empty audio, anywhere in a stream, change nothing but the events |
| `VoicePath.PacketisationInvariance` | model/asr_server/app.py:428-454 | packets with the same bytes lead to the same service state, so to the same decoder calls, text and events, inside a segment, outside one and after a failure |
| `VoicePath.StridesChain` | model/asr_server/app.py:443-453 | partials form a prefix chain and are prefixes of the accumulated text |
| `VoicePath.StridesReport` | model/asr_server/app.py:443-453 | the strides send exactly the partials of their calls: one for each call that recognised anything, with everything recognised up to it, in order |
| `VoicePath.PartialsMeaning` | model/asr_server/app.py:446-453 | which partial belongs to which call, apart from the recursion that lists them |
| `VoicePath.SegmentIsDecoded` | model/asr_server/app.py:377-454 | start, packets, end, whatever was pending before: if the bytes are whole samples, exactly floor(n/19200) non-final calls on the slices and one final call on the rest, and the events are exactly one partial per call that recognised anything, the final if there is any text, and eos, with a clean state after; otherwise the same partials, an error, no eos, and the connection is lost |
| `VoicePath.RenderedIsDecoded` | model/asr_server/app.py:355-454 | rendered segments are decoded one by one: the events are exactly the segments' reports in order, one eos per end, no end ignored, no implicit segment |
| `VoicePath.MicrophoneToDecoder` | furniture/mock_furniture.py:286-340 | end to end, for every microphone stream, every verdict and every interleaving of the session: once drained, the ASR service has sent exactly one report per window, in order, each with its eos, ignored no end, opened no implicit segment, and the decoder inputs of segment i are the 19200-byte slices of exactly the audio of window i |
| `VoicePath.CallsCarrySegment` | model/asr_server/app.py:394-442 | the samples given to the decoder, call after call, are the samples of the segment |
| `VoicePath.RecogniserHearsWindow` | furniture/mock_furniture.py:232-239 | what the decoder is given for a window is what the microphone picked up in that window, each sample within 2/32768 of the clipped original |
| `Devices.DeviceService.UpdateDeviceState` | server/internal/service/device.go:117-130 | the state is written iff the device exists, the user owns it and the table accepts the state |
| `Devices.DeviceService.PublishCommandBestEffort` | server/internal/service/voice_command.go:68-89 | one message with the action and the parameters that are present, if a publisher is attached |
| `Devices.DeviceService.ExecuteControlDevice` | server/internal/service/voice_command.go:28-64 | succeeds iff the command parses with a device id, the device has a row, a state and an owner, the action is one of the six with its own parameter, and the table takes the state with exactly the assigned fields changed; only then it changes and publishes |
| `Devices.DeviceService.Trigger` | server/internal/service/scene.go:93-110 | every command of the scene is executed in order, whatever the others do, and gives one result; a scene that is missing or does not parse changes nothing |
| `Devices.DeviceService.ExecuteActivateScene` | server/internal/service/voice_command.go:92-125 | refused without a scene service or a positive id; success once the scene parses, however many commands fail, with failures and total in the message |
| `Devices.DeviceService.SyncStateFromDevice` | server/internal/service/mqtt_handlers.go:69-91 | a report overwrites exactly the fields it carries, for a device with a state; if the table refuses the result nothing changes |
| `Devices.DeviceService.PutDeviceState` | server/internal/handler/device.go:94-158 | the request's fields are merged into the current state, written only for the owner and if the table accepts it, and only then broadcast, as the merged state |
| `Devices.SucceedsIff` | server/internal/service/voice_command.go:28-164 | which commands succeed, and the whole store after them: exactly the assigned fields of that device, and one message with the action and the parameters that are present |
| `Devices.ExecuteIsLocal` | server/internal/service/voice_command.go:28-64 | a failed command leaves the whole store unchanged; a success changes only its own, owned device, and publishes exactly its action and parameters |
| `Devices.SceneResultIff` | server/internal/service/scene.go:104-109 | every command of a scene is executed, whatever became of the ones before it: result i is true iff command i has everything it needs in the store that commands 0 to i - 1 leave, and it leaves the store of a success or the same one |
| `Devices.FailuresDoNothing` | server/internal/service/scene.go:104-109 | a failed command, taken out of a scene anywhere, changes neither the final store nor the other results |
| `Devices.SceneKeeps` | server/internal/service/scene.go:104-109 | one result per command, publishes equal successes, successes and failures add up, no device or state appears or disappears |
| `Devices.SceneEndsAtLatest` | server/internal/service/scene.go:104-109 | every field of every device ends at the value of the last successful command that sets it, and keeps its value if none does |
| `Devices.LatestMeaning` | server/internal/service/scene.go:104-109 | what "last" means: the value at the last position that sets one, the initial value if none does |
| `Devices.DecimalIsCanonical` | server/internal/service/voice_command.go:116-124 | the numbers in the scene message are digits only, read back as the numbers, without a leading zero |
| `Simulator.DeviceSimulator.constructor` | furniture/mock_devices.py:136-145 | the initial attributes of each device type |
| `Simulator.DeviceSimulator.ApplyCommand` | furniture/mock_devices.py:40-48 | lower-casing and dispatch on the device type; an unsupported type changes nothing |
| `Simulator.DeviceSimulator.ApplyLight` | furniture/mock_devices.py:50-63 | light: power and brightness, with the short forms and the default brightness |
| `Simulator.DeviceSimulator.ApplyAircon` | furniture/mock_devices.py:65-79 | air conditioner: power, temperature and mode, with the short forms and defaults |
| `Simulator.DeviceSimulator.ApplyCurtain` | furniture/mock_devices.py:81-91 | curtain: only the position, never the power, with its short forms |
| `Simulator.DeviceSimulator.OnMessage` | furniture/mock_devices.py:205-220 | apply, then report the new state with the attributes that are set, also after an unknown action |
| `Simulator.NamesUnderstood` | furniture/mock_devices.py:40-91 | a device understands every action name the Server publishes as the action the Server meant |
| `Simulator.SquareCommutesIff` | furniture/mock_devices.py:50-91 | for agreeing sides and a command the Server accepts, applying it on the Server and its published form on the device keeps agreement exactly under a condition on the command and the device's state |
| `Simulator.NativeCommandsKeepAgreement` | server/internal/service/voice_command.go:68-89 | over any list of light or air-conditioner commands, agreeing sides stay in agreement on that type's fields |
| `Twin.QuietTwinsConverge` | server/internal/service/mqtt_handlers.go:69-91 | over any run of controls, deliveries, redeliveries and reconnects: whenever both queues are empty the Server has the device's power and every attribute it reports, even where the two sides apply a command differently, exactly if the table accepts the device's report |
| `Twin.EveryTakeIsReported` | furniture/mock_devices.py:194-220 | the device reports its whole present state after every command it takes and every connect; nothing else changes the device |
| `Twin.DeliveryConverges` | furniture/mock_devices.py:194-220 | from every such state, delivering what is in flight is enough: the device ends where the queued commands lead, and the Server agrees exactly if the table accepts the report |
| `Twin.DeviceFollowsControls` | furniture/mock_devices.py:205-220 | over any run, with what is in flight taken, the device is where the published controls lead, each once and in order, whatever was redelivered |
| `Twin.ConvergedIff` | server/migrations/001_init.sql:50-62 | with three INT columns and an ENUM: whenever both queues are empty, the two have converged exactly if the brightness that the controls leave on the device fits its column |
| `Twin.CarefulCallersConverge` | server/internal/service/voice_command.go:50-61 | if every turn_on of a light carries no brightness or one that fits, then whenever both queues are empty the two have converged |
| `Twin.LightDiverges` | server/internal/service/voice_command.go:129-134 | a run: a light switched on with a brightness of 3000000000 ends with both queues empty and the two copies different |
| `Twin.UnpublishedPutDiverges` | server/internal/handler/device.go:123-141 | at rest, an HTTP update keeps convergence exactly when it assigns nothing that differs from what the device reports |
| `Overlay.DeviceListViewModel.OnRealtimeEvent` | client/app/src/main/java/com/taffy/client/ui/devices/DeviceListViewModel.kt:215-234 | only the cards of the event's device change, by the merge in which an absent field keeps the old value |
| `Overlay.DeviceListViewModel.TogglePower` | client/app/src/main/java/com/taffy/client/ui/devices/DeviceListViewModel.kt:100-114 | an offline card changes nothing; otherwise the device becomes pending and its cards show the opposite power, other attributes kept |
| `Overlay.DeviceListViewModel.ToggleAnswered` | client/app/src/main/java/com/taffy/client/ui/devices/DeviceListViewModel.kt:116-134 | the device is no longer pending; a failure other than 401 puts the old power back, a 401 marks the login as lost |
| `Overlay.DeviceListViewModel.Refresh` | client/app/src/main/java/com/taffy/client/ui/devices/DeviceListViewModel.kt:65-97 | after a 401 the cards stay; otherwise one card per listed device, with the last state fetched for it, a list that could not be fetched counting as empty |
| `Overlay.StateInMeaning` | client/app/src/main/java/com/taffy/client/ui/devices/DeviceListViewModel.kt:236-239 | the state found for a device is that of the last entry with its id, and none is found iff there is no such entry |
| `Overlay.TogglesOnlySwitch` | client/app/src/main/java/com/taffy/client/ui/devices/DeviceListViewModel.kt:100-134 | over any list of toggles and rollbacks a card changes nothing but its power, which is the last one set; rolled back to the power it had it is the card it was |
| `Overlay.UpdatesNeverUnset` | server/internal/service/voice_command.go:129-164 | no voice command, device report or HTTP merge turns a set attribute back to unset |
| `Overlay.HistoryCovers` | server/internal/service/mqtt_handlers.go:74-89 | over any history of updates, attributes set earlier are set later |
| `Overlay.MergeShowsEventIff` | client/app/src/main/java/com/taffy/client/ui/devices/DeviceListViewModel.kt:220-228 | a merged card shows the event's full state exactly when it had nothing set that the event lacks, a blank mode counting as lacking |
| `Overlay.DeliveredEventsShowFullState` | client/app/src/main/java/com/taffy/client/ui/devices/DeviceListViewModel.kt:215-234 | with non-blank modes, an event at least as new as all the card has heard leaves it equal to that event's full state, despite toggles, rollbacks, loads, empty loads, lost events and any order among the older ones |
| `Overlay.StaleEventMixesStates` | client/app/src/main/java/com/taffy/client/ui/devices/DeviceListViewModel.kt:220-228 | out of order it fails: a concrete history where the card shows a state the Server never had |
| `PushHub.Hub.Register` | server/internal/hub/hub.go:67-82 | the client is linked under its user, with an empty queue |
| `PushHub.Hub.Close` | server/internal/hub/hub.go:135-149 | the first close unlinks the client and drops an empty user key; a later one changes nothing |
| `PushHub.Hub.BroadcastToUser` | server/internal/hub/hub.go:153-180 | every linked client of the user is offered the frame, whatever the order; a full queue drops it; no other client changes |
| `PushHub.Hub.WriteNext` | server/internal/hub/hub.go:113-122 | the oldest queued frame is written; after a failed write the frame is lost and no more are written |
| `PushHub.DeliveryIsInOrder` | server/internal/hub/hub.go:67-180 | for every client in every reachable state: frames written followed by frames queued are an in-order subsequence of the broadcasts to its own user between registration and close, at most 32 are queued, and a user has a key iff it has an open client |
| `PushHub.KeptStep` | server/internal/hub/hub.go:172-179 | a broadcast to an open client of the user is kept iff fewer than 32 frames are queued, and missed otherwise; a frame is lost only by a failed write |
| `PushHub.KeptIsDelivered` | server/internal/hub/hub.go:113-180 | in every reachable state the frames kept are exactly those written, then the one lost to a failed write if there was one, then those queued, in order; at most one write fails, and it ends the pump |
| `PushHub.NothingLostUnlessFull` | server/internal/hub/hub.go:172-179 | a client that no full queue and no failed write has cost a frame has, written or queued, every broadcast in order |
| `PushHub.DropsNeedFullQueue` | server/internal/hub/hub.go:173-178 | a frame is dropped only by a broadcast to an open client of that user with 32 frames queued, and a closed client hears nothing more |
| `PushHub.ClosedForEver` | server/internal/hub/hub.go:135-149 | over any run: once closed a client stays closed and is offered nothing more, only queued frames can still be written, and every further close changes nothing at all |
| `CardDelivery.CardShowsLastFrame` | server/internal/hub/hub.go:153-180 | from hub to app, with all devices of a user on one connection: if the broadcasts about one device are truthful and in state order, then a frame of that device which is no older than the loads leaves the device's card, if the app has one, showing exactly the state it carries, whichever frames were dropped and whatever toggles, loads and other devices' frames came between |
| `CardDelivery.StoryIsCard` | client/app/src/main/java/com/taffy/client/ui/devices/DeviceListViewModel.kt:215-234 | the card of one device over a connection is the card over that device's frames alone |
| `CardDelivery.SubsequenceKeepsOrder` | server/internal/hub/hub.go:172-179 | dropping frames keeps one device's frames truthful and in order |
| `Binding.DeviceRepo.BindToOwner` | server/internal/repository/device.go:152-170 | compare-and-set on the code, under the database's comparison, and on the missing owner; on success the whole new row, otherwise nothing |
| `Binding.DeviceRepo.Rename` | server/internal/repository/device.go:174-190 | name and room change only for the owner; a row is affected only if they differ |
| `Binding.DeviceRepo.UpdateLastSeen` | server/internal/repository/device.go:133-141 | an existing device becomes online, nothing else |
| `Binding.DeviceRepo.ListBindable` | server/internal/repository/device.go:98-119 | the scan of the rows collects exactly the listed devices, which `ListedWasNeverBound` and `BindableIsListedIff` characterise over runs |
| `Binding.DeviceRepo.BindDevice` | server/internal/service/device.go:144-176 | uninterrupted: succeeds iff id and code are given, the code matches, and there is no owner; an empty name keeps the device's name |
| `Binding.DeviceRepo.RenameDevice` | server/internal/service/device.go:179-202 | uninterrupted: succeeds iff the user owns the device and name or room differ from the present ones |
| `Binding.DeviceRepo.UnbindDevice` | server/internal/service/device.go:206-221 | uninterrupted: removes the row iff the user owns the device |
| `Binding.RunInv` | server/internal/service/device.go:144-221 | over all interleavings: an owned device has no code, a bound id never has a code again, and a pending bind without a name of its own carries the row's current name while the row can still be bound |
| `Binding.BoundAtMostOnce` | server/internal/repository/device.go:152-170 | if the comparison matches the empty code with no other, a device id is bound successfully at most once in its life, and owner set implies empty bind code |
| `Binding.PromisesKeptIff` | server/internal/repository/device.go:152-170 | each of three promises, bound at most once, no second owner, present name kept, holds in all runs exactly if the database's comparison matches the empty code with no other |
| `Binding.BoundTwice` | server/internal/repository/device.go:152-170 | with a comparison that matches a real code with the empty one, a run in which a device is bound twice, passes from one user to another, and loses its present name |
| `Binding.OneOwnerForLife` | server/migrations/003_device_binding.sql:29-31 | if the comparison matches the empty code with no other, a device seen with an owner has that owner, none, or no row, for ever |
| `Binding.RowChanges` | server/internal/repository/device.go:133-200 | the whole effect of any step on any row: a heartbeat its status, the deletion of its owner its owner, a commit what its own statement says, nothing else |
| `Binding.OnlyItsOwner` | server/internal/service/device.go:179-221 | over all interleavings, a device with an owner is removed, renamed or given up only by its owner's own request or the deletion of its owner's account; other users' requests and accounts leave it as it is |
| `Binding.Uninterrupted` | server/internal/service/device.go:144-221 | a request whose write directly follows its read does what the uninterrupted operation does |
| `Binding.EmptyNameKeepsCurrentName` | server/internal/service/device.go:152-163 | under the same condition, a bind with an empty name keeps the name the row has at the moment of the update, although it was read earlier |
| `Binding.ListedWasNeverBound` | server/internal/repository/device.go:98-119 | in every reachable state a listed device has never been bound; its own code binds it, and exactly it leaves the list |
| `Binding.BindableIsListedIff` | server/internal/repository/device.go:98-141 | in every reachable state a device with a code and no owner is listed iff it was created waiting and has sent no heartbeat since |
| `CommandLog.VoiceSession.AppendUser` | server/internal/handler/voice_session.go:112-123 | a successful insert becomes the message that later commands hang under |
| `CommandLog.VoiceSession.RecordCommand` | server/internal/handler/voice_session.go:135-160 | without a user message, or when the insert fails, nothing is recorded and 0 returned; otherwise one pending row with the command's device, action and parameters under the last user message, mapped under its tool id |
| `CommandLog.VoiceSession.MarkCommandResult` | server/internal/handler/voice_session.go:163-179 | the entry of the tool id is removed and its row, if there is one, gets the outcome when the update works |
| `CommandLog.RowsBelongToConversation` | server/internal/handler/voice_session.go:97-160 | in every reachable state each row hangs under a user message of the session's own conversation, whatever other sessions insert |
| `CommandLog.RowsHangUnderLast` | server/internal/handler/voice_session.go:135-155 | a row hangs under the message that was the session's last user message when the handler of that very command read it |
| `CommandLog.LastIsPublished` | server/internal/handler/voice_session.go:112-123 | that last user message is always the one published last |
| `CommandLog.PendingAtQuiescence` | server/internal/handler/voice_session.go:135-179 | whatever the tool ids: once every handler is done the map is empty, and a row is still pending iff another recorded command displaced its entry or its own update failed |
| `CommandLog.ResultIsFinal` | server/internal/handler/voice_session.go:163-179 | a row leaves pending at most once: a result never changes again |
| `CommandLog.MapIsExact` | server/internal/handler/voice_session.go:135-172 | with distinct live tool ids, in every reachable state, the map holds exactly the rows whose handler has recorded and not yet taken them |
| `CommandLog.RowsCarryOwnOutcome` | server/internal/handler/voice.go:306-329 | with distinct live tool ids, once every handler is done, every row whose update worked carries the command of the handler that inserted it, and says success or failure as that very command was executed; none was displaced |
| `CommandLog.OutcomesWereExecuted` | server/internal/handler/voice.go:308-329 | the outcome a handler records is that of the execution of its own command |
| `CommandLog.RepeatedIdLosesRow` | server/internal/handler/voice_session.go:156-170 | two live commands with one tool id: a run in which every update works, one row stays pending and the other carries the other command's outcome |
| `Tokens.Issue` | server/internal/middleware/jwt.go:38-50 | a token names its user and expires within the second before now + ttl |
| `Tokens.JwtMiddleware.RevokeToken` | server/internal/middleware/jwt.go:83-91 | without a store success and no effect, with an unreachable one an error, otherwise an entry with the given life |
| `Tokens.JwtMiddleware.ParseToken` | server/internal/middleware/jwt.go:53-80 | accepted iff signed, not expired and this very string is not listed in a reachable store |
| `Tokens.RevocationHoldsIff` | server/internal/middleware/jwt.go:53-91 | for one logout with any life of the entry, and any state of the store at the logout and at each later check: the presented string is rejected at every later time iff the token has expired already, or the store is up at every check before it expires and the entry the logout left or found outlives the token |
| `Tokens.LogoutOutlives` | server/internal/middleware/jwt.go:83-91 | after a logout that reached the store the entry outlives the token iff its life is unlimited or reaches the expiry; otherwise iff an earlier entry did |
| `Tokens.RevokedForEver` | server/internal/handler/auth.go:149-167 | with the store up, one configured life and a clock that never goes back: a string logged out at any step of any run of logins, logouts and waiting is rejected in every later state |
| `Tokens.OnlyLogoutRejects` | server/internal/middleware/jwt.go:53-91 | a string never logged out is accepted exactly until its token expires, whatever other strings were logged out |
| `Tokens.RejectedIff` | server/internal/middleware/jwt.go:53-91 | in every state of such a run a string is rejected exactly if its token has expired or the string was logged out before |
| `Tokens.SameSecondLoginIsRejected` | server/internal/middleware/jwt.go:38-50 | a login within the second of a revoked token's issue yields the same, revoked token |

## Left out

- Transport: sockets, HTTP, JSON text, SQL text, the MQTT and Redis clients, logging, timeouts, ping tickers and reconnect timers are not modelled; frames are datatypes, tables are maps, connections are FIFO sequences that lose nothing within a session. A session is modelled until one of its connections fails.
- Oracles: the LLM, the ASR model, the voice activity classifier, speech synthesis and the execution of a command as the Worker sees it are arbitrary. So are JSON validity of tool arguments, Kotlin's notion of a blank string, the database's comparison of bind codes and its acceptance of a device state.
- Providers: `LLMConfig` (worker/internal/handler/config.go:23-30) declares no provider list although the handlers use one; `Worker.Config` has a flag for it, and `Worker.PostWithFallback` takes one answer per provider.
- Atomicity: a write to a connection, a broadcast, one SQL statement, one iteration of a reading loop, a pop with the snapshot after it and one read-modify-write of a device state are single steps. The code takes no lock around the last, so concurrent edits of one device can be lost; that is not modelled. The device commands a scene executes are likewise not interleaved with other commands.
- ProtocolProgress.ComesToRest: the ASR service emits nothing new and the client sends nothing from there on; fairness of the scheduler is not modelled beyond the measure every step lowers.
- ProtocolPairing.PendingMapIsExact: assumes ids that are distinct while outstanding; without it `ReplyAccounting` still holds.
- ProtocolSafety.AudioFollowsItsReply: audio that cannot be synthesised or sent is silently absent, as in the code.
- VoicePath.MicrophoneToDecoder: takes the pause after an end to last until any later frame. `llm_done` is sticky (furniture/mock_furniture.py:171, 296-299), so nothing is claimed about which turn ends a pause.
- VoicePath.SegmentIsDecoded: the endpoint sends no `final` for an empty text, so a segment need not lead to an LLM turn; nothing more is claimed.
- Uplink.LiveStream.StreamLive: leaving between frames; leaving inside a frame is `UplinkLeaving.BalancedWhenCutIff`, and a second cancellation during the closing sends is left out. The wake word is always active, and frames the callback's bounded queue gives up (furniture/mock_furniture.py:240-247) count as never picked up.
- Uplink.LiveStream.TakeFrame: the look-back length is the default of ten frames.
- AsrService.AsrConnection.Receive: failures inside the model are left out; the texts of its error messages are shortened.
- Pcm.SampleError: arithmetic is over reals; the rounding of 32-bit floats and the averaging of several channels are left out.
- Devices.DeviceService.ExecuteControlDevice: the success message is reduced to room and name and the error texts lose their causes; an empty mode stands for an absent one, as in the code.
- Simulator.DeviceSimulator.ApplyCommand: lower-casing is that of ASCII letters; timestamps and parameters that are no integers, which the Server never sends, are left out.
- Twin.ConvergedIff: a stored state is taken to be the written one; the database stores an ENUM value in its declared spelling, so a mode accepted in another case would be kept as written by the device and as declared by the Server. A value that does not fit is refused, as in the database's strict mode.
- Twin.QuietTwinsConverge: every stored control is published and every message arrives, in order, possibly more than once; the HTTP path is treated apart in `UnpublishedPutDiverges`.
- Overlay.DeviceListViewModel.Refresh: names, rooms, spinners and error messages of the screen are left out.
- CardDelivery.CardShowsLastFrame: that broadcasts about one device come in state order is assumed; the code stores and then broadcasts without a lock around both.
- Binding.RunInv: device ids are not created again after deletion and are compared exactly; registration is a new row, an owned one without a code.
- PushHub.DeliveryIsInOrder: `BroadcastToUser` sends after it has dropped the lock while `Close` may close the channel (server/internal/hub/hub.go:145, 166-174); the resulting race is outside the atomic model.
- CommandLog.VoiceSession.RecordCommand: a disabled log is the case in which no user message is ever published.
- Tokens.JwtMiddleware.ParseToken: signatures are sound; times are whole milliseconds, and the expiry of an entry is exact.
- Tokens.RevokedForEver: a logged-out string carries claims issued in the run; nobody can log out a token that has not been issued yet.
- Passwords, phone and e-mail checks, REST error codes, prompts, configuration, health endpoints, start scripts, the remaining scene and device CRUD and the rest of the Android app are single-branch code and would only add easy members.
