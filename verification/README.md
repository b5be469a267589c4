# Verified models of the telephony server and its media bridge

This project models the stateful core of the system in Dafny and proves what its parts
promise over whole runs. `dafny verify dfyconfig.toml` checks everything.

Each component has the same three layers: a model on values (functions from state to
state, one per stretch of code that runs without interruption), theorems about every run
of that model, and a class or methods in the source's own imperative form whose contracts
say that they do exactly what the model's functions do.

| Component | Model | Theorems | Imperative form |
|---|---|---|---|
| Call orchestrator | `CallModel` | `CallInvariant`, `CallSafety`, `CallTheorems`, `CallHistory`, `CallSteps` | `Orchestrator` |
| Jitter buffer | `JitterModel` | `JitterModel`, `JitterPlayout` | `Jitter` |
| Media bridge | `BridgeModel` | `BridgeTheorems`, `BridgePayloads` | `MediaBridge` |
| Companding, resampling, PCM bytes | `Ulaw`, `Resample` | `Ulaw`, `Resample`, `ResampleValues` | `Ulaw`, `ResampleLoops` |
| Number colours | `NumberColors` | `NumberColors`, `NumberRows` | `NumberService` |
| Colour migration and script | `ReassignColors` | `ReassignColors` | `ReassignColors` |
| Inbound SMS delivery | `SmsModel` | `SmsDelivery`, `SmsOutcomes` | `ConversationService` |
| Digit detector | `DtmfDetector` | `DtmfDetector` | `DtmfDetector` |
| Web notifications | `Notifications` | `Notifications` | `NotificationCenter` |
| Conversation migration | `ConversationMigration` | `ConversationMigration` | `ConversationMigration` |
| Call router | `RouterModel` | `RouterTheorems`, `RouterSteps` | `CallRouter` |

**Call orchestrator.** One event is one stretch between two `await`s; suspended operations
are part of the state and the event that resumes one carries the outcome of what it waited
for, so every interleaving and every failure is a sequence of events. The environment is
assumed to hand out fresh UUIDs and provider call ids that no call being tracked or set up
has; `StartInboundExact` and `DialOutboundExact` show that the second assumption is exactly
what the invariant needs, and `DisposeExact` that shutting down keeps it exactly when no
inbound call is opening its media session. Behaviours of the code that a reader may not
expect are lemmas with their exact conditions:

- A hang-up that arrives while the session of an inbound call is being opened is lost
  (`HangupDuringSetupIsLost`). The hang-up paths look the provider's id up and end the call
  by its own id; `HangupEndsExactly` says that this ends the call exactly when its session is
  not being opened.
- An answer may report success after its call has ended (`SuccessAfterEnd` is such a run);
  a success is for a live call exactly when the call is still tracked as it settles
  (`SettledSuccessIsLiveExactly`).
- Reconciliation may end a call whose answer was rolled back meanwhile
  (`ReconcileEndsUnanswered`, `ReconcileEndsUnansweredExactly`).
- A failed answer leaves the four-hour watchdog armed; deadlines only move forward
  (`DeadlineMoves`, `DeadlineMovesForward`).

What the model itself does is pinned from outside, without its own functions: `CallHistory`
reads the answer fields and the deadline of every call off the messages sent and the answers
in flight, in every run, and `CallSteps` follows each operation from any state with the
invariant to its end, with the state and the messages it leaves.

**Jitter buffer.** The code's comment says the list is sorted by sequence number. The
16-bit comparison is not transitive around the circle, so this is false in general:
`AroundTheCircle` is an example and `FillSortedExactly` gives the exact condition, that the
packets buffered before playout span less than half the circle. What needs no condition at
all is that playout only moves forward (`PlayoutAdvances`, `NoReplay`). When something must be
played, and not only what may be, is `PopPlaysExactly` and `DrainsInOrder`.

**Companding.** Negating -32768 in 16 bits gives -32768 back. The bridge then encodes the
loudest negative sample as silence and the ringback encoder panics; `HalfStepExactly` and
`RingbackEncodeUlaw` say that this is the only sample for which it happens, and
`CompandingMonotoneExactly` which pairs of samples it puts out of order.

**Step by step.** Beside the rows of the table, `RouterSteps` states for every event of the
router, `SmsOutcomes` for every operation on the message tables, and `CallSteps` for every
operation of the orchestrator what changes, what is announced and what stays as it was.

**SMS delivery.** Events that can happen (`Possible`) and the assumptions on the environment
(`Assumed`) are separate predicates. Two assumptions are made: the gateway gives each SMS an
id of its own (possibly empty), different from the ids it reports for sent messages; and only
sent messages are retried, which the retry code leaves to its callers. Delivery receipts are
not restricted. For each assumption there is the exact condition under which a single step
breaks delivery without it, and a run from the initial state in which an SMS is lost:
`SentIdShadowsExactly` with `SentIdLosesSms`, `RetryForgetsExactly` with `RetryLosesSms`.
`NoIdNoDedup` shows that storing once needs a non-empty id.

**Colours.** The palette has sixteen colours, so uniqueness cannot hold for every
synchronisation. `SyncUniqueExactly` says when it does: exactly when the listing needs no more
choices than there are palette colours no active number holds (`WithinBudget`, which a caller
can compute beforehand), for a listing without repeats of numbers that no other provider has
active. That the budget suffices is proved for every listing (`SyncKeepsUnique`).

## Model

| member | source | states |
|---|---|---|
| CallTheorems.MapsAlwaysAgree | src/services/call-orchestrator.ts:173-193 | in every reachable state the four id maps agree and no map mentions an ended call |
| CallInvariant.StartInboundExact | src/services/call-orchestrator.ts:364-400 | tracking the provider id of a new inbound call keeps the invariant exactly when no call tracked or in set-up has that id |
| CallInvariant.DialOutboundExact | src/services/call-orchestrator.ts:275-325 | a dialled call keeps the invariant exactly when its provider id is not in use |
| CallInvariant.DisposeExact | src/services/call-orchestrator.ts:1226-1238 | dispose keeps the invariant exactly when no inbound call is opening its session |
| CallInvariant.WatchdogEndsItsCall | src/services/call-orchestrator.ts:755-775 | a timer that fires always finds its call tracked and tears it down |
| CallSafety.StepKeepsInv | src/services/call-orchestrator.ts:231-631 | every step of every operation keeps the whole invariant |
| CallSafety.ReachableKeepsInv | src/services/call-orchestrator.ts:231-1238 | every run from a state with the invariant ends in one |
| CallSafety.StepEvolves | src/services/call-orchestrator.ts:539-1094 | what a step may change of a call record, a timer and the log |
| CallTheorems.EndedForever | src/services/call-orchestrator.ts:831-997 | an ended call stays ended and unmentioned, and its one disconnected broadcast, cancellation, session destroy, hangup and at most one history update are never repeated |
| CallTheorems.TeardownWrites | src/services/call-orchestrator.ts:920-980 | a teardown writes one history update, or none exactly in the branch that writes none |
| CallTheorems.LeavesByEnding | src/services/call-orchestrator.ts:831-997 | a call leaves tracking only by one complete teardown, or at shutdown |
| CallTheorems.OneAttemptInFlight | src/services/call-orchestrator.ts:539-631 | at most one answer attempt per call waits for the provider, and the call is marked with its device |
| CallTheorems.AnswerFieldsTogether | src/services/call-orchestrator.ts:556-612 | answered, answeredByDevice and answeredAt of an inbound call are set or unset together in every reachable state; when they are set is AnsweredExactly |
| CallTheorems.AtMostOneSuccess | src/services/call-orchestrator.ts:539-631 | at most one answerCall per call ever reports success |
| CallTheorems.WinnerStays | src/services/call-orchestrator.ts:539-631 | the device that won stays the call's device in every continuation |
| CallTheorems.WatchdogExact | src/services/call-orchestrator.ts:755-775 | a tracked call has exactly one pending timer at its exact deadline and no other id has one |
| CallTheorems.DeadlineMoves | src/services/call-orchestrator.ts:1044-1051 | a deadline moves only when the call goes live, to four hours from then |
| CallTheorems.DeadlineMovesForward | src/services/call-orchestrator.ts:1044-1051 | in every run a deadline that changes becomes strictly later |
| CallTheorems.NeverOverdue | src/services/call-orchestrator.ts:153-161 | with a prompt event loop no call is tracked past its deadline |
| CallTheorems.EndAllEndsAll | src/services/call-orchestrator.ts:1211-1221 | once its list is done every call tracked when endAllCalls began is gone |
| CallTheorems.ResolvesEveryId | src/services/call-orchestrator.ts:1127-1151 | resolveToCallId finds a tracked call from each of its ids, and failing means no map has the id |
| CallTheorems.HistoryCases | src/services/call-orchestrator.ts:920-980 | which history update a teardown writes, in both directions |
| CallTheorems.HangupDuringSetupIsLost | src/services/call-orchestrator.ts:376-440 | ending a call by its provider id or its own id, or hanging it up, before its session exists changes nothing, and the call is tracked afterwards |
| CallTheorems.EndByProviderIdExactly | src/services/call-orchestrator.ts:831-850 | endCall with a provider id ends the call it leads to exactly when that call's session is not being opened |
| CallTheorems.HangupEndsExactly | src/server.ts:440-447 | a hang-up, which passes the call's own id, ends the call exactly when its session is not being opened |
| CallTheorems.SuccessAfterEnd | src/services/call-orchestrator.ts:588-631 | for any ids there is a run in which the call ends while the provider is asked and the answer then reports success |
| CallTheorems.SettledSuccessIsLiveExactly | src/services/call-orchestrator.ts:588-631 | a success that settles is for a live call exactly when the call is still tracked |
| CallTheorems.ReconcileEndsUnanswered | src/services/call-orchestrator.ts:791-815 | for any ids there is a run in which reconciliation ends a call no device has answered any more |
| CallTheorems.ReconcileEndsUnansweredExactly | src/services/call-orchestrator.ts:791-815 | a tracked call the provider has lost ends, and ends unanswered exactly when its answer was rolled back during the query |
| CallTheorems.DisposeDuringSetup | src/services/call-orchestrator.ts:1226-1238 | after a shutdown during set-up a call is tracked that its provider id does not lead to |
| CallHistory.AnsweredExactly | src/services/call-orchestrator.ts:539-631 | in every reachable state an inbound call is answered exactly while an attempt at it is in flight or after its one success, an outbound call exactly after its media connected or an answer to it succeeded |
| CallHistory.WinnerAnnouncedExactly | src/services/call-orchestrator.ts:588-631 | clients and history are told of exactly the device in the call's record, exactly when an answer succeeded |
| CallHistory.TimerDueExactly | src/services/call-orchestrator.ts:755-775 | the one timer of a tracked call is due four hours after it was answered, ninety seconds after it started, or, when every answer failed, four hours after one of them |
| CallHistory.MissedExactly | src/services/call-orchestrator.ts:940-980 | a notification becomes a missed one exactly when the history entry does |
| CallSteps.ProviderUpGoesLive | src/services/call-orchestrator.ts:1044-1051 | media of an unanswered outbound call connecting makes it answered now, with one timer four hours ahead and one message |
| CallSteps.MediaSays | src/services/call-orchestrator.ts:1012-1094 | what each other media event announces, and that a session that is not tracked announces nothing |
| CallSteps.OutboundCallRings | src/services/call-orchestrator.ts:231-348 | an outbound call from its start to its tracking: the record, the maps, the timer and the messages |
| CallSteps.EchoCallRings | src/services/call-orchestrator.ts:287-303 | an echo call is tracked as soon as it is dialled |
| CallSteps.OutboundDialFails | src/services/call-orchestrator.ts:275-286 | an outbound call that cannot be dialled leaves nothing behind but its used-up id |
| CallSteps.InboundCallRings | src/services/call-orchestrator.ts:364-523 | an inbound call is tracked, recorded and announced, and its notification id comes to lead to it |
| CallSteps.InboundFailureLeavesNothing | src/services/call-orchestrator.ts:397-420 | an inbound call whose session fails leaves nothing behind |
| CallSteps.NotificationRegisteredExactly | src/services/call-orchestrator.ts:459-523 | a created notification leads to its call exactly when the call is still tracked |
| CallSteps.OutboundAnswered | src/services/call-orchestrator.ts:556-590 | an outbound call is answered at once and announced |
| CallSteps.InboundAnswered | src/services/call-orchestrator.ts:556-631 | an answer to an inbound call, asked of the provider: everything a success leaves and everything a failure rolls back |
| CallSteps.WebSocketAnswered | src/services/call-orchestrator.ts:556-631 | the same with the media session prepared first |
| CallSteps.PreparationFails | src/services/call-orchestrator.ts:570-584 | a failed preparation clears the answer fields again and never asks the provider |
| CallSteps.TeardownSays | src/services/call-orchestrator.ts:850-980 | the messages of a teardown in order: reason, delay, hangup, and the history entry with its notification in each case |
| CallSteps.TeardownLeaves | src/services/call-orchestrator.ts:831-997 | the state after a teardown: gone from every map, everything else as before |
| CallSteps.MediaEndsAlike | src/services/call-orchestrator.ts:1012-1094 | media that is gone ends the call by that teardown, for the reason of its leg |
| CallSteps.TimerEndsAlike | src/services/call-orchestrator.ts:755-775 | so does a timer that fires |
| CallSteps.ReconcileAsksExactly | src/services/call-orchestrator.ts:791-815 | reconciliation asks the provider about exactly the answered calls that have not ended |
| CallSteps.ReconcileEnds | src/services/call-orchestrator.ts:791-815 | a call the provider has lost is ended by that teardown |
| CallSteps.EndAllSteps | src/services/call-orchestrator.ts:1211-1221 | endAllCalls ends its list by that teardown, call by call |
| Orchestrator.CallOrchestrator.ResolveToCallId | src/services/call-orchestrator.ts:1127-1151 | looks an id up as call id, notification id, provider id, in that order |
| Orchestrator.CallOrchestrator.ArmWatchdog | src/services/call-orchestrator.ts:755-775 | cancels the call's timer and schedules one |
| Orchestrator.CallOrchestrator.FireWatchdog | src/services/call-orchestrator.ts:755-775 | the timer callback ends a call that is still tracked |
| Orchestrator.CallOrchestrator.SendTeardown | src/services/call-orchestrator.ts:850-980 | the messages of a teardown in order, with the history branch |
| Orchestrator.CallOrchestrator.EndCall | src/services/call-orchestrator.ts:831-997 | the teardown as one step |
| Orchestrator.CallOrchestrator.OutboundDialSettled | src/services/call-orchestrator.ts:275-325 | what happens after the provider dialled, echo calls included |
| Orchestrator.CallOrchestrator.FinishOutbound | src/services/call-orchestrator.ts:287-348 | an outbound call comes to be tracked |
| Orchestrator.CallOrchestrator.InboundSessionSettled | src/services/call-orchestrator.ts:397-459 | an inbound call comes to be tracked, or is given up |
| Orchestrator.CallOrchestrator.NotificationSettled | src/services/call-orchestrator.ts:459-523 | a notification id is registered only while the call is tracked |
| Orchestrator.CallOrchestrator.AnswerCall | src/services/call-orchestrator.ts:539-590 | the first stretch of an answer, up to its suspension |
| Orchestrator.CallOrchestrator.ProviderAnswerSettled | src/services/call-orchestrator.ts:588-631 | the last stretch of an answer, with roll-back |
| Orchestrator.CallOrchestrator.HandleMediaEvent | src/services/call-orchestrator.ts:1012-1094 | the media events as one step; what each does and says is ProviderUpGoesLive, MediaSays and MediaEndsAlike |
| Orchestrator.CallOrchestrator.EndNext | src/services/call-orchestrator.ts:1211-1221 | one call of endAllCalls' list |
| Orchestrator.CallOrchestrator.ReconcileNext | src/services/call-orchestrator.ts:791-815 | one call of the reconciliation list, queried only when answered |
| Orchestrator.CallOrchestrator.Shutdown | src/services/call-orchestrator.ts:1226-1238 | the timers of tracked calls and the maps are cleared |
| JitterModel.ModularArithmetic | mediabridge/internal/bridge/jitter.go:204-211 | the subtraction and increment used are those of uint16 |
| JitterModel.AlwaysBalanced | mediabridge/internal/bridge/jitter.go:92-194 | received packets are the dropped, the played and the held, in every run with resets |
| JitterModel.PlayoutAdvances | mediabridge/internal/bridge/jitter.go:138-171 | each packet played is ahead of the one before by at most half the circle, with no assumption on arrivals |
| JitterModel.NoReplay | mediabridge/internal/bridge/jitter.go:92-171 | a sequence number is played again only after playout has advanced 65536 |
| JitterModel.PushRefinesAdd | mediabridge/internal/bridge/jitter.go:92-134 | Push adds exactly a fresh, non-stale packet and keeps the set sorted by distance |
| JitterModel.PopRefinesRemoveMin | mediabridge/internal/bridge/jitter.go:138-171 | Pop removes exactly the nearest packet and moves the playout point past it |
| JitterModel.RunStaysSorted | mediabridge/internal/bridge/jitter.go:92-171 | over runs whose pre-play packets span less than half the circle the list is the sorted set |
| JitterModel.FillSortedExactly | mediabridge/internal/bridge/jitter.go:110-131 | before playout the list is sorted exactly when the arrivals span less than half the circle |
| JitterModel.AroundTheCircle | mediabridge/internal/bridge/jitter.go:204-206 | three packets that the list puts in an order the comparison denies |
| JitterModel.PlayedInSourceOrder | mediabridge/internal/bridge/jitter.go:92-171 | what is played is a selection of what was pushed, in strictly increasing source order |
| JitterPlayout.PopPlaysExactly | mediabridge/internal/bridge/jitter.go:138-171 | in every run a pop plays the first held packet exactly when one is held and either something was played before or as many as the depth are held |
| JitterPlayout.PushKeepsExactly | mediabridge/internal/bridge/jitter.go:92-134 | in every run a push adds its packet exactly when no held one has its number and it is not behind what was played |
| JitterPlayout.DrainsInOrder | mediabridge/internal/bridge/jitter.go:138-171 | once playout has begun or can begin, n pops play the first n held packets in order |
| JitterPlayout.SilentUntilFilled | mediabridge/internal/bridge/jitter.go:145-150 | nothing is played before as many packets as the depth are held at once |
| JitterPlayout.StatsExactly | mediabridge/internal/bridge/jitter.go:92-186 | the statistics count pushes, outputs and the rest |
| JitterPlayout.ReordersExactly | mediabridge/internal/bridge/jitter.go:117-134 | a push counts as reordered exactly when it is kept behind a held packet further on |
| JitterPlayout.ResetStartsAfresh | mediabridge/internal/bridge/jitter.go:188-195 | after a reset the buffer plays and counts as a new one |
| Jitter.JitterBuffer.Push | mediabridge/internal/bridge/jitter.go:92-134 | the two scans and the shift, in place |
| Jitter.JitterBuffer.InsertInOrder | mediabridge/internal/bridge/jitter.go:117-134 | the insertion loop puts the packet before the first it does not follow |
| Jitter.JitterBuffer.Pop | mediabridge/internal/bridge/jitter.go:138-171 | the initial fill, the removal and the new playout point as one step; when it must play is PopPlaysExactly |
| Jitter.JitterBuffer.Reset | mediabridge/internal/bridge/jitter.go:188-195 | clears everything but the playout point |
| Jitter.FirstPlace | mediabridge/internal/bridge/jitter.go:118-131 | the insertion place is the only one with followed packets before it and none at it |
| BridgeTheorems.ProviderToClient | mediabridge/internal/bridge/bridge.go:312-393 | the client receives a selection of the provider's payloads in strictly increasing source order, each once, freshly stamped |
| BridgeTheorems.ClientStream | mediabridge/internal/bridge/bridge.go:343-602 | in every run each packet to the client is numbered past the packets and lost frames before it mod 2^16 and timestamped past their samples mod 2^32, and the counters are ahead by what was lost |
| BridgeTheorems.StampedWithoutLoss | mediabridge/internal/bridge/bridge.go:343-602 | with no decoded frame lost, numbers count packets mod 2^16 and timestamps are the payload total mod 2^32 |
| BridgeTheorems.ProviderStream | mediabridge/internal/bridge/bridge.go:205-256 | the stream to the provider is numbered and timestamped the same way; what it carries is ProviderHearsExactly |
| BridgeTheorems.EchoConserves | mediabridge/internal/bridge/bridge.go:397-491 | frames written followed by frames queued are the non-empty frames enqueued, in order |
| BridgeTheorems.EchoDelay | mediabridge/internal/bridge/bridge.go:418-446 | a tick writes exactly the frames whose delay has passed |
| BridgeTheorems.PcmLoop | mediabridge/internal/bridge/bridge.go:552-645 | audio sent to a PCM provider and played back returns one code per byte, and what the client decodes is within half a quantisation step plus a quarter of the next step plus one of what was sent |
| BridgePayloads.ProviderHearsExactly | mediabridge/internal/bridge/bridge.go:205-256 | in every run the provider hears exactly the non-empty client payloads that found a writer, in order, and nothing in echo mode |
| BridgePayloads.ClientHearsExactly | mediabridge/internal/bridge/bridge.go:312-602 | in every run the client hears exactly, in order, what the jitter buffer plays while it is connected, the echo frames due at each tick and the decoded provider audio |
| BridgePayloads.AllPlayedIsHeard | mediabridge/internal/bridge/bridge.go:312-393 | a client connected at every playout tick hears everything the jitter buffer plays |
| BridgePayloads.QueueIsWaiting | mediabridge/internal/bridge/bridge.go:397-446 | the echo queue is the enqueued frames no tick has found due |
| MediaBridge.Bridge.HandleProviderRTP | mediabridge/internal/bridge/bridge.go:312-321 | a provider packet goes into the jitter buffer |
| MediaBridge.Bridge.PlayoutFrame | mediabridge/internal/bridge/bridge.go:343-393 | one playout tick |
| MediaBridge.Bridge.HandleClientRTP | mediabridge/internal/bridge/bridge.go:205-256 | client audio, forwarded or queued for echo, as one step; that it is all heard is ProviderHearsExactly |
| MediaBridge.Bridge.CollectDue | mediabridge/internal/bridge/bridge.go:428-441 | the loop that takes the due frames off the queue |
| MediaBridge.Bridge.OnEchoTick | mediabridge/internal/bridge/bridge.go:428-446 | one echo tick with its two loops |
| MediaBridge.Bridge.HandleProviderPCM16k | mediabridge/internal/bridge/bridge.go:552-602 | decoded provider audio; the counters move before the writer is looked at |
| Ulaw.SegmentIsFloorLog2 | mediabridge/internal/bridge/ulaw.go:19-36 | the segment table is the position of the leading bit |
| Ulaw.HalfStepExactly | mediabridge/internal/bridge/ulaw.go:47-95 | decoding an encoded sample is within half a quantisation step of the clipped sample, for every sample but -32768 and only then |
| Ulaw.CompandingMonotone | mediabridge/internal/bridge/ulaw.go:47-95 | encode then decode is monotone |
| Ulaw.CompandingMonotoneExactly | mediabridge/internal/bridge/ulaw.go:47-95 | two ordered samples stay in order exactly when the lower is not -32768 or the other is it too or at least -3 |
| Ulaw.EncodeOfDecode | mediabridge/internal/bridge/ulaw.go:47-95 | every byte but 0x7F is the code of its own decoding; 0x7F becomes 0xFF |
| Ulaw.DecodingIsStable | mediabridge/internal/bridge/ulaw.go:103-118 | decoding, encoding and decoding a buffer equals decoding it |
| Ulaw.LinearToUlaw | mediabridge/internal/bridge/ulaw.go:69-95 | the encoder's steps on one sample |
| Ulaw.EncodeUlaw | mediabridge/internal/bridge/ulaw.go:103-109 | the encoding loop |
| Ulaw.BuildTable | mediabridge/internal/bridge/ulaw.go:39-43 | the decoding table |
| Ulaw.DecodeUlaw | mediabridge/internal/bridge/ulaw.go:112-118 | the decoding loop through the table |
| Ulaw.RingbackEncodeUlaw | mediabridge/internal/ringback/sender.go:266-317 | the ringback encoder agrees with the bridge's on every buffer without -32768 and panics on the others |
| Resample.DecimatedAmong | mediabridge/internal/ringback/sender.go:217-253 | every decimated sample, by six or by three, lies among the three it averages or is the sample itself |
| Resample.UpsampledAmong | mediabridge/internal/bridge/resample.go:52-76 | every upsampled sample lies between its two neighbours, every sixth is the sample itself |
| Resample.Upsampled16Among | mediabridge/internal/bridge/bridge.go:662-675 | every 16 kHz sample lies between its two neighbours, every second is the sample itself |
| Resample.Downsampled16Among | mediabridge/internal/bridge/bridge.go:647-659 | every 8 kHz mean lies between its two samples |
| Resample.Mean3Among | mediabridge/internal/bridge/resample.go:38-44 | the filter's division stays among its inputs, so the conversion to int16 never wraps |
| Resample.Through48kHz | mediabridge/internal/bridge/resample.go:30-76 | 8 to 48 kHz and back returns each sample within a 24th of its two steps plus one |
| Resample.Through16kHz | mediabridge/internal/bridge/bridge.go:647-675 | 8 to 16 kHz and back returns each sample within a quarter of the next step plus one |
| Resample.SamplesSurvive | mediabridge/internal/bridge/bridge.go:506-522 | samples survive their byte form |
| Resample.BytesSurvive | mediabridge/internal/bridge/bridge.go:506-522 | bytes survive their sample form, an odd last byte excepted |
| ResampleValues.DecimatedExactly | mediabridge/internal/bridge/resample.go:30-46 | each decimated sample is the mean of its neighbours and twice itself, rounded toward zero; the edges are copied |
| ResampleValues.UpsampledExactly | mediabridge/internal/bridge/resample.go:52-76 | each upsampled sample lies its sixths of the step, rounded toward zero, from its own |
| ResampleValues.Upsampled16Exactly | mediabridge/internal/bridge/bridge.go:662-675 | odd 16 kHz samples are means rounded toward zero, the last a repetition |
| ResampleValues.Downsampled16Exactly | mediabridge/internal/bridge/bridge.go:647-659 | each 8 kHz sample is the mean of its two, rounded toward zero |
| ResampleValues.BytesExactly | mediabridge/internal/bridge/bridge.go:506-513 | the byte form is little-endian two's complement |
| ResampleValues.CodesDescend | mediabridge/internal/bridge/ulaw.go:39-67 | from each code byte to the next the decoded value falls by its segment's step |
| ResampleValues.CodesMirror | mediabridge/internal/bridge/ulaw.go:47-67 | the negative codes mirror the positive ones |
| ResampleLoops.Decimate | mediabridge/internal/ringback/sender.go:217-253 | the decimation loops, by six and by three |
| ResampleLoops.Upsample8to48 | mediabridge/internal/bridge/resample.go:52-76 | the nested interpolation loops |
| ResampleLoops.Upsample8to16 | mediabridge/internal/bridge/bridge.go:662-675 | the 16 kHz interpolation loop |
| ResampleLoops.Downsample16to8 | mediabridge/internal/bridge/bridge.go:647-659 | the 16 kHz decimation loop |
| ResampleLoops.Pcm16ToBytes | mediabridge/internal/bridge/bridge.go:506-513 | little-endian bytes of a buffer |
| ResampleLoops.BytesToPcm16 | mediabridge/internal/bridge/bridge.go:516-522 | samples of a byte buffer |
| NumberColors.ChoiceIsFreshExactly | src/services/number-management-service.ts:71-121 | a choice is a palette colour of no active entry exactly when there is one, and when and what it reclaims or shares |
| NumberColors.ChoiceExactly | src/services/number-management-service.ts:71-121 | the four priorities with their tie-breaks: which colour is chosen and whether it is taken from an inactive number |
| NumberColors.KeepsColorExactly | src/services/number-management-service.ts:79-86 | while there is room a number keeps its colour exactly when no active entry holds it |
| NumberColors.ReclaimableIsBest | src/services/number-management-service.ts:95-108 | the colour reclaimed has the fewest inactive holders |
| NumberColors.LeastUsedIsLeast | src/services/number-management-service.ts:110-120 | the colour shared is the first with fewest active holders |
| NumberColors.ReclaimedClears | src/services/number-management-service.ts:381-401 | nulling one inactive holder leaves none, because colours are unique |
| NumberColors.AddAllKeeps | src/services/number-management-service.ts:247-298 | within the free-colour budget, colours stay unique through the first loop, the lists cover the table, and each choice uses up exactly one free colour |
| NumberColors.SyncKeepsUnique | src/services/number-management-service.ts:205-347 | a synchronisation with no more choices than free palette colours keeps colours unique and its lists cover the table to the end |
| NumberColors.SyncUniqueExactly | src/services/number-management-service.ts:205-347 | a synchronisation keeps colours unique exactly when it makes no more choices than active numbers leave palette colours free |
| NumberColors.EntryBudgetSuffices | src/services/number-management-service.ts:71-121 | the budget is met whenever every choice sees fewer than sixteen active entries |
| NumberColors.NewNumberUniqueExactly | src/services/number-management-service.ts:205-347 | a number seen for the first time gets a colour of its own exactly when the active numbers leave one |
| NumberColors.ColorsStayUnique | src/services/provider-registry.ts:517-525 | over any history of synchronisations, activations and provider removals no two numbers share a colour |
| NumberRows.SyncRows | src/services/number-management-service.ts:205-347 | row by row: a vanished number becomes inactive and detached with its colour and label kept, a listed one is active under its provider with a palette colour, no other row changes but for an inactive one's colour |
| NumberRows.ColorsArePassedOn | src/services/number-management-service.ts:381-401 | a number outside the listing loses its colour only to a listed one, which then has it |
| NumberService.CountPaletteColors | src/services/number-management-service.ts:123-130 | entries per palette colour |
| NumberService.Choose | src/services/number-management-service.ts:71-121 | chooseColor's loops |
| NumberService.Service.GetColorUsage | src/services/number-management-service.ts:355-374 | the colours held, split by activity |
| NumberService.Service.ReclaimColor | src/services/number-management-service.ts:381-401 | one inactive holder loses the colour, the list one entry |
| NumberService.Service.SyncNumbers | src/services/number-management-service.ts:205-347 | both loops of a synchronisation as one step; what they write is SyncRows |
| NumberService.Service.SetActive | src/services/number-management-service.ts:740-764 | changes the flag alone |
| ReassignColors.EvenShares | migrations/013_fix_number_colors.ts:52-100 | every palette colour is given to a sixteenth of the active numbers, rounded down or up |
| ReassignColors.DistinctExactly | migrations/013_fix_number_colors.ts:93-100 | colours are pairwise distinct exactly for at most sixteen active numbers |
| ReassignColors.OnlyOneAssignment | scripts/reassign-number-colors.ts:57-82 | the assignment is determined by the number of rows and the inactive colours |
| ReassignColors.Pick | migrations/013_fix_number_colors.ts:52-72 | pickActiveColor's three loops find the one pick |
| ReassignColors.Reassign | scripts/reassign-number-colors.ts:104-122 | the assignment loop and its count of changed rows |
| ReassignColors.ReassignTwice | scripts/reassign-number-colors.ts:104-122 | a second run changes nothing |
| SmsDelivery.StepKeepsInv | src/services/conversation-service.ts:116-365 | every statement of deliveries, sends and retries, every receipt, failure, crash and acknowledgement keeps the delivery invariant |
| SmsDelivery.NoSmsLost | src/providers/modem-gateway-telephony-provider.ts:212-233 | every SMS received by the gateway is in its buffer or in the messages table |
| SmsDelivery.AckOnlyAfterStoring | src/server.ts:393-435 | an acknowledgement exists only for a stored SMS |
| SmsDelivery.StoredAtMostOnce | migrations/001_initial_schema.ts:107-123 | no non-empty id is stored twice, under concurrent redelivery |
| SmsDelivery.MessagesHaveThreads | src/services/conversation-service.ts:545-572 | every stored message has its conversation row |
| SmsDelivery.StoredFaithfully | src/services/conversation-service.ts:236-251 | a row with an SMS's id holds what the gateway received under it |
| SmsDelivery.DeliveryCompletes | src/services/conversation-service.ts:213-265 | a delivery left alone stores a new SMS, skips a known one, and acknowledges exactly its id, if it has one |
| SmsDelivery.NoIdNoDedup | src/services/conversation-service.ts:221-232 | delivered twice, an SMS without an id adds two equal rows and no acknowledgement; one with an id adds nothing the second time |
| SmsDelivery.SentIdShadowsExactly | src/services/conversation-service.ts:221-232 | a lookup acknowledges an unstored SMS exactly when a sent message has its id |
| SmsDelivery.SentIdLosesSms | src/services/conversation-service.ts:221-232 | a run that loses an SMS because a sent message has its id |
| SmsDelivery.RetryForgetsExactly | src/services/conversation-service.ts:301-365 | a settled retry of a received row keeps its SMS stored exactly when the send failed, returned the SMS's own id, or returned another row's id |
| SmsDelivery.RetryLosesSms | src/services/conversation-service.ts:271-365 | a run that loses an SMS by a failure receipt and a retry of the received row |
| SmsOutcomes.ReceivedSmsKept | src/providers/modem-gateway-telephony-provider.ts:212-233 | in every run a received SMS is in the buffer or in a row with its text, its id, and the conversation of its recipient and sender |
| SmsOutcomes.BufferedExactly | src/providers/modem-gateway-telephony-provider.ts:212-233 | an SMS is buffered exactly when no acknowledgement of its id has arrived since it was received |
| SmsOutcomes.EveryRowHasASource | src/services/conversation-service.ts:116-365 | in every run an inbound row holds a received SMS and a sent row is what some send asked for |
| SmsOutcomes.DeliveryWrites | src/services/conversation-service.ts:213-265 | a delivery left alone adds one delivered row with the SMS's content and shows its conversation, unless its id is known |
| SmsOutcomes.SendWaits | src/services/conversation-service.ts:116-147 | a send left alone writes a pending row and shows its conversation before the provider is asked |
| SmsOutcomes.SendSettles | src/services/conversation-service.ts:150-206 | a sent row follows the reply; the provider's id is left out exactly when another row has it |
| SmsOutcomes.RetrySettles | src/services/conversation-service.ts:299-365 | a retried row follows the reply, and stays pending exactly when the provider's id is another row's |
| ConversationService.Service.ReceiveMessage | src/services/conversation-service.ts:213-265 | receiveMessage without interference |
| ConversationService.Service.SendMessage | src/services/conversation-service.ts:116-206 | sendMessage without interference, with its key-collision fallback |
| ConversationService.Service.UpsertConversation | src/services/conversation-service.ts:545-572 | the conversation exists and is visible afterwards |
| DtmfDetector.DetectsExactly | mediabridge/internal/dtmf/dtmf.go:147-181 | the detector reports an end packet below code 16 exactly when the previous packet of its code is absent or not an end |
| DtmfDetector.FlagsAreLast | mediabridge/internal/dtmf/dtmf.go:147-181 | active and ended say what the last packet of a code was, and are never both set |
| DtmfDetector.CodesApart | mediabridge/internal/dtmf/dtmf.go:147-181 | codes do not interfere |
| DtmfDetector.EventSurvivesExactly | mediabridge/internal/dtmf/dtmf.go:47-79 | an event survives encoding exactly when its volume fits six bits |
| DtmfDetector.PayloadSurvivesExactly | mediabridge/internal/dtmf/dtmf.go:47-79 | a payload survives parsing exactly when its reserved bit is clear |
| DtmfDetector.DigitsSurvive | mediabridge/internal/dtmf/dtmf.go:84-113 | digits and codes are inverse, lower-case letters excepted |
| DtmfDetector.PayloadIsWord | mediabridge/internal/dtmf/dtmf.go:47-79 | every field stands in its place of the 32-bit word, encoded and parsed |
| DtmfDetector.DigitsInOrder | mediabridge/internal/dtmf/dtmf.go:84-106 | the digits in the order of their codes |
| DtmfDetector.EncodePayload | mediabridge/internal/dtmf/dtmf.go:66-79 | the four bytes of an event |
| DtmfDetector.Detector.ProcessPacket | mediabridge/internal/dtmf/dtmf.go:147-181 | the flags and the digit reported for one packet |
| Notifications.CentreRefinesList | web/src/notifications.ts:47-118 | visible is the first three of the live list, the queue is the rest, exactly the visible have timers, no id is shown twice |
| Notifications.ShownExactly | web/src/notifications.ts:79-118 | over any run the ids shown, each once, are exactly those that have had a slot |
| Notifications.TimerDueExactly | web/src/notifications.ts:68-85 | in every run a visible notification's timer is due its timeout after the operation that made it visible |
| NotificationCenter.Center.PushNotification | web/src/notifications.ts:93-104 | a first push takes a slot or waits |
| NotificationCenter.Center.DismissNotification | web/src/notifications.ts:107-118 | a dismissal frees the slot and the next moves up |
| NotificationCenter.Center.FillFreeSlots | web/src/notifications.ts:79-85 | the promotion loop |
| ConversationMigration.UpExactly | migrations/014_conversation_provider_identity.ts:37-101 | up leaves one row for exactly the backfilled pairs and the pairs messages name, with which content |
| ConversationMigration.UpRows | migrations/014_conversation_provider_identity.ts:37-101 | the pairs that have a row afterwards, told by the messages alone |
| ConversationMigration.UpContents | migrations/014_conversation_provider_identity.ts:37-101 | of every known number one pair, that of a newest message, keeps the row as it was; each other row is its thread's newest message with the flags of the original |
| ConversationMigration.NoThreadLost | migrations/014_conversation_provider_identity.ts:68-101 | every pair a message names has its row |
| ConversationMigration.DownKeepsLatest | migrations/014_conversation_provider_identity.ts:151-166 | down keeps exactly one row per remote number, the last by activity and own number |
| ConversationMigration.DownRows | migrations/014_conversation_provider_identity.ts:151-166 | down's row for a number is the row of the pair all others come before, by time and then own number |
| ConversationMigration.UpThenDown | migrations/014_conversation_provider_identity.ts:37-166 | up then down preserves the remote numbers and loses no activity |
| ConversationMigration.Database.MigrateUp | migrations/014_conversation_provider_identity.ts:37-101 | the statements of up |
| ConversationMigration.Database.MigrateDown | migrations/014_conversation_provider_identity.ts:151-166 | the statements of down |
| RouterTheorems.OneOutcomePerCall | src/services/call-router.ts:92-284 | every incoming call is pending or has had exactly one call_cancelled, and answers are exactly the calls answered elsewhere |
| RouterTheorems.RingsExactlyWhileOpen | src/services/call-router.ts:92-180 | a pending call has its one ring timer exactly while it is unresolved, also after failed answers |
| RouterTheorems.OneDecisionAtATime | src/services/call-router.ts:128-240 | a pending call is resolved exactly while one answer or decline waits for the provider |
| RouterTheorems.HangsUpExactly | src/services/call-router.ts:210-380 | over any run the provider is told to hang up once for each declined or timed-out call, a decline still waiting included |
| RouterSteps.ActiveExactly | src/services/call-router.ts:180-320 | over any run who is on a number is who was last announced there and not announced to have left |
| RouterSteps.RecordsExactly | src/services/call-router.ts:224-380 | over any run declined calls are recorded as declined and missed ones as missed, each as often as announced |
| RouterSteps.AnnouncedAsAsked | src/services/call-router.ts:128-204 | a device is announced only if it answered, a call as active only on the number it came in for |
| CallRouter.Router.HandleIncomingCall | src/services/call-router.ts:92-121 | a new call rings, a known one is ignored |
| CallRouter.Router.AnswerCall | src/services/call-router.ts:128-160 | the first answer wins the race |
| CallRouter.Router.AnswerReturned | src/services/call-router.ts:158-204 | success makes the call active, failure reopens it |
| CallRouter.Router.DeclineCall | src/services/call-router.ts:210-224 | a decline resolves the call |
| CallRouter.Router.DeclineReturned | src/services/call-router.ts:224-245 | a decline's outcome |
| CallRouter.Router.MissCall | src/services/call-router.ts:250-284 | a disconnect or a timeout is the call's outcome |
| CallRouter.Router.OnRingTimeout | src/services/call-router.ts:348-380 | the ring timer's callback: the provider hangup, the broadcasts, the missed record and the clean-up |

## Left out

- HTTP and WebSocket routes, SIP and WebRTC negotiation, push delivery, logging and configuration: input and output only.
- The SQL engine: a statement is one step on a map or list; key constraints are modelled where the code meets them.
- Orchestrator.CallOrchestrator.EndNext: the source ends the first call of the list before endAllCalls first suspends; here other operations may come in before it too, which allows more interleavings.
- Orchestrator.CallOrchestrator: call records are values in one map instead of objects, since a suspended answer needs to write a record that has left the active map; the timer loop of dispose is one assignment.
- The orchestrator's offer and ICE intake for the web client, and DTMF sending: they change no map, timer or answer field.
- CallTheorems.NeverOverdue: the clock is assumed not to pass a pending timer's due time, which a real event loop meets only approximately.
- The media bridge's HandleClientPCM, whose timestamps advance by a fixed 160; HandleClientRTPForPCM is modelled as the function it computes.
- The PCM tap callback and write errors, which are only logged.
- Timestamps and arrival times inside jitter packets are carried, not read, as in the source.
- BridgeTheorems.EchoConserves: assumes that the writer is set at every echo tick and that no provider audio comes in; without a writer due frames are dropped.
- NumberColors.SyncKeepsUnique: a synchronisation is one step; two at once for different providers are not modelled. That a detached number which returns keeps its colour is not claimed, because the code chooses afresh.
- Labels, default numbers, blocking and usage times of numbers.
- SmsModel: message removal flags, times and the retry limit are left out; a retry may start for any failed sent message, and a receipt may carry any status.
- NumberColors.SyncUniqueExactly: that the budget is needed is not claimed for a listing that repeats a number, or for one whose number is active under another provider; a later choice may then replace an earlier one.
- ConversationMigration: the rewriting of read-state keys, and creation of columns, defaults and constraints.
- The router's thirty seconds: a ring timer may fire at any time, and dispose is not modelled.
- Media-session slot reservation, event replay after write failures, and ringback waveform generation.
- Pairing, challenge-response, webhook signatures, passwords and configuration encryption.
