# RKMediaGateway: a verified model of its control plane

RKMediaGateway captures video and audio, encodes them, sends them out over several protocols, and plays
talkback audio. Its control plane is made of state machines, bounded queues, slot rings and reference
counts. This project models those in Dafny and proves what they keep over whole runs.

Hardware and codec calls appear only as "succeeds" or "fails" parameters. Every section that runs under
a lock, and every push or pop of a message queue, is one step; runs interleave the steps in any order.

## Components

**Video control transaction** (`VideoControl`, `VideoTargets`, `VideoWorkers`, `VideoProtocol`,
`VideoCapacity`, `VideoAgreement`, `VideoDecisions`, `VideoSettling`, `VideoFaults`). A coordinator sends a rate change first to the capture worker and then
to the encoder workers over queues, collects results by request id, retries failures and cancels when
the target moves. The coordinator class refines a step function; the protocol interleaves it with the
workers. Proved: whenever a transaction commits, every controlled device runs at the committed rate,
and every stream is configured as it was last asked, whatever stale results, failures, retries and
cancelled transactions came before; if the policy has kept its mind meanwhile that is what the policy
wants, and nothing is started over; the shared result queue of 32 entries never overflows; every
pending endpoint has exactly one message in flight; stale results change nothing; a retry sends to
exactly the failed encoders. `VideoDecisions` says when a transaction starts and when it does not (a
target that the hardware cannot serve is left alone until the policy changes it), what it asks and of
whom, and what a failure holds back for a second. Encoders may be rebuilt, and may
become ready or stop being ready, at any time within the limit of the third point below. Worker wake-ups
may fail. The agreement is conditional: `AgreementIffNoFaults` proves that it holds on all runs of an
environment exactly when the environment does none of three things. Each is shown to break it by a run
from an idle state:

* a retry asks an encoder while an earlier command of the same request is still on its way there. This
  needs a wake-up that failed: `media_gateway_pipeline_submit_video_command`
  (`bussiness/mediaGateway/src/mediaGatewayPipeline.c:357-374`) then reports failure although the command
  is already queued. If the worker has dealt with that command before the retry, nothing is wrong; if
  not, the retry queues a second copy, and the first copy's success can be committed while the second
  copy still runs and fails;
* a target builder gives up part-way (`bussiness/mediaGateway/src/mediaGatewayPolicy.c:626-634`), after
  the fused rate has moved. Entries of later streams are leftovers, and a usable leftover is sent with
  its old rate. `CarriesIffNoLeftover` and `ManualCarriesIffNoLeftover` say exactly when the entries
  carry the target;
* an encoder that is in none of the masks becomes eligible while encoders are pending. Any other change
  of the eligible set, at any time, is harmless.

**Policy timing** (`LightFpsPolicy`, `SwitchSpacing`, `NetworkPolicy`). The light policy's debounce is
combined with the commit time stamps of the transaction: with only the light policy active, commits that
change the rate are at least the minimum interval apart, and the target moves to a rate exactly when the
scenes have asked for that rate without a break for its confirmation time and the last switch is old
enough. Network hysteresis is proved equivalent to a
definition without counters. One consequence is recorded as a theorem: candidates that alternate between
two bad states are never confirmed, so the state stays good however long that lasts.

**Talkback** (`RtpSequence`, `Talkback`, `TalkbackProperties`, `TalkbackNumbers`, `TalkbackOrigins`,
`TalkbackArbitration`). A network thread and a playout worker
share a bounded jitter buffer. Sequence extension follows section 5.1 and Appendix A.1 of RFC 3550.
Proved over all interleavings: decoder epochs never mix streams, playout is consecutive in number and
time, the buffer is bounded and accounted for, and before playout it keeps the smallest numbers.
`TalkbackOrigins` keeps a record of the submitted packets beside the run: a playout starts at the arrival
time of the packet submitted under its first number, and the decoder is given what was submitted.
`TalkbackArbitration` says who holds the player and what becomes of each packet. Resets
and decoding happen between locked sections, which the worker's position records. `TalkbackNumbers`
relates the numbers that submissions are stored under to the packets' true indices, with the exact
condition. A packet ahead of the whole buffer is taken for a restarted stream and numbered anew even
when it lies in the window (`RestartRenumbers`). Sequence extension clamps to 0 below the first cycle;
the window in `ExtendRecoversIffInWindow` accounts for it.

**Buffers and outputs** (`MediaBuffers`, `MediaPackets`, `OutputPolicy`, `MediaOutput`, `MediaFlow`,
`MediaHub`). Payload buffers are reference counted and recycled through an intrusive free list; each
output has two in-place rings and a sending thread. Proved on the heap: a buffer's counter is the number
of packets that hold it, free buffers are held by nobody, and a held payload is never overwritten.
Packets given up after a failed connection appear in no counter of the program
(`bussiness/mediaOutput/src/mediaOutput.c:287-295`); `CountersAccountForAllIffNoConnectFailed` says
exactly when the counters account for every packet.

**Slot rings** (`SlotCounting`, `AudioQueue`, `AudioFrameSource`, `LatestFrame`, `FrameCache`,
`CaptureStats`). Two rings that find slots by scanning are proved to be a drop-oldest queue and a
newest-frame mailbox. An audio frame too large for its slot that meets a full ring is counted as a drop
although nothing is dropped (`bussiness/audioFrameSource/src/audioFrameSource.c:62-65, 104-112`):
`TooLargeIsCounted` is such a run and `DropCounterIsRightIff` the exact condition. Slots are as large as
one capture period (`bussiness/audioFrameSource/src/audioFrameSource.c:213`), so frames of one period
never get there (`FittingFramesNeverFail`). Releasing the slot of a frame that nobody has acquired loses
that frame; `AcquiresTheLastPublishedIff` says that nothing else does.

**Audio encoders** (`AudioEncoderConfig`, `AudioEncoderManager`, `Downsample`). Configurations are
normalized, deduplicated by key and looked up through a map and a list; PCM is fitted to the encoder by
channel selection and averaging.

## Assumptions

* A message queue push stores a copy at the end or fails; a pop takes the oldest message.
* Masks over streams are sets; there are two streams. Request ids, frame numbers, times and counters do
  not overflow. Extended sequence numbers stay below 2^32 - 2^16.
* At least one runtime policy is enabled, and manual bitrate requests change only between main-loop
  passes. The fused rate is positive. Which streams the policy wants parameters for, and the result of
  capability validation, are inputs.
* The decoder reset call resets the decoder. Talkback packets carry an arrival time.
* Audio sample buffers are as long as their header says.

## Model

| member | source | states |
|---|---|---|
| VideoControl.Coordinator.SubmitEncoderCommand | bussiness/mediaGateway/src/mediaGateway.c:2870-2962 | a command joins its worker's queue unless it is refused or the queue is full; a failed wake-up reports failure but leaves the command queued |
| VideoControl.Coordinator.ChoosePayload | bussiness/mediaGateway/src/mediaGateway.c:3051-3072 | parameters are sent only where the policy asks for them and they are usable, else the target rate |
| VideoControl.Coordinator.SubmitPendingEncoderCommands | bussiness/mediaGateway/src/mediaGateway.c:3013-3098 | after a round every requested eligible stream is pending or failed, never both, a pending one has one new command at its tail, and a failure sets the retry time |
| VideoControl.Coordinator.CommitTransition | bussiness/mediaGateway/src/mediaGateway.c:3103-3178 | commits only with nothing pending or failed; publishes the target and stamps the switch time exactly when the rate changes |
| VideoControl.Coordinator.CancelForTargetChange | bussiness/mediaGateway/src/mediaGateway.c:3391-3434 | a running transaction whose target moved is abandoned with empty masks |
| VideoControl.Coordinator.HandleCommandResult | bussiness/mediaGateway/src/mediaGateway.c:3183-3325 | results of other requests or of endpoints not waited for change nothing; others move the endpoint from pending to success or failed, or start the encoder phase |
| VideoControl.Coordinator.DrainWorkerResults | bussiness/mediaGateway/src/mediaGateway.c:3330-3374 | handles results in arrival order, at most 16 of them |
| VideoControl.Coordinator.ApplyDecision | bussiness/mediaGateway/src/mediaGateway.c:3514-3645 | the decision that ends a pass: commit, retry, reject, or start a transaction |
| VideoControl.Coordinator.StartParamsTransition | bussiness/mediaGateway/src/mediaGateway.c:3591-3610 | a parameter-only transaction starts at the encoders and ends at once if there are none |
| VideoControl.Coordinator.StartSensorTransition | bussiness/mediaGateway/src/mediaGateway.c:3612-3654 | a rate change asks the capture worker first and waits before it tries again after a refusal |
| VideoControl.Coordinator.ApplyControls | bussiness/mediaGateway/src/mediaGateway.c:3459-3654 | one whole pass: cancel, drain, decide |
| VideoWorkers.VideoEncodeWorker.ExecuteCommand | bussiness/mediaGateway/src/mediaGatewayPipeline.c:422-559 | what each step of applying a command leaves in the hardware, the gate and the configuration, and one result with the command's request id |
| VideoWorkers.VideoEncodeWorker.ProcessCommands | bussiness/mediaGateway/src/mediaGatewayPipeline.c:564-617 | executes queued commands in order, one result for each |
| VideoTargets.RuntimeTargets.Fuse | bussiness/mediaGateway/src/mediaGatewayPolicy.c:786-914 | the fused rate is the lower cap; the entries are rebuilt only for a positive rate, by the builder of the policy in force; success with the network policy on means that rate and entries agree |
| VideoTargets.RuntimeTargets.BuildTargets | bussiness/mediaGateway/src/mediaGatewayPolicy.c:553-645 | entries are written in place up to the first stream that cannot be served, which stays unusable, and those beyond keep their old value |
| VideoTargets.RuntimeTargets.BuildManualTargets | bussiness/mediaGateway/src/mediaGatewayPolicy.c:654-722 | with the network policy off only entries with a manual request are written, up to the first request that cannot be met |
| VideoTargets.BuiltAsWanted | bussiness/mediaGateway/src/mediaGatewayPolicy.c:553-645 | streams before the first one that cannot be served get exactly the rate, bitrate, key frame interval and rate control the policy wants, that one gets nothing that could be sent, and those after it keep their entry |
| VideoTargets.ManualBuiltAsWanted | bussiness/mediaGateway/src/mediaGatewayPolicy.c:654-722 | requested and withdrawn entries are the committed configuration with the wanted bitrate, at the target where the policy moves the rate; the others are left alone |
| VideoTargets.ManualCarriesIffNoLeftover | bussiness/mediaGateway/src/mediaGatewayPolicy.c:654-722 | after that the entries in use carry the target exactly when none beyond the stop is a usable leftover of another rate |
| VideoTargets.CarriesIffNoLeftover | bussiness/mediaGateway/src/mediaGatewayPolicy.c:579-645 | after the builder ran, finished or not, usable entries carry the target exactly when none beyond its stop is a usable leftover of another rate |
| VideoProtocol.SuccessfulRefreshIsPermitted | bussiness/mediaGateway/src/mediaGatewayPolicy.c:829-838 | a refresh whose builder succeeds is a step of every environment |
| VideoWorkers.AppliedForSureIff | bussiness/mediaGateway/src/mediaGatewayPipeline.c:422-559 | a command leaves hardware, gate and configuration at its rate from every prior state exactly when it got as far as writing the configuration |
| VideoWorkers.LastCommandDecides | bussiness/mediaGateway/src/mediaGatewayPipeline.c:564-617 | whatever ran before, a successful last command decides the rate |
| VideoCapacity.CapacityStep | bussiness/common/commonDef.h:60-62 | every step keeps the bound on commands, held results and queued results |
| VideoCapacity.NoResultIsEverLost | bussiness/mediaGateway/src/mediaGatewayPipeline.c:381-417 | in every run the next result finds room in the shared queue, so none is dropped |
| VideoAgreement.ExecuteKeeps | bussiness/mediaGateway/src/mediaGatewayPipeline.c:564-617 | executing a command keeps what the transaction believes of the endpoint |
| VideoAgreement.PublishKeeps | bussiness/mediaGateway/src/mediaGatewayPipeline.c:381-417 | pushing a result keeps what the transaction believes of the endpoint |
| VideoAgreement.SubmitRound | bussiness/mediaGateway/src/mediaGateway.c:3013-3098 | a submission round leaves the masks a partition of the eligible encoders and every endpoint consistent with its mask |
| VideoAgreement.DrainStep | bussiness/mediaGateway/src/mediaGateway.c:3183-3374 | handling the next result keeps the invariant |
| VideoAgreement.DecideStep | bussiness/mediaGateway/src/mediaGateway.c:3514-3645 | a decision keeps the invariant |
| VideoAgreement.EligibleStep | bussiness/mediaGateway/src/mediaGatewayProcess.c:332-353 | encoders becoming ready or not keep the invariant unless a stranger joins a running encoder phase |
| VideoAgreement.RebuildStep | bussiness/mediaGateway/src/mediaGatewayProcess.c:320-355 | rebuilding an encoder from its stream configuration keeps the invariant |
| VideoAgreement.InvRun | bussiness/mediaGateway/src/mediaGateway.c:3459-3654 | the invariant holds in every reachable state without environment faults |
| VideoAgreement.CommitAgreement | bussiness/mediaGateway/src/mediaGateway.c:3103-3178 | when a commit is due, the capture source (if it was asked) and every eligible encoder run at the target |
| VideoAgreement.CommittedRateIsEverywhere | bussiness/mediaGateway/src/mediaGateway.c:3514-3529 | after the commit the published rate is the one every controlled device runs at, and no command or unreported result is left at any of them |
| VideoDecisions.StartsIff | bussiness/mediaGateway/src/mediaGateway.c:3541-3585 | in every run an idle coordinator issues a request id exactly when a change is due, the hardware can serve it, and the target was not turned down since the last request; otherwise it asks nobody anything |
| VideoDecisions.TurnedDownTargetRests | bussiness/mediaGateway/src/mediaGateway.c:3550-3577 | after the hardware has turned a target down no command and no request id is added until the policy wants another target |
| VideoDecisions.StartAsks | bussiness/mediaGateway/src/mediaGateway.c:3580-3654 | a rate change asks the sensor alone, and only if the exposure limit is set and its queue takes the command; a parameter change asks exactly the eligible encoders, each for what the policy wants of it |
| VideoDecisions.SensorPhaseIsAsked | bussiness/mediaGateway/src/mediaGateway.c:3612-3650 | the sensor phase is entered only by a decision whose capability, exposure and queue checks succeeded |
| VideoDecisions.AnswerCounts | bussiness/mediaGateway/src/mediaGateway.c:3183-3325 | the sensor's success asks exactly the eligible encoders, its failure ends the transaction for a second, and an encoder moves from pending to the successes or failures |
| VideoDecisions.StaleIsIgnored | bussiness/mediaGateway/src/mediaGateway.c:3208-3240 | a result that nobody waits for changes nothing |
| VideoDecisions.GivesUpIff | bussiness/mediaGateway/src/mediaGateway.c:3391-3434 | a running transaction is given up exactly when the policy has moved away from its target, and what was sent stays on its way |
| VideoDecisions.Waits | bussiness/mediaGateway/src/mediaGateway.c:3507-3545 | while an answer is outstanding a decision does nothing |
| VideoDecisions.Publishes | bussiness/mediaGateway/src/mediaGateway.c:3103-3178 | with every success in, the decision publishes the target, stamps the time only if the rate is new, and leaves no waiting time behind |
| VideoDecisions.PublishedOnlyWhenAnswered | bussiness/mediaGateway/src/mediaGateway.c:3103-3178 | nothing else changes the published rate |
| VideoDecisions.FailureHoldsBack | bussiness/mediaGateway/src/mediaGateway.c:3078-3096 | after any refusal or failure no command and no request id is added by passes that start within the waiting time, unless the policy changes its target |
| VideoSettling.CommandLeaves | bussiness/mediaGateway/src/mediaGatewayPipeline.c:422-559 | a parameter command that gets as far as the configuration leaves exactly its parameters there, a rate command leaves the rest alone, and one stopped before leaves all of it alone |
| VideoSettling.OnlyParametersChangeTheRest | bussiness/mediaGateway/src/mediaGatewayPipeline.c:422-559 | bitrate, key frame interval and rate control change only to what a parameter command carried |
| VideoSettling.CommittedConfigurations | bussiness/mediaGateway/src/mediaGatewayPipeline.c:535-559 | at every commit each eligible stream has exactly what it was last sent in its configuration |
| VideoSettling.PolicyIsCarriedOut | bussiness/mediaGateway/src/mediaGateway.c:155-187 | if the policy has kept its mind since before the encoders were asked, each eligible stream it has usable parameters for is configured with exactly those at the commit and is not found to differ |
| VideoSettling.CommittedForGood | bussiness/mediaGateway/src/mediaGateway.c:3536-3545 | after such a commit no command and no request id is added while the policy keeps its mind, if its streams are eligible and its parameters usable |
| VideoFaults.Bookkeeping | bussiness/mediaGateway/src/mediaGateway.c:3013-3098 | masks are disjoint and account for all eligible encoders in the encoder phase, partition them if none comes or goes meanwhile, and are empty otherwise; each pending endpoint has exactly one message in flight, others none but for encoders whose wake-up failed |
| VideoFaults.EveryResultIsExpectedOrIgnored | bussiness/mediaGateway/src/mediaGateway.c:3208-3240 | the next result belongs to an endpoint that is waited for, and its success means that the endpoint runs at the target, or handling it changes nothing |
| VideoFaults.RetryResendsTheFailedSet | bussiness/mediaGateway/src/mediaGateway.c:3514-3529 | a retry sends to exactly the failed encoders that are still eligible and have room, under the same request id and at the target rate, and keeps the successes |
| VideoFaults.StrangerBreaks | bussiness/mediaGateway/src/mediaGatewayProcess.c:330-354 | a run in which an encoder nobody asked becomes ready while encoders are pending commits without agreement |
| VideoFaults.LeftoverBreaks | bussiness/mediaGateway/src/mediaGatewayPolicy.c:626-634 | a run in which the builder stops at stream 0 and leaves stream 1 its old usable entry commits with stream 1 at the old rate |
| VideoFaults.OverlapBreaks | bussiness/mediaGateway/src/mediaGatewayPipeline.c:357-374 | a run in which a wake-up fails after queueing and the retry comes before the worker looks commits without agreement |
| VideoFaults.AgreementIffNoFaults | bussiness/mediaGateway/src/mediaGateway.c:3103-3178 | commit agreement holds on all runs of an environment exactly when it has none of the three faults |
| LightFpsPolicy.LightPolicy.Evaluate | bussiness/mediaGateway/src/mediaGatewayPolicy.c:1029-1183 | one evaluation: period, pending rate, confirmation time, minimum switch interval |
| LightFpsPolicy.UpdateMoves | bussiness/mediaGateway/src/mediaGatewayPolicy.c:1065-1158 | the code moves the target exactly when the reference over the recorded scenes, which has no pending rate and no time stamps, says so |
| SwitchSpacing.OnlyCommitsSwitch | bussiness/mediaGateway/src/mediaGateway.c:3143-3146 | only a decision changes the committed rate, to the policy's target, stamped with the current time |
| SwitchSpacing.SwitchesAreSpaced | bussiness/mediaGateway/src/mediaGatewayPolicy.c:1140-1158 | commits that change the rate are at least the minimum interval apart in every run |
| SwitchSpacing.TargetFollowsTheScenes | bussiness/mediaGateway/src/mediaGatewayPolicy.c:1065-1158 | in every run a refresh moves the target to a rate exactly when it is evaluated, the recorded scenes have asked for that rate without a break for its confirmation time, and the last switch is old enough |
| SwitchSpacing.TargetIsConfirmed | bussiness/mediaGateway/src/mediaGatewayPolicy.c:1111-1138 | in every run the target moves to a rate only after a stretch of evaluations of at least its confirmation time whose scenes all asked for it |
| SwitchSpacing.SteadySceneIsFollowed | bussiness/mediaGateway/src/mediaGatewayPolicy.c:1093-1158 | once every scene evaluated for the confirmation time of a rate asks for it and the last switch is old enough, that rate is the target |
| NetworkPolicy.WorseMetricsNeverLookBetter | bussiness/mediaGateway/src/mediaGatewayPolicy.c:107-141 | pointwise worse loss, delay, jitter and queue never give a better candidate, for any thresholds |
| NetworkPolicy.CandidateIsTheWorstReached | bussiness/mediaGateway/src/mediaGatewayPolicy.c:403-435 | the candidate is the worst state one of whose switched-on thresholds is reached |
| NetworkPolicy.JitterInMilliseconds | bussiness/mediaGateway/src/mediaGatewayPolicy.c:133-141 | jitter is compared in whole milliseconds of the 90 kHz clock, rounded down |
| NetworkPolicy.TracksRun | bussiness/mediaGateway/src/mediaGatewayPolicy.c:149-190 | the counter tracks the definition by stretches of equal candidates |
| NetworkPolicy.ChangesExactlyAfterStretch | bussiness/mediaGateway/src/mediaGatewayPolicy.c:149-190 | the confirmed state changes exactly when the required number of last candidates agree on another state |
| NetworkPolicy.FewChanges | bussiness/mediaGateway/src/mediaGatewayPolicy.c:149-190 | changes times the smaller confirm count never exceed the number of candidates |
| NetworkPolicy.AlternatingIsNeverConfirmed | bussiness/mediaGateway/src/mediaGatewayPolicy.c:149-190 | candidates alternating between two bad states are never confirmed |
| NetworkPolicy.NetworkConstraint.ConfirmState | bussiness/mediaGateway/src/mediaGatewayPolicy.c:149-190 | confirms one stream's state and leaves the others alone |
| NetworkPolicy.NetworkConstraint.Update | bussiness/mediaGateway/src/mediaGatewayPolicy.c:341-484 | the aggregate is the worst state and the lowest cap of the enabled streams, each attained by one of them |
| RtpSequence.ExtendRecoversIffInWindow | bussiness/audioTalkback/src/audioTalkback.cpp:40-57 | extension recovers a true index exactly when it lies in the half-open half-cycle window around the reference |
| RtpSequence.ReconstructsIffWindowed | bussiness/audioTalkback/src/audioTalkback.cpp:346-353 | extending each packet against the highest number so far reconstructs a reordered stream exactly when each index is in the window of the highest before it, across any number of wraps |
| TalkbackNumbers.NumbersAreTrueIff | bussiness/audioTalkback/src/audioTalkback.cpp:333-362 | in every run all submitted packets are numbered by their true indices exactly when each lies in the window of the highest number, or in the first cycle where numbering starts over |
| TalkbackNumbers.NumbersAreReconstructed | bussiness/audioTalkback/src/audioTalkback.cpp:346-353 | the numbers given to one stream that is never taken for a restart are those of the reconstruction, whatever the player does in between |
| TalkbackNumbers.OneStreamIsTrueIffWindowed | bussiness/audioTalkback/src/audioTalkback.cpp:346-353 | such a stream is numbered by its true indices exactly when it starts in the first cycle and stays in the window |
| TalkbackNumbers.RestartRenumbers | bussiness/audioTalkback/src/audioTalkback.cpp:354-362 | a run in which a packet inside the window is ahead of the buffer and stored under another number |
| Talkback.AudioTalkback.ResetStreamLocked | bussiness/audioTalkback/src/audioTalkback.cpp:458-479 | selects a stream: empty buffer, no playout, a decoder reset pending |
| Talkback.AudioTalkback.SubmitPacket | bussiness/audioTalkback/src/audioTalkback.cpp:305-400 | arbitration, numbering, discontinuity, late and duplicate packets, insertion |
| Talkback.AudioTalkback.NumberPacket | bussiness/audioTalkback/src/audioTalkback.cpp:346-353 | the packet's extended number, and the highest number only grows |
| Talkback.AudioTalkback.InsertPacket | bussiness/audioTalkback/src/audioTalkback.cpp:372-398 | an overflowing buffer loses its largest number |
| Talkback.AudioTalkback.TakeTop | bussiness/audioTalkback/src/audioTalkback.cpp:657-696 | a pending reset is taken before anything else; playout starts at the smallest number once enough is buffered |
| Talkback.AudioTalkback.TakeDeadline | bussiness/audioTalkback/src/audioTalkback.cpp:702-763 | a reset interrupts, silence ends the stream, else one number is consumed |
| Talkback.AudioTalkback.ConsumeFrame | bussiness/audioTalkback/src/audioTalkback.cpp:730-763 | the expected packet is taken out, or concealed without removing the next one |
| TalkbackProperties.EpochIsolation | bussiness/audioTalkback/src/audioTalkback.cpp:657-770 | between two decoder resets the decoder sees packets of one stream selection only |
| TalkbackProperties.FedOnlyAfterItsReset | bussiness/audioTalkback/src/audioTalkback.cpp:657-770 | no packet of a selection reaches the decoder before a reset made after that selection |
| TalkbackOrigins.PlayoutOrder | bussiness/audioTalkback/src/audioTalkback.cpp:686-762 | the n-th frame of a playout has the number of its first packet plus n and is due n frame durations after that packet, as it was submitted, arrived |
| TalkbackOrigins.DecodedAsSubmitted | bussiness/audioTalkback/src/audioTalkback.cpp:739-770 | a decoded frame has the payload last submitted under its number in its selection; a concealed one is given nothing or the payload of the next number |
| TalkbackOrigins.BufferedAsSubmitted | bussiness/audioTalkback/src/audioTalkback.cpp:372-386 | the buffer holds under each number what was last submitted under it |
| TalkbackArbitration.ForeignPacket | bussiness/audioTalkback/src/audioTalkback.cpp:333-339 | in every run a packet of another session takes the player over exactly when the timeout has passed since a packet was last stored, else it is only counted |
| TalkbackArbitration.SelectingPacket | bussiness/audioTalkback/src/audioTalkback.cpp:340-362 | the first packet, another source of the session, and a jump ahead of the buffer each select the stream anew, with that packet alone in the buffer |
| TalkbackArbitration.OwnPacket | bussiness/audioTalkback/src/audioTalkback.cpp:346-400 | any other packet of the talker is refused if late, doubled or not copied; else the buffer keeps the smallest of its numbers and the new one |
| TalkbackArbitration.NotTaken | bussiness/audioTalkback/src/audioTalkback.cpp:315-331 | a packet that cannot be played, or comes while the player is stopped, changes nothing |
| TalkbackArbitration.AtTheTop | bussiness/audioTalkback/src/audioTalkback.cpp:656-696 | leaving, a pending reset and a playout under way come first; a playout starts exactly when enough packets are buffered |
| TalkbackArbitration.AtTheDeadline | bussiness/audioTalkback/src/audioTalkback.cpp:702-763 | in every run a stream is given up exactly when nothing is buffered and the timeout has passed since a packet was last stored; otherwise one frame is played, decoded exactly if its packet is there |
| TalkbackArbitration.OutsideTheLock | bussiness/audioTalkback/src/audioTalkback.cpp:657-770 | outside the lock the worker makes exactly the one reset or frame it took up, also the reset after a stream was given up |
| TalkbackProperties.ServedOncePerFrame | bussiness/audioTalkback/src/audioTalkback.cpp:552-620 | every consumed number is served once and in order: decoded if its packet was there, else concealed or, if the decoder's statistics cannot be read, given up; only the frame just consumed can be outstanding |
| TalkbackProperties.BufferBoundsAndConservation | bussiness/audioTalkback/src/audioTalkback.cpp:363-394 | buffered numbers lie between expected and highest, the buffer is bounded, and submitted = decoded + overflow + flushed + buffered |
| TalkbackProperties.KeepsTheSmallest | bussiness/audioTalkback/src/audioTalkback.cpp:388-394 | before playout the buffer holds the smallest distinct numbers offered since the selection, as many as fit |
| TalkbackProperties.SmallestIsUnique | bussiness/audioTalkback/src/audioTalkback.cpp:388-394 | that set is unique, so the statement determines the buffer |
| TalkbackProperties.InvRun | bussiness/audioTalkback/src/audioTalkback.cpp:636-782 | all five invariants hold under any interleaving |
| MediaBuffers.BufferPool.Prealloc | bussiness/mediaCore/src/mediaPacket.c:27-44 | the first use fills the list with up to 128 empty buffers, later uses do nothing |
| MediaBuffers.BufferPool.Take | bussiness/mediaCore/src/mediaPacket.c:52-83 | first fit, else the head, else nothing; the rest of the list keeps its order |
| MediaBuffers.BufferPool.CreateCopy | bussiness/mediaCore/src/mediaPacket.c:158-207 | a buffer with a copy of the bytes and one holder, or nothing; held payloads are untouched |
| MediaBuffers.BufferPool.Retain | bussiness/mediaCore/src/mediaPacket.c:213-218 | one more holder |
| MediaBuffers.BufferPool.Release | bussiness/mediaCore/src/mediaPacket.c:224-232 | one holder less; the last one recycles the buffer unless it is too large or the list is full |
| MediaBuffers.BufferPool.ReturnToPool | bussiness/mediaCore/src/mediaPacket.c:120-149 | the buffer joins the head of the list or is freed |
| MediaPackets.PacketQueue.Pop | bussiness/mediaOutput/src/mediaOutput.c:116-127 | takes the head and clears its slot |
| MediaPackets.PacketQueue.Push | bussiness/mediaOutput/src/mediaOutput.c:166-185 | appends in place, or refuses when full |
| MediaOutput.MediaOutput.DropOldest | bussiness/mediaOutput/src/mediaOutput.c:134-144 | the oldest packet leaves, is counted, and gives up its reference |
| MediaOutput.MediaOutput.Enqueue | bussiness/mediaOutput/src/mediaOutput.c:640-689 | the enqueue policy, with its exact effect on queues, counters and the pool's account |
| MediaOutput.MediaOutput.TakeNext | bussiness/mediaOutput/src/mediaOutput.c:199-221 | which queue the thread takes from |
| MediaOutput.MediaOutput.Connected | bussiness/mediaOutput/src/mediaOutput.c:270-297 | a failed connection gives the packet up; a successful one arms the key-frame gate |
| MediaOutput.MediaOutput.SendTaken | bussiness/mediaOutput/src/mediaOutput.c:299-364 | the gate, the send, what a failure resets, and the reference given up |
| OutputPolicy.EnqueueRefinesBoundedFifo | bussiness/mediaOutput/src/mediaOutput.c:640-689 | audio and key frames always get in at the cost of the oldest; only a full video queue refuses, and only non-key frames |
| OutputPolicy.KeyFrameGate | bussiness/mediaOutput/src/mediaOutput.c:277-346 | the first packet sent after a connection or a failed send is a key frame |
| OutputPolicy.NeverSentUnready | bussiness/mediaOutput/src/mediaOutput.c:270-297 | every send is preceded by a successful connection with only successful sends between |
| OutputPolicy.Conservation | bussiness/mediaOutput/src/mediaOutput.c:243-365 | offered = sent + failed + dropped + given up + queued + in flight |
| OutputPolicy.CountersAccountForAllIffNoConnectFailed | bussiness/mediaOutput/src/mediaOutput.c:287-295 | the program's own counters account for every packet exactly when no connection failed |
| OutputPolicy.DrainKeepsQueues | bussiness/mediaOutput/src/mediaOutput.c:199-221 | draining keeps the order of each queue and loses nothing, for any time stamps |
| OutputPolicy.DrainIsSorted | bussiness/mediaOutput/src/mediaOutput.c:212-220 | sorted queues drain in presentation order, video first on ties |
| OutputPolicy.MergeIsUnique | bussiness/mediaOutput/src/mediaOutput.c:187-221 | only one order has these projections and is sorted, so the drain is the merge |
| OutputPolicy.SendsTheMerge | bussiness/mediaOutput/src/mediaOutput.c:243-365 | a ready channel whose sends succeed sends exactly that drain |
| OutputPolicy.WaitingTakesVideo | bussiness/mediaOutput/src/mediaOutput.c:212-213 | a channel that waits for a key frame takes video whenever there is any, whatever the time stamps |
| OutputPolicy.WaitingLosesNoAudio | bussiness/mediaOutput/src/mediaOutput.c:199-346 | it drops the video packets before the first key frame, sends that one first and loses no audio meanwhile |
| OutputPolicy.CountersMatchTheLog | bussiness/mediaOutput/src/mediaOutput.c:270-361 | the counters of sent packets, failed sends and connections are those of what happened |
| OutputPolicy.SentBytesAddUp | bussiness/mediaOutput/src/mediaOutput.c:348-361 | the byte counter is the sum over the successful sends |
| MediaFlow.EveryMoveKeepsTheLaw | bussiness/mediaCore/src/mediaPacket.c:250-279 | in every state of the law each step finds the references it relies on, and the account stays equal to what producers, queues and threads hold |
| MediaFlow.NoneLeaks | bussiness/mediaCore/src/mediaPacket.c:224-232 | when nobody holds a packet, no buffer is in use |
| MediaHub.Hub.StartsValid | bussiness/mediaOutput/src/mediaOutput.c:412-455 | fresh channels and an unused pool satisfy the law |
| MediaHub.Hub.Produce | bussiness/mediaGateway/src/mediaGatewayProcess.c:624-674 | a new packet holds the first reference to a copy of its bytes |
| MediaHub.Hub.Discard | bussiness/mediaCore/src/mediaPacket.c:267-279 | a producer's packet gives up its reference |
| MediaHub.Hub.Offer | bussiness/mediaGateway/src/mediaGatewayProcess.c:655-674 | handing a packet to one channel leaves the others alone and keeps the law |
| MediaHub.Hub.Fetch | bussiness/mediaOutput/src/mediaOutput.c:245-263 | moving a packet to the thread keeps the law |
| MediaHub.Hub.Connect | bussiness/mediaOutput/src/mediaOutput.c:270-297 | a connection attempt keeps the law |
| MediaHub.Hub.Send | bussiness/mediaOutput/src/mediaOutput.c:299-364 | a send keeps the law |
| MediaHub.Hub.QueuedIsLive | bussiness/mediaCore/src/mediaPacket.c:120-149 | a queued packet's buffer is not on the free list and its counter is the number of its holders |
| SlotCounting.Counting | bussiness/audioFrameSource/src/audioFrameSource.c:43-68 | waiting and lent slots add up to all slots exactly when none is left |
| AudioQueue.InOrderAndAccounted | bussiness/audioFrameSource/src/audioFrameSource.c:90-147 | acquired numbers increase, waiting frames are the newest published, published = acquired + overwritten + waiting, and every counted drop is explained |
| AudioQueue.DropCounterIsRightIff | bussiness/audioFrameSource/src/audioFrameSource.c:62-65 | over any run the drop counter is right exactly when no frame too large for a slot meets a full ring with a slot that is not lent |
| AudioQueue.TooLargeIsCounted | bussiness/audioFrameSource/src/audioFrameSource.c:104-112 | a run in which the counter says one and nothing was dropped |
| AudioQueue.FittingFramesNeverFail | bussiness/audioFrameSource/src/audioFrameSource.c:104-112 | frames that fit into a slot are never turned away as too large |
| AudioQueue.LentUntilGivenBack | bussiness/audioFrameSource/src/audioFrameSource.c:269-324 | an acquired frame stays lent, unchanged, until its slot is given back |
| AudioQueue.FailsIffTooLarge | bussiness/audioFrameSource/src/audioFrameSource.c:104-112 | the source fails for good exactly when a frame too large for a slot meets a slot that is not lent |
| AudioFrameSource.AudioFrameSource.FindWriteSlot | bussiness/audioFrameSource/src/audioFrameSource.c:43-68 | a free slot, else the oldest waiting one, else none because all are lent |
| AudioFrameSource.AudioFrameSource.OldestSlot | bussiness/audioFrameSource/src/audioFrameSource.c:71-87 | scanning for the smallest number finds the head of the queue |
| AudioFrameSource.AudioFrameSource.Publish | bussiness/audioFrameSource/src/audioFrameSource.c:90-147 | publishing is the queue's publish, and slots in use are untouched |
| AudioFrameSource.AudioFrameSource.Acquire | bussiness/audioFrameSource/src/audioFrameSource.c:269-315 | acquiring takes the head of the queue into a slot that was not lent |
| AudioFrameSource.AudioFrameSource.Release | bussiness/audioFrameSource/src/audioFrameSource.c:318-324 | the slot is free again; a bad index is ignored |
| LatestFrame.AlwaysTheNewest | bussiness/mediaFrameSource/src/mediaFrameSource.c:406-471 | the waiting frame is the newest unless its slot was released under it, acquired numbers increase, published = acquired + overwritten + waiting, dropped = overwritten + refused |
| LatestFrame.AcquiresTheLastPublishedIff | bussiness/mediaFrameSource/src/mediaFrameSource.c:772-823 | after any run an acquire yields the last published frame, newer than all before, exactly when the waiting slot was not released since the last store |
| LatestFrame.OrderlyReleasesNeverSpoil | bussiness/mediaFrameSource/src/mediaFrameSource.c:927-940 | consumers that release only what they acquired never cause that |
| LatestFrame.LentUntilGivenBack | bussiness/mediaFrameSource/src/mediaFrameSource.c:772-940 | an acquired frame stays lent, unchanged, until its slot is released |
| LatestFrame.PublicationOutcome | bussiness/mediaFrameSource/src/mediaFrameSource.c:406-471 | an unusable frame changes nothing, a fifth slot is refused and counted, and any other frame replaces the waiting one, which counts as dropped |
| FrameCache.FrameCache.FindWriteSlot | bussiness/mediaFrameSource/src/mediaFrameSource.c:299-356 | the first free slot, else the latest one; none only if all are in use, and the last scan never finds one |
| FrameCache.FrameCache.DropStale | bussiness/mediaFrameSource/src/mediaFrameSource.c:367-395 | clears and counts exactly the other waiting slot |
| FrameCache.FrameCache.Publish | bussiness/mediaFrameSource/src/mediaFrameSource.c:406-471 | publishing is the mailbox's publish, and slots in use are untouched |
| FrameCache.FrameCache.TryAcquire | bussiness/mediaFrameSource/src/mediaFrameSource.c:772-823 | acquiring takes the waiting frame, once |
| FrameCache.FrameCache.Release | bussiness/mediaFrameSource/src/mediaFrameSource.c:927-940 | the slot is free again; the slot of the waiting frame loses it and stays the latest; a bad index is ignored |
| CaptureStats.Tracker.RecordCapture | bussiness/mediaFrameSource/src/mediaFrameSourceStats.c:25-57 | one capture, with the gap as unsigned subtraction sees it |
| CaptureStats.ExactIffSmallSteps | bussiness/mediaFrameSource/src/mediaFrameSourceStats.c:25-57 | captured plus lost frames equal the span of the true numbers exactly when every step is below half the number space, across any number of wraps |
| CaptureStats.EveryGapIsCounted | bussiness/mediaFrameSource/src/mediaFrameSourceStats.c:25-57 | as long as the steps are small every capture and every gap is counted once |
| AudioEncoderConfig.NormalizeConfig | bussiness/audioEncoder/src/audioEncoder.cpp:125-216 | the field-by-field code computes the normal form |
| AudioEncoderConfig.AcceptedIff | bussiness/audioEncoder/src/audioEncoder.cpp:125-216 | a configuration is accepted exactly when its codec is one of four and what is given for it is supported |
| AudioEncoderConfig.GivenValuesAreKept | bussiness/audioEncoder/src/audioEncoder.cpp:125-216 | given values are kept and missing ones are filled in with the defaults of the codec |
| AudioEncoderConfig.NormalizeIsIdempotent | bussiness/audioEncoder/src/audioEncoder.cpp:125-216 | normalizing again changes nothing, so a normal form has the key of what it came from |
| AudioEncoderConfig.KeysTellEffectsApart | bussiness/audioEncoder/src/audioEncoder.cpp:78-94 | keys are equal exactly when the effective fields of the normal forms agree |
| AudioEncoderConfig.ReportedParamsKeepTheKey | bussiness/audioEncoder/src/audioEncoderManager.cpp:409-465 | parameters reported through the C interface lead back to the same key |
| AudioEncoderManager.AudioEncoderManager.RegisterGroup | bussiness/audioEncoder/src/audioEncoderManager.cpp:60-158 | list and map change together or not at all, and stay inverse |
| AudioEncoderManager.AudioEncoderManager.GroupAt | bussiness/audioEncoder/src/audioEncoderManager.cpp:217-243 | index i yields the group with id i + 1, its normal form and the key the map finds it by |
| AudioEncoderManager.SameGroupIffSameEffect | bussiness/audioEncoder/src/audioEncoderManager.cpp:60-158 | over any run two registrations got the same group exactly when their configurations have the same effect |
| AudioEncoderManager.RegistersIff | bussiness/audioEncoder/src/audioEncoderManager.cpp:60-158 | a registration succeeds exactly when the configuration is accepted and its group exists or gets all it needs; a new group joins the end, and nothing else changes |
| AudioEncoderManager.ReportedGroupIsFound | bussiness/audioEncoder/src/audioEncoderManager.cpp:409-465 | registering what is reported about group i returns id i + 1 as reused, whatever resources are left |
| AudioEncoderManager.KeysAreDistinct | bussiness/audioEncoder/src/audioEncoderManager.cpp:124-147 | groups have pairwise distinct keys |
| Downsample.ConvertOne | bussiness/audioEncoder/src/audioEncoderManager.cpp:361-378 | one output sample is the mean, rounded toward zero, of its window of the mapped channel |
| Downsample.Convert | bussiness/audioEncoder/src/audioEncoderManager.cpp:336-380 | every access is in bounds and every output sample is that mean |
| Downsample.Adapt | bussiness/audioEncoder/src/audioEncoderManager.cpp:294-380 | an output exactly for inputs that fit, with the same meaning whether or not it was copied |
| Downsample.FitsIff | bussiness/audioEncoder/src/audioEncoderManager.cpp:294-333 | an input fits exactly when its rate is a whole multiple of the encoder's, its samples come in whole groups of that many, and it has the channels |
| Downsample.WhatIsAveraged | bussiness/audioEncoder/src/audioEncoderManager.cpp:361-378 | output sample c of frame s is the mean of the samples from s times the ratio on, of channel c or of the chosen channel for mono |
| Downsample.MeanBounds | bussiness/audioEncoder/src/audioEncoderManager.cpp:372-377 | a mean lies between any bounds of its samples |
| Downsample.MeanIsNearest | bussiness/audioEncoder/src/audioEncoderManager.cpp:372-377 | mean times ratio is the sum up to less than one per sample, on the side of zero |
| Downsample.OutputFits | bussiness/audioEncoder/src/audioEncoderManager.cpp:376-377 | every output sample is a 16-bit value |
| Downsample.RatioOneSelects | bussiness/audioEncoder/src/audioEncoderManager.cpp:361-378 | with equal rates the output is exact channel selection |

## Left out

- ALSA, V4L2, MPP, RKAIQ, RGA and codec library calls, sockets, event descriptors, threads and condition variables: they appear as outcomes or as the order of steps.
- Frame-rate gate and message-queue implementations: only their contracts are used.
- Capability validation, configuration defaults and validation, ISP control, logging, statistics printing, debug shell and main programs: branch-by-branch facts or input and output.
- Encode bitrate and GOP computation of the network policy: the values only travel inside a command.
- The exposure thresholds of the light policy: each evaluation takes an arbitrary scene.
- 32-bit overflow of the talkback's extended numbers.
- The wait loops of the sending thread, the playout worker and the audio consumer: a step that would wait leaves the state unchanged.
- Tearing down an output or a frame source: queues are released there after their threads have ended.
- The audio ring's start and stop flags: only the fatal flag decides what a consumer sees.
- VideoControl.Coordinator.CommitTransition: does not clear the marks of manual bitrate requests, because they only decide for which streams the next refresh wants parameters, which a refresh step chooses freely.
- VideoAgreement.CommitAgreement: excludes three environment faults; VideoFaults.AgreementIffNoFaults shows that none of them can be admitted.
- SwitchSpacing.SwitchesAreSpaced: only the light policy is active, with no manual override, because the other policies may move the target at any refresh.
