# A verified model of the txing control plane

txing runs small robots ("Things") from an office UI, a rig daemon and per-Thing cloud runtimes. This project models, in
Dafny, the parts of it whose mistakes would be expensive, and proves what they are for:

- **The cloud-run controller.** Lambda invocations, runtime samples and orphan checks share one shadow document that
  accepts a write only at the version it was read at. `Activation`, `Controller` and `PassClock` hold the values and
  transitions, `Programs` the writers as small-step programs, `World` their interleaving against an arbitrary cloud,
  `Safety` the invariant, `Evidence` what a pass was told, `Theorems` what follows for every run and `Documents` the
  shadow as an actual document. `Reconcile` and `Handler` are the same writers as imperative methods; a backend object
  carries the small-step program and accepts only the call that program demands, so each method is proved to be that
  program. `Drain` is disabled-mode draining.
- **The shadow document.** `Json` is the merge of section 2 of RFC 7396, `ShadowMerge` the office's merge on JavaScript
  objects with their prototypes, compared with it; `ShadowRecord` is the controller's reader and writer, proved to read
  back what was saved.
- **The agent's control session.** `Session` is the session as a machine of critical sections, callers and callbacks,
  `SessionSafety` its invariant and theorems, `SessionCell` and `SessionHost` the object with its fields and the tick
  loop, proved to be runs of that machine. `BoundedQueue` is the queue class.
- **Wire formats.** `Bits`, `Mavlink`, `MavlinkIds` and `Datagram` are MAVLink 2 framing and its X.25 checksum; `Varint`,
  `Sparkplug` and `SparkplugCodec` are the office's Sparkplug payload codec. `Loops` says when a loop over offsets ends,
  `SparkplugLoops` is the decoder on every input, `SparkplugRig` the rig's encoder in front of it.
- **The rig's BLE daemon.** `BleCommand` is a device session with its command handler, `BleSlots` the connection slots
  shared by all sessions as a machine, `BleConnect` the shared object and the connect procedure over that machine.

Clocks, the network, the radio, the cloud and thread scheduling are inputs: an answer function, a script of what others
do meanwhile, or an event sequence. A theorem that quantifies over them holds for every failure and every interleaving.

Findings, each with its exact condition:

- A frame built by the office and changed in one byte is rejected, except that a change of the message id to one
  without a known checksum seed is passed on unchecked (`MavlinkIds.ChangeIsAcceptedExactly`).
- A Sparkplug integer the office encodes and decodes comes back unchanged exactly when it is below 2^31; larger ones come
  back as their signed 32-bit reduction (`Sparkplug.PayloadSurvivesExactly`). REDCON commands keep below that bound.
- Of the longer varints that rigs and devices send, the digits behind the fifth are or-ed in again from bit 3 on, so a
  value is its 32-bit reduction exactly when they set no new bit (`Varints.ReducedExactly`); 2^35 reads as 8
  (`Varints.WrapsAt35`). Later fields are never disturbed.
- A length field moves the decoder backwards exactly when its 32-bit reduction or its wrapped digits are at least 2^31
  (`Sparkplug.LengthGoesBackExactly`). The decoder never ends exactly when it comes back to an offset it has been at, or
  meets a metric whose own decoding does (`SparkplugLoops.PayloadEndsExactly`); six bytes are enough
  (`SparkplugLoops.DecoderNeverEnds`). Without such lengths it ends within as many turns as there are bytes.
- The signed integers a rig sends are seen unchanged exactly when they are at least -8
  (`SparkplugRig.RigIntSeenExactly`).
- The office's shadow merge is that of RFC 7396 exactly when no level of the update sets a prototype, that is, names
  `__proto__` with a value other than null where the target has no such member of its own (`ShadowMerge.MergesExactly`).
- The bounded queue keeps to both its limits in every history exactly when its count limit is at least one
  (`BoundedQueue.LimitsHoldExactly`).

`dafny verify dfyconfig.toml` checks everything.

## Model

| member | source | states |
|---|---|---|
| Activations.InactivitySource | agent/src/activation.cpp:10-20 | The recorded time of inactivity is the time of one identified call that saw the device inactive, and no inactivity was recorded since |
| Activations.WindowOrigin | agent/src/activation.cpp:21-46 | In every call history an activation was granted by one inactive-to-active edge; its window starts at the last recorded inactivity before that edge, is as long as that call's budget (at most 3000 s), and no later call extended or replaced it |
| Activations.AuthorizedOnlyInWindow | agent/src/activation.cpp:48-51 | An authorized instant lies inside one such window; the device was seen inactive before the edge that granted it |
| Activations.ActivationNeedsInactivity | agent/src/activation.cpp:21-28 | A device only ever seen active has no activation |
| Activations.ReplacementNeedsInactivity | agent/src/activation.cpp:12-22 | While active, an activation is replaced only if a later call took an inactive projection newer, in version and source time, than everything on record, and a still later call with a projection newer than that is the inactive-to-active edge that granted the activation now on record; replayed, stale or continuously active projections never do it |
| Activations.DeactivatedBetween | agent/src/activation.cpp:12-45 | The active flag is lost only through a call that took an inactive projection newer than all before it |
| Activations.RecordGrows | agent/src/activation.cpp:12-20 | Versions and source times on record only grow over every history, and an activation leaves the record only for another one |
| Controller.ControllerCell.ObserveActivation | agent/src/activation.cpp:7-46 | The in-place update is the observation step whose histories the lemmas are about; a throwing call leaves every field unchanged |
| Controller.CheckRelease | agent/src/controller.cpp:6-19 | The index loop decides the release grammar |
| Controller.ReleasesAreThreeNumbers | agent/src/controller.cpp:6-19 | A release is valid exactly when it is three decimal numbers without leading zeros joined by dots |
| Controller.ControllerCell.ReserveRun | agent/src/controller.cpp:20-30 | A reservation is made only with no run on record, an active lifecycle and an authorized activation; invalid identities, releases or requests throw with the record unchanged |
| Controller.ControllerCell.AcceptLaunched | agent/src/controller.cpp:32-50 | All branches of taking a launched VM: foreign VMs change nothing, a lost authorization binds the VM and turns the run to stopping, an empty id throws |
| Controller.ControllerCell.FenceRun | agent/src/controller.cpp:52-56 | The run is turned to stopping exactly when the lifecycle is inactive or its own activation is not authorized |
| Controller.ControllerCell.ConfirmRunStopped | agent/src/controller.cpp:58-63 | Only a stopping run with the named id and VM is cleared |
| PassClock.NeverBelow | agent/src/reconcile.cpp:13-23 | A later reading is never below the clock's projection from an earlier one |
| PassClock.PassClockMonotone | agent/src/reconcile.cpp:11-23 | The pass clock never decreases, is never below the wall time sampled for the reading and never below the pass's start, as long as the steady clock does not run backwards |
| Reconcile.Backend.CurrentTime | agent/src/reconcile.cpp:13-23 | The in-place clock closure is the pass clock, with its anchors |
| Reconcile.ReadLifecycle | agent/src/reconcile.cpp:24-37 | Makes exactly the program's calls while reading registry and lifecycle, and fails where it fails |
| Reconcile.DecideTime | agent/src/reconcile.cpp:38-57 | Times an unverifiable lifecycle as the program does, including the runtime's own vouching |
| Reconcile.ReserveAndSave | agent/src/reconcile.cpp:58-79 | Fences, clears a superseded run, reserves and saves as the program does |
| Reconcile.SaveDraft | agent/src/reconcile.cpp:74-79 | Asks for an identity and a request exactly when a reservation is due, and saves what the program saves |
| Reconcile.TryRecord | agent/src/reconcile.cpp:100-113 | One attempt to record a launched VM, with the conflict reported to the loop |
| Reconcile.RecordLaunch | agent/src/reconcile.cpp:99-115 | The retry loop makes at most three attempts and ends as the program ends |
| Reconcile.LaunchReserved | agent/src/reconcile.cpp:82-115 | Re-times, launches or fences a stored reservation as the program does |
| Reconcile.ClearTerminated | agent/src/reconcile.cpp:119-132 | A run is cleared only after its recorded VM is reported terminated and the shadow still names it |
| Reconcile.StopSuspended | agent/src/reconcile.cpp:133-142 | The run of a suspended or departing host is fenced before the host is stopped |
| Reconcile.FollowHost | agent/src/reconcile.cpp:117-146 | Follows the state of the recorded VM as the program does |
| Reconcile.StorePromotion | agent/src/reconcile.cpp:160-168 | Re-times and stores a promotion, and stops the VM of a run that lost its authorization |
| Reconcile.PromoteRun | agent/src/reconcile.cpp:154-168 | Re-reads the shadow and promotes only the run and observation it confirmed |
| Reconcile.AssignRun | agent/src/reconcile.cpp:147-169 | Confirms registry and projection before promoting |
| Reconcile.ReconcilePass | agent/src/reconcile.cpp:7-171 | One whole pass: for every backend, its calls, their arguments and order, and its result are a run of the interleaved program; an exception ends it exactly where the program fails |
| Handler.SampleThing | agent/src/controller_handler.cpp:95-122 | A runtime sample is the interleaved sample program; without the healthy-path checks it ends before its last write |
| Handler.ActOnSample | agent/src/controller_handler.cpp:102-122 | The second read, and the fence that must be accepted before the VM of a stopped runtime is terminated |
| Handler.SaveThenStop | agent/src/controller_handler.cpp:107-108 | A VM is stopped only after the conditional write was accepted, and the result is the write's |
| Handler.NoteError | agent/src/controller_handler.cpp:123-130 | Diagnostics write the record they read with a new error text only |
| Handler.FenceThing | agent/src/controller_handler.cpp:210-224 | A Thing counts as fenced without a run, with a stopping run of the drained image, or when the stopping record was accepted; a run of another image is left alone |
| Handler.FenceKnown | agent/src/reconcile.cpp:247-258 | A recorded VM of the expected image is fenced before it is stopped; one of another image is left alone |
| Handler.TerminateConfirmedOrphan | agent/src/controller_handler.cpp:131-146 | An orphan candidate is followed up only on the runtime's own authenticated identity |
| Handler.JudgeOrphan | agent/src/controller_handler.cpp:147-165 | Reads the shadow, looks once more for inactivity, and decides; an unreadable projection is not inactivity |
| Handler.CarryOut | agent/src/controller_handler.cpp:164-174 | A candidate the shadow assigns is bound and fenced by an accepted write before it is terminated |
| Safety.SaveOk | agent/src/controller_shadow.cpp:105-155 | A conditional save of any record a writer may hold keeps the world invariant |
| Safety.AdvanceOk | agent/src/reconcile.cpp:7-171 | Every step of every writer, on every answer, keeps that writer's invariant |
| Safety.AllStable | agent/src/reconcile.cpp:7-171 | No writer's step breaks what another writer relies on |
| ProtocolTheorems.ExecSound | agent/src/reconcile.cpp:7-171 | The invariant holds in every world any interleaving reaches |
| ProtocolTheorems.ExecGrows | agent/src/reconcile.cpp:7-171 | What is fixed once (stored cores, bound VMs, dead runs) stays fixed over every continuation |
| ProtocolTheorems.TerminatesOnlyUnassigned | agent/src/reconcile.cpp:79-171 | In every interleaving a terminate is issued only for a VM whose run the shadow does not hold as reserved or running, whether that VM is recorded or not, and that the shadow does not name, then or at any later moment |
| ProtocolTheorems.RevocationIsPermanent | agent/src/microvm.cpp:174-190 | Once a stored run is stopping or gone, no later shadow and no projection gives its runtime a born lifecycle again |
| ProtocolTheorems.RunIdentityIsFixed | agent/src/controller.cpp:20-50 | A run keeps its activation, release and request; its VM id is written at most once; stopping is absorbing |
| ProtocolTheorems.LaunchesAreStored | agent/src/reconcile.cpp:82-99 | Every launch uses, unchanged, a reservation stored by an earlier conditional write, with the run's own activation unexpired at the pass clock; in earlier turns of its own the pass was told the capability is declared and was answered the active projection its record carries |
| ProtocolTheorems.MainSaveRespectsLimits | agent/src/reconcile.cpp:41-79 | The main save stores a live run only if its own activation is unexpired and the lifecycle not inactive; active was answered so in a turn of this pass; unverifiable, the first failure is under 15 s old or the runtime was verified in a turn of this pass |
| ProtocolTheorems.LaunchedVmIsTracked | agent/src/reconcile.cpp:99-115 | The VM of a launch whose pass returned "again" is, in every later world, named by the shadow, passed to terminate, or reported terminated |
| ProtocolTheorems.LaunchEndsNamedOrStopped | agent/src/reconcile.cpp:99-115 | At the moment a pass that launched ends with "again", the VM returned is named by the shadow or has been passed to terminate |
| ProtocolTheorems.ReachableIsReadable | agent/src/controller_shadow.cpp:41-103 | Every shadow state any interleaving reaches is well formed for the reader |
| Documents.ReachableDocumentParses | agent/src/controller_shadow.cpp:41-155 | In every interleaving, any document of the initial record takes the patches of the run's own accepted writes, in their order and whatever the samples report, and the result parses to exactly the record the world holds |
| Evidence.ClaimsWereAnswered | agent/src/reconcile.cpp:24-57 | A pass that takes the lifecycle as active, or the runtime as verified, was answered so in a turn of its own |
| Evidence.PassIsRun | agent/src/reconcile.cpp:7-171 | Whatever interleaves, each pass is the run of its program, from the entry one identified event spawned it with, on the answers it received: the runs the imperative methods are proved to make |
| Drain.LiveIdsExactly | agent/src/reconcile.cpp:173-184 | The collected ids are distinct and exactly the live, unexcluded ones of the inventory |
| Drain.OrphanCandidates | agent/src/reconcile.cpp:173-184 | The candidates are exactly the live hosts no assignment names, each once, in inventory order |
| Drain.DrainInventory | agent/src/reconcile.cpp:216-233 | One terminate attempt per distinct live id visited; complete exactly when everything was listed, identified and terminated |
| Drain.FenceThings | agent/src/reconcile.cpp:234-239 | One fence attempt per listed Thing, whatever fails |
| Drain.DrainDisabled | agent/src/reconcile.cpp:212-241 | Completion is reported exactly when the whole inventory is identified and terminated and every Thing fenced |
| ShadowMerge.MergeShadowUpdate | office/src/shadow-merge.ts:4-31 | The office's loop over the update's members, with JavaScript's reads, writes and deletes of members, computes the function the lemmas are about |
| ShadowMerge.MergesExactly | office/src/shadow-merge.ts:4-31 | For every value and every parsed update the own members of the result are those of the RFC 7396 merge if and only if no level sets a prototype |
| ShadowMerge.PlainProtoIsLost | office/src/shadow-merge.ts:9-27 | A number under `__proto__` is lost where RFC 7396 keeps it |
| ShadowMerge.RecordProtoIsRead | office/src/shadow-merge.ts:9-27 | A record under `__proto__` is no member of the result, yet its members are read through it |
| ShadowMerge.ProtoReachesOtherNames | office/src/shadow-merge.ts:9-27 | A member of another name listed behind it is merged into the prototype's member of that name |
| Json.MergeIdempotent | office/src/shadow-merge.ts:4-31 | Repeating an update, merged as RFC 7396 says, changes nothing |
| Json.MergedMember | office/src/shadow-merge.ts:12-30 | What a merge leaves under each name: nulls gone, named members merged, all others untouched |
| Json.IgnoresNonRecord | office/src/shadow-merge.ts:4-12 | A target that is not an object counts as empty |
| ShadowRecord.StateReadsBack | agent/src/controller_shadow.cpp:62-103 | The merged record reads as the saved state if it is well formed and is unreadable otherwise |
| ShadowRecord.VerifiedReadsBack | agent/src/controller_shadow.cpp:105-155 | The verification time is the saved one for a live run and otherwise keeps the stored value |
| ShadowRecord.StopTimeReadsBack | agent/src/controller_shadow.cpp:105-155 | The first stop time and the start of unverifiability read back as written |
| ShadowRecord.ReportedReadsBack | agent/src/controller_shadow.cpp:41-155 | The merged reported object reads as the stored record |
| ShadowRecord.SaveReadsBack | agent/src/controller_shadow.cpp:41-155 | Saving a snapshot over any readable document of its version and reading it back yields the stored record, or an unreadable document exactly when the snapshot is not well formed |
| ShadowRecord.SampleLeavesRecord | agent/src/runtime_sample.cpp:145-153 | After a runtime sample of any content is written, the record reads as before, one version on |
| BoundedQueue.Queue.Push | agent/include/agent/core.hpp:46-53 | Evicts from the front until the entry fits, refuses entries that never fit and closed queues |
| BoundedQueue.Queue.Pop | agent/include/agent/core.hpp:54-60 | Removes and returns the oldest entry and its bytes |
| BoundedQueue.Queue.Close | agent/include/agent/core.hpp:61 | Closes and changes nothing else |
| BoundedQueue.QueueConserves | agent/include/agent/core.hpp:43-70 | In every history the accepted entries are the popped, the evicted and the queued ones; the byte counter is the sum of the queued sizes |
| BoundedQueue.EvictionIsMinimal | agent/include/agent/core.hpp:46-53 | No entry is evicted that could have stayed |
| BoundedQueue.PopsAreFifo | agent/include/agent/core.hpp:43-70 | Entries leave in the order they were accepted, and the queue holds the newest accepted ones |
| BoundedQueue.WithinLimits | agent/include/agent/core.hpp:43-70 | With a count limit of at least one, both limits hold in every history |
| BoundedQueue.LimitsHoldExactly | agent/include/agent/core.hpp:43-70 | Both limits hold in every history if and only if the count limit is at least one |
| SessionCell.UpdateLink | agent/src/core.cpp:175-250 | One link's connect, back-off and retire steps, for either link |
| SessionCell.Cell.DoLose | agent/src/core.cpp:110-122 | Losing authority clears the grant, the pending request and the session, and hands back a lease when asked to |
| SessionCell.Cell.DoRequest | agent/src/core.cpp:102-109 | A request takes the next id; if it cannot be sent, authority is lost |
| SessionCell.Cell.DoRespond | agent/src/core.cpp:124-173 | All branches of a control reply |
| SessionCell.Cell.DoRunCommand | agent/src/core.cpp:268-285 | All branches of a queued command |
| SessionCell.Cell.DoCheckLease | agent/src/core.cpp:264-265 | An expired confirmation, client or request ends authority |
| SessionCell.Cell.DoRenew | agent/src/core.cpp:286 | A renewal is requested only when due and none is outstanding |
| SessionCell.Cell.DoShutdown | agent/src/core.cpp:290-299 | Shutdown gives up authority and both transports |
| SessionHost.Host.LoadFrame | agent/src/core.cpp:79-82 | The first half of send: the current generation is loaded |
| SessionHost.Host.EnqueueFrame | agent/src/core.cpp:70-84 | The second half: the frame is queued under the generation loaded before, if there is room |
| SessionHost.Host.DeliverText | agent/src/core.cpp:216-229 | A transport callback queues a reply at any moment |
| SessionHost.Host.ProcessReplies | agent/src/core.cpp:262-263 | Replies are handled one by one while others arrive |
| SessionHost.Host.RunCommands | agent/src/core.cpp:266-285 | The swapped-out commands run in order while callers queue more |
| SessionHost.Host.Tick | agent/src/core.cpp:252-288 | One tick, whatever other threads do meanwhile, is a run of the interleaving machine between two idle moments; it returns false only with the session stopped |
| SessionHost.Host.ShutDown | agent/src/core.cpp:290-299 | Shutdown between ticks is the machine's stop |
| SessionSafety.AuthorityInvariant | agent/src/core.cpp:92-173 | In every reachable state: held exactly when the authorized generation is nonzero, a pending activate implies not held and a pending renew implies held, the last reported control state is the held one |
| SessionSafety.ExecLater | agent/src/core.cpp:164-172 | Generations and request numbers only grow over every run, and a lost generation is not authorized again |
| SessionSafety.GrantIsUnbroken | agent/src/core.cpp:110-122 | A generation authorized at two moments was authorized at every moment between them: generations never repeat |
| SessionSafety.FramesHaveOrigins | agent/src/core.cpp:79-84 | Every queued frame was loaded by a caller under the generation it carries |
| SessionSafety.RequestIdsAreUsed | agent/src/core.cpp:102-122 | Every request ever handed over carries a number at most the current one |
| SessionSafety.StepQuiet | agent/src/core.cpp:102-122 | A step hands over at most one frame or request; whatever follows it is a release |
| SessionSafety.FrameUnderOneGrant | agent/src/core.cpp:252-287 | A frame handed to the transport was queued under the very grant still held, unbroken since; lease confirmation and client activity are under 5 s old and a REDCON 1 or 2 lifecycle was verified under 15 s ago |
| SessionSafety.GainNeedsReply | agent/src/core.cpp:124-173 | Authority is gained only by a reply that carries the outstanding activate request's id and names a valid owner |
| SessionSafety.OneRequestAtATime | agent/src/core.cpp:102-109 | A request goes out only when none is outstanding, under an id no earlier request carried, and is then the one outstanding; stated for every output of a step |
| SessionSafety.StoppedIsSilent | agent/src/core.cpp:290-299 | A stopped session stays stopped, without authority, and hands nothing more to its transport |
| Bits.StepInjectiveInCrc | office/src/mavlink-wire.ts:23-27 | One checksum step keeps different running values different |
| Bits.StepInjectiveInByte | office/src/mavlink-wire.ts:23-27 | One checksum step keeps different bytes different |
| Mavlink.MavlinkCrc | office/src/mavlink-wire.ts:29-35 | The loop computes the fold of the step over the bytes and the seed |
| Mavlink.FoldInjective | office/src/mavlink-wire.ts:29-35 | Different running values stay different over every common suffix |
| Mavlink.CrcDetectsByte | office/src/mavlink-wire.ts:29-35 | The checksum detects every change of a single byte |
| Mavlink.FillHeader | office/src/mavlink-wire.ts:109-119 | The header bytes written into the buffer |
| Mavlink.BuildMavlinkFrame | office/src/mavlink-wire.ts:83-126 | The builder refuses exactly the arguments that are not buildable and otherwise fills a buffer with the frame |
| Mavlink.ParseRoundTrip | office/src/mavlink-wire.ts:43-126 | A built frame parses back to its sequence, ids, message id and payload |
| Mavlink.SingleByteChangeIsRejected | office/src/mavlink-wire.ts:43-81 | Any change of one byte outside the message-id bytes is rejected |
| Mavlink.UnknownIdIsAccepted | office/src/mavlink-wire.ts:54-67 | A change to an id without a known seed is taken as a frame of that id |
| MavlinkIds.DifferenceRuns | office/src/mavlink-wire.ts:23-35 | The effect of a change on the checksum depends on the number of bytes behind it alone, not on their values |
| MavlinkIds.KnownIdsStayApart | office/src/mavlink-wire.ts:15-21 | For no payload length does changing one known id into another cancel the change of seed |
| MavlinkIds.ChangeIsAcceptedExactly | office/src/mavlink-wire.ts:43-81 | A built frame with one byte changed is accepted if and only if the change gives it an unknown message id |
| Datagram.FrameLength | agent/src/manual.cpp:33-47 | The length test of the loop finds the first frame of the rest |
| Datagram.Frames | agent/src/manual.cpp:30-54 | The splitter's loop accepts and emits what the split of the datagram is |
| Datagram.SplitsConcatenation | agent/src/manual.cpp:30-54 | Concatenated frames are split at their seams; MAVLink 1 heartbeats are dropped, all others kept in order |
| Datagram.SplitCovers | agent/src/manual.cpp:30-54 | Every accepted datagram is covered exactly by frames, and the output is its MAVLink 2 frames |
| Datagram.AcceptedExactly | agent/src/manual.cpp:30-54 | A datagram is accepted if and only if it is the concatenation of 1 to 32 frames |
| Datagram.FramesRoundTrip | agent/src/manual.cpp:30-54 | The concatenation of up to 32 valid MAVLink 2 frames splits into exactly those frames, in order |
| Datagram.EmitsOnlyValid | agent/src/core.cpp:18-22 | Every emitted frame passes the header test |
| Datagram.BuiltFramesAreForwarded | agent/src/core.cpp:18-22 | Every frame the office builds passes the agent's header test |
| Varints.ReadVarintLoop | office/src/sparkplug-protocol.ts:169-189 | The reader's loop with its 32-bit shifts computes the digit-by-digit reading, and fails where it fails |
| Varints.ReadsVarint | office/src/sparkplug-protocol.ts:169-189 | Every varint in any buffer: up to ten bytes it is read as the number cut to 32 bits with the digits behind the fifth or-ed in again from bit 3 on, and the reader stops right behind it; a longer one is refused |
| Varints.ReadsOnlyVarints | office/src/sparkplug-protocol.ts:169-189 | A read succeeds if and only if a varint of at most ten bytes stands there |
| Varints.NothingWraps | office/src/sparkplug-protocol.ts:169-189 | Below 2^35 a number is read as its signed 32-bit reduction |
| Varints.ReducedExactly | office/src/sparkplug-protocol.ts:169-189 | A number is read as its signed 32-bit reduction if and only if its wrapped digits set no bit its low digits leave clear |
| Varints.WrapsAt35 | office/src/sparkplug-protocol.ts:169-189 | 2^35 reduces to 0 and is read as 8 |
| Varints.ReadsEncoded | office/src/sparkplug-protocol.ts:53-189 | What the office's own encoder writes is read as the signed 32-bit reduction |
| Varints.SurvivesExactly | office/src/sparkplug-protocol.ts:53-189 | An integer that is encoded and read back comes back unchanged if and only if it is below 2^31 |
| SparkplugCodec.Sink.AppendVarint | office/src/sparkplug-protocol.ts:53-69 | The encoder's loop appends the base-128 digits of the 32-bit pattern; negative values throw |
| SparkplugCodec.Sink.AppendBytesField | office/src/sparkplug-protocol.ts:75-81 | Key, length and bytes are appended |
| SparkplugCodec.Sink.AppendVarintField | office/src/sparkplug-protocol.ts:87-90 | Key and varint are appended; negative values throw |
| SparkplugCodec.Sink.AppendValue | office/src/sparkplug-protocol.ts:117-140 | The first value present is the one written |
| SparkplugCodec.EncodeSparkplugMetric | office/src/sparkplug-protocol.ts:110-143 | The encoder produces the metric's encoding or throws |
| SparkplugCodec.EncodeSparkplugPayload | office/src/sparkplug-protocol.ts:145-167 | The encoder produces the payload's encoding or throws |
| SparkplugCodec.DecodeSparkplugMetric | office/src/sparkplug-protocol.ts:246-346 | The decoder's loop, with every field, every skipped one and every move of the offset, forward or back: it returns, throws or never ends as the outcome function says |
| SparkplugCodec.DecodeSparkplugPayload | office/src/sparkplug-protocol.ts:348-386 | The same for the loop over a payload |
| Sparkplug.MetricRoundTrip | office/src/sparkplug-protocol.ts:110-346 | A decoded encoding is the metric with its integers reduced to 32 signed bits |
| Sparkplug.PayloadRoundTrip | office/src/sparkplug-protocol.ts:145-386 | Decoding an encoded payload returns the same metrics in order, sequence number and timestamp, integers reduced; no field disturbs a later one |
| Sparkplug.MetricSurvivesExactly | office/src/sparkplug-protocol.ts:110-346 | A metric that is encoded and decoded comes back unchanged if and only if its integers are below 2^31 and it carries one value |
| Sparkplug.PayloadSurvivesExactly | office/src/sparkplug-protocol.ts:145-386 | A payload that is encoded and decoded comes back unchanged if and only if its integers are below 2^31 and no metric carries two values |
| Sparkplug.TimestampTurnsNegative | office/src/sparkplug-protocol.ts:145-386 | A timestamp of 2^31 comes back as -2^31 |
| Sparkplug.PayloadTakesVarint | office/src/sparkplug-protocol.ts:348-386 | A number of any encoder, up to ten bytes long, changes its own field and nothing behind it |
| Sparkplug.MetricTakesVarint | office/src/sparkplug-protocol.ts:246-346 | The same for the number fields of a metric |
| Sparkplug.NegativeExactly | office/src/sparkplug-protocol.ts:169-189 | A varint of any length reads as a negative number if and only if its 32-bit reduction or its wrapped digits are at least 2^31 |
| Sparkplug.LengthGoesBackExactly | office/src/sparkplug-protocol.ts:191-204 | A length field of up to ten bytes moves the decoder backwards if and only if the 32-bit reduction of its number or the digits wrapped into it are at least 2^31 |
| Loops.EndlessExactly | office/src/sparkplug-protocol.ts:246-386 | A loop whose next offset depends on the offset alone never ends if and only if it comes back to an offset, or a turn of it does not finish |
| SparkplugLoops.MetricEndsExactly | office/src/sparkplug-protocol.ts:246-346 | On every input, the metric decoder never ends if and only if it comes back to an offset |
| SparkplugLoops.PayloadEndsExactly | office/src/sparkplug-protocol.ts:348-386 | On every input, the payload decoder never ends if and only if it comes back to an offset or meets a metric whose decoding never ends |
| SparkplugLoops.MetricEndsForward | office/src/sparkplug-protocol.ts:246-346 | Meeting no length that reads as a negative number, the metric decoder ends within as many turns as there are bytes |
| SparkplugLoops.PayloadEndsForward | office/src/sparkplug-protocol.ts:348-386 | The same for the payload decoder, when every metric it meets ends |
| SparkplugLoops.MetricDecodes | office/src/sparkplug-protocol.ts:246-346 | Wherever no negative length is met, the decoder on integer offsets returns what the forward reading says and throws where it does |
| SparkplugLoops.PayloadDecodes | office/src/sparkplug-protocol.ts:348-386 | The same for payloads: the round trips are about the decoder itself |
| SparkplugLoops.DecoderNeverEnds | office/src/sparkplug-protocol.ts:348-386 | Six bytes on which the decoder never ends |
| SparkplugRig.RigPayloadIsSeen | rig/internal/sparkplug/sparkplug.go:91-134 | The office decodes every payload a rig encodes: its metrics in order, each with its name, kind and value, every number as its 64-bit varint is read |
| SparkplugRig.NegativeSeen | rig/internal/sparkplug/sparkplug.go:107-134 | A negative integer of a rig is seen as its remainder by 8, less 8 |
| SparkplugRig.RigIntSeenExactly | rig/internal/sparkplug/sparkplug.go:107-134 | A signed integer of a rig is seen unchanged if and only if it is at least -8 |
| SparkplugCodec.RedconCommandSurvives | office/src/sparkplug-protocol.ts:411-436 | A REDCON command's level and its sequence number reach the decoder unchanged, whatever the clock |
| BleCommands.Normalize | rig/internal/protocol/protocol.go:573-582 | Exactly the levels 1 to 4 are supported, they become 3 or 4, and only idle becomes idle |
| BleCommands.DeviceSession.RefreshConnectedState | rig/cmd/txing-ble-connectivity/session.go:516-569 | Success with a connection means one state read was made and stored; without one, nothing was read; a lost connection gives an error that is not retried |
| BleCommands.DeviceSession.Connect | rig/cmd/txing-ble-connectivity/session.go:477-510 | Success means a connection is held; every error and every deferral leaves none |
| BleCommands.DeviceSession.ConnectForCommand | rig/cmd/txing-ble-connectivity/session.go:388-414 | However often it retries, it publishes and writes nothing; success means a connection is held |
| BleCommands.DeviceSession.ConfirmCommandState | rig/cmd/txing-ble-connectivity/session.go:334-386 | Success means the last thing done was a state read that returned the target, on the connection of the write |
| BleCommands.DeviceSession.WriteCommand | rig/cmd/txing-ble-connectivity/session.go:275-316 | At most two writes, all of the normalized level; success means the last thing done was a successful write |
| BleCommands.DeviceSession.ConcludeCommand | rig/cmd/txing-ble-connectivity/session.go:317-332 | Exactly one final result; success only on a confirmed write, with the guard set and the back-off reset |
| BleCommands.DeviceSession.HandleCommand | rig/cmd/txing-ble-connectivity/session.go:250-332 | Exactly one terminal result for every command; accepted comes first once the initial checks pass; at most two writes; success only if a state read after the last write returned the normalized target |
| BleCommands.DeviceSession.Background | rig/cmd/txing-ble-connectivity/session.go:135-150 | The other turns of the session loop publish no result and write nothing |
| BleCommands.DeviceSession.Run | rig/cmd/txing-ble-connectivity/session.go:105-153 | Over a whole session: one terminal result per command, at most two writes per command, every opened connection closed exactly once |
| BleCommands.DeviceSession.RunWithoutRadio | rig/cmd/txing-ble-connectivity/session.go:111-122 | Without radio access every command gets exactly one failure and nothing is opened or written |
| BleSlots.SlotIsThereToReturn | rig/cmd/txing-ble-connectivity/main.go:621-631 | A slot holder always finds a token to take back: returning a slot never blocks |
| BleSlots.ReleaseIsOwn | rig/cmd/txing-ble-connectivity/main.go:596-610 | A release finds its own entry and removes that one entry |
| BleSlots.InvariantHolds | rig/cmd/txing-ble-connectivity/session.go:878-914 | Slot books and device table are in order in every state any interleaving reaches |
| BleSlots.SlotsAreConserved | rig/cmd/txing-ble-connectivity/session.go:878-930 | Tokens in use are the connects past the slot plus the live connections, never above the maximum; every slot is taken and returned at most once, by its holder |
| BleSlots.QuietDaemonHoldsNothing | rig/cmd/txing-ble-connectivity/session.go:1021-1029 | With no connect in progress and no live connection, every slot is back and the device table is empty |
| BleSlots.OneConnectPerDevice | rig/cmd/txing-ble-connectivity/main.go:577-619 | At most one connect per device is past the table |
| BleSlots.WaitersAreNotStranded | rig/cmd/txing-ble-connectivity/main.go:577-619 | A waiter's channel is closed already or will be closed by a call that still owns the device |
| BleConnects.Runtime.LookUpDevice | rig/cmd/txing-ble-connectivity/main.go:578-595 | The locked section that takes the device's entry or finds whom to wait for |
| BleConnects.Runtime.Leave | rig/cmd/txing-ble-connectivity/main.go:596-610 | The deferred release |
| BleConnects.Runtime.CloseConnection | rig/cmd/txing-ble-connectivity/session.go:1021-1029 | The first disconnect returns the slot, every later one does nothing |
| BleConnects.Runtime.AcquireDevice | rig/cmd/txing-ble-connectivity/main.go:577-619 | The wait loop ends owning the device's entry or not at all, having taken no slot |
| BleConnects.Runtime.AcquireSlot | rig/cmd/txing-ble-connectivity/session.go:916-930 | A slot is taken, or the call leaves without one; a deferral happens only without waiting and with all slots out, a failure only while waiting for a slot when the context ends, even with one free |
| BleConnects.Runtime.Dial | rig/cmd/txing-ble-connectivity/session.go:890-913 | A failure of the address, the preparation, the connection or the discovery gives the slot back exactly once; success of all four leaves it with the connection |
| BleConnects.Runtime.ConnectBLE | rig/cmd/txing-ble-connectivity/session.go:878-914 | On every path and under every interleaving the call ends owning no device entry, and its slot is with the live connection it returned or has been given back exactly once |

## Left out

- LaunchedVmIsTracked: over later worlds a third outcome, the cloud has reported the VM terminated, stands beside the two of LaunchEndsNamedOrStopped, because the run of a terminated VM is cleared.
- TerminatesOnlyUnassigned: disabled-mode inventory draining is not among its writers, since it terminates before it fences; the fence of a Thing and the draining of known assignments are.
- SampleThing: the checks guarding a healthy report are one choice of the environment; SampleLeavesRecord covers what the report writes.
- FenceThing: whether the saved launch request names the drained image is an input, here and in FenceKnown; requests are opaque texts.
- TerminateConfirmedOrphan: a Thing or shadow that was deleted is not modelled; nobody deletes the shadow in this world.
- ConnectForCommand: the number of retries the command deadline leaves time for is an input, so that the loop ends.
- ConnectBLE: scan pauses and freshness holds are not modelled.
- Run: a full command queue, whose commands fail without reaching the session, is not modelled.
- RefreshConnectedState: measurements and published samples are not modelled.
- DecodeSparkplugPayload: an endless run is an outcome of the method, here and in DecodeSparkplugMetric, which stops after as many turns as there are offsets.
- The cloud is assumed to give fresh identities, one VM per launch token and distinct VMs for distinct tokens, and a runtime to report the run id it was launched with.
- Projection versions are unbounded integers below the patch's 64-bit limit; wrap-around of the unsigned version counter is not modelled.
- JavaScript numbers that are not integers, UTF-8 decoding and floating-point bit patterns: texts and floats are opaque bytes.
- JSON text, UUIDs, ARNs and endpoint syntax: documents are trees and identities are opaque strings.
- The error and reason texts of control events and command results.
- Session video and telemetry observations beyond their links, the observer threads, and exceptions of transport factories.
- ExecutionDeadline and the runtime's own attachment phases; the lease session in TypeScript, a twin of the modelled one.
- AWS, BlueZ, WebRTC and socket code, the React panels, release tooling and logging.
