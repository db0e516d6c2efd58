# WinTap: a Dafny model of the driver, the bus manager and the switch

This project models the stateful core of WinTapNetAdapterCx, a virtual network
adapter for Windows with a user-mode switch, and proves what its specification
promises about it. `dafny verify dfyconfig.toml` covers the whole project.

The model has five parts.

**The adaptive wait** (`WaitRecord`, `WaitModel`, `WaitOwnership`, `WaitWakeup`,
`WaitRefusal`, `WaitStranding`, `WaitOwners`, `WaitReply`, `WaitAnswers`,
`WaitGrounds`, `WaitStale`, `WaitStop`).
One cancelable WAIT_FOR_CHANGE request is shared by the control dispatch that
registers it, packet callbacks, passive workers, teardown paths and the WDF
cancellation callback. They meet only in a packed 64-bit word, a request slot and
a hand-off byte. `WaitModel` is a transition system with one step for every atomic
operation, queue operation and WDF request call, and any number of producers,
workers and teardown paths. The theorems hold in every state of every run:
`WaitOwnership` says who completes a request, `WaitWakeup` and `WaitRefusal` that a
readiness change is not lost and exactly when it is, `WaitOwners` whose wait is
published, `WaitReply` that the switch accepts every reply, and `WaitGrounds` and
`WaitStale` what an answer means: which bits it holds, and when one of them can be stale.
`WaitStop` is about stopping one request.

**Leases and owner hand-over** (`LeaseWord`, `OwnerModel`, `OwnerHandover`,
`OwnerScope`, `OwnerQueues`, `OwnerOverlap`, `OwnerFrames`, `OwnerProgress`). Power, hardware and owner scopes close
the datapath with bits that share a word with the lease count. The system interleaves
one PnP thread, any number of file cleanups and leased callbacks, and one inline writer.

**Packets and frames** (`FrameQueue`, `Ring`, `Descriptors`, `TxCapture`, `RxInject`,
`RxNotify`). The circular frame queue and the transmit and receive callbacks are
methods with loops over arrays; ring arithmetic is pure; receive notification is a
transition system. Both callbacks work on the real frame queue.

**The switch** (`SwitchCore`, `BufferPool`, `CompletionId`, `SwitchRuntime`,
`SwitchRun`, `SwitchSession`). The learning table is proved against the history of
frames, the buffer slots against the history of their uses, and the I/O-ring runtime
keeps its active table, slot pool and the ring's operations in agreement through retries and shutdown,
over a whole life from start to the drop of the runtime.

**The bus manager** (`HardwareId`, `HardwareForms`, `BusChildren`, `BusList`, `BusEnumerate`). The
child list is a heap list proved against the list as a value, whose invariants hold
for every order of manager requests and PnP callbacks.

`Runs` holds induction along runs and `Wrappers` the option and result types.

## Where the code does less than its documentation says

- **A wait can miss a wakeup across an overlapping file cleanup.** File cleanup clears
  the adaptive flag after it has cancelled the wait, and a claim that finds the flag off
  returns at its gate. `WaitRefusal.ReadStaysOwedIff` and
  `WaitRefusal.WriteStaysOwedIff` show that an owed wakeup is dropped exactly when the
  last claim owed is turned away there, and `WaitRefusal.StrandedOnlyByRefusal` that
  nothing else strands a ready wait. `WaitStranding.WakeupLostAcrossCleanup` is a run in
  which it happens: the device is suspended, the file is closed, and its cleanup is past
  cancelling the wait and clearing the queues when D0 entry reopens them and publishes
  OPEN, the state of `OwnerOverlap.EntryOpensBeforeCleanupDisarms`. The request
  dispatched there is a WAIT_FOR_CHANGE of the closed file itself: the file handle is
  gone, but the request was issued on it before, and the dispatch never asks whether a
  request's file is still open. It registers, the cleanup then switches the mode off, and the
  next frame's claim is refused. The wait left published belongs to an owner that is
  gone; `WaitOwners.PublishedWaitIsCurrentIff` says exactly when that is so.
- **An answer can be stale.** The switch is to learn from an answer that a condition held
  while it waited. `WaitGrounds.AnswerIsGrounded` shows that each bit held in some state
  since the wait was published, or that a callback in flight at the publication carried it
  across: it had changed its queue before and claims only afterwards.
  `WaitStale.AnswerCanBeStale` is a run of the second kind, and `WaitStale.MisleadsIff`
  shows that it can happen exactly when such a callback has a bit to bring which does not
  hold at the publication. The switch then looks in vain and waits again.
- **A receive notification can come without a frame.** A writer that queued its frame
  before the notification was enabled may swap the flag only afterwards.
  `RxNotify.NoticeHasReason` shows that every notification has a frame queued in its own
  cycle or such a writer, and `RxNotify.NoticeWithoutFrame` a run with the writer alone.
- **Two file cleanups can overlap.** `control_open` is cleared before a cleanup has
  resumed the owner scope, so a second file can be opened and closed meanwhile; both
  cleanups then share the one owner closer. Two properties fail, each by exactly one
  kind of step. The owner scope's quiescence breaks exactly when a cleanup resumes the
  scope while another has it closed (`OwnerScope.ScopeKeptIff`; the run
  `OwnerOverlap.OverlappingCleanupClearsUnderCallback`). OPEN stops meaning that the
  queues are open exactly when a cleanup clears a queue that is in service
  (`OwnerQueues.OpenLaneIff`; the run
  `OwnerOverlap.OverlappingCleanupLeavesQueuesClosed`). Opening the next file during a
  cleanup is harmless as long as it is not closed before that cleanup ends
  (`OwnerScope.SpacedRunsAreOrderly`). The isolation of frames between owners
  (`OwnerHandover.FramesBelongToOwner`) holds without any condition.
- **A ring may pass the validity test and still not be cyclic.** The test compares the
  mask with the count less one. `Ring.IncrementIsCyclicIffPower` shows that increment
  visits every element exactly when the count is a power of two.
- **A transmit packet can block its ring.** A packet whose fragment index lies outside
  the fragment ring is marked ignored but not retired, so the callback stops there
  each time. `TxCapture.CaptureOne` states exactly which packets block it.
- **A cursor cannot pass 2^32 children.** It saturates, so enumeration with small
  buffers would then repeat for ever. `BusEnumerate.EnumerationIsCompleteIff` shows that
  it is complete for all legal buffers exactly up to 2^32 children.
- **A generation change alone claims nothing.** The registration's recheck calls the
  claim with the ready bits; when only the queue generations moved these are empty and
  the claim returns at once. No wakeup is lost by it.

## Assumptions

- Atomic operations interleave sequentially consistently.
- The framework serialises the control queue, and the callbacks of the receive queue.
- WDF keeps its contract for marking and unmarking requests, and calls prepare, D0
  entry, D0 exit and release in that order. Files are opened after the first D0 entry.
- A request issued on a file may be dispatched after the file's cleanup has begun.
- A failed mark runs no callback; unmark reports cancelled exactly when the callback
  was dispatched.
- Fewer than 2^48 sequence bumps fall between a load and its compare-exchange;
  `WaitRecord.SameWordIff` says exactly what happens beyond that.
- NetAdapterCx hands out power-of-two rings with begin and end inside them, and
  fragment buffers of at least the capacity they claim, and does not change descriptors
  during a callback.
- The I/O ring completes only what was submitted to it, each operation once, and a
  failed submission submits nothing.

## Model

| member | source | states |
|---|---|---|
| WaitRecord.WordRoundTrip | crates/wintap-netadaptercx-driver/src/lib.rs:442-458 | every field of the packed word reads back unchanged, the sequence modulo 2^48 |
| WaitRecord.SameWordIff | crates/wintap-netadaptercx-driver/src/lib.rs:442-458 | two records share a word exactly when phase and mask agree and the sequences agree modulo 2^48 |
| WaitRecord.SequenceWrapAliases | crates/wintap-netadaptercx-driver/src/lib.rs:454-458 | 2^48 bumps later the same word returns |
| WaitRecord.RecordRoundTrip | crates/wintap-netadaptercx-driver/src/lib.rs:442-458 | phase and mask always read back; the sequence does exactly below 2^48 |
| WaitOwnership.RunKeepsInv | crates/wintap-netadaptercx-driver/src/lib.rs:3147-3322 | the ownership invariant holds in every state of every interleaving |
| WaitOwnership.ContractNeverBroken | crates/wintap-netadaptercx-driver/src/lib.rs:3937-4120 | no request is completed twice, completed while cancelable or touched after completion, and no defensive branch runs |
| WaitOwnership.EveryRequestIsOwed | crates/wintap-netadaptercx-driver/src/lib.rs:3147-3322 | every live request has one agent that owes its completion, or is the published wait that exactly one agent can still win |
| WaitOwnership.QuietMeansFreeOrPublished | crates/wintap-netadaptercx-driver/src/lib.rs:3207-3224 | with no agent in flight the record is free and empty or holds one marked published request |
| WaitOwnership.RepliesStayInInterest | crates/wintap-netadaptercx-driver/src/lib.rs:4122-4161 | every successful reply carries a non-empty mask within the request's own interest |
| WaitReply.AcceptsIff | crates/wintap-switch/src/main.rs:1851-1863 | the switch accepts a reply of the driver's size exactly when its word is not zero and within the interest word sent |
| WaitReply.RepliesPassValidation | crates/wintap-switch/src/main.rs:1851-1863 | every successful reply of every run passes the switch's validation of size, emptiness and interest |
| WaitGrounds.AnswerGoesBack | crates/wintap-netadaptercx-driver/src/lib.rs:3207-3296 | every answer of a run goes back to the publication of its own request |
| WaitGrounds.AnswerIsGrounded | crates/wintap-netadaptercx-driver/src/lib.rs:4165-4208 | every bit of an answer was asked for, and held in some state since the wait was published or was carried across the publication by a callback in flight |
| WaitGrounds.AnswerOnceHeld | crates/wintap-netadaptercx-driver/src/lib.rs:4165-4208 | every bit of an answer held in some earlier state of the run |
| WaitGrounds.ClaimedIsAnswered | crates/wintap-netadaptercx-driver/src/lib.rs:3883-3933 | a bit that a claim recorded for a wait is in its answer, whatever happens between |
| WaitGrounds.SeenIsAnswered | crates/wintap-netadaptercx-driver/src/lib.rs:4193-4208 | a bit of interest that the worker finds ready after taking the wait is in the answer |
| WaitGrounds.ScheduledWaitIsAnswered | crates/wintap-netadaptercx-driver/src/lib.rs:4165-4185 | a wait taken while the device serves it and not cancelled before the unmark is answered and not failed, exactly if its completion finds the output buffer |
| WaitStale.MisleadsIff | crates/wintap-netadaptercx-driver/src/lib.rs:3276-3296 | some continuation answers a published wait with a bit that never held since, exactly when a callback in flight can bring a bit that does not hold at the publication |
| WaitStale.StaleBitIsAnswered | crates/wintap-netadaptercx-driver/src/lib.rs:3883-3933 | from any such publication, a continuation that answers the bit and never makes it hold |
| WaitStale.AnswerCanBeStale | crates/wintap-netadaptercx-driver/src/lib.rs:3883-3933 | a run in which a wait published on an empty capture queue can be answered as readable with no frame queued from there on |
| WaitStop.StopEndsWait | crates/wintap-netadaptercx-driver/src/lib.rs:3455-3485 | from the step on with which a stop of a request is through, that request is not offered to any claim or teardown until it is dispatched again |
| WaitStop.StopSparesOthers | crates/wintap-netadaptercx-driver/src/lib.rs:4023-4068 | a stop changes the wait record only while its own request is in the slot |
| WaitOwnership.SequenceRises | crates/wintap-netadaptercx-driver/src/lib.rs:460-511 | the sequence never falls along a run |
| WaitOwnership.RenewalRaisesSequence | crates/wintap-netadaptercx-driver/src/lib.rs:460-511 | beginning or retiring a registration raises it strictly |
| WaitOwnership.StaleClaimFails | crates/wintap-netadaptercx-driver/src/lib.rs:3883-3933 | a claimer that loaded its word before a retirement changes nothing of a later registration |
| WaitWakeup.RunStaysAwake | crates/wintap-netadaptercx-driver/src/lib.rs:3276-3296 | the wakeup invariant holds in every state of every interleaving |
| WaitWakeup.NoLostWakeup | crates/wintap-netadaptercx-driver/src/lib.rs:3699-3755 | while a published wait's condition holds, some agent in flight still owes it a claim, a requeue that undoes the condition, or a teardown; or a claim for that very condition was turned away at the mode gate |
| WaitWakeup.QuietWaitIsNotReady | crates/wintap-netadaptercx-driver/src/lib.rs:3808-3842 | with nothing in flight, whatever a pending wait asked for that holds was turned away at the mode gate, and a scheduled wait has its worker queued |
| WaitWakeup.TeardownLeavesNoWait | crates/wintap-netadaptercx-driver/src/lib.rs:4015-4068 | when no teardown is in flight a published wait has its lifecycle open and its directions started |
| WaitRefusal.ReadStaysOwedIff | crates/wintap-netadaptercx-driver/src/lib.rs:3883-3901 | over any step a readable wait that is owed a claim stays owed one, except exactly when the step turns the last owed claim away at the mode gate |
| WaitRefusal.WriteStaysOwedIff | crates/wintap-netadaptercx-driver/src/lib.rs:3883-3901 | the same for a writable wait |
| WaitRefusal.MissedWasRefused | crates/wintap-netadaptercx-driver/src/lib.rs:3883-3901 | every missed condition on record was refused at an earlier step of the run, to a wait then pending with that interest |
| WaitRefusal.StrandedOnlyByRefusal | crates/wintap-netadaptercx-driver/src/lib.rs:3883-3901 | if a run leaves a ready wait with nothing in flight, a claim for what it asked was refused while adaptive mode was off |
| WaitStranding.WakeupLostAcrossCleanup | crates/wintap-netadaptercx-driver/src/lib.rs:2936-3005 | a run through D0 exit, a file cleanup and D0 entry that leaves a ready wait of the closed file published, with nothing in flight and the mode on again |
| WaitOwners.RunStaysSettled | crates/wintap-netadaptercx-driver/src/lib.rs:3147-3322 | the owner invariant of waits holds in every state of every interleaving |
| WaitOwners.PublishedWaitIsCurrentIff | crates/wintap-netadaptercx-driver/src/lib.rs:2936-3005 | with no teardown in flight a published wait belongs to the current owner exactly when its owner was current as the registration read the mode |
| WaitOwners.LateOnlyUnderCleanup | crates/wintap-netadaptercx-driver/src/lib.rs:2936-3005 | a request dispatched under its own owner outlives it only while a cleanup has the mode still to switch off |
| LeaseWord.PackInjective | crates/wintap-netadaptercx-driver/src/lib.rs:150-155 | a lease word stands for one count and one set of closers |
| LeaseWord.AcquireCommutes | crates/wintap-netadaptercx-driver/src/lib.rs:318-341 | granting a lease adds one to the count and touches no closer |
| LeaseWord.ScopeCommutes | crates/wintap-netadaptercx-driver/src/lib.rs:386-412 | closing or resuming a scope changes that scope's bit only |
| LeaseWord.ReleaseCommutesIff | crates/wintap-netadaptercx-driver/src/lib.rs:344-350 | dropping a lease leaves the closers alone exactly when the count is not zero |
| OwnerHandover.RunKeepsInv | crates/wintap-netadaptercx-driver/src/lib.rs:2297-2380 | lease, lock and frame invariants hold in every state of every run |
| OwnerHandover.CountIsLiveLeases | crates/wintap-netadaptercx-driver/src/lib.rs:314-350 | the count is the number of live leases, so it never underflows |
| OwnerHandover.PnpScopeStaysQuiet | crates/wintap-netadaptercx-driver/src/lib.rs:382-432 | from quiesce to its own resume a power or hardware scope stays closed and nothing is leased, whatever the other scopes do |
| OwnerScope.ScopeKeptIff | crates/wintap-netadaptercx-driver/src/lib.rs:2936-3005 | over any step the owner scope stays closed and drained for every cleanup that closed it, except exactly when a cleanup resumes it while another has it closed |
| OwnerScope.OwnerScopeStaysQuiet | crates/wintap-netadaptercx-driver/src/lib.rs:2919-3005 | from quiesce to its own resume a cleanup's owner scope stays closed and nothing is leased, in every run without such a resume |
| OwnerScope.SpacedRunsAreOrderly | crates/wintap-netadaptercx-driver/src/lib.rs:2936-3005 | no such resume happens when no file is closed during the cleanup of another; the next file may be opened and used |
| OwnerHandover.PnpQueueChangesExcludeCallbacks | crates/wintap-netadaptercx-driver/src/lib.rs:2297-2380 | on every run no callback past its OPEN check overlaps a queue change by D0 entry, D0 exit or release |
| OwnerScope.CleanupQueueChangesExcludeCallbacks | crates/wintap-netadaptercx-driver/src/lib.rs:2919-3005 | none overlaps a queue change by a cleanup either, in every run without such a resume |
| OwnerHandover.FramesBelongToOwner | crates/wintap-netadaptercx-driver/src/lib.rs:3757-3787 | with no cleanup in progress every queued frame was produced under the current owner generation |
| OwnerFrames.WorksForOwnerRead | crates/wintap-netadaptercx-driver/src/lib.rs:1703-1734 | the generation a callback works for was the current one when it read the owner |
| OwnerFrames.QueuedFrameWasCurrent | crates/wintap-netadaptercx-driver/src/lib.rs:1922-1926 | whenever a callback makes a queue grow, the new frame's generation was current at that callback's owner check and the lifecycle was OPEN just before |
| OwnerFrames.GivenFrameIsQueued | crates/wintap-netadaptercx-driver/src/lib.rs:3757-3787 | if OPEN, the owner and the open queue last through an enqueue, that frame is appended once |
| OwnerFrames.UndisturbedGiveQueues | crates/wintap-netadaptercx-driver/src/lib.rs:3757-3787 | from any such state the callback alone appends its frame |
| OwnerFrames.WrittenFrameWasCurrent | crates/wintap-netadaptercx-driver/src/lib.rs:3372-3428 | a frame of the inline writer carries the generation that was current, under OPEN, at the writer's check |
| OwnerFrames.UndisturbedWriteQueues | crates/wintap-netadaptercx-driver/src/lib.rs:3372-3428 | from its check under OPEN with an open queue the writer appends its frame |
| OwnerProgress.CleanupHandsOver | crates/wintap-netadaptercx-driver/src/lib.rs:2936-3005 | a cleanup that waits for nobody ends within 21 of its own steps; then the generation has moved on, both queues are empty, open exactly if the device was in service, and only the owner's closer has gone |
| OwnerHandover.OutOfServiceIsNeverOpen | crates/wintap-netadaptercx-driver/src/lib.rs:2512-2580 | a cleanup never publishes OPEN during a power or hardware transition |
| OwnerHandover.ReopenNeverUnderOpen | crates/wintap-netadaptercx-driver/src/lib.rs:2297-2380 | a queue is reopened only while the lifecycle is not OPEN |
| OwnerQueues.OpenLaneIff | crates/wintap-netadaptercx-driver/src/lib.rs:2956-2980 | over any step OPEN keeps implying an open queue, except exactly when a cleanup clears a queue in service |
| OwnerQueues.OpenMeansQueuesOpen | crates/wintap-netadaptercx-driver/src/lib.rs:2956-2980 | in every run without such a clear OPEN means that both queues are open |
| OwnerOverlap.OverlappingCleanupClearsUnderCallback | crates/wintap-netadaptercx-driver/src/lib.rs:2936-3005 | a run in which a second cleanup clears a queue under an admitted callback |
| OwnerOverlap.OverlappingCleanupLeavesQueuesClosed | crates/wintap-netadaptercx-driver/src/lib.rs:2936-3005 | a run that ends idle and OPEN with both queues closed |
| OwnerOverlap.EntryOpensBeforeCleanupDisarms | crates/wintap-netadaptercx-driver/src/lib.rs:2936-3005 | a run in which OPEN is published with both queues open after a cleanup has cancelled the wait and cleared the queues and before it clears adaptive mode |
| FrameQueue.FrameQueue.Enqueue | crates/wintap-netadaptercx-driver/src/frame_queue.rs:191-286 | appends the frame to the queued sequence or changes nothing and says why; its history grows by this put |
| FrameQueue.FrameQueue.Dequeue | crates/wintap-netadaptercx-driver/src/frame_queue.rs:191-286 | removes and returns the oldest frame; the slot read always holds one; its history grows by this take |
| FrameQueue.FrameQueue.ClearFrames | crates/wintap-netadaptercx-driver/src/frame_queue.rs:191-286 | releases every queued frame once, oldest first |
| FrameQueue.FrameQueue.Close | crates/wintap-netadaptercx-driver/src/frame_queue.rs:250-258 | releases every frame and shuts the queue, as the history's clear does |
| FrameQueue.FrameQueue.Reopen | crates/wintap-netadaptercx-driver/src/frame_queue.rs:250-258 | releases every frame and opens the queue, as the history's clear does |
| FrameQueue.FrameQueue.CheckCapacity | crates/wintap-netadaptercx-driver/src/frame_queue.rs:191-286 | decides admission by state, frame limit and byte budget of the queued sequence |
| FrameQueue.FramesLeaveOnceInOrder | crates/wintap-netadaptercx-driver/src/frame_queue.rs:191-286 | over any history, frames gone followed by frames queued are the frames accepted, within both limits; every method of the queue keeps this of its own history |
| FrameQueue.FullIffAtLimit | crates/wintap-netadaptercx-driver/src/lib.rs:3833-3836 | with the configured byte budget a legal frame is refused as full exactly at the frame limit, so the writable test agrees with admission |
| Ring.MaskIsRemainder | crates/wintap-netadaptercx-driver/src/ring.rs:12-24 | masking with a power of two less one is the remainder |
| Ring.IncrementIsCyclicIffPower | crates/wintap-netadaptercx-driver/src/ring.rs:12-17 | increment is the cyclic successor on all indices exactly for power-of-two counts |
| Ring.ThreeElementRingSticks | crates/wintap-netadaptercx-driver/src/ring.rs:72-76 | a three-element ring passes the validity test and never leaves element 0 |
| Ring.AdvanceIsWalk | crates/wintap-netadaptercx-driver/src/ring.rs:19-24 | the bulk advance equals that many increments, in spite of its 32-bit wrap |
| Ring.ElementsDisjoint | crates/wintap-netadaptercx-driver/src/ring.rs:53-70 | distinct indices address disjoint elements inside the buffer |
| TxCapture.ValidateFragment | crates/wintap-netadaptercx-driver/src/lib.rs:2102-2122 | accepts a fragment exactly when its range is in bounds and the frame stays within the maximum |
| TxCapture.ValidatePass | crates/wintap-netadaptercx-driver/src/lib.rs:1775-1804 | succeeds exactly on a readable run of fragments within the maximum, and returns its total length |
| TxCapture.CopyPass | crates/wintap-netadaptercx-driver/src/lib.rs:1885-1919 | cannot fail after validation; the frame is, fragment by fragment, the bytes from each offset for each valid length |
| TxCapture.DeliverToRead | crates/wintap-netadaptercx-driver/src/lib.rs:1996-2094 | a request taken is completed once, with the bytes its fragments carry, byte for byte, or with an error |
| TxCapture.CaptureOne | crates/wintap-netadaptercx-driver/src/lib.rs:1734-1948 | one packet goes to a read, to the capture queue, is dropped or is ignored as its descriptors and the queue call for, and the frame given away is what the fragments carry; the packet index moves past it, and the fragment index past its fragments unless the packet was skipped; states exactly when it blocks |
| TxCapture.CaptureTransmitPackets | crates/wintap-netadaptercx-driver/src/lib.rs:1703-1953 | terminates; every packet retired met the fate its descriptors and the queue at that moment call for; the queue holds what these fates leave in it; stops early only at a blocking packet |
| TxCapture.CapturedInOrder | crates/wintap-netadaptercx-driver/src/lib.rs:1885-1948 | frames queued before and then the captured ones, in order, are what readers have taken followed by what is queued |
| Descriptors.GatherIsCarried | crates/wintap-netadaptercx-driver/src/lib.rs:1885-1919 | gathering a readable run yields, in order, each fragment's bytes from its offset for its valid length, and no others |
| Descriptors.CarriedOnce | crates/wintap-netadaptercx-driver/src/lib.rs:1885-1919 | a run of fragments carries one frame only, so this fixes every byte |
| RxInject.IndicateOne | crates/wintap-netadaptercx-driver/src/lib.rs:1628-1692 | indicates the frame exactly when the descriptors can take it, and both begin indices move together or not at all |
| RxInject.InjectReceiveFrames | crates/wintap-netadaptercx-driver/src/lib.rs:1585-1701 | every frame queued or arriving is indicated in order, still queued, requeued or released, once each, and no index passes its end |
| RxInject.Requeue | crates/wintap-netadaptercx-driver/src/lib.rs:3757-3768 | puts the frame at the tail exactly when the owner is unchanged and the queue admits it |
| RxInject.LinedCarries | crates/wintap-netadaptercx-driver/src/lib.rs:1654-1679 | every indicated packet, gathered back, is exactly its frame |
| RxNotify.RunKeepsInv | crates/wintap-netadaptercx-driver/src/lib.rs:2124-2147 | the notification invariant holds in every state of every run |
| RxNotify.OneNoticePerCycle | crates/wintap-netadaptercx-driver/src/lib.rs:3577-3586 | at most one notification is issued per enable |
| RxNotify.ArmedFrameIsWatched | crates/wintap-netadaptercx-driver/src/lib.rs:3421-3452 | armed with a frame queued, a writer or the enabling callback is still to look |
| RxNotify.NoFrameStranded | crates/wintap-netadaptercx-driver/src/lib.rs:2124-2147 | with nothing in flight, frames queued and the framework waiting, the notification was issued |
| RxNotify.NoticeHasReason | crates/wintap-netadaptercx-driver/src/lib.rs:2124-2147 | a notification is issued only in a cycle in which a frame was queued, or that was enabled while a writer had its swap still to come |
| RxNotify.NoticeWithoutFrame | crates/wintap-netadaptercx-driver/src/lib.rs:3415-3455 | a run in which a cycle is notified by such a writer and no frame is queued in it |
| RxNotify.NoticeFoundQueue | crates/wintap-netadaptercx-driver/src/lib.rs:3577-3586 | whoever issues a notification had found the receive queue attached after taking the flag |
| SwitchCore.ParseTagged | crates/wintap-switch-core/src/lib.rs:124-154 | parsing recovers addresses and VLAN of a tagged frame; priority bits and tag protocol make no difference |
| SwitchCore.ParseUntagged | crates/wintap-switch-core/src/lib.rs:124-154 | parsing recovers the addresses of an untagged frame |
| SwitchCore.RefusesExactly | crates/wintap-switch-core/src/lib.rs:124-154 | a frame is refused exactly for a length outside 14 to 65535, or for a tag in fewer than 18 bytes |
| SwitchCore.ClassesByBytes | crates/wintap-switch-core/src/lib.rs:124-154 | broadcast is all ones, multicast any other odd first octet, unicast an even one |
| SwitchCore.TableEqualsHistory | crates/wintap-switch-core/src/lib.rs:175-185 | after any history the table holds exactly the first distinct keys up to capacity, each with its latest endpoint |
| SwitchCore.ForwardingDatabase.Learn | crates/wintap-switch-core/src/lib.rs:175-185 | keeps the table the reflection of the history extended by this sighting |
| SwitchCore.ForwardingDatabase.Lookup | crates/wintap-switch-core/src/lib.rs:187-194 | answers what the history says about the destination |
| SwitchCore.RecipientsAreOtherMembers | crates/wintap-switch-core/src/lib.rs:261-284 | recipients are members and never the source |
| SwitchCore.RecipientsRoute | crates/wintap-switch-core/src/lib.rs:261-284 | a group address or an unlearned station floods to every other member once, in order; a learned station gets the frame alone, at the endpoint it was last seen on, unless that is the source |
| SwitchCore.PairHasOneRecipient | crates/wintap-switch/src/main.rs:905-926 | with two endpoints the one recipient is the peer, except exactly when the destination was last seen on the source's side; then there is none |
| SwitchCore.Switch.Forward | crates/wintap-switch-core/src/lib.rs:261-284 | learns acceptable frames only; the recipients are the flood or the one endpoint that the frame's bytes and the sightings up to this one call for |
| BufferPool.IdentitiesNeverReused | crates/wintap-switch-core/src/lib.rs:385-400 | over any run identities have strictly rising 32-bit generations per slot |
| BufferPool.StaleNeverChanges | crates/wintap-switch-core/src/lib.rs:402-463 | an identity whose use is over is refused for ever and never changes the pool |
| BufferPool.BufferPool.BeginRead | crates/wintap-switch-core/src/lib.rs:385-400 | takes a free slot under the next generation or refuses and changes nothing |
| BufferPool.BufferPool.CompleteWrite | crates/wintap-switch-core/src/lib.rs:433-443 | counts a write down and frees the slot with the last |
| BufferPool.BufferPool.Cancel | crates/wintap-switch-core/src/lib.rs:445-452 | frees a slot in use by this identity |
| CompletionId.DecodeEncode | crates/wintap-switch/src/main.rs:1815-1837 | decoding an encoded legal pair gives it back, with the cancel bit clear |
| CompletionId.EncodeDecode | crates/wintap-switch/src/main.rs:1815-1837 | encoding a decoded 64-bit value gives it back |
| CompletionId.MarkedNeverDecodes | crates/wintap-switch/src/main.rs:1545-1547 | a marked value never decodes and unmarking recovers the operation |
| SwitchRuntime.Runtime.PostRead | crates/wintap-switch/src/main.rs:782-814 | starts a read on a free slot and keeps table, pool and ring in agreement |
| SwitchRuntime.Runtime.ValidateCompletion | crates/wintap-switch/src/main.rs:848-866 | no completion of a submitted operation is ever refused as stale or inactive |
| SwitchRuntime.Runtime.RetryBusy | crates/wintap-switch/src/main.rs:1383-1461 | a busy operation is rebuilt with the same identity up to the limit, then its slot is freed |
| SwitchRuntime.Runtime.ProcessCompletion | crates/wintap-switch/src/main.rs:868-970 | keeps agreement; states the answer for every completion code: a read frame goes to the peer exactly when bytes and sightings name one and the slot is read again otherwise, busy is retried up to the limit, and each failure is reported only for its own code; on success every inactive slot is free |
| SwitchRuntime.Runtime.SubmitPending | crates/wintap-switch/src/main.rs:816-829 | flags exactly the queued operations and marks the runtime in flight |
| SwitchRuntime.Runtime.PostIdleReads | crates/wintap-switch/src/main.rs:1109-1116 | reposting idle reads never finds a slot taken |
| SwitchRun.OperationIsActive | crates/wintap-switch/src/main.rs:782-970 | every operation in the ring has an active entry with the pool's slot, generation and direction |
| SwitchRun.RunLegacy | crates/wintap-switch/src/main.rs:992-1046 | over whole runs agreement holds, and a failure of the loop is that of a completion, a submission, a wait or a build in one of its rounds |
| SwitchRun.RunAdaptive | crates/wintap-switch/src/main.rs:1048-1107 | the same for the adaptive loop; after a last round without progress whose wait was signaled every slot has an operation in the ring again |
| SwitchRun.AdaptiveRound | crates/wintap-switch/src/main.rs:1048-1107 | one round: keeps agreement, fails only for a completion, submission, wait or build of that round that failed, and after a signaled wait without progress leaves every slot with an operation in the ring |
| SwitchRun.TryProcess | crates/wintap-switch/src/main.rs:1534-1573 | during shutdown every completion the ring offers is taken off its table, frees its slot, and none is refused |
| SwitchRun.QueueCancellations | crates/wintap-switch/src/main.rs:1479-1512 | every submitted operation has a cancellation pending unless the queue was full |
| SwitchRun.Shutdown | crates/wintap-switch/src/main.rs:1346-1381 | when it finishes no operation or cancellation is left in the tables or the ring and an earlier failed wait is reported; it stays unfinished only with something left and the in-flight mark set; only outside failures break it off |
| SwitchRun.DropIsSafe | crates/wintap-switch/src/main.rs:576-585 | if dropping the runtime is allowed, nothing submitted is left in the ring |
| SwitchSession.Start | crates/wintap-switch/src/main.rs:757-777 | every slot has a submitted read, or a failure from outside left nothing in flight |
| SwitchSession.Live | crates/wintap-switch/src/main.rs:972-990 | over a whole life only outside failures occur, a finished shutdown or a failed start never leads to an abort, and whenever the drop does not abort the ring it closes holds nothing submitted |
| HardwareId.GuidRoundTrip | crates/wintap-netadaptercx-driver/src/lib.rs:964-1021 | the driver parses back exactly the GUID the bus printed |
| HardwareId.DeviceIdsDistinct | crates/wintap-bus-driver/src/lib.rs:398-465 | distinct GUIDs print differently |
| HardwareId.MtuRoundTrip | crates/wintap-netadaptercx-driver/src/lib.rs:1023-1060 | the driver parses back every MTU the bus accepts |
| HardwareId.IdListRoundTrip | crates/wintap-netadaptercx-driver/src/lib.rs:1062-1129 | the whole ID list parses to the child's GUID and MTU and fits the driver's buffer |
| HardwareForms.ParseGuidIff | crates/wintap-netadaptercx-driver/src/lib.rs:964-1021 | the driver reads a GUID exactly in the identifiers with 32 hexadecimal digits, in either case and with hyphens anywhere, between prefix and brace; the GUID prints as these digits |
| HardwareForms.DigitsOfAssemble | crates/wintap-netadaptercx-driver/src/lib.rs:964-1021 | any 32 digits assemble to a legal GUID that has exactly these digits |
| HardwareForms.ParseMtuIff | crates/wintap-netadaptercx-driver/src/lib.rs:1023-1060 | the driver reads an MTU exactly in the identifiers whose field up to a NUL is a decimal number from 1500 to 65521 |
| HardwareId.PrintDeviceId | crates/wintap-bus-driver/src/lib.rs:398-465 | prints the device ID with every write inside its buffer |
| HardwareId.PrintMtuId | crates/wintap-bus-driver/src/lib.rs:467-511 | prints the MTU ID with every write inside its buffer |
| HardwareId.ParseGuidId | crates/wintap-netadaptercx-driver/src/lib.rs:964-1021 | the parser's loop computes the scan the round trip is about |
| HardwareId.ParseMtuId | crates/wintap-netadaptercx-driver/src/lib.rs:1023-1060 | the same for the MTU, with checked arithmetic |
| HardwareId.ParseHardwareIds | crates/wintap-netadaptercx-driver/src/lib.rs:1081-1129 | the same for the list |
| HardwareId.CreateThenStart | crates/wintap-bus-driver/src/lib.rs:334-342 | for every legal GUID, printing and then parsing grants 1500 for 0 and any MTU from 1500 to 65521 as asked, and every other request is refused |
| BusChildren.ListStaysSane | crates/wintap-bus-driver/src/lib.rs:924-1009 | under every order of requests and callbacks GUIDs stay distinct, no child is absent and active children have a device object |
| BusChildren.EventEvolves | crates/wintap-bus-driver/src/lib.rs:952-1009 | the list changes only in place, by a new child in front, or by unlinking one child that was being removed |
| BusChildren.MtuFixedWhileListed | crates/wintap-bus-driver/src/lib.rs:1161-1208 | while a GUID stays listed its MTU does not change |
| BusList.BusState.FindChild | crates/wintap-bus-driver/src/lib.rs:354-363 | finds the node of the first child with the GUID, or null when there is none |
| BusList.BusState.ReclaimChild | crates/wintap-bus-driver/src/lib.rs:365-379 | unlinks exactly that node and leaves the others in order |
| BusList.BusState.Create | crates/wintap-bus-driver/src/lib.rs:1161-1208 | links a new child, creating and pending with the request's identity and MTU and no device object, in front; or reports busy or no memory and changes nothing |
| BusList.BusState.BeginRemove | crates/wintap-bus-driver/src/lib.rs:1262-1295 | moves the child to removing and pending under this request and keeps its device object, or reports why not and changes nothing |
| BusList.BusState.ReclaimWithoutPdo | crates/wintap-bus-driver/src/lib.rs:952-964 | afterwards the child is listed exactly if it was and was not a removing one without a device object |
| BusList.BusState.MarkFailure | crates/wintap-bus-driver/src/lib.rs:939-950 | marks the child failed with the status and keeps its device object |
| BusList.BusState.AttachPdo | crates/wintap-bus-driver/src/lib.rs:924-935 | records the device object on a listed child without moving its lifecycle, and refuses when there is none |
| BusList.BusState.PdoCleanup | crates/wintap-bus-driver/src/lib.rs:980-997 | unlinks a removing child; one that was creating or active fails, one already failed keeps its status, and neither keeps a device object |
| BusList.BusState.ReportChild | crates/wintap-bus-driver/src/lib.rs:1332-1349 | a creation becomes active exactly when its device object is there, nothing else changes, and the child is reported as it then is |
| BusEnumerate.Enumerate | crates/wintap-bus-driver/src/lib.rs:1404-1466 | returns exactly the children from the cursor on that fit, and the next cursor |
| BusEnumerate.PageIsFull | crates/wintap-bus-driver/src/lib.rs:1404-1466 | a page holds the children from the cursor on, and is full or reaches the end of the list; the next cursor is zero exactly at the end |
| BusEnumerate.CapacityIsLargest | crates/wintap-bus-driver/src/lib.rs:1404-1419 | the record capacity is the largest that fits the buffer |
| BusEnumerate.RecordInside | crates/wintap-bus-driver/src/lib.rs:1421-1443 | every record written lies inside the output buffer |
| BusEnumerate.EnumerationIsCompleteIff | crates/wintap-bus-driver/src/lib.rs:1404-1466 | following the cursor ends with every child once, in order, for all legal buffers, exactly when there are at most 2^32 children |

## Left out

- WDF, NetAdapterCx and Win32 calls: they appear only as assumed contracts or free choices.
- IRQL, pageability, memory ordering weaker than sequential consistency, and lock timing.
- Termination of switch shutdown: it depends on the system completing operations; the model says what holds when it finishes.
- Driver entry, device and queue creation, link and capability setup, receive filters: configuration only.
- Manager request validation, record layout and interface names of the bus: plain field copies.
- Command line, statistics, MTU query, endpoint opening, version and mode selection of the switch: easy members.
- The switch's side of the readiness wait (submit, rearm and drain of the overlapped request): Win32 calls around the reply checks that are modelled.
- Real pointers and lookaside memory: frames are byte sequences, and fragment buffers are sequences in their descriptor.
- The claims the receive callback makes after taking from a full queue are part of the wait model, not of `RxInject`.
- Bus teardown, which frees all nodes.
- TxCapture.CaptureTransmitPackets: assumes begin and end inside a power-of-two ring; otherwise the loop need not end.
- WaitGrounds.AnswerIsGrounded: allows a bit that a callback carried across the publication, because the property fails without it in exactly the case `WaitStale.MisleadsIff` gives.
- RxNotify.NoticeHasReason: allows a late writer in place of a frame, because the property fails without it, as `RxNotify.NoticeWithoutFrame` shows.
- OwnerScope.OwnerScopeStaysQuiet: speaks of runs in which no cleanup resumes the scope while another has it closed, because the property fails at exactly that step.
- OwnerScope.CleanupQueueChangesExcludeCallbacks: the same.
- OwnerQueues.OpenMeansQueuesOpen: speaks of runs in which no cleanup clears a queue in service, because the property fails at exactly that step.
