# Concurrency and storage protocols of the 7-Zip desktop front end

This project models the parts of the application in which several processes or
threads share state, together with two hand-written formats, and proves what
holds in every run of them.

- **Task IPC** (`QtStream`, `PayloadCodec`, `AsciiText`, `TaskSlots`,
  `TaskTable`, `SharedTaskTable`, `TaskProtocol`, `TaskTheorems`,
  `TaskResults`, `TaskEffects`, `TaskGuarantees`, `TaskWitnesses`). A launcher dispatches tasks into a table of
  sixteen slots and a pool of request payloads in shared memory; workers claim
  them and publish completion; owners collect and acknowledge numbered events;
  timeouts, worker deaths, cancels and launch rollbacks interleave with all of
  this. `TaskTable` specifies every locked operation on values,
  `SharedTaskTable` performs it in place on arrays, `TaskProtocol` lets any
  number of parties take these steps with any handle that was ever issued,
  `TaskTheorems` and `TaskResults` state what every run keeps,
  `TaskEffects` and `TaskGuarantees` what each operation achieves, and
  `TaskWitnesses` holds runs that show what the theorems allow for. The payload
  codec is proved byte by byte, and the two are composed: the worker decodes
  what the launcher sent, and the owner collects what the worker published.
- **The lock beneath it** (`RobustLock`). A word that holds the owner's PID, one
  load, store or compare-and-swap at a time, with death at any point.
- **Tasks with a mapping of their own** (`PosixCancel`, `PosixCompletion`).
  There, cancel and minimal completion work without the lock and are modelled
  store by store.
- **Password prompts** (`PromptQueue`, `PromptState`, `PromptDispatch`,
  `PromptTheorems`, `PromptReplies`, `PromptCounts`). Requests that share prompt slots, a
  dispatcher that shows one prompt at a time, handles that answer, and
  concurrent cancel-alls. `PromptQueue` and `PromptState` hold the critical
  sections, as functions and in place; the others the runs.
- **Nested archive sessions** (`CachePrune`, `NestedChains`, `NestedTheorems`,
  `NestedUse`, `NestedPruning`, `NestedWitnesses`). A cache of reference-counted chains of
  open archives, with pruning by age and by size, whose count and cached flag
  are read separately on release.
- **descript.ion** (`DescriptIon`). Tokenizer, parser, printer,
  case-insensitive update and lookup.
- **Native drag** (`DragState`, `DragWrites`, `SettleWaiter`). Two nested
  counting gates, the counters of a drag, and the thread that waits for the drag
  to settle.

A machine is a datatype for the world, a datatype for the steps, a predicate
`Enabled` or `Legal` and a function `Next` or `Apply`; runs are sequences of
steps. World fields marked as history only record what happened, and no step
reads them; in `TaskProtocol` the fields `sent`, `claims` and `collected` also
hold the handles and events that later steps may use. `Basics` holds what
several modules share. Theorems quantify over all legal runs from the initial
state, or over all worlds that satisfy the invariant, which every reachable
world does.

Where the code does not keep what it seems to promise, the model follows the
code, shows the input and proves exactly when the promise holds:

- owner ids with a zero byte (`TaskTheorems.EventsReachOnlyTheOwner`; the input
  is `TaskWitnesses.NulOwnerIsMistaken`);
- the Claimed event of a task that nobody claimed
  (`TaskResults.ClaimedEventMeansClaim`,
  `TaskWitnesses.UnclaimedIsReportedClaimed`);
- chains overwritten in the cache (`NestedTheorems.AllClosedInTheEnd`,
  `NestedTheorems.OverwrittenIsLeaked`, `NestedWitnesses.InsertionHitsLiveKey`);
- a waiter that a cancel-all leaves to an earlier one
  (`PromptTheorems.CancelAllReachesExactly`,
  `PromptTheorems.CancelAllMayLeaveASlot`);
- names with an unquoted tab and documents that begin like a byte order mark
  (`DescriptIon.RoundTrip`);
- comments with several lines, and erasing the name that kept another one from
  beginning the file (`DescriptIon.UpdateComesBack`,
  `DescriptIon.EraseMayNotComeBack`);
- saving and loading again what was loaded from any file
  (`DescriptIon.LoadedComesBack`);
- names that differ only in case (`DescriptIon.LookupAfterUpdate`,
  `DescriptIon.EraseMayLeaveATwin`).

`dafny verify dfyconfig.toml` checks the project.

## Model

| member | source | states |
|---|---|---|
| TaskTheorems.SessionsAreUnique | src/task_ipc_runtime/src/core/slots.cpp:73-87 | In every run, tasks in the table have distinct, non-zero session ids that a dispatch handed out |
| TaskTheorems.NoIncarnationReturns | src/task_ipc_runtime/src/core/slots.cpp:207-217 | A task that has left its slot never comes back, however the run goes on: no later slot carries its session |
| TaskTheorems.StaleHandlesAreInert | src/task_ipc_runtime/src/task_ipc_runtime_dispatch_claim.cpp:243-349 | Rollback, PID write-back, claim, cancel, cancel query, both completions and acknowledgement with a handle or event of an ended task change nothing; claim, cancel and cancel query report no success |
| TaskTheorems.HandlesReachOnlyTheirTask | src/task_ipc_runtime/src/task_ipc_runtime_completion.cpp:185-193 | Rollback, PID write-back, claim, cancel, both completions and acknowledgement with a live task's handle or event leave every other slot as it was |
| TaskTheorems.ClaimDelivers | src/task_ipc_runtime/src/task_ipc_runtime_dispatch_claim.cpp:620-678 | A successful claim yields exactly the payload, generation and launcher of the dispatch with that session |
| TaskTheorems.EndToEnd | src/task_ipc_runtime/src/task_ipc_runtime_dispatch_claim.cpp:284-317 | Dispatch a request, let anything happen, claim it: the worker decodes exactly the payload that was sent |
| TaskTheorems.OneClaimPerTask | src/task_ipc_runtime/src/task_ipc_runtime_dispatch_claim.cpp:622-657 | At most one claim ever succeeds for a session |
| TaskGuarantees.DispatchStarts | src/task_ipc_runtime/src/task_ipc_runtime_dispatch_claim.cpp:243-317 | A dispatch starts a task if and only if the owner and the payload are acceptable, some slot is empty, and semaphore and region are to be had; the new task takes an empty slot with every field as requested, and otherwise nothing changes |
| TaskGuarantees.ClaimWins | src/task_ipc_runtime/src/task_ipc_runtime_dispatch_claim.cpp:608-684 | A claim wins if and only if its region is to be had and the task waits in some slot; it records the claimer and publishes the Claimed event there, and otherwise nothing changes |
| TaskGuarantees.RollbackEnds | src/task_ipc_runtime/src/task_ipc_runtime_dispatch_claim.cpp:324-349 | After a rollback no slot carries the task, and its slot has moved on to another generation |
| TaskGuarantees.WriteBackArrives | src/task_ipc_runtime/src/task_ipc_runtime_dispatch_claim.cpp:351-361 | The written-back PID is in the slot as long as the task is unclaimed |
| TaskGuarantees.CancelPosts | src/task_ipc_runtime/src/task_ipc_runtime_dispatch_claim.cpp:466-494 | A cancel request is posted if and only if the task waits or runs |
| TaskGuarantees.QuerySeesCancel | src/task_ipc_runtime/src/task_ipc_runtime_dispatch_claim.cpp:687-770 | In every run a worker that queries its task sees a cancel request if and only if one was posted for the task and the task still has its slot |
| TaskTheorems.StateIsSequence | src/task_ipc_runtime/src/core/slots.cpp:116-170 | At every step the numeric slot state equals the published sequence, acknowledged <= published and < 3, and reclaiming finds nothing |
| TaskTheorems.SlotLifeCycle | src/task_ipc_runtime/src/core/slots.cpp:131-170 | A task only moves forward; results, cancel flag and worker PID change only by a step made for that task; a slot is emptied only by acknowledging its completion or by launch rollback, and starts the next task without a cancel request |
| TaskResults.OwnerGetsTheResult | src/task_ipc_runtime/src/task_ipc_runtime_completion.cpp:52-85 | In every run the result and the summary of a collected completion were published for this very task: by the worker that claimed it, or by a monitor that found it unclaimed for too long or its worker dead; a minimal completion sets the result alone |
| TaskEffects.CompletionIsPublished | src/task_ipc_runtime/src/task_ipc_runtime_completion.cpp:150-195 | Unless its launcher is dead, a claimed task that still has its slot is Completed, published, and carries the code and the summary after the worker's completion |
| TaskEffects.MinimalIsPublished | src/task_ipc_runtime/src/task_ipc_runtime_completion.cpp:215-239 | The same for a minimal completion, which leaves the summary as it is |
| TaskEffects.MonitorReports | src/task_ipc_runtime/src/core/slots.cpp:131-170 | The monitor completes exactly the tasks that it finds unclaimed for too long or with a dead worker, with their code and summary, and changes no other slot |
| TaskEffects.CompletionArrives | src/task_ipc_runtime/src/task_ipc_runtime_completion.cpp:150-383 | The worker completes its task, and the next collection of the owner, whose id has no zero byte, holds the Completed event with that code and summary |
| TaskEffects.MinimalArrives | src/task_ipc_runtime/src/task_ipc_runtime_completion.cpp:215-383 | The same for a minimal completion |
| TaskEffects.MonitorArrives | src/task_ipc_runtime/src/task_ipc_runtime_completion.cpp:331-383 | The same for a timeout and for a worker exit |
| TaskEffects.CollectionIsExact | src/task_ipc_runtime/src/task_ipc_runtime_completion.cpp:331-383 | A collection holds an event of a task if and only if a slot of that task answers to the owner, has published the event and has not seen it acknowledged |
| TaskEffects.EventSlot | src/task_ipc_runtime/src/task_ipc_runtime_completion.cpp:52-85 | A collected event shows its slot's fields as they are, and the payload that the task was sent with if its region could be locked |
| TaskEffects.CollectedInOrder | src/task_ipc_runtime/src/task_ipc_runtime_completion.cpp:71-85 | A collection holds no event twice and those of one task in the order of their numbers |
| TaskGuarantees.AcknowledgementCounts | src/task_ipc_runtime/src/task_ipc_runtime_completion.cpp:445-487 | Every event that was ever collected can be acknowledged: the last one gives the slot back for another generation, any other raises the acknowledged number to its own |
| TaskGuarantees.AcknowledgedIsOver | src/task_ipc_runtime/src/task_ipc_runtime_completion.cpp:445-487 | Once an event was acknowledged, neither it nor an earlier event of its task is collected again, however the run goes on, and with the last event the task is gone for good |
| TaskTheorems.EventsReachOnlyTheOwner | src/task_ipc_runtime/src/core/slots.cpp:200-205 | A task's events answer to its own owner and nobody else if and only if the trimmed owner id has no zero byte |
| TaskWitnesses.NulOwnerIsMistaken | src/task_ipc_runtime/src/core/shared_memory.cpp:456-468 | The input for which that fails: a task dispatched for an owner id with a zero byte answers to the owner named by the first part and not to its own |
| TaskTheorems.PendingExactly | src/task_ipc_runtime/src/task_ipc_runtime_completion.cpp:71-85 | The pending events of a slot are acknowledged+1 to published, each once, in order, with their kinds |
| TaskTheorems.CollectedExactly | src/task_ipc_runtime/src/task_ipc_runtime_completion.cpp:367-383 | An event is collected if and only if it is pending in a slot that answers to the owner |
| TaskResults.ClaimedEventMeansClaim | src/task_ipc_runtime/src/core/slots.cpp:144-156 | In every run, a collected Claimed event means that the task was claimed if and only if no monitor found the task waiting for too long |
| TaskWitnesses.UnclaimedIsReportedClaimed | src/task_ipc_runtime/src/core/slots.cpp:144-156 | The run for which it does not: dispatch, fifteen seconds without a claim, one look of the monitor, and the owner collects all three events |
| TaskProtocol.InitInv | src/task_ipc_runtime/src/task_ipc_runtime_bootstrap.cpp:110-125 | The freshly initialised table satisfies the invariant of all runs |
| TaskProtocol.StepKeepsInv | src/task_ipc_runtime/src/core/slots.cpp:73-217 | Every locked operation, with any handle ever issued, keeps the invariant of all runs |
| TaskProtocol.ReclaimIsNoOp | src/task_ipc_runtime/src/core/slots.cpp:183-198 | No slot of a reachable table is ever reclaimed |
| TaskSlots.PoolRegionsDisjoint | src/task_ipc_runtime/src/core/slots.cpp:54-71 | Pool regions lie inside the mapping, behind the header, and do not overlap |
| TaskSlots.PoolWriteElsewhere | src/task_ipc_runtime/src/task_ipc_runtime_payload.cpp:611-668 | Writing one region leaves the payload held in every other region readable |
| TaskSlots.NextGeneration | src/task_ipc_runtime/src/core/slots.cpp:73-87 | The generation that a cleared slot moves on to is never zero |
| TaskTable.FirstEmpty | src/task_ipc_runtime/src/task_ipc_runtime_dispatch_claim.cpp:259-265 | The slot chosen for a dispatch is the first empty one |
| TaskTable.FirstTask | src/task_ipc_runtime/src/task_ipc_runtime_dispatch_claim.cpp:622-634 | The slot found for a handle is the first that matches it |
| SharedTaskTable.SharedTable.DispatchTask | src/task_ipc_runtime/src/task_ipc_runtime_dispatch_claim.cpp:243-317 | Dispatch in place takes the table exactly where the specification of dispatch says |
| SharedTaskTable.SharedTable.RollbackLaunch | src/task_ipc_runtime/src/task_ipc_runtime_dispatch_claim.cpp:324-349 | Launch rollback in place clears the slot only if it still carries the task |
| SharedTaskTable.SharedTable.WriteBackWorkerPid | src/task_ipc_runtime/src/task_ipc_runtime_dispatch_claim.cpp:351-361 | The PID is written back only while the task is unclaimed |
| SharedTaskTable.SharedTable.ClaimTask | src/task_ipc_runtime/src/task_ipc_runtime_dispatch_claim.cpp:608-684 | Claiming in place takes table and result where the specification says |
| SharedTaskTable.SharedTable.RequestCancel | src/task_ipc_runtime/src/task_ipc_runtime_dispatch_claim.cpp:466-494 | Cancel in place sets the flag of a live task and of nothing else |
| SharedTaskTable.SharedTable.PublishTaskCompletion | src/task_ipc_runtime/src/task_ipc_runtime_completion.cpp:150-195 | Locked completion in place follows its specification, including the dead-launcher shortcut, and reports success exactly for a dead launcher or when the slot still carries the task and the owner could be notified |
| SharedTaskTable.SharedTable.ScanOwnerEvents | src/task_ipc_runtime/src/core/notifiers.cpp:146-180 | The owner scan publishes exactly the timeouts and worker exits of that owner's slots, and asks for a notification exactly if it published one |
| SharedTaskTable.SharedTable.CollectEvents | src/task_ipc_runtime/src/task_ipc_runtime_completion.cpp:331-383 | Collecting in place returns exactly the specified events in slot order |
| SharedTaskTable.SharedTable.AcknowledgeEvent | src/task_ipc_runtime/src/task_ipc_runtime_completion.cpp:445-487 | Acknowledging in place moves the slot, and gives it back, exactly as specified |
| SharedTaskTable.SharedTable.ReclaimStaleSlots | src/task_ipc_runtime/src/core/slots.cpp:183-198 | The reclaiming loop clears exactly the slots whose completion was acknowledged |
| AsciiText.WriteFixedUtf8 | src/task_ipc_runtime/src/core/shared_memory.cpp:507-522 | The fixed buffer holds the value cut to its capacity minus one, then zeros |
| AsciiText.ReadFixedUtf8 | src/task_ipc_runtime/src/core/shared_memory.cpp:456-468 | Reading stops at the first zero byte |
| AsciiText.FixedBufferRoundTrip | src/task_ipc_runtime/src/core/shared_memory.cpp:456-522 | A value survives the fixed buffer if and only if it is shorter than the capacity and has no zero byte |
| AsciiText.BufferShows | src/task_ipc_runtime/src/core/shared_memory.cpp:456-522 | What is read back of any value ends with the value, before its first zero byte or at the capacity, whichever comes first |
| PayloadCodec.RoundTrip | src/task_ipc_runtime/src/task_ipc_runtime_payload.cpp:451-609 | Deserialising a serialised payload gives it back, over all eight optional parts, whatever follows the frame |
| PayloadCodec.BodyRoundTrip | src/task_ipc_runtime/src/task_ipc_runtime_payload.cpp:464-497 | Reading a body back consumes it to the last byte |
| PayloadCodec.EncodeInjective | src/task_ipc_runtime/src/task_ipc_runtime_payload.cpp:451-505 | Two different payloads never share an encoding |
| PayloadCodec.DecodeFrame | src/task_ipc_runtime/src/task_ipc_runtime_payload.cpp:507-570 | A frame is accepted exactly when its checksum is that of its body |
| PayloadCodec.OnlyFramesAreAccepted | src/task_ipc_runtime/src/task_ipc_runtime_payload.cpp:507-570 | Only a frame with the right format, version, length and checksum is accepted, and the payload is read from its body |
| PayloadCodec.SerializeTaskPayload | src/task_ipc_runtime/src/task_ipc_runtime_payload.cpp:451-505 | The writer produces the specified bytes, part by part |
| PayloadCodec.DeserializeTaskPayload | src/task_ipc_runtime/src/task_ipc_runtime_payload.cpp:507-609 | The reader returns the specified payload or the specified error |
| QtStream.RoundTripStrings | src/task_ipc_runtime/src/task_ipc_runtime_payload.cpp:87-118 | A nested list of nullable strings of any length is read back exactly, leaving what follows |
| QtStream.RoundTripRemaps | src/task_ipc_runtime/src/task_ipc_runtime_payload.cpp:49-85 | A list of extraction remaps of any length is read back exactly, leaving what follows |
| QtStream.RoundTripFields | src/task_ipc_runtime/src/task_ipc_runtime_payload.cpp:87-449 | A record of fields of the known kinds is read back exactly, leaving what follows |
| QtStream.DataWriter.WriteRemaps | src/task_ipc_runtime/src/task_ipc_runtime_payload.cpp:49-57 | The remap loop appends exactly the encoding of the list |
| QtStream.DataReader.ReadRemaps | src/task_ipc_runtime/src/task_ipc_runtime_payload.cpp:59-85 | The remap loop takes exactly what the decoder takes, or fails with it |
| RobustLock.MutualExclusion | src/task_ipc_runtime/src/core/shared_memory.cpp:199-290 | With any interleaving of loads, stores and compare-and-swaps and any crashes, at most one live thread holds the lock, and the word is its PID |
| RobustLock.HolderIsUndisturbed | src/task_ipc_runtime/src/core/shared_memory.cpp:259-290 | The holder's release finds its own PID and frees the word, and nobody else's action touches the word meanwhile |
| RobustLock.AloneAcquires | src/task_ipc_runtime/src/core/shared_memory.cpp:210-257 | An attempt without interference takes a free word and a dead owner's word and leaves a live owner's word alone |
| RobustLock.StepKeepsInv | src/task_ipc_runtime/src/core/shared_memory.cpp:199-290 | Every atomic action, birth and death keeps the lock's invariant |
| RobustLock.LockWord.TryAcquire | src/task_ipc_runtime/src/core/shared_memory.cpp:199-257 | One attempt in place ends as specified for every word and every set of live processes |
| RobustLock.LockWord.Release | src/task_ipc_runtime/src/core/shared_memory.cpp:259-290 | Only the owner frees the word |
| PosixCancel.CancelIsNeverLost | src/task_ipc_runtime/src/core/notifiers.cpp:349-414 | Once a cancel request that found the task live has returned, the notifier has run, or the waiter is about to look at a flag that is set, or it will find a positive count |
| PosixCancel.NotificationApproaches | src/task_ipc_runtime/src/core/notifiers.cpp:384-402 | From then on the waiter can step, each step brings it closer to the notifier, and nobody takes it further away |
| PosixCancel.NoSpuriousNotification | src/task_ipc_runtime/src/task_ipc_runtime_dispatch_claim.cpp:426-451 | The flag is set and the notifier runs only for a request that looked while the task was not finished |
| PosixCancel.CancelIsDecided | src/task_ipc_runtime/src/task_ipc_runtime_dispatch_claim.cpp:426-451 | In every run a request goes ahead if and only if the task was not finished when the request looked, and is dropped if and only if it was |
| PosixCancel.CancelAlone | src/task_ipc_runtime/src/task_ipc_runtime_dispatch_claim.cpp:426-463 | A request left alone sets the flag and posts once for a live task, and changes nothing for a finished one |
| PosixCompletion.CollectedResultWasWritten | src/task_ipc_runtime/src/task_ipc_runtime_completion.cpp:215-239 | Store by store, a collected completion carries the result code of a completion of this task that was begun in the run |
| PosixCompletion.PublishedIsMonotone | src/task_ipc_runtime/src/core/slots.cpp:116-142 | No interleaving of lock-free and locked completions takes a published event back |
| PosixCompletion.CompletionAlone | src/task_ipc_runtime/src/task_ipc_runtime_completion.cpp:71-195 | A locked completion, a timeout of a waiting task and a worker exit of a claimed one, left alone, end with their result published; other timeouts and exits do nothing |
| PosixCompletion.MinimalAlone | src/task_ipc_runtime/src/task_ipc_runtime_completion.cpp:215-239 | A minimal completion left alone ends with its result published |
| PosixCompletion.ClaimAlone | src/task_ipc_runtime/src/core/slots.cpp:116-129 | A claim of a waiting task left alone ends with the Claimed event published |
| PosixCompletion.CollectAlone | src/task_ipc_runtime/src/task_ipc_runtime_completion.cpp:52-85 | An owner left alone collects every unacknowledged event once and in order |
| PosixCompletion.AckAlone | src/task_ipc_runtime/src/task_ipc_runtime_completion.cpp:445-487 | An acknowledgement is remembered and never moves back |
| PosixCompletion.StepKeepsInv | src/task_ipc_runtime/src/task_ipc_runtime_completion.cpp:71-239 | Every single store or load keeps the order of result, sequence and state |
| PromptTheorems.OnePromptAtATime | src/macos_integration/capi/macos_integration_c_api_password.cpp:160-230 | At every section boundary: nobody waits while nobody is active, no entry is twice on the board, no queued entry was dispatched, and an open prompt that was not revoked is the active one |
| PromptTheorems.ActiveIsServed | src/macos_integration/capi/macos_integration_c_api_password.cpp:9-24 | The active entry was dispatched or somebody is about to dispatch it |
| PromptTheorems.FirstComeFirstServed | src/macos_integration/capi/macos_integration_c_api_password.cpp:193-210 | Whoever was queued before an entry that became active became active before it or was revoked |
| PromptTheorems.WaitingInOrder | src/macos_integration/capi/macos_integration_c_api_password.cpp:167-181 | The queue is always the end of the arrivals, in order and without repetition |
| PromptTheorems.SectionProgress | src/macos_integration/capi/macos_integration_c_api_password.cpp:183-222 | Completing an entry that is not active disturbs nothing and ends the loop; only the active entry's own completion makes room |
| PromptTheorems.LoopEnds | src/macos_integration/capi/macos_integration_c_api_password.cpp:190-230 | A refused dispatch, and no other, leads to one last section: the advance loop goes around at most twice |
| PromptTheorems.WaitingForTurn | src/macos_integration/capi/password_relay_delegate.cpp:139-155 | A request that waits for its turn is queued, or active with its dispatch under way, or will be woken by a running cancel-all |
| PromptTheorems.NoStrandedWaiter | src/macos_integration/capi/password_relay_delegate.cpp:93-221 | A waited-for slot is on a list that the next cancel-all reads or in a running one's hands, and it is still answerable unless a running cancel-all has it |
| PromptTheorems.OneReplyPerSlot | src/macos_integration/capi/password_relay_delegate.cpp:201-225 | All requests of one slot that have returned got the same reply |
| PromptTheorems.ReplyIsFinal | src/macos_integration/capi/macos_integration_c_api_password.cpp:77-93 | A slot's reply is written once |
| PromptReplies.FirstOfferCounts | src/macos_integration/capi/macos_integration_c_api_password.cpp:40-93 | In every run a slot is done if and only if an answer or a cancel-all reached it, and it keeps the reply that came first in the run |
| PromptReplies.RequestReturns | src/macos_integration/capi/password_relay_delegate.cpp:201-225 | A request returns a password if and only if that password was the first thing its slot was offered |
| PromptReplies.PasswordWasAskedFor | src/macos_integration/capi/password_relay_delegate.cpp:157-200 | A slot with a password was shown to the user through a callback |
| PromptReplies.RegisterShares | src/macos_integration/capi/password_relay_delegate.cpp:93-119 | A request joins the pending undone slot of its key and reason, and otherwise opens its own, which the next cancel-all finds |
| PromptReplies.SameQuestionIsShared | src/macos_integration/capi/password_relay_delegate.cpp:93-119 | While a question is open and no cancel-all begins, whoever asks it again for the same reason waits for the same slot, and for another reason for another one |
| PromptTheorems.CancelAllReachesEveryone | src/macos_integration/capi/macos_integration_c_api_password.cpp:95-142 | After a cancel-all began, every slot that existed is done or held by a running cancel-all; when it ends all it collected is done and marked; when none runs all are done |
| PromptTheorems.CancelAllReachesExactly | src/macos_integration/capi/macos_integration_c_api_password.cpp:95-142 | However the run goes on, a slot is done when a cancel-all has ended, if and only if it was done or in the lists when the cancel-all began |
| PromptTheorems.CancelAllMayLeaveASlot | src/macos_integration/capi/macos_integration_c_api_password.cpp:95-142 | The run for which that fails: a slot taken by an earlier, delayed cancel-all is not done when the second one ends |
| PromptCounts.PendingSlotsAreInUse | src/macos_integration/capi/password_relay_delegate.cpp:121-137 | The waiter count is the number of requests that have not left, and no slot stays pending after the last of them |
| PromptDispatch.StepKeepsInv | src/macos_integration/capi/macos_integration_c_api_password.cpp:95-230 | Every critical section and atomic operation keeps the dispatcher's and the slots' invariant |
| PromptDispatch.NextIsFront | src/macos_integration/capi/macos_integration_c_api_password.cpp:195-210 | The section never finds a canceled candidate: the front of the queue becomes active |
| PromptQueue.AdvanceActive | src/macos_integration/capi/macos_integration_c_api_password.cpp:195-210 | On any ordered board, completing the active entry leaves the rest in order, skips only canceled entries and activates one that is not canceled |
| PromptQueue.AdvanceWaiting | src/macos_integration/capi/macos_integration_c_api_password.cpp:211-217 | Completing a waiting entry takes nothing but its own place |
| PromptQueue.PromptBoard.QueueDispatch | src/macos_integration/capi/macos_integration_c_api_password.cpp:160-181 | The queueing section in place; an ordered board stays ordered, with the new entry behind everybody |
| PromptQueue.PromptBoard.AdvanceDispatch | src/macos_integration/capi/macos_integration_c_api_password.cpp:193-220 | The advance section with its popping loop takes the board where the specification says |
| PromptQueue.PromptBoard.TakeAll | src/macos_integration/capi/macos_integration_c_api_password.cpp:118-125 | A cancel-all takes the active entry and then the queue in order |
| PromptState.SlotTable.Register | src/macos_integration/capi/password_relay_delegate.cpp:93-122 | Joining and opening a slot in place, orphan list and waiter count included |
| PromptState.SlotTable.FinishPromptSlot | src/macos_integration/capi/macos_integration_c_api_password.cpp:77-93 | The first reply is written as it is, and no later one |
| PromptState.SlotTable.TakeSlots | src/macos_integration/capi/macos_integration_c_api_password.cpp:103-117 | A cancel-all collects every pending and every orphaned slot and clears both lists |
| PromptState.SlotTable.EraseSlot | src/macos_integration/capi/password_relay_delegate.cpp:132-136 | Only the slot itself is taken off the list |
| NestedTheorems.NeverClosedInUse | src/macos_integration/capi/macos_integration_c_api_nested_session.cpp:419-425 | In every interleaving, a chain that a task may use is whole, and nobody closes it or is going to |
| NestedTheorems.ClosedAtMostOnce | src/macos_integration/capi/macos_integration_c_api_nested_session.cpp:459-476 | No token is closed twice, in one chain or across chains |
| NestedTheorems.ChildBeforeParent | src/macos_integration/capi/macos_integration_c_api_nested_session.cpp:464-475 | When a token is closed, every token opened after it in its chain was closed earlier |
| NestedTheorems.CountIsExact | src/macos_integration/capi/macos_integration_c_api_nested_session.cpp:419-421 | The user count of a chain is the number of tasks that count as its users |
| NestedTheorems.PruneBound | src/macos_integration/capi/macos_integration_c_api_nested_session.cpp:173-233 | After every prune step the size of the cache is determined: all that is fresh if it fits, and otherwise four or the chains in use; what goes was idle and either unused for over thirty seconds or no younger than any idle chain that stayed |
| NestedPruning.PruneIsPossible | src/macos_integration/capi/macos_integration_c_api_nested_session.cpp:173-233 | In every reachable world, a task that is to prune finds keys whose removal is a prune, whatever the cache holds and whatever the time |
| NestedPruning.PruneCache | src/macos_integration/capi/macos_integration_c_api_nested_session.cpp:173-233 | Pruning the object in place is the step of the run that removes the same keys: cache, flags and the chains to close, in order, agree afterwards |
| NestedTheorems.SweepTakesNothing | src/macos_integration/capi/macos_integration_c_api_nested_session.cpp:426-450 | The sweep of a release never finds a chain to take |
| NestedUse.LookUpHits | src/macos_integration/capi/macos_integration_c_api_nested_session.cpp:239-262 | A look-up of a cached key adds a user to that chain, stamps it and opens nothing; any other goes on to open the archive |
| NestedUse.CachedIsShared | src/macos_integration/capi/macos_integration_c_api_nested_session.cpp:244-404 | A chain put into the cache is what every later look-up of its key gets, until the key is pruned, the session destroyed or a cached chain overwritten |
| NestedUse.OpenedAfterMiss | src/macos_integration/capi/macos_integration_c_api_nested_session.cpp:235-404 | A chain is opened for a key only after the key was looked up and missed |
| NestedUse.TokensAreCounted | src/macos_integration/capi/macos_integration_c_api_nested_session.cpp:262-396 | A chain has one token for each archive opened for it |
| NestedUse.LastUseIsRecorded | src/macos_integration/capi/macos_integration_c_api_nested_session.cpp:244-425 | The time that pruning goes by is that of the chain's latest opening, hit or release |
| NestedUse.ClosingEnds | src/macos_integration/capi/macos_integration_c_api_nested_session.cpp:453-476 | A task left alone closes every chain it has to close down to its last token, unless another task is about to do the rest |
| NestedTheorems.EveryChainIsAccountedFor | src/macos_integration/capi/macos_integration_c_api_nested_session.cpp:396-476 | As long as no insertion hits a key in the cache, every chain is cached, with its opener, waiting to be closed, being closed, or closed to the last token |
| NestedTheorems.AllClosedInTheEnd | src/macos_integration/capi/macos_integration_c_api_session.cpp:28-41 | After the session is destroyed and closing is over, every token of every chain was closed if and only if no insertion had hit a key in the cache |
| NestedTheorems.OverwrittenIsLeaked | src/macos_integration/capi/macos_integration_c_api_nested_session.cpp:396-404 | The chain that an insertion overwrites is never closed, in whatever run follows |
| NestedWitnesses.InsertionHitsLiveKey | src/macos_integration/capi/macos_integration_c_api_nested_session.cpp:239-404 | Two tasks that miss the same key both open the archive, and the second insertion hits the first one's chain |
| NestedChains.StepKeepsInv | src/macos_integration/capi/macos_integration_c_api_nested_session.cpp:151-498 | Every step of opening, sharing, releasing, pruning, closing and destroying keeps the invariant |
| CachePrune.PruneSize | src/macos_integration/capi/macos_integration_c_api_nested_session.cpp:205-227 | Everything not stale stays while it fits; otherwise the cache shrinks to its capacity or to the chains in use |
| CachePrune.LastFirstAt | src/macos_integration/capi/macos_integration_c_api_nested_session.cpp:464-475 | Closing goes through the tokens from the last opened to the first |
| CachePrune.ChainCache.Prune | src/macos_integration/capi/macos_integration_c_api_nested_session.cpp:181-228 | Pruning in place meets its relational specification; the cache, the chains returned and the flags cleared are those of the same keys, and nothing else changes |
| CachePrune.ChainCache.FindOldest | src/macos_integration/capi/macos_integration_c_api_nested_session.cpp:207-219 | The eviction scan finds the least recently used idle chain, if there is one |
| CachePrune.ChainCache.Close | src/macos_integration/capi/macos_integration_c_api_nested_session.cpp:453-476 | The first caller closes all tokens, last opened first; every other caller closes none |
| CachePrune.ChainCache.TakeForDestroy | src/macos_integration/capi/macos_integration_c_api_nested_session.cpp:478-498 | Everything leaves the cache unmarked |
| CachePrune.ChainCache.Hit | src/macos_integration/capi/macos_integration_c_api_nested_session.cpp:244-261 | A hit adds one user and the time |
| DescriptIon.RoundTrip | src/archive_application/src/support/descript_ion_store.cpp:128-173 | Parsing what was printed gives the document and its flag back if and only if its entries survive and the text without a mark does not begin like one |
| DescriptIon.EntriesComeBack | src/archive_application/src/support/descript_ion_store.cpp:48-92 | The entries come back exactly when names are non-empty, trimmed, without quote, CR and LF, and with a tab only beside a space, and values are trimmed without CR and LF |
| DescriptIon.NothingIsCut | src/archive_application/src/support/descript_ion_store.cpp:152-173 | If all names come back, no name was cut at an unquoted tab |
| DescriptIon.UpdateKeepsNames | src/archive_application/src/support/descript_ion_store.cpp:244-276 | An update keeps the names sorted and different up to ASCII case |
| DescriptIon.LookupAfterUpdate | src/archive_application/src/support/descript_ion_store.cpp:278-286 | After an update every spelling of the name shows the comment, or none exactly when no second entry bore the name; other names show what they showed |
| DescriptIon.CommentIsShown | src/archive_application/src/support/descript_ion_store.cpp:237-286 | A comment without spaces at its ends, carriage returns and byte 4 is shown as given under every spelling of the name, and still is after saving and loading if the document comes back |
| DescriptIon.ShownText | src/archive_application/src/support/descript_ion_store.cpp:237-242 | Shown is what stands before the first byte 4, without the spaces around it |
| DescriptIon.KeptText | src/archive_application/src/support/descript_ion_store.cpp:255-257 | Kept of a new comment is what is left of it without carriage returns, without the spaces around it |
| DescriptIon.StripCRParts | src/archive_application/src/support/descript_ion_store.cpp:255-257 | Of every part of a comment the carriage returns go and nothing else |
| DescriptIon.MarkAfterUpdate | src/archive_application/src/support/descript_ion_store.cpp:244-276 | An update succeeds if and only if there is a name; the mark is asked for exactly from the first byte above 127 on that is written |
| DescriptIon.SameNameExactly | src/archive_application/src/support/descript_ion_store.cpp:106-114 | Names are the same if they differ at most in the case of the letters A to Z |
| DescriptIon.EraseMayLeaveATwin | src/archive_application/src/support/descript_ion_store.cpp:106-114 | The document for which erasing does leave something to be found |
| DescriptIon.UpdateComesBack | src/archive_application/src/support/descript_ion_store.cpp:205-276 | A document that can be loaded is updated and saved: it can be loaded again if and only if a comment written has one line and its name is an old or a printable one, or an erased name was not all that kept a name like a byte order mark from beginning the file |
| DescriptIon.LoadedComesBack | src/archive_application/src/support/descript_ion_store.cpp:128-173 | Every file loads as a sorted document, which survives saving and loading if and only if no name has an unquoted tab and none begins the file like a mark |
| DescriptIon.EraseMayNotComeBack | src/archive_application/src/support/descript_ion_store.cpp:128-173 | The document for which erasing a comment loses the beginning of another name |
| DescriptIon.IdTokenAdvances | src/archive_application/src/support/descript_ion_store.cpp:48-72 | Every call of the tokenizer moves the cursor forward, never past the end, and yields no quote and no line feed |
| DescriptIon.DescriptIonDocument.ReadIdToken | src/archive_application/src/support/descript_ion_store.cpp:48-72 | The tokenizer loop returns the specified name and strictly moves the cursor |
| DescriptIon.DescriptIonDocument.ReadValueToken | src/archive_application/src/support/descript_ion_store.cpp:74-92 | The value loop returns the specified value and cursor |
| DescriptIon.DescriptIonDocument.ParseText | src/archive_application/src/support/descript_ion_store.cpp:128-150 | The parser loop ends on every byte string with the specified document |
| DescriptIon.DescriptIonDocument.SerializeText | src/archive_application/src/support/descript_ion_store.cpp:152-173 | The printer loop produces the specified text |
| DescriptIon.DescriptIonDocument.UpdateEntry | src/archive_application/src/support/descript_ion_store.cpp:244-276 | The update in place ends in the specified document and result |
| DescriptIon.DescriptIonDocument.ReadComment | src/archive_application/src/support/descript_ion_store.cpp:278-286 | The lookup loop returns the specified comment |
| DragWrites.WithinLimits | src/macos_integration/native_drag/src/drag_drop_native_macos_state.cpp:63-102 | In every run both gates stay within their limits, active writes within the slots, the recorded maximum within the limit, and no more writes finish than were started |
| DragWrites.LargeExportsAreLimited | src/macos_integration/native_drag/src/drag_drop_native_macos_state.cpp:79-102 | In every run no more writes at or over a positive threshold export at once than the bounded policy allows for large files, and no other write ever waits for the second gate |
| DragWrites.CountersTellTheLog | src/macos_integration/native_drag/src/drag_drop_native_macos_state.cpp:121-179 | Attempts, successes, failures, byte and time counters and item flags are those of the writes that ended, the large-file total being the true sum cut off at 2^63-1 |
| DragWrites.LogTellsTheSteps | src/macos_integration/native_drag/src/drag_drop_native_macos.cpp:309-399 | The log that the counters tell lists the steps that ended writes, in order, with their results and times and the items and payloads of those writes |
| DragWrites.MaximumIsPeak | src/macos_integration/native_drag/src/drag_drop_native_macos_state.cpp:121-128 | The recorded maximum is the largest number of writes that were ever active at once |
| DragWrites.SomebodyCanStep | src/macos_integration/native_drag/src/drag_drop_native_macos.cpp:309-399 | As long as a write is not over some write can step: the two gates never deadlock |
| DragWrites.EveryStepAdvances | src/macos_integration/native_drag/src/drag_drop_native_macos.cpp:324-399 | Every step brings exactly one write closer to its end |
| DragWrites.StepKeepsInv | src/macos_integration/native_drag/src/drag_drop_native_macos.cpp:309-399 | Every step of a write keeps gates, counters and positions in agreement |
| DragState.SharedState.constructor | src/macos_integration/native_drag/src/drag_drop_native_macos_state.cpp:7-27 | The limits are bounded as configured and the counters start at zero |
| DragState.SharedState.OnWriteStart | src/macos_integration/native_drag/src/drag_drop_native_macos_state.cpp:121-128 | Starting a write raises the active count and, if need be, the maximum |
| DragState.SharedState.OnWriteFinish | src/macos_integration/native_drag/src/drag_drop_native_macos_state.cpp:130-179 | Finishing a write updates every counter as specified, with the saturating total |
| SettleWaiter.NoLostWakeUp | src/macos_integration/native_drag/src/drag_drop_native_macos.cpp:501-547 | Once the drag has settled or the waiter was told to stop, and the notifiers have returned, the waiter is not asleep |
| SettleWaiter.WaiterEnds | src/macos_integration/native_drag/src/drag_drop_native_macos.cpp:506-545 | ... and it ends by itself, each of its steps being possible and bringing it closer to its end |
| SettleWaiter.GraceEnds | src/macos_integration/native_drag/src/drag_drop_native_macos.cpp:506-545 | In a quiet drag that ended with nothing asked for, the sleeping waiter is in its grace period, and the end of that period ends it |
| SettleWaiter.MetricsTellTheSteps | src/macos_integration/native_drag/src/drag_drop_native_macos_state.cpp:121-187 | The metrics count the promises and finished writes of the run and tell whether the drag ended and the waiter was told to stop |
| SettleWaiter.EndsForAReason | src/macos_integration/native_drag/src/drag_drop_native_macos.cpp:506-530 | In every run the waiter has ended if and only if it found the stop flag, took a snapshot of a settled drag, or took a late snapshot of an ended drag with no write begun after an earlier such snapshot |
| SettleWaiter.StepKeepsInv | src/macos_integration/native_drag/src/drag_drop_native_macos_state.cpp:181-187 | Every change, epoch bump, wake-up and waiter step keeps the news that the waiter needs |

## Left out

- TaskTable.CompleteMinimal: on the shared table the lock-free completion is one atomic step; its store-by-store form is modelled only where a task has its own mapping, because slots of the table are reused between its check and its stores.
- TaskProtocol.StepKeepsInv: assumes fewer than 2^64 - 1 dispatches, so that the session counter does not wrap, and that no process dies in the middle of a locked update of a slot; a lock that cannot be taken is an operation that does not happen.
- PayloadCodec.RoundTrip: holds for bodies below the 32-bit length limit of the frame; longer Qt containers have an extended size form that the model does not have. SHA-256 is any function with 32-byte results.
- PayloadCodec.DeserializeTaskPayload: a failed read yields an error and not the partly filled payload and caption that the code leaves behind; nothing is read after the first failure.
- RobustLock.AloneAcquires: the waiting, retry and wake-up around a lock attempt, and their time limits, are not modelled; PIDs are not reused.
- PosixCancel.CancelIsNeverLost: sequentially consistent memory and an abstract counting semaphore; a post that fails, and an error while acquiring, end the waiter.
- PosixCompletion.CollectedResultWasWritten: sequentially consistent memory; summary, refresh flag and time stamps are not modelled there, and a collected event keeps only its sequence and result.
- PromptDispatch.StepKeepsInv: the session outlives its handles; the password cache, the retry limit, the check for a missing callback before a request registers, and null pointers are not modelled.
- NestedChains.StepKeepsInv: opening and closing an archive hands out and takes back a token; password prompts, retries and cancellation of an open are its success or failure. One prune is one step, although releases on other threads may lower a count while it runs. The time of use is written in a step of its own and without the lock, as in the code. Destroying waits for all tasks first.
- CachePrune.ChainCache.Prune: entries with a null chain, which the code also removes, do not occur; the order of the hash map is any order.
- DescriptIon.DescriptIonDocument.ParseText: the ordered map is a sorted sequence of pairs, spaces and letter case are those of the C locale, and reading and writing files is not modelled.
- DragState.SharedState.OnWriteFinish: counters and total times do not overflow; only the large-file total has a bound, as in the code. Error messages and view rectangles are not modelled.
- SettleWaiter.NoLostWakeUp: the epoch does not wrap around, and the grace period is a timer that may run out at any point of a wait.
- AsciiText.FixedBufferRoundTrip: text is its UTF-8 bytes; conversion from and to UTF-16 is not modelled, so that a cut in the middle of a character is a cut in bytes, and trimming removes ASCII spaces only.
- Launching processes, creating and mapping shared memory, semaphores, timers and dispatch sources: they succeed or fail.
- Event notification between processes, the registry of mappings and the notifier maps: they only decide when a step is taken.
- Windows, dialogs, menus, localisation, settings, request builders, archive back ends, hashing and benchmarks: no shared state or format of the kind modelled here.
