# Zedspaces protocols, verified

Zedspaces has a TypeScript control plane (durable workflows over SQLite rows) and a Rust supervisor inside
each sandbox. This Dafny project models the small stateful protocols both halves rest on and proves what they
promise over every run: every interleaving, every failure, every way of cutting a stream, every nondecreasing
clock. `dafny verify dfyconfig.toml` checks all of it.

Code that updates state in place is a class whose methods are proved equal to a specification function; what
the system promises is then proved of those functions, as lemmas over arbitrary event sequences. Protocols
with several actors (rebuild, admission, the local database queue, first boot) are step machines in which any
step may fail, repeat or be cut off.

| files | protocol |
|---|---|
| `WorkspaceSteps`, `RebuildMachine`, `RebuildSafety`, `RebuildGuarantees`, `RebuildProgress`, `RebuildProgram`, `LifecycleRuns` | rebuild and lifecycle workflows over the row, the sandboxes and the archive blobs |
| `Lifecycle` | admission of lifecycle runs under a lease |
| `DapFrames`, `DapChunking` | reassembly of Debug Adapter Protocol messages |
| `LineReader` | capped line reader |
| `LogBatcher`, `LogAccounting`, `LogOutcomes` | log queue, drop accounting, 413 handling |
| `SupervisorForwards`, `ControlForwards`, `ForwardInvariants`, `SyncSettles`, `SlotAgreement` | preview slots on both sides, and their agreement |
| `KvStore`, `KvRefinement` | key-value table with expiry |
| `RateLimit`, `CrashLoop`, `TokenGuards` | sliding window, crash window, one-use tokens |
| `LocalClientQueue` | queue in front of the local database client |
| `Bootstrap` | first-boot checkout and restore |
| `Prelude`, `Decimal` | shared vocabulary; decimal text of integers |

## Assumptions

- Rebuild machine: one run at a time (which `Lifecycle` proves of admission), no concurrent garbage collection
  or workspace deletion, a step is atomic except that a best-effort delete may stop half way, and a parent waits
  for its child (the 45-minute "child lost" ceiling of `awaitChild` does not strike). The user's files are the
  list of edits made so far; an edit reaches the current sandbox unless the row says `stopped` or `rebuilding`.
- Admission: one clock; run status is truthful; a start that throws started nothing; and the environment is
  orderly: a reservation is written within the lease or meets nobody, a finishing step that takes effect again
  finds nothing in flight, the sweep drops abandoned reservations only. `OrderlyExactly` proves that these three
  are exactly what mutual exclusion needs.
- Clocks never run backwards. Random identifiers are distinct.

## Where the code says something else than its text

- `allocateSlot` answers "All 13 preview ports are in use"; `proxySlots()` lists twelve. The model has twelve.
- The DAP buffer bound of twice MAX_FRAME can refuse legal traffic: `LegalMessagesCanBeRefused` cuts two legal
  bodies into messages the websocket accepts and the session still fails. `RoundTrip` holds exactly when every
  push fits, and `SmallMessagesFit` gives a size of message that always does.
- A DAP header whose blank line starts at offset 8190 to 8192 is accepted or refused depending on where the
  stream was cut; `ChunkingIrrelevantExactly` makes the absence of such headers the exact condition.
- A checkout without `.git` is wiped and built again on every later boot even though its marker is set;
  `HonestExactlyWithGit` makes `.git` the exact condition.
- `stepFinishRun` clears `workflow_run_id` without comparing it, so a repeat after a successor was admitted
  clears the successor's id (`RepeatedFinishAdmitsTwo`).
- A clone left behind with its remote, when removing it fails, blocks the next fetch: the boot then ends off and
  unmarked. `EveryScheduleCompletes` makes that the exact exception.
- Revoking a cookie stores its expiry under its `jti` alone. Only random ids keep a namesake that expires sooner
  from reviving it (`NamesakeRevives`, `RefusedExactly`); the program mints no such pair.

## Model

| member | source | states |
|---|---|---|
| `WorkspaceSteps.ControlPlane.StepSetState` | apps/web/workflows/steps/db-steps.ts:56-87 | the row takes the state and the optional patch: no pointer, the archive's, or both at once; nothing else changes |
| `WorkspaceSteps.ControlPlane.StepFinishRun` | apps/web/workflows/steps/db-steps.ts:97-109 | the run id is cleared on success and on failure; a failure also sets the error state or the one the caller names |
| `WorkspaceSteps.ControlPlane.StepBumpGeneration` | apps/web/workflows/steps/db-steps.ts:262-297 | a bump moves to a strictly later generation and keeps the old name; while one is pending it is refused and the row unchanged |
| `WorkspaceSteps.ControlPlane.StepSetRelease` | apps/web/workflows/steps/db-steps.ts:249-253 | only the release changes |
| `WorkspaceSteps.ControlPlane.StepCreateSandbox` | apps/web/workflows/steps/sandbox-steps.ts:134-149 | creates an empty sandbox or adopts the one that bears the name, contents untouched; when the platform answers with an error, fails and changes nothing |
| `WorkspaceSteps.ControlPlane.StepStartSupervisor` | apps/web/workflows/steps/sandbox-steps.ts:208-217 | a first boot materialises the archive the row names, or an empty checkout; later boots keep what is there; it fails exactly when sandbox or archive is missing |
| `WorkspaceSteps.ControlPlane.StepDeleteSandbox` | apps/web/workflows/steps/sandbox-steps.ts:326-342 | a best-effort delete: gone, wiped or untouched, and no other sandbox affected |
| `WorkspaceSteps.ControlPlane.StepFinishArchive` | apps/web/workflows/steps/sandbox-steps.ts:371-385 | stores exactly the tarball made earlier, or fails when the sandbox or the tarball is missing |
| `WorkspaceSteps.ControlPlane.StepStartArchive` | apps/web/workflows/steps/sandbox-steps.ts:355-363 | the tarball is the sandbox's files at that moment; without the sandbox there is none |
| `WorkspaceSteps.ControlPlane.StepDeleteBlob` | apps/web/workflows/steps/sandbox-steps.ts:388-393 | deletes that blob or, failing silently, nothing |
| `RebuildSafety.NextKeepsInv` | apps/web/workflows/rebuild-workspace.ts:63-118 | every event (step done, repeated, failed before or after its effect, run lost, row marked lost, reconciled, edit) keeps the invariant tying pointers, archive, generations, program counter and run id together |
| `RebuildSafety.CreateOk` | apps/web/workflows/create-workspace.ts:34-79 | each step of `createWorkspace`, own run or child, keeps the invariant and hands over only a materialised generation |
| `RebuildSafety.StopOk` | apps/web/workflows/stop-workspace.ts:29-76 | each step of `stopWorkspace`, own run or child, keeps the invariant |
| `RebuildSafety.ConnectOk` | apps/web/workflows/connect-workspace.ts:22-64 | each step of `connectWorkspace`, own run or child, keeps the invariant |
| `RebuildSafety.NeverInconsistent` | apps/web/workflows/rebuild-workspace.ts:75-83 | under the invariant the inconsistent-pointers error is not raised |
| `RebuildGuarantees.NothingIsLost` | apps/web/workflows/rebuild-workspace.ts:63-118 | over every event sequence the files the row vouches for only ever grow |
| `RebuildGuarantees.ArchiveStaysHeld` | apps/web/workflows/rebuild-workspace.ts:88-118 | from any reachable archive on, through any number of failed attempts, its files are held by the sandbox or the blob the row names |
| `RebuildGuarantees.ClaimedEditSurvives` | apps/web/workflows/rebuild-workspace.ts:1-8 | an edit made while no bump is pending survives every later failure |
| `RebuildGuarantees.OldGenerationOutlives` | apps/web/workflows/rebuild-workspace.ts:104-107 | the previous generation is touched only by the cleanup, and only when the new one already holds the archive |
| `RebuildGuarantees.PendingPointersStay` | apps/web/workflows/steps/db-steps.ts:271-296 | no event overwrites pending pointers; they only disappear, both at once, with the new generation up |
| `RebuildGuarantees.PointersStayConsistent` | apps/web/workflows/rebuild-workspace.ts:75-87 | in every reachable row a pending bump implies tarball, an existing archive and two different names, and the inconsistency error never occurs |
| `RebuildGuarantees.GenerationsGrow` | apps/web/workflows/steps/db-steps.ts:274-280 | generations never decrease, and the sandbox name changes exactly when the generation grows |
| `RebuildGuarantees.RunHoldsItsId` | apps/web/workflows/restart-session.ts:16-31 | whatever the steps' outcomes, a run's id stays in the row through all its children and is gone when the run has ended |
| `RebuildGuarantees.AdmittedRunHoldsItsId` | apps/web/workflows/rebuild-workspace.ts:111-117 | the same from admission of any of the five workflows, on success and on failure |
| `RebuildGuarantees.IdIsLeftExactly` | apps/web/workflows/rebuild-workspace.ts:114-117 | a run leaves its id behind exactly when it vanishes or its failure record fails unapplied, and reconciling then clears it |
| `RebuildGuarantees.ArchiveAtRest` | apps/web/workflows/rebuild-workspace.ts:89-99 | in every run the archive of a workspace that was up begins only once its VM has been stopped, and the bump only once the archive's own VM has |
| `RebuildGuarantees.RowShowsProgress` | apps/web/workflows/connect-workspace.ts:26-34 | in every run the row says what is going on: `stopped` while resuming, `stopping`, `creating`, `rebuilding` while archiving or retrying |
| `RebuildProgress.RebuildCompletes` | apps/web/workflows/rebuild-workspace.ts:63-113 | after any history, a rebuild that meets no further fault ends running, pointers and run id cleared, the wanted release recorded (the upgrade's, or the one the load step reads), generation advanced by one or retried, all vouched-for files in the new sandbox, and nothing else when the cleanup deletes worked |
| `RebuildProgress.RebuildCompletesWhileEditing` | apps/web/workflows/rebuild-workspace.ts:63-113 | the same with edits between any two steps: at least the vouched-for files arrive, and the wanted release |
| `RebuildProgress.UnclaimedEditIsDropped` | apps/web/workflows/rebuild-workspace.ts:84-87 | the edits not vouched for are those made while a bump is pending: a retry restores exactly the archive |
| `LifecycleRuns.RestartEnds` | apps/web/workflows/restart-session.ts:16-31 | from any history, a restart that meets no fault ends running with the vouched-for files, having come to its connect with the row stopped and the VM told to stop |
| `LifecycleRuns.StopEnds` | apps/web/workflows/stop-workspace.ts:29-76 | a stop that meets no fault ends stopped, the VM told to stop unless the row already said so |
| `LifecycleRuns.ConnectEnds` | apps/web/workflows/connect-workspace.ts:22-64 | a connect that meets no fault ends running, the sandbox up and materialised with the vouched-for files |
| `LifecycleRuns.CreateEnds` | apps/web/workflows/create-workspace.ts:34-79 | so does a create, whose archive pointer is left exactly while a bump is pending |
| `LifecycleRuns.FailureIsRecorded` | apps/web/workflows/rebuild-workspace.ts:114-117 | any failing step, of the run or of a child, ends the run in the error state with the id cleared and nothing else touched |
| `RebuildProgram.CreateChild` | apps/web/workflows/create-workspace.ts:34-79 | the child create succeeds exactly when the platform delivers and the restore is possible; then the sandbox holds it, and the archive pointer survives exactly while a bump is pending |
| `RebuildProgram.ArchiveAndBump` | apps/web/workflows/rebuild-workspace.ts:92-101 | archives the loaded sandbox and bumps, or reports the missing sandbox or the pending bump |
| `RebuildProgram.RebuildWorkspace` | apps/web/workflows/rebuild-workspace.ts:63-118 | no-op for an upgrade already in place, error and cleared run id without a sandbox, pointers that still hold the files when the platform refuses the new one, otherwise the vouched-for files delivered in the right generation; the row records the wanted release in both last cases |
| `Lifecycle.NextKeepsInv` | apps/web/lib/lifecycle.ts:60-106 | every orderly step of every caller, run, crash, sweep and clock keeps leases, reads, reservations and the naming of runs consistent, late reservations and repeated finishing steps that meet nothing in flight included |
| `Lifecycle.AtMostOneInFlight` | apps/web/lib/lifecycle.ts:60-106 | over every interleaving at most one admitted run is in flight, and the row names it or its reservation |
| `Lifecycle.OrderlyExactly` | apps/web/lib/lifecycle.ts:60-106 | the promises are exact: from every state the invariant allows, an event keeps mutual exclusion in all orderly continuations if and only if it is orderly |
| `Lifecycle.ReserveExactly` | apps/web/lib/lifecycle.ts:77-85 | a reservation, in time or late, is safe if and only if nothing is in flight or about to start and no other unexpired caller is on its way to reserve |
| `Lifecycle.RepeatedFinishExactly` | apps/web/workflows/steps/db-steps.ts:97-109 | a finishing step may take effect again if and only if nothing is in flight or about to start |
| `Lifecycle.ClearIsSafeExactly` | apps/web/app/api/cron/sweep/route.ts:72-97 | clearing the run id, by whomever, is safe under that same condition and no other |
| `Lifecycle.OneCallerDecides` | apps/web/lib/kv.ts:92-103 | over every run, orderly or not, two callers deciding within their leases are the same caller |
| `Lifecycle.LateReleaseSparesSuccessor` | apps/web/lib/kv.ts:99-102 | an expired holder's release leaves another token's lock in place |
| `Lifecycle.EarlyFinishLeavesNull` | apps/web/lib/lifecycle.ts:93-101 | a run that finishes before its id is recorded leaves null, and its id is never recorded by any continuation |
| `Lifecycle.AdmissionWorks` | apps/web/lib/lifecycle.ts:65-103 | an undisturbed caller that finds the lock free and nothing active gets its run recorded and the lock released |
| `Lifecycle.FailedStartWorks` | apps/web/lib/lifecycle.ts:86-92 | a start that fails leaves the run id null and the lock free |
| `Lifecycle.BusyCallerLeaves` | apps/web/lib/lifecycle.ts:72-74 | a caller that finds something active leaves run id and runs alone and frees the lock |
| `Lifecycle.RepeatedFinishAdmitsTwo` | apps/web/workflows/steps/db-steps.ts:97-109 | a failure reached from an empty workspace: a finishing step that takes effect again lets a second run in beside the one in flight |
| `Lifecycle.LateReserveAdmitsTwo` | apps/web/lib/lifecycle.ts:83-84 | a failure reached from an empty workspace: a reservation written after the lease ran out lets a second run in |
| `Lifecycle.Admissions.IsActive` | apps/web/lib/lifecycle.ts:126-131 | a reservation counts as active, a run exactly while it is, null never |
| `Lifecycle.Admissions.StartLifecycle` | apps/web/lib/lifecycle.ts:60-106 | admits exactly when the lock is free, nothing is active, capacity allows and the start succeeds; the lock is released on every path and a failed start leaves null |
| `DapFrames.Requests.Push` | sandbox/supervisor/src/debugger/node_attach.rs:12-19 | accepts exactly while the buffer stays within twice MAX_FRAME, and changes nothing otherwise |
| `DapFrames.Requests.Next` | sandbox/supervisor/src/debugger/node_attach.rs:21-48 | yields the first complete frame and leaves exactly what follows it; an incomplete or invalid buffer is unchanged |
| `DapFrames.Requests.Receive` | sandbox/supervisor/src/debugger.rs:448-468 | one message yields every complete frame of the buffer in order and leaves the remainder, or fails at the first invalid one |
| `DapFrames.Terminator` | sandbox/supervisor/src/debugger/node_attach.rs:22-26 | the first blank line at or after an offset, and none means there is none |
| `DapChunking.NextFrameOfPrefix` | sandbox/supervisor/src/debugger/node_attach.rs:21-48 | where no header ends at offset 8190 to 8192, more input never changes an answer already given |
| `DapChunking.ChunkingIrrelevant` | sandbox/supervisor/src/debugger/node_attach.rs:12-48 | a session over any chunking equals one pass over the whole stream, also for streams that fail |
| `DapChunking.ChunkingIrrelevantExactly` | sandbox/supervisor/src/debugger/node_attach.rs:12-48 | for every stream: all cuttings that fit give what one pass gives if and only if no header of any of its frames ends at offset 8190, 8191 or 8192 |
| `DapChunking.BadCutting` | sandbox/supervisor/src/debugger/node_attach.rs:22-26 | otherwise a cutting that fits is named: one chunk per complete frame, then 8193 bytes of the offending one, then the rest |
| `DapChunking.OnlyTheBoundFails` | sandbox/supervisor/src/debugger/node_attach.rs:12-19 | on a well-formed stream a session can fail only by the push bound |
| `DapChunking.RoundTrip` | sandbox/supervisor/src/debugger.rs:454-467 | for all legal bodies and every chunking of their printed stream: exactly those bodies in order with an empty buffer if and only if every push fits |
| `DapChunking.SmallMessagesFit` | sandbox/supervisor/src/debugger/node_attach.rs:12-19 | messages of at most MAX_FRAME - 26 bytes never meet the bound |
| `DapChunking.LegalMessagesCanBeRefused` | sandbox/supervisor/src/debugger/node_attach.rs:12-19 | messages of up to MAX_FRAME bytes can meet it |
| `DapChunking.PartialFrameWaits` | sandbox/supervisor/src/debugger/node_attach.rs:42-48 | every proper prefix of a printed frame is waited for |
| `DapChunking.LongHeaderExists` | sandbox/supervisor/src/debugger/node_attach.rs:27-41 | at each of the three offsets and for every body such streams exist: a field without a colon is ignored |
| `DapChunking.AnyCaseAccepted` | sandbox/supervisor/src/debugger/node_attach.rs:30-33 | the field's name may be written in any case |
| `DapChunking.TwoLengthsRefused` | sandbox/supervisor/src/debugger/node_attach.rs:36 | a header that announces its length twice is refused |
| `DapChunking.NoLengthRefused` | sandbox/supervisor/src/debugger/node_attach.rs:36 | so is one that does not announce it |
| `DapChunking.PrintedLengthExactly` | sandbox/supervisor/src/debugger/node_attach.rs:37-41 | a printed length is accepted exactly when it is positive |
| `LineReader.Reader.ReadLineCapped` | sandbox/supervisor/src/logs.rs:463-499 | exactly the first line of the pending bytes, capped and marked, however the input is cut; `None` exactly at the end |
| `LineReader.Reader.Pump` | sandbox/supervisor/src/logs.rs:422-457 | every line of the input in order, independent of the pieces |
| `LineReader.CapStep` | sandbox/supervisor/src/logs.rs:480-497 | appending what fits keeps the capped copy of all bytes seen |
| `LogBatcher.TrimIsSuffix` | sandbox/supervisor/src/logs.rs:627-638 | trimming keeps a suffix that meets both ceilings |
| `LogBatcher.TrimIsLongest` | sandbox/supervisor/src/logs.rs:627-638 | no longer suffix would meet them |
| `LogBatcher.Batcher.Enqueue` | sandbox/supervisor/src/logs.rs:621-639 | a refused line is counted, an admitted one queued behind the others, then the oldest trimmed and counted |
| `LogOutcomes.OfferOutcome` | sandbox/supervisor/src/logs.rs:621-638 | an admitted line joins the end of the queue and pushes out only what it must; a refused one is counted |
| `LogBatcher.Batcher.Allow` | sandbox/supervisor/src/logs.rs:641-657 | per-source budget: at most the limit per window, a new window once the old one has lasted its length |
| `LogOutcomes.SourceRateIsBounded` | sandbox/supervisor/src/logs.rs:641-656 | in any run no source gets more than twice its budget into any one-second span |
| `LogOutcomes.RefusalHasCause` | sandbox/supervisor/src/logs.rs:641-656 | a line is refused only when its source got its whole budget within the last second |
| `LogBatcher.Batcher.NoteDrops` | sandbox/supervisor/src/logs.rs:659-679 | unreported drops become one notice with their delta |
| `LogBatcher.Batcher.TakeBatch` | sandbox/supervisor/src/logs.rs:690-706 | a non-empty prefix of the queue within the line and byte limits, and the byte count kept exact |
| `LogBatcher.Batcher.Flush` | sandbox/supervisor/src/logs.rs:681-746 | one POST: accepted, halved on 413, dropped at batch size one, or re-queued |
| `LogOutcomes.FlushFillsBatch` | sandbox/supervisor/src/logs.rs:689-706 | a flush ships as much as the line and byte limits let into one batch, and never less |
| `LogOutcomes.AcceptedIsAcked` | sandbox/supervisor/src/logs.rs:718-722 | exactly the accepted batch is acknowledged, the rest stays queued, nothing is dropped |
| `LogOutcomes.FailureKeepsBatch` | sandbox/supervisor/src/logs.rs:723-743 | a failed batch is kept: nothing acknowledged, only what the ceilings force out of the front dropped and counted; a failure other than 413 leaves the batch size alone |
| `LogOutcomes.OversizedLineIsDropped` | sandbox/supervisor/src/logs.rs:724-738 | a single line refused as too large is given up and counted, and nothing else |
| `LogOutcomes.FlushWithoutPost` | sandbox/supervisor/src/logs.rs:681-689 | without configuration or lines a flush only reports the drops |
| `LogBatcher.Batcher.NoteSuccess` | sandbox/supervisor/src/logs.rs:749-760 | the batch size recovers and stays in 1..=200 |
| `LogOutcomes.TwentyDouble` | sandbox/supervisor/src/logs.rs:749-760 | below the ceiling the streak counts accepted batches and the twentieth doubles the batch size up to the ceiling |
| `LogBatcher.Batcher.Requeue` | sandbox/supervisor/src/logs.rs:763-779 | a failed batch returns in front in its old order, then both ceilings hold |
| `LogBatcher.Batcher.Drain` | sandbox/supervisor/src/logs.rs:578-596 | the final drain is a run of flushes; it empties the queue when every answer is a success, and counts it dropped without a configuration |
| `LogBatcher.AcceptedFlushShrinks` | sandbox/supervisor/src/logs.rs:578-596 | each accepted flush brings the drain strictly closer to an empty queue |
| `LogAccounting.EveryRunIsAccounted` | sandbox/supervisor/src/logs.rs:578-779 | in every run: lines plus notices equal acked plus queued plus counted drops; acked then queued is strictly increasing in arrival order; the byte count is the sum of sizes; notices' deltas sum to what was reported |
| `LogAccounting.CeilingsHold` | sandbox/supervisor/src/logs.rs:621-638 | both ceilings hold after every admitted line and every re-queue |
| `LogAccounting.Halving` | sandbox/supervisor/src/logs.rs:718-744 | each 413 removes the head or at least halves the batch size |
| `LogAccounting.EightRefusalsFreeTheHead` | sandbox/supervisor/src/logs.rs:681-746 | from every reachable state eight 413 answers rid the queue of its head |
| `LogAccounting.GoneStaysGone` | sandbox/supervisor/src/logs.rs:621-779 | a line that left the queue never comes back |
| `SupervisorForwards.ForwardsState.ReplaceIfUnchanged` | sandbox/supervisor/src/state.rs:482-519 | a list built from an older counter is refused untouched; an accepted one installs list and slot map |
| `SupervisorForwards.LastEntryWins` | sandbox/supervisor/src/state.rs:489 | the last entry of a list for a port is the one that counts |
| `SupervisorForwards.ReplaceTakesEffect` | sandbox/supervisor/src/state.rs:489-515 | a delivery leaves exactly the listed forwards, as listed but for the slot of those that are bound |
| `SupervisorForwards.ForwardsState.Insert` | sandbox/supervisor/src/state.rs:522-534 | an upsert with its slot claim and a bump |
| `SupervisorForwards.InsertTakesEffect` | sandbox/supervisor/src/state.rs:522-534 | the forward is in the list as given, the slot a new or changed one names serves it, no other does, and nothing else changes |
| `SupervisorForwards.ForwardsState.Remove` | sandbox/supervisor/src/state.rs:537-547 | removes the forward and its bindings, bumping only on a change |
| `SupervisorForwards.RemoveTakesEffect` | sandbox/supervisor/src/state.rs:537-547 | forward and bindings of the port are gone, nothing else changes |
| `SupervisorForwards.ForwardsState.BindSlot` | sandbox/supervisor/src/state.rs:576-616 | every error case, and the binding otherwise |
| `SupervisorForwards.BindTakesEffect` | sandbox/supervisor/src/state.rs:576-616 | each refusal has its cause; an accepted binding names its slot in the forward and changes nothing else |
| `SupervisorForwards.ClaimedIsHighestClaim` | sandbox/supervisor/src/state.rs:490-497 | a slot goes to the highest port that names it and to nothing else |
| `SupervisorForwards.RetainedClosedForm` | sandbox/supervisor/src/state.rs:498-505 | the retention loop equals an order-free set of surviving bindings |
| `SupervisorForwards.AssignedNames` | sandbox/supervisor/src/state.rs:506-510 | writing back names each bound port's slot and touches nothing else |
| `SupervisorForwards.StepConsistent` | sandbox/supervisor/src/state.rs:482-616 | each operation keeps the slot map consistent and bumps exactly when list or slot map changed |
| `SupervisorForwards.RunConsistent` | sandbox/supervisor/src/state.rs:482-616 | after any operations the slot map is injective and every bound port is a forward naming that slot |
| `SupervisorForwards.BindNeverMoves` | sandbox/supervisor/src/state.rs:571-616 | binding never moves or drops a binding, and succeeds exactly when the slot then serves the private port |
| `SupervisorForwards.ReplaceIsIdempotent` | sandbox/supervisor/src/state.rs:482-519 | delivering the same list twice is a no-op without a bump |
| `ControlForwards.ForwardTable.CreateForward` | apps/web/lib/forwards.ts:39-60 | the transaction, its errors, and roll-back of the unmuting on error |
| `ControlForwards.ForwardTable.RemoveForward` | apps/web/lib/forwards.ts:102-111 | the row goes and the port is muted |
| `ForwardInvariants.RemoveTakesEffect` | apps/web/lib/forwards.ts:102-111 | a removal succeeds exactly for a forwardable port; then the port is muted and rowless and nothing else changes; refused, nothing changes |
| `ControlForwards.ForwardTable.SyncListeningForwards` | apps/web/lib/forwards.ts:63-99 | the reconcile, with its early returns |
| `ControlForwards.FirstFree` | apps/web/lib/ports.ts:19-29 | a free slot of the list, and none only when all are taken |
| `ForwardInvariants.ListeningSorts` | apps/web/lib/forwards.ts:66-84 | the ports walked are exactly the reported non-infrastructure ones, once each, ascending |
| `ForwardInvariants.SyncKeeps` | apps/web/lib/forwards.ts:63-99 | slots stay distinct proxy slots, muted ports have no row, private rows are untouched, surviving public rows keep slot and title, closed ones go |
| `ForwardInvariants.SyncServesEveryone` | apps/web/lib/forwards.ts:82-97 | with all hosts known an unmuted listening port is unforwarded only when every slot is taken |
| `ForwardInvariants.CreateKeeps` | apps/web/lib/ports.ts:11-30 | a create fails for want of a slot exactly when the port is new and all slots are taken, and moves no other row |
| `ForwardInvariants.CreateTakesEffect` | apps/web/lib/forwards.ts:42-59 | a successful create unmutes the port, keeps its slot or takes an unheld one, links it by visibility and leaves every other row as it was |
| `ForwardInvariants.RemovedStaysOff` | apps/web/lib/forwards.ts:101-111 | after an accepted removal the port stays muted and rowless through any run in which it keeps listening and nobody forwards it again |
| `ForwardInvariants.ForwardableExactly` | apps/web/lib/forwards.ts:17-24 | forwardable are the port numbers that are none of the platform's own, and the errors tell which half failed |
| `ForwardInvariants.RunForwardable` | apps/web/lib/forwards.ts:39-99 | over every run no row names any other port |
| `SyncSettles.SyncRefreshesLinks` | apps/web/lib/forwards.ts:91-95 | after a sync every public row shows the current link of its slot |
| `SyncSettles.SyncIsIdempotent` | apps/web/lib/forwards.ts:63-99 | syncing the same report again changes nothing, even with unknown hosts or no slots left |
| `ForwardInvariants.RunGood` | apps/web/lib/forwards.ts:39-111 | over every run of transactions slots are distinct proxy slots and muted ports have no row |
| `SlotAgreement.DeliveryAgrees` | sandbox/supervisor/src/state.rs:482-519 | whatever bindings it held, after an accepted delivery the supervisor's slot map is the database's, and a slot is public exactly when the row is |
| `SlotAgreement.ReachableStatesAgree` | sandbox/supervisor/src/state.rs:562-570 | the same for every pair of runs, one on each side |
| `KvStore.SqlKv.Get` | apps/web/lib/kv.ts:29-32 | answers exactly the keys visible at that time, with their values |
| `KvStore.SqlKv.Set` | apps/web/lib/kv.ts:33-40 | upsert; with `nx` only over nothing or an expired row, and the answer says which |
| `KvStore.SqlKv.CompareDelete` | apps/web/lib/kv.ts:44-46 | deletes exactly the row with that value |
| `KvStore.SqlKv.IncrBy` | apps/web/lib/kv.ts:48-58 | the statement's text arithmetic and expiry rules |
| `KvStore.SqlKv.Expire` | apps/web/lib/kv.ts:59-62 | moves the expiry of an unexpired key only |
| `KvStore.SqlKv.Mget` | apps/web/lib/kv.ts:63-72 | each position gets what the last statement that names its key and finds it has read, whatever is written between the statements |
| `KvStore.LastSeenUndisturbed` | apps/web/lib/kv.ts:63-72 | with no write in between, that is what `get` returns as the first statement naming the key runs |
| `KvStore.CastIntText` | apps/web/lib/kv.ts:50-57 | an integer stored as text casts back to itself |
| `KvRefinement.StepRefines` | apps/web/lib/kv.ts:25-73 | one call: same reply, and the table still shows the reference map |
| `KvRefinement.TableRefinesMap` | apps/web/lib/kv.ts:25-73 | every run is answered as by a map in which expired keys are absent; an `mget` is one call for each of its statements |
| `KvRefinement.MgetIsItsChunks` | apps/web/lib/kv.ts:63-72 | an `mget` over several statements answers a function of their replies alone |
| `KvRefinement.MgetRefines` | apps/web/lib/kv.ts:63-72 | so the reference maps answer it alike, with writes between the statements |
| `KvRefinement.SweepsAreInvisible` | apps/web/lib/kv.ts:75-78 | sweeps inserted anywhere change no reply |
| `KvRefinement.CountersCount` | apps/web/lib/kv.ts:48-58 | increments of a live key add up and never move its expiry |
| `RateLimit.Limiter.Limit` | apps/web/lib/ratelimit.ts:37-52 | the transaction, against the decision on the live hits |
| `RateLimit.RefinesReference` | apps/web/lib/ratelimit.ts:25-52 | expiry and sweeps never change a decision: every run is answered as by the full log |
| `RateLimit.LimiterIsExact` | apps/web/lib/ratelimit.ts:25-52 | from an empty table: exact decisions, and no window ever holds more than the budget |
| `RateLimit.RetryAfterSuffices` | apps/web/lib/ratelimit.ts:46-47 | after any run, a refused caller that waits the advertised time is accepted |
| `RateLimit.RetryAfterIsLeast` | apps/web/lib/ratelimit.ts:25-30 | no shorter whole number of seconds, at least one, would do |
| `RateLimit.AcceptedExactly` | apps/web/lib/ratelimit.ts:45-48 | after any run a request is accepted exactly when fewer than the budget were accepted in the window before it |
| `RateLimit.RetryAfter` | apps/web/lib/ratelimit.ts:25-30 | the least whole number of seconds, at least one, that covers the wait |
| `CrashLoop.Run` | sandbox/supervisor/src/server.rs:444-524 | gives up exactly at the first crash that is the sixth within 600 s, pauses as the backoff says before that |
| `CrashLoop.PushExit` | sandbox/supervisor/src/server.rs:500-509 | the deque is exactly the crashes within 600 s of the latest, and full exactly when the newest closes a loop |
| `CrashLoop.QuietMeansNoSixWithinWindow` | sandbox/supervisor/src/server.rs:444-524 | not giving up means no six crashes, adjacent or not, within 600 s |
| `CrashLoop.PauseAfter` | sandbox/supervisor/src/server.rs:635-642 | pauses are 1, 2, 4, 8, 16 and then 30 seconds, counted from the last child that stayed up for a minute |
| `TokenGuards.SessionGuard.Redeem` | sandbox/supervisor/src/proxy.rs:98-107 | fresh exactly when no unexpired record has the id; then recorded |
| `TokenGuards.SessionGuard.Revoke` | sandbox/supervisor/src/proxy.rs:109-114 | records the id after pruning |
| `TokenGuards.SessionGuard.IsRevoked` | sandbox/supervisor/src/proxy.rs:116-120 | revoked exactly while pruning would keep its record, so pruning earlier or later makes no difference |
| `TokenGuards.SessionGuard.BootstrapRoute` | sandbox/supervisor/src/proxy.rs:314-377 | a token is spent exactly when verification and guard accept it |
| `TokenGuards.SessionGuard.LogoutRoute` | sandbox/supervisor/src/proxy.rs:285-310 | a verified cookie is revoked |
| `TokenGuards.SessionGuard.AuthorizeCookie` | sandbox/supervisor/src/proxy.rs:632-679 | lets a cookie through exactly when it verifies and is not revoked |
| `TokenGuards.DebugService.Authorize` | sandbox/supervisor/src/debugger.rs:127-182 | accepts exactly unexpired, matching, unused claims, and marks them used |
| `TokenGuards.BootstrapAtMostOnce` | sandbox/supervisor/src/proxy.rs:96-124 | in any run a bootstrap token is accepted at most once, whatever is pruned |
| `TokenGuards.DebugAtMostOnce` | sandbox/supervisor/src/debugger.rs:158-181 | in any run a debug token is accepted at most once |
| `TokenGuards.PruningIsInvisible` | sandbox/supervisor/src/proxy.rs:122-124 | every run of the three guards is decided as by guards that never forget anything |
| `TokenGuards.BootstrapAcceptedExactly` | sandbox/supervisor/src/port_auth.rs:103-141 | a bootstrap token is accepted exactly when genuine, for this workspace and a user port, unexpired, an hour long at most, and unspent |
| `TokenGuards.CookieAcceptedExactly` | sandbox/supervisor/src/port_auth.rs:103-141 | a cookie is let through exactly when genuine, for this workspace and a user port, unexpired, eight hours long at most, and not revoked; a logout asks for all but the last |
| `TokenGuards.DebugAcceptedExactly` | sandbox/supervisor/src/debugger.rs:139-181 | a debug token is accepted exactly when its claims name this workspace and a user, it is unexpired, issued at most 5 s ahead, two minutes long at most, unused, and fewer than 128 are live |
| `TokenGuards.UnspentIsAccepted` | sandbox/supervisor/src/port_auth.rs:103-141 | after any run that left its id alone, a bootstrap token or cookie is accepted exactly when it is fit for its route |
| `TokenGuards.LoggedOutStaysOut` | sandbox/supervisor/src/port_auth.rs:103-141 | a logged-out cookie is never let through again in a run that accepts no logout of a namesake expiring sooner |
| `TokenGuards.RefusedExactly` | sandbox/supervisor/src/proxy.rs:116-124 | a cookie is refused at every later time if and only if a record of its id lasts at least as long as the cookie |
| `TokenGuards.NamesakeRevives` | sandbox/supervisor/src/proxy.rs:109-114 | the excluded namesake does revive a cookie |
| `LocalClientQueue.LocalClient.Enter` | apps/web/lib/db-local-client.ts:15-19 | a call takes its ticket behind the current tail |
| `LocalClientQueue.LocalClient.OperationSettled` | apps/web/lib/db-local-client.ts:38-41 | success and failure both settle the ticket |
| `LocalClientQueue.LocalClient.TransactionOpened` | apps/web/lib/db-local-client.ts:20-35 | a transaction that fails to open releases at once |
| `LocalClientQueue.LocalClient.ReleaseTransaction` | apps/web/lib/db-local-client.ts:26-31 | commit, rollback or close release once |
| `LocalClientQueue.SerialInCallOrder` | apps/web/lib/db-local-client.ts:9-46 | under every interleaving at most one ticket is active and tickets start in call order |
| `LocalClientQueue.FailureIsLikeSuccess` | apps/web/lib/db-local-client.ts:26-40 | over every run, operations that fail instead of succeeding change nothing but what their callers are told |
| `LocalClientQueue.RefusedOpenReleases` | apps/web/lib/db-local-client.ts:21-35 | a refused open leaves the queue as an open released at once, and a second release does nothing |
| `LocalClientQueue.ToldExactly` | apps/web/lib/db-local-client.ts:20-41 | in every run a caller is told of failure exactly when its own operation or opening failed |
| `LocalClientQueue.EveryScheduleSettles` | apps/web/lib/db-local-client.ts:9-46 | progress under every schedule, calls arriving at any time: the first n tickets are settled after as many working turns as they need, at most four each |
| `LocalClientQueue.SomeTurnWorks` | apps/web/lib/db-local-client.ts:9-46 | while a ticket is unsettled some turn works, in every reachable state |
| `LocalClientQueue.NeverStuck` | apps/web/lib/db-local-client.ts:9-46 | the first unsettled ticket is at work or can take its next turn |
| `LocalClientQueue.QueueDrains` | apps/web/lib/db-local-client.ts:9-46 | giving the first n tickets their turns settles exactly them and touches none behind them |
| `LocalClientQueue.EveryTicketStarts` | apps/web/lib/db-local-client.ts:9-46 | every waiting ticket starts once those before it had their turns |
| `Bootstrap.MarkerStaysHonest` | sandbox/supervisor/src/bootstrap.rs:191-232 | any boots, steps and interruptions keep: marker set implies checkout complete |
| `Bootstrap.NextBootCompletes` | sandbox/supervisor/src/bootstrap.rs:191-232 | after any history, every uninterrupted schedule of the next boot ends complete and marked, unless its fetch is blocked |
| `Bootstrap.EveryScheduleCompletes` | sandbox/supervisor/src/bootstrap.rs:191-232 | from wherever a boot stands, every order of moves and every outcome of the best-effort clean-ups ends ready, marked and complete if and only if no fetch meets the remote of an earlier clone; otherwise it ends off and unmarked |
| `Bootstrap.SweptIsUnblocked` | sandbox/supervisor/src/bootstrap.rs:205-216 | a restore never meets one, nor does a clone whose clean-up works |
| `Bootstrap.BootFinishes` | sandbox/supervisor/src/bootstrap.rs:191-232 | every unblocked boot, in every schedule, keeps a finished checkout with `.git` or builds the expected one |
| `Bootstrap.MovesFinish` | sandbox/supervisor/src/bootstrap.rs:459-544 | in every order of the members, as many moves as remain place every one of them and touch nothing else |
| `Bootstrap.HonestExactlyWithGit` | sandbox/supervisor/src/bootstrap.rs:201-216 | the marker is honest in every run exactly when the checkout carries `.git` |
| `Bootstrap.GitIsNeeded` | sandbox/supervisor/src/bootstrap.rs:201-208 | without `.git` a run breaks it |
| `Bootstrap.Sandbox.ApplyRestoreLayout` | sandbox/supervisor/src/bootstrap.rs:459-506 | every member that is not a symlink replaces its namesake and nothing else changes |
| `Bootstrap.Sandbox.MaterializeRepo` | sandbox/supervisor/src/bootstrap.rs:191-232 | ends marked, with the kept or the expected checkout |

## Left out

- Garbage collection and workspace deletion: their name list is read before their deletes run, so rebuild safety is claimed without them.
- Workspace capacity: a yes-or-no answer to each reservation; the count behind it is not modelled.
- The sweep's release of unreadable runs: only terminal runs and abandoned reservations are swept in the model.
- RebuildProgram.RebuildWorkspace: only the platform's refusal of the new sandbox and the errors the steps raise themselves; failure at any point, repetition and vanishing runs are proved on the step machine.
- RebuildProgram.CreateChild: image choice, readiness polling and build checks are not modelled; as failures they are failing steps of the machine.
- WorkspaceSteps.ControlPlane.StepCreateSandbox: an error that comes after the platform already made the sandbox is a failing step of the machine, not an answer here.
- WorkspaceSteps.ControlPlane.StepStartSupervisor: starting the supervisor and its materialising the checkout are one step; `Bootstrap` models the second part.
- RebuildGuarantees.RunHoldsItsId: a run that vanishes or cannot record its failure is excluded here and covered by `IdIsLeftExactly`.
- RebuildGuarantees.AdmittedRunHoldsItsId: the same exclusion.
- RebuildSafety.StopOk: health polling, signalling and usage records of a stop change none of the modelled state.
- RebuildSafety.ConnectOk: hosts, sessions and readiness polling are not modelled; a readiness failure is a failing step.
- DapFrames.Requests.Next: bodies are bytes; JSON decoding of a body, which can fail after its frame has been removed, and Unicode white space around a header value, are not modelled.
- LineReader.Reader.ReadLineCapped: a read error other than an interruption is not modelled, nor is the decoding of a line to text.
- LogBatcher.Batcher.Drain: lines arriving on the channel while the drain runs are not interleaved with it.
- KvStore.SqlKv.IncrBy: counters are unbounded integers; overflow beyond 64 bits is not modelled.
- SupervisorForwards.ForwardsState.Insert: an operation and its bump are one step, although the lock is released between them; a forward that lost its slot may still name it, so only "bound implies named" is claimed.
- ForwardInvariants.RunGood: the muted set does not expire within a run.
- TokenGuards.SessionGuard.BootstrapRoute: the slot binding and the cookie minted after the token is spent are not modelled.
- TokenGuards.SessionGuard.AuthorizeCookie: the match of the cookie's port with the slot's, after the revocation test, is not modelled.
- LocalClientQueue.LocalClient.ReleaseTransaction: a close while a commit is still running releases before the commit ends; the model counts the transaction as over from the first release.
- TokenGuards.LoggedOutStaysOut: signatures, base64 and JSON of tokens are abstract; verification and guard are one step.
- Bootstrap.Sandbox.ApplyRestoreLayout: the members under the home directory and the copy fallback of a move across file systems are not modelled.
- Sandbox drivers, GitHub, blob and HTTP clients, process spawning, websockets, proxying, pages, settings merge, region choice, JSONC stripping: input, output and configuration.
