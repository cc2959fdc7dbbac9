# Agent Server and AG-UI direct runs, verified

This project models three parts of jobworkerp-rs and proves what they promise.

* **Who owns a job.** The Agent Server tracks the model and worker jobs of every chat, cancels them
  from several places at once, pauses a chat for approval and resumes it later (`agent-server`).
* **Direct runs.** The AG-UI front end turns a worker's output stream into client events, merges it
  with the outcome of the job, stores it, and lets clients cancel the run (`ag-ui-front`).
* **Data that must agree.** Chat histories cross between their HTTP and domain form, live text crosses a
  queue that may be full, the tool registry crosses restarts, approval keys are built from parts, and
  periodic jobs keep their schedule.

`dafny verify dfyconfig.toml` checks the whole project.

## How the model is built

| file | what it holds |
|---|---|
| `Tracker.dfy` | `ExecutionTracker` as a class whose methods are proved against functions on its map |
| `JobOwnership.dfy` | the ownership protocol as a state machine over tracker, executors, delete locks and tasks |
| `CancelRuns.dfy` | what a cancel and a lost owner mean for whole runs of that machine |
| `Transcript.dfy` | generated chat histories: which calls are still owed an answer |
| `SharedState.dfy` | what concurrent chat executions share, its atomic steps and its invariant |
| `Orchestrator.dfy` | the chat loop, tool calls, approval pauses and resumes as methods with loops |
| `ApprovalStore.dfy`, `Keys.dfy` | the in-process approval store and the length-prefixed keys |
| `Sessions.dfy` | the leased session registry |
| `ToolRegistry.dfy` | the persistent tool registry and its revision check |
| `StreamCollect.dfy`, `ResultWait.dfy` | collecting a worker's result stream, and waiting for a worker's terminal result |
| `RunEvents.dfy`, `DirectConvert.dfy`, `DirectPipeline.dfy`, `DirectRuns.dfy` | the three stages of a direct run, their composition, and the run with its cancellers |
| `History.dfy`, `NextRequest.dfy` | history conversion, its round trip, and the next request's validation |
| `CompletedChat.dfy` | from the chat loop's history to the next request |
| `TextSink.dfy`, `TextDelivery.dfy` | live text, and the reconciliation of the final response with it |
| `StreamedChat.dfy` | a streamed chat from its request to its last event |
| `Schedule.dfy` | periodic run times and retries |

One lock-protected section is one atomic step, and every await is a point where others act. In the
state machines the others are explicit. In `Orchestrator.dfy` and `ToolRegistry.dfy` a method that waits
calls `Await`, where an arbitrary function stands for what others do meanwhile. In `Orchestrator.dfy` all
that is known of it is that it is some run of enabled steps of other executions; what such a run leaves
alone is proved (`SharedState.OthersKeep`). In `ToolRegistry.dfy` it is a run of that module's `Step`.
Remote calls, model answers, clocks and queue fullness are arbitrary values. Job ids, chat ids and
capabilities are fresh; an issuer that repeats a value counts as a failed issue.

Two findings about the code itself:

* A wait for a worker's result keeps the result it has read for the next wait, but not that something
  followed it. With the stream R1, R2, end the first wait reports an uncertain outcome and a second wait
  accepts R1 and releases the job (`ResultWait.SecondWaitForgetsTheDoubt`). A released job's result was
  followed by the end of its stream if and only if no earlier wait found something after it
  (`ResultWait.ReleaseIsFramed`); the streams that can be accepted without that are exactly those whose
  first result matches and is not the last read (`ResultWait.UnframedReleaseIsPossible`). The chat loop
  itself waits once for each job, so it is not affected (`ResultWait.FirstWaitReleases`).
* The second stage of a direct run can emit two RUN_ERROR events, the stream's and the job's. It never
  emits more, and it emits two exactly when the job fails and its outcome arrives after the stream's first
  RUN_ERROR (`DirectPipeline.MergedErrors`). The stored trace still has one, because the producer stops at
  the first (`DirectPipeline.StoredTrace`).

## Model

| member | source | states |
|---|---|---|
| Tracker.ExecutionTracker.Capability | agent-server/src/chat.rs:483-501 | a chat keeps its first well-formed capability; a failed or malformed issue leaves an entry without one |
| Tracker.ExecutionTracker.Begin | agent-server/src/chat.rs:503-524 | an active chat is refused unchanged; a cancel taken while prepared is consumed and reported; otherwise the chat becomes active and is no longer prepared |
| Tracker.ExecutionTracker.Finish | agent-server/src/chat.rs:526-532 | the next begin of the chat is not refused, only its jobs still keep it pending, and no job, capability or other chat changes |
| Tracker.ExecutionTracker.Prepare | agent-server/src/chat.rs:534-541 | a chat that is not running may begin next and may be cancelled before it does; a running one is left alone, and so is everything else |
| Tracker.ExecutionTracker.AddJob | agent-server/src/chat.rs:543-556 | a job added while a cancel is requested is born claimed, and the caller is told |
| Tracker.ExecutionTracker.ForgetJob | agent-server/src/chat.rs:558-562 | the job is no longer tracked, and every other job of every chat and every flag stays |
| Tracker.ExecutionTracker.ClaimCancel | agent-server/src/chat.rs:564-580 | an unclaimed job is claimed under the right capability, and nothing changes otherwise |
| Tracker.ExecutionTracker.ClaimInternalCancel | agent-server/src/chat.rs:582-589 | an unclaimed job is claimed, and nothing changes otherwise |
| Tracker.ExecutionTracker.ClaimAllCancels | agent-server/src/chat.rs:591-624 | every unclaimed job is claimed and returned with its kind, and the request is recorded for an active or prepared chat; there is an answer exactly when the chat may be cancelled and a job was claimable, or it has no job and no cancel was requested before |
| Tracker.ExecutionTracker.CancelFailed | agent-server/src/chat.rs:632-640 | a job that is still tracked can be claimed again, and nothing else changes |
| Tracker.BeginUnlessRefused | agent-server/src/chat.rs:503-524 | with a capability to be had, a begin succeeds exactly when the chat is neither active nor has a cancel to report, and then the chat is active |
| Tracker.BeginReports | agent-server/src/chat.rs:483-524 | what a begin reports in every case: a reported cancel is consumed, so that the next begin is not refused; a capability the chat has is kept and returned; jobs and other chats are untouched |
| Tracker.ClaimGivenBack | agent-server/src/chat.rs:564-640 | giving a claim back undoes it exactly when the job was unclaimed before |
| JobOwnership.StepKeeps | agent-server/src/chat.rs:655-850 | every step of every task keeps the ownership invariant: roles of tasks, marks, executors' maps, delete locks and flags; an execution lets go of its job only when the output it has read lets its executor conclude |
| JobOwnership.RunKeeps | agent-server/src/chat.rs:1028-1127 | the invariant holds in every state of every run, for any interleaving and any dropped future |
| JobOwnership.MarkedIffGuarded | agent-server/src/chat.rs:701-738 | in every run a tracked job is marked as being cancelled exactly when an armed claim guard for it exists, and no job has two |
| JobOwnership.OneDeleteInFlight | agent-server/src/grpc.rs:243-336 | in every run no two Deletes for one job are in flight, not even the executor's own cleanup and a claimed cancellation |
| JobOwnership.DroppedClaimIsClaimable | agent-server/src/chat.rs:718-738 | dropping a cancellation at any await releases its lock and makes its tracked job claimable again, and no other job's mark changes |
| JobOwnership.InternalClaimIsGuarded | agent-server/src/chat.rs:1603-1694 | a claim by the execution itself always gets its guard, so the mismatched-kind branch leaks no claim |
| JobOwnership.SameOwnersAtRest | agent-server/src/worker.rs:165-200 | in every run, whenever nobody is between the two, tracker and executors own exactly the same jobs under the same kinds |
| CancelRuns.NoJobSlipsPast | agent-server/src/chat.rs:591-624 | once a cancel is accepted for an active execution, every job the chat tracks until that execution finishes has been under a cancellation since |
| CancelRuns.PreparedCancelStopsBegin | agent-server/src/chat.rs:503-541 | a cancel taken while the chat is only prepared makes the next begin fail as cancelled, unless the chat is prepared anew |
| CancelRuns.FlagsInEveryRun | agent-server/src/chat.rs:503-556 | in every run a requested cancel implies active or prepared, and never both of these hold |
| CancelRuns.CapabilityStays | agent-server/src/chat.rs:483-524 | in every run a chat keeps the first capability it was given, and every later begin that succeeds returns it |
| CancelRuns.OwnershipEndsWithEvidence | agent-server/src/chat.rs:783-850 | a job that left the tracker, or an executor's map, has ended: an earlier step of the run saw its Delete, which was in flight, confirmed, or its model stream framed to the end, or the only result of its worker match job, worker and method |
| CancelRuns.EvidenceWasSeen | agent-server/src/grpc.rs:431-466 | in every run the evidence recorded for a job was seen by exactly such a step, and the evidence is the input that execution had read |
| CancelRuns.InputWasReceived | agent-server/src/grpc.rs:678-833 | in every run the input of an execution is exactly what it has received since its job was tracked, in order |
| CancelRuns.RejectedWillCleanUp | agent-server/src/grpc.rs:416-428 | a model job that is enqueued while a cancel is requested is under an armed cancellation at once, with the executor's cleanup to follow |
| CancelRuns.CleanupFollows | agent-server/src/grpc.rs:416-428 | in every run the cancellation of a model job whose start was rejected ends in the executor's own cleanup, unless it is dropped |
| Transcript.SettledHistory | agent-server/src/chat.rs:1336-1372 | a generated history that owes nothing answers each response's calls one by one, in call order, directly after it, and has no other answers |
| Transcript.OwedIsATail | agent-server/src/chat.rs:1375-1485 | what a history owes is always the tail of its last response's calls, the rest being answered in order |
| SharedState.StepKeeps | agent-server/src/chat.rs:1160-1248 | every atomic step of an execution keeps the shared invariant; to every other execution it leaves the approvals claimed by that one as they are, adds none under its capabilities and starts nothing in its name |
| SharedState.RunKeeps | agent-server/src/chat.rs:1160-1478 | in every state of every run the store holds only unclaimed approvals, each with a counted, sound continuation that owes the paused call and with the worker and method offered for it, and every start is approved and used as `StartOk` says |
| SharedState.StartIsApproved | agent-server/src/chat.rs:1160-1223 | in every run of any number of executions each worker start is for the only tool of that name in an offer that was made, with the same worker, method, approval flag, revision and schema, and with accepted arguments; one that needs approval was made by the execution that won the only claim of that approval for a client that approved, with the stored call, arguments, worker and method, and no other start used it |
| SharedState.ClaimedOnce | agent-server/src/chat.rs:1765-1808 | in every run an approval is claimed at most once |
| SharedState.OthersKeep | agent-server/src/chat.rs:1160-1478 | whatever steps other executions take while one waits, the invariant holds, its claimed approvals are unchanged, its fresh capability is unused and nothing is started in its name |
| Orchestrator.AppendResult | agent-server/src/chat.rs:1810-1832 | a result is appended exactly when the output limit still holds, and answers the first call that is owed |
| Orchestrator.ValidateCalls | agent-server/src/chat/validation.rs:63-81 | accepts exactly the lists whose calls are well formed and whose ids are distinct |
| Orchestrator.ValidateTools | agent-server/src/chat.rs:1865-1883 | accepts exactly tools with different names, none of them a built-in one's |
| Orchestrator.ChatOrchestrator.Execute | agent-server/src/chat.rs:1523-1600 | a worker is started exactly once unless a cancel came first, only by a step that is enabled; its answer becomes the result, an error result unless the worker returned, and a stale schema makes an approved call stale; the approval is used exactly when the worker was started |
| Orchestrator.ChatOrchestrator.SaveApproval | agent-server/src/chat.rs:1708-1763 | a pause stores the continuation with the calls after the paused one, and the tool's worker and method, under a fresh capability; it succeeds exactly when the capability is fresh and the store takes it |
| Orchestrator.ChatOrchestrator.ClaimApproval | agent-server/src/chat.rs:1765-1808 | an approval the store holds is taken out of it, with who claimed it and which decision recorded, and what was saved is returned; it is reported missing only if the store has none |
| Orchestrator.ChatOrchestrator.AnswerCall | agent-server/src/chat.rs:1385-1483 | the exact answer to one call: a tool is started exactly when it is not built in, is offered, still has the offered target, accepts the arguments and needs no approval, and its outcome is the answer; the chat pauses exactly when it needs one; everything else gets an error result and starts nothing; each failure has its reason |
| Orchestrator.ChatOrchestrator.Consider | agent-server/src/chat.rs:1392-1482 | a call of a tool that is not built in is refused exactly when it was not offered, is gone, has changed in any of six fields, or does not accept the arguments |
| Orchestrator.ChatOrchestrator.Dispatch | agent-server/src/chat.rs:1440-1479 | a call whose target is current is stored for approval or started, and succeeds exactly when the store or the worker does |
| Orchestrator.ChatOrchestrator.ProcessToolCalls | agent-server/src/chat.rs:1375-1485 | all calls are answered in order, or the stored continuation holds the answers so far; an exceeded output limit has a message that does not fit |
| Orchestrator.ChatOrchestrator.AskModel | agent-server/src/chat.rs:1263-1342 | a turn appends exactly the model's response, counts it and its bytes and records what was offered, exactly when the response is accepted and fits; its deltas are recorded under its index |
| Orchestrator.ChatOrchestrator.Converse | agent-server/src/model.rs:471-493 | live deltas are recorded under the turn they belong to, and a response is accepted exactly when the model did not fail and it has calls or continues them |
| Orchestrator.ChatOrchestrator.TakeTurn | agent-server/src/chat.rs:1263-1372 | one round of the loop completes the chat exactly for a response without calls, pauses it, or owes nothing and has one more turn; invalid calls are reported only for a list that fails the check |
| Orchestrator.ChatOrchestrator.RunLoop | agent-server/src/chat.rs:1250-1373 | terminates by the remaining turns; a completed history owes nothing, ends with its only response without calls, has only checked calls and is within both limits, and that response continues the deltas of its turn; a pause is stored and unclaimed; deltas are recorded only under turns of the history; the turn limit is reported only when all turns are used, the output limit only for a message that does not fit |
| Orchestrator.ChatOrchestrator.RunApproved | agent-server/src/chat.rs:1181-1211 | the approval is stale exactly when the registry no longer has the stored target, in any of six fields, when that refuses the stored arguments, or when the worker's schema changed at the start; otherwise the tool is started once, by the execution that claimed the approval, with what was stored, and its outcome is the result |
| Orchestrator.ChatOrchestrator.Decide | agent-server/src/chat.rs:1181-1223 | the waiting call is answered first, by exactly its tool's result or by a refusal; a refusal is an error result and changes nothing that is shared |
| Orchestrator.ChatOrchestrator.Resume | agent-server/src/chat.rs:1160-1248 | only the winner of the claim goes on, from the stored history and counters; losing is reported as a missing approval, a continuation that does not decode and a stale approval exactly in those cases, and an approved tool has been started by the winner when there is a response; the approval stays claimed by the winner with its decision, or used by it if the client approved; the outcome is complete or stored as for a new chat |
| Orchestrator.ChatOrchestrator.RunNewChat | agent-server/src/chat.rs:1129-1158 | exactly an empty request is refused as such; otherwise the returned history is the request's messages followed by a generated part that is complete or stored, with its deltas, or an error with its reason, as `RunLoop` says |
| Orchestrator.CompletedHistoryIsAnswered | agent-server/src/chat.rs:1250-1485 | through any pauses and resumes a completed history answers every generated call once, in order, directly after its response, within the output limit |
| Orchestrator.StoredCallIsContained | agent-server/src/chat.rs:2035-2044 | what the store hands out always passes the check that the continuation contains the call |
| Keys.ScopedApprovalKeyInjective | agent-server/src/chat.rs:2046-2052 | different chat, call and capability strings never share a key, whatever separators they contain |
| Keys.RedisKeyInjective | agent-server/src/approval.rs:159-168 | different chat and call strings never share a Redis key |
| ApprovalStore.MemoryPendingApprovalStore.Save | agent-server/src/approval.rs:88-116 | expired, duplicate and overflowing saves are refused; any other replaces nothing and expires after the time to live |
| ApprovalStore.MemoryPendingApprovalStore.Claim | agent-server/src/approval.rs:118-139 | the entry is removed in any case and returned only while it is live |
| ApprovalStore.MemoryPendingApprovalStore.PruneExpired | agent-server/src/approval.rs:142-145 | exactly the live entries stay |
| ApprovalStore.ClaimHasItsSave | agent-server/src/approval.rs:88-145 | in any sequence of saves and claims, an approval that is handed out was saved, not claimed since, and neither its deadline nor its time to live has passed |
| ApprovalStore.ClaimedAtMostOnce | agent-server/src/approval.rs:118-139 | two claims of a key that both succeed have different saves, the second after the first claim |
| ApprovalStore.UnclaimedIsKept | agent-server/src/approval.rs:88-145 | until its deadline and its time to live an approval that nobody claimed is handed out to the next claim |
| ApprovalStore.SaveIsAccepted | agent-server/src/approval.rs:88-139 | in any sequence of operations a save is accepted exactly when its approval is in time, can expire later and no other is still waiting under its key, and a claim hands one out exactly when one is waiting |
| Sessions.StepKeeps | agent-server/src/backend.rs:66-191 | every step of requests, sweeper, guards and orchestrators keeps the invariant: the use counter of a session is the number of its leases, at most one, and no two chats share a session |
| Sessions.LeasesAreExclusive | agent-server/src/backend.rs:381-430 | in every run two leases are never on the same session |
| Sessions.ResumeObtainsFreeSession | agent-server/src/backend.rs:381-430 | in every run a resume leases only a stored session that nobody holds and that is not orphaned |
| Sessions.RemovalIsSafe | agent-server/src/backend.rs:165-191 | in every run a session that the sweeper, an expired resume or a dropped guard removes is held by nobody else, and its chat owns no job |
| Sessions.OnlyExpiredGo | agent-server/src/backend.rs:381-518 | the sweeper, and a resume of its chat, remove a session exactly when its deadline has passed, nobody uses it and its chat has no work; a session without a deadline stays |
| Sessions.OrphanHasNoSuccessor | agent-server/src/backend.rs:116-191 | in every run an orphaned session that nobody holds is never leased again |
| Sessions.SessionRegistry.CreateSession | agent-server/src/backend.rs:301-339 | a new chat gets a free session of its own unless the id is taken; the invariant is kept |
| Sessions.SessionRegistry.StartChat | agent-server/src/backend.rs:538-546 | a new chat takes its lease without looking, and under the invariant, which is kept, it is the only one on that session |
| Sessions.SessionRegistry.SessionForResume | agent-server/src/backend.rs:381-408 | evicts an expired, unused session without work, reports a missing one, refuses a used or orphaned one and leases any other; the invariant is kept for a chat whose id has been handed out |
| Sessions.SessionRegistry.RememberSessionForResume | agent-server/src/backend.rs:410-430 | stores a restored session only if none is stored, and leases what is stored unless it is used or orphaned; the invariant is kept for a chat whose id has been handed out |
| Sessions.SessionRegistry.DisarmGuard | agent-server/src/backend.rs:105-114 | under the invariant, which is kept, nobody holds or uses the session afterwards, and it stays stored |
| Sessions.SessionRegistry.DropGuard | agent-server/src/backend.rs:165-191 | under the invariant, which is kept, nobody holds the session afterwards; it is still stored only if its chat owns a job, and then orphaned; other chats keep theirs |
| Sessions.SessionRegistry.SweepExpiredSessions | agent-server/src/backend.rs:507-518 | the loop removes exactly the expired, unused sessions without work, and keeps the invariant |
| Sessions.SessionRegistry.MarkApprovalExpiry | agent-server/src/backend.rs:473-490 | a session that is still stored cannot be swept or evicted before its new deadline, no session comes or goes, and the invariant is kept |
| Sessions.SessionRegistry.FinishSession | agent-server/src/backend.rs:520-533 | the chat's session stays exactly while the chat has work, other chats keep theirs, and the invariant is kept |
| Sessions.SessionRegistry.RemoveSessionIfSame | agent-server/src/backend.rs:457-471 | that orchestrator's session is gone, no other is touched even if the chat has a new one, and the invariant is kept |
| ToolRegistry.NoAba | agent-server/src/tool_registry.rs:340-343 | between two moments of a run with equal revisions nothing changed at any moment |
| ToolRegistry.Load | agent-server/src/tool_registry.rs:354-384 | opening the file of any reachable state gives back exactly its entries if every target can be looked up, and an unresolved target otherwise; what is loaded is keyed, valid, resolved and what the file holds |
| ToolRegistry.ReadRegistryFile | agent-server/src/tool_registry.rs:668-703 | a missing file is empty; it fails exactly if opening or reading fails or the file is oversized, undecodable or of another version, and gives the decoded tools otherwise |
| ToolRegistry.Registry.Install | agent-server/src/tool_registry.rs:564-616 | file and entries change together with a new revision, or neither changes; it fails exactly for an exhausted revision or an oversized file, or when the file system refuses |
| ToolRegistry.Registry.Register | agent-server/src/tool_registry.rs:387-413 | a registration that commits adds a name that was free at that very moment; each refusal is reported exactly for its reason, a concurrent modification only if there was one |
| ToolRegistry.Registry.Update | agent-server/src/tool_registry.rs:416-444 | an update that commits replaces the entry its caller saw, in a registry unchanged since; each refusal is reported exactly for its reason, a concurrent modification only if there was one |
| ToolRegistry.Registry.Remove | agent-server/src/tool_registry.rs:446-461 | exactly one entry goes, or nothing changes |
| ToolRegistry.Registry.SnapshotForRequest | agent-server/src/tool_registry.rs:470-498 | a snapshot is the whole registry, unchanged during the whole call, each entry with a schema that was looked up for that very registration during it; it fails only for a modification or a failed lookup |
| ToolRegistry.Registry.RevalidateForDispatch | agent-server/src/tool_registry.rs:501-556 | a revalidated target was registered and unchanged during the whole call and is the one offered, with the same schema and revision; it is stale only if one of these fails |
| StreamCollect.CollectChunk | agent-server/src/grpc.rs:660-676 | a chunk is taken exactly within both limits and if it decodes, and only then counted |
| StreamCollect.CollectStreamResult | agent-server/src/grpc.rs:678-833 | the outcome in every case: complete exactly for accepted chunks, one successful END and the end of the stream, with one chunk for each poll, its bytes, what they decode to and its kind; a callback failure exactly if a chunk was rejected, terminal exactly under the same framing; an error otherwise; the executor lets go of the job exactly under that framing; what is counted is the longest run of chunks within the limits |
| ResultWait.OwnedJob.ReceiveResult | agent-server/src/worker.rs:299-359 | one wait computes the specified outcome for a fresh or a kept result, wherever it is dropped; `WaitReports` says what that is |
| ResultWait.OwnedJob.WaitWithOwnership | agent-server/src/worker.rs:221-263 | a job is consumed and leaves the executor's map exactly by a wait that accepts a result; later waits of holders are told so, and others that it is not owned |
| ResultWait.FirstWaitReleases | agent-server/src/worker.rs:299-359 | the first wait releases the job exactly for a result that matches job, worker and method, followed by the end of the stream |
| ResultWait.WaitReports | agent-server/src/worker.rs:221-359 | what every wait of every run reports, from the stream and the outcomes before it: the value of the first result exactly when it succeeded, its failure exactly when not, each of the three doubts, or that it was dropped |
| ResultWait.WaitReleases | agent-server/src/worker.rs:299-359 | in any sequence of waits, dropped or not, a wait releases the job exactly when it is not dropped, the first result matches and the earlier waits have read everything after it, one read for each that found something there |
| ResultWait.ReleaseIsFramed | agent-server/src/worker.rs:221-359 | the result of a released job was followed by the end of its stream if and only if no earlier wait found something after it |
| ResultWait.UnframedReleaseIsPossible | agent-server/src/worker.rs:299-359 | every stream whose first result matches and is not its last read leads some waits to a release all the same |
| ResultWait.SecondWaitForgetsTheDoubt | agent-server/src/worker.rs:299-359 | with two results and the end, the first wait is uncertain and the second accepts the first result |
| DirectConvert.Announce | ag-ui-front/src/direct.rs:423-431 | announces exactly the calls whose id was not announced before |
| DirectConvert.Emit | ag-ui-front/src/direct.rs:396-432 | emits the text a result adds, opening the message at its first character, then its new calls |
| DirectConvert.Convert | ag-ui-front/src/direct.rs:369-458 | the loop with its flags computes the converted stream |
| DirectConvert.DeltasAreTheText | ag-ui-front/src/direct.rs:396-422 | the deltas concatenate to the accumulated text, with terminal snapshots taken as they are |
| DirectConvert.SnapshotIsTheText | ag-ui-front/src/direct.rs:397-413 | the text is the last terminal snapshot followed by everything written after it |
| DirectConvert.TextIsAppended | ag-ui-front/src/direct.rs:414-422 | without a terminal snapshot the text is everything written, in order |
| DirectConvert.EachCallOnce | ag-ui-front/src/direct.rs:423-431 | each call id yields one contiguous START, ARGS, END triple with the id, name and arguments of its first occurrence, in order |
| DirectConvert.ErrorIsSingleAndLast | ag-ui-front/src/direct.rs:384-456 | the stream ends with RUN_ERROR exactly when the items fail, with the code of that failure, and has no other |
| DirectConvert.VerdictMeans | ag-ui-front/src/direct.rs:384-456 | said of the items alone: the stream succeeds exactly when all items, or those up to an END without failure, decode and do not contradict the text before them and one of them is done; each failure code belongs to exactly one way of failing; the results taken are those before the stop |
| DirectConvert.ConvertedFeeds | ag-ui-front/src/direct.rs:384-453 | the text message is closed by the time the stream fails or ends |
| DirectPipeline.Merge | ag-ui-front/src/direct.rs:73-129 | the loop computes the merged stream for every moment the job's outcome may arrive |
| DirectPipeline.MergedSucceeds | ag-ui-front/src/direct.rs:73-140 | the merged stream reports no failure exactly when neither the stream nor the job does |
| DirectPipeline.MergedErrors | ag-ui-front/src/direct.rs:73-140 | for every stream, arrival and outcome there are at most two RUN_ERRORs, and two exactly when the job fails and its outcome arrives after the stream's first RUN_ERROR |
| DirectPipeline.MergedEnd | ag-ui-front/src/direct.rs:73-129 | the first failure of the merged stream is the job's exactly when the job fails and the stream has none or a later one, and the stream's own otherwise |
| DirectPipeline.MergedCanFailTwice | ag-ui-front/src/direct.rs:93-127 | the smallest case of two failures: a failed stream and then a failed job |
| DirectPipeline.Produce | ag-ui-front/src/direct.rs:245-330 | the producer stores the trace and reports the state that go with the moment its cancel is seen |
| DirectPipeline.ProducedShape | ag-ui-front/src/direct.rs:274-328 | whatever well-bracketed source feeds it, the producer stores a body without terminal events and then exactly one: the cancel if it is seen first, the source's first terminal event, or RUN_FINISHED |
| DirectPipeline.StoredTrace | ag-ui-front/src/direct.rs:73-335 | for all items, every arrival of the outcome and every cancel, the stored trace is RUN_STARTED, a body whose text is opened and closed at most once, and one terminal event: RUN_FINISHED exactly for an uncancelled run whose items succeed and whose job does, and the code of each other ending exactly in its case |
| DirectPipeline.StoredText | ag-ui-front/src/direct.rs:73-456 | the stored text is a prefix of the worker's text, and all of it when the run finished |
| DirectPipeline.StoredTools | ag-ui-front/src/direct.rs:73-456 | the stored tool events are a prefix of the worker's calls as triples, and all of them when the run finished |
| DirectPipeline.StoredIsPrefix | ag-ui-front/src/direct.rs:73-335 | what is stored after RUN_STARTED is a prefix of the converted stream and the events that close it, and all of it when the run finished |
| DirectRuns.StepKeeps | ag-ui-front/src/direct.rs:158-230 | every step of producer, watcher and requests keeps the run's invariant, and nothing is stored after the terminal event |
| DirectRuns.NothingFollowsTheTerminal | ag-ui-front/src/direct.rs:300-329 | once the terminal event is stored, the store never changes again |
| DirectRuns.StoresATrace | ag-ui-front/src/direct.rs:245-335 | with any requests the store holds a whole trace at the end and no terminal event before |
| DirectRuns.StateAgreesWithTerminal | ag-ui-front/src/direct.rs:299-329 | the session state is completed exactly with RUN_FINISHED, cancelled exactly when the cancel was seen first, and an error exactly with any other RUN_ERROR |
| DirectRuns.FoundReturnsAfterSettlement | ag-ui-front/src/direct.rs:205-229 | a cancel that found the run returns after the terminal is stored, the session state is terminal and the run is deregistered |
| DirectRuns.FoundIsCancelled | ag-ui-front/src/direct.rs:214-229 | a cancel that found the run has deleted its job and then fired its token; unless the producer had taken its terminal event or seen the end of its source by then, the session is cancelled and the store ends with that report |
| DirectRuns.CancelStops | ag-ui-front/src/direct.rs:278-328 | once the token has fired, a run that has not taken its last event stores nothing more of its source but an event it had already taken, closes its text and reports the cancel, and its session ends cancelled |
| DirectRuns.CancelledWasAsked | ag-ui-front/src/direct.rs:214-229 | the token fires only for a request |
| DirectRuns.RequestsWriteNothing | ag-ui-front/src/handler.rs:103-119 | a DELETE that finds no registration finds a terminal state and writes nothing |
| DirectRuns.RunStoresOneTerminal | ag-ui-front/src/direct.rs:158-335 | end to end, a registered run stores one well-formed trace whose terminal event is the one `StoredTrace` gives, never a cancel that nobody asked for, and its session ends completed, cancelled or in error exactly with that event |
| History.RequestToDomain | agent-server/src/backend.rs:1042-1155 | the loop accepts exactly the message lists of the specification and gives their history |
| History.ConvertCalls | agent-server/src/backend.rs:1075-1100 | accepts exactly non-empty call lists with distinct, non-blank ids and non-blank names |
| History.ConvertResults | agent-server/src/backend.rs:1101-1133 | accepts exactly one result per pending call, in any order, under its name, and fills the names in |
| History.DomainHistoryToHttp | agent-server/src/backend.rs:1206-1238 | the loops compute the conversion that merges consecutive TOOL messages and hides system messages |
| History.ToHttpConcat | agent-server/src/backend.rs:1206-1238 | a history is converted piece by piece, wherever no piece begins within a run of TOOL messages, and fails exactly if a piece does |
| History.RoundTrip | agent-server/src/backend.rs:1023-1349 | an accepted message list comes back as its non-system messages with the names filled in, one message for each, and nothing comes back exactly when one of them holds an execution directive |
| History.ComesBackAsSent | agent-server/src/backend.rs:1023-1349 | message by message: what comes back is the non-system message that was sent, each result with its id, content and error flag and the name of the call it answers |
| History.AcceptedIsCarried | agent-server/src/backend.rs:1042-1155 | message by message: the domain history holds the role, text, image, calls and results that were sent, each result with its content and error flag under the name of the call it answers |
| History.DirectiveAtAnyDepth | agent-server/src/backend.rs:1439-1452 | an execution directive is found at any depth, and nothing else is taken for one |
| History.Idempotent | agent-server/src/backend.rs:1023-1349 | converting what came back gives the same history again |
| History.ImageRoundTrip | agent-server/src/backend.rs:1270-1280 | an image survives the domain form and never looks like text or like a directive |
| NextRequest.ValidateChatMessages | agent-server/src/http.rs:1113-1157 | accepts exactly the lists all of whose messages are allowed where they stand |
| NextRequest.ConvertedIsValid | agent-server/src/http.rs:1113-1211 | whatever converts to a history passes validation |
| NextRequest.ConvertsIffValid | agent-server/src/http.rs:1113-1211 | the two checks of a request agree: a list without system messages converts exactly when it passes validation, no message carries a call id of its own and the names its results give are those of their calls |
| NextRequest.CompletedHistoryIsReturned | agent-server/src/backend.rs:1206-1349 | a completed chat returns the request's messages, as many as its history had, and then what was generated, merged per turn, and returns nothing exactly when something in it must not be shown |
| NextRequest.CompletedHistoryIsAccepted | agent-server/src/http.rs:1113-1211 | that history is accepted as the next request, by validation and by conversion, exactly when no generated call id is blank |
| CompletedChat.ReadTurns | agent-server/src/chat.rs:1375-1485 | a checked history that owes nothing, read in domain form, is a sequence of turns, one for each response, whose calls are distinct, named and answered in order |
| CompletedChat.CompletedReads | agent-server/src/chat.rs:1343-1372 | what a completed chat generated is such a sequence followed by one final content |
| CompletedChat.CompletedChatIsNextRequest | agent-server/src/backend.rs:1161-1349 | the whole way round, for a history that begins with the converted request: exactly when the final content is a text and nothing must be hidden, the client gets its messages and the generated ones back, and it may send them as the next request exactly when no generated call id is blank |
| TextSink.Sink.OnTextDelta | agent-server/src/backend.rs:615-634 | for every turn the client has got exactly the recorded prefix of what the model emitted, all of it until a delta was refused; a refused delta stops its turn |
| TextSink.Sink.StreamDeltas | agent-server/src/model.rs:46-62 | the text to be checked is everything the model emitted, the client has got exactly the deltas before the first one that was refused, and other turns are untouched |
| TextDelivery.ResponseEvents | agent-server/src/backend.rs:1351-1407 | reconciliation succeeds exactly when the generated messages continue what was delivered, and yields what is missing |
| TextDelivery.FinalTextIsDelivered | agent-server/src/backend.rs:1351-1407 | for every pattern of refused deltas, a final text that continues what was emitted in its turn is reconciled, and the live deltas of the turn followed by the missing part are exactly that text |
| StreamedChat.PlayedToHttp | agent-server/src/backend.rs:1206-1349 | messages generated before the final one come back without text, and with as many turns as they have responses |
| StreamedChat.ReturnedParts | agent-server/src/backend.rs:606-660 | what comes back is the request's part, exactly as long as the message count the stream remembers, and the generated part |
| StreamedChat.CompletedPart | agent-server/src/backend.rs:1362-1371 | the generated part of a completed chat ends with its only text, and the turn of that text is the number of responses less one |
| StreamedChat.CompletedIsDelivered | agent-server/src/backend.rs:1351-1407 | what the chat loop guarantees of a completed chat and its sink is enough for the reconciliation to deliver the final text exactly |
| StreamedChat.PausedIsSilent | agent-server/src/backend.rs:1351-1407 | the reconciliation of a paused chat succeeds and sends no text |
| StreamedChat.StreamChat | agent-server/src/backend.rs:931-985 | from the request to the last event: the reconciliation never fails, a completed chat's live deltas of the last turn and the late ones are exactly the text it returns, and a paused chat sends none late |
| Schedule.NextIsOnSchedule | app/src/app.rs:301-329 | the next run is on the schedule of its base, after it, and not before now |
| Schedule.CatchUpIsLeast | app/src/app.rs:314-327 | when catching up, the next run is the first scheduled time after now |
| Schedule.OnTimeIsLeast | app/src/app.rs:306-315 | otherwise it is the first scheduled time after its base |
| Schedule.ChainKeepsSchedule | app/src/app.rs:267-329 | all runs of a chain are on the first one's schedule, strictly later than the one before and not before they were computed, whenever the clock is past the epoch or the first run is not before it |
| Schedule.StepStaysOnSchedule | app/src/app.rs:306-328 | one step stays on the previous run's schedule exactly when that run had a time or its start fits it |
| Schedule.RetriesAreBounded | app/src/app.rs:208-264 | under a carried policy a job is retried at most as often as the policy allows, and not again after that |
| Schedule.RetryRunsAfterDelay | app/src/app.rs:208-264 | each retry of a chain runs at the end of the failed run plus the delay the carried policy gives for the retries so far, or at once if it gives none |
| Schedule.RetriedExactly | app/src/app.rs:208-264 | a job is retried exactly after an error that asks for it, under a policy of its own or else the worker's that still allows it |

## Left out

- JobOwnership.StepKeeps: an execution waits for its job once, as the chat loop does; repeated waits on one job are in `ResultWait`.
- ResultWait.OwnedJob.ReceiveResult: decoding a result's output and checking its size are one given value.
- JobOwnership.OneDeleteInFlight: the timeouts around a Delete are not modelled separately; a Delete ends confirmed, unconfirmed or dropped.
- CancelRuns.NoJobSlipsPast: a cancellation that fails gives its claim back, so the lemma says that a job has been under a cancellation, not that it still is.
- Orchestrator.ChatOrchestrator.Execute: tracking the started job and cancelling it after a timeout are in `JobOwnership`; here the outcome is arbitrary.
- Orchestrator.ValidateTools: the check of a single registered tool, and the order by name in which the tools are offered, are not modelled.
- Orchestrator.ChatOrchestrator.AskModel: the model's options, the prompt and the tool definitions sent to it are not modelled.
- Sessions.RemovalIsSafe: is about the sweeper, an expired resume and a dropped guard. Orphan cleanup removes a session when its cancel request returns true without looking at the tracker again, so a job that another canceller holds is not covered there; removal by chat id at the end of a chat may meet a newer session.
- Sessions.LeasesAreExclusive: is about leases. A streaming chat runs on its session without taking one, so while it runs a resume of the same chat is not excluded by a lease.
- Sessions.SessionRegistry.SessionForResume: states the invariant only for a chat whose id has been handed out; with the id of a chat that is still starting, the start would take a second lease without looking.
- Sessions.SessionRegistry.RememberSessionForResume: states the invariant under the same condition.
- Sessions.SessionRegistry.SweepExpiredSessions: reading the tracker and removing the session are one step.
- DirectRuns.StepKeeps: starts at registration; event encoding succeeds and the producer does not panic. The short time between the creation of the session and the registration is not covered.
- DirectConvert.EachCallOnce: holds for the converted stream; a cancel or a failed job may cut a triple in the stored trace.
- Orchestrator.ChatOrchestrator.Converse: reading text out of a chunk's JSON is not modelled; the deltas are given.
- Schedule.NextIsOnSchedule: does not model 64-bit overflow of epoch milliseconds.
- Tool-call and tool-result progress events, which the queue may drop without a trace.
- gRPC, Redis, HTTP and SSE transport and framing, authentication, configuration and start-up.
- The Redis approval store apart from its keys, skill catalogs, prompt templates, runner factories.
- The workflow event streams of the AG-UI front end, and `upsert_tool`, whose list-then-update is not one step.
- JSON, protobuf and JSON Schema themselves: codecs are functions with an inverse law, validators are arbitrary predicates.
