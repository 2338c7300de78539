# Forge verification

A Dafny model of the Forge runtime and of the adapters whose correctness it leans on, with proofs about
every run of it.

## What is modelled

**The runtime** (`Lifecycle`, `Tables`, `Transactions`, `Runtime`). The tables of missions, tasks, attempts,
operations, artifacts, metrics, claims, evidence, bundles, approvals, audits and outbox events are one value.
Every `with unit_of_work` block of the use cases is a function from the committed tables to the next ones; an
error is an exception, which rolls back. `Runtime.World` adds what is outside the tables: the clock, the blob
directory, the two delivery lanes, the accepted sandbox stops, what was handed to git, and the calls in
progress. A call of a use case is a *session* whose program counter says which transaction or effect comes
next and what it remembers; sessions interleave at every step, and `Crash` ends one anywhere. Identifiers
that the generator mints, sandbox results, commit ids and bundle bytes are arguments of the steps, so a run
may take any of them.

**The proofs about it.** `Changes` states the effect of every transaction as a relation between the tables before and
after. `Completion`, `Ledger`, `EvidenceGate`, `Approvals`, `Routing`, `Leases`, `Recovery` and `Cancellation` each
hold one part of the invariant and show which effects keep it and why; `Invariant` puts them together. `Sessions` says
what a call may rely on between its steps and that nobody takes it away. `Safety`, `Effects` and `Steps` show that
every step keeps the whole invariant, and `History`, `Theorems`, `Fairness` and `Outbox` draw the conclusions over
runs. `Acceptance` says exactly when each transaction is accepted and what it grants, in terms of the rows that a
caller sees; `Decisions` says what is left of those checks in a reachable state. `Attainment` shows that the states
those conclusions speak of are reached: it builds runs that complete, repair and cancel a mission, from every
reachable state and for all inputs that pass.

**The code's own form.** `Entities` has the domain objects with their fields and in-place methods. `InMemory` is the
in-memory unit of work as an object structure: tables of entity objects, a deep copy on entry, and objects that
callers fetch and change in place. `UseCases` runs each transaction on it, statement by statement: objects are
fetched, their methods are called in the code's order, records are added, and the context is closed by a commit or by
the exception; what is committed is proved to be what the transaction's function says, and a context that raises
half-way leaves the committed objects alone. `Calls` has the whole `execute` of each use case, and the two workers'
`process`, as methods in which the rest of the system does anything between two steps; each is shown to be a run of
the transition system, so every theorem applies to it, and a call that raises was refused at one of its steps. The
candidate is prepared there on the candidate repository of `GitWorktree`, whose commits `Candidates` ties to the
approvals.

**The adapters.** `GitWorktree` is the candidate worktree, one git command at a time. `RedisLane` is a stream lane
with interleaved consumers and `RedisTaskQueue` the adapter's own loop against it. `ResultStore` with
`ResultCodec` is the broker's completed-result store, `LocalCas` the blob directory, `JsonPointer` the metric
pointer of RFC 6901, and `RankFusion` the reciprocal rank fusion of the retriever.

## What the proofs found

* A run whose stdout, stderr or an output file is empty cannot be stored by the broker: the empty field encodes to
  the empty string, which the reader refuses (`ResultCodec.Storable` is the exact condition, `ResultCodec.QuietRun`
  an ordinary run that is refused).
* A patch that creates a file is committed without it, and the file is outside the checked budget. The committed
  worktree is dirty, and recovery of the operation refuses it, exactly when the patch created a file
  (`GitWorktree.CandidateRepository.CommitCandidate`); from then on it stays dirty, and no recovery of any operation
  succeeds (`GitWorktree.CandidateRepository.Serve`), not even of one that had succeeded.
* An entity object that a caller keeps past the commit is the committed object
  (`InMemory.InMemoryUnitOfWork.CallAfterCommit`), and so is one that was fetched outside a context.
* Adding an operation under a known id with another key breaks the key index; the code relies on fresh ids
  (`InMemory.AddingKeepsIndexIff`).
* The pointer evaluator reads tokens that RFC 6901 does not allow, such as a lone `~`
  (`JsonPointer.EscapeUnescapeIffWellEscaped`).
* A late decision leaves the approval object expired, but the transaction rolls back, so EXPIRED is never stored
  (`Entities.Approval.Decide`, `Theorems.GrantedBeforeExpiry`).
* The dead-letter script acknowledges without naming the consumer group
  (`backend/research_forge/adapters/outbound/queue/redis_queue.py:66`); the model has the move that the code around it
  relies on: one pending entry becomes one dead letter, or nothing changes.

## Assumptions

Minted identifiers are new. Clock readings do not decrease, and a transaction happens at its reading. The lease,
approval and stale durations are positive, as the constructors demand. SHA-256 is injective (`Content.Digest` holds
its preimage), and so is the canonical text of a payload. Which byte strings are JSON documents is any function of
the bytes (`Transactions.JsonOf`). The prepare transactions of `UseCases` start from a key index that fits the
operations, as it does in every reachable state. Idempotency keys are the pairs of attempt id and slot that
the two workers build. The server side of Redis, git and the file system follow the contracts of the single commands
as written in their modules.

## Model

| member | source | states |
|---|---|---|
| Steps.StepGood | backend/research_forge/application/use_cases/persist_artifact.py:42-175 | every step of the running system, whichever call it belongs to and whoever else is in the middle of one, keeps the system invariant; commits at most one legal transaction and only adds to what is outside the tables |
| Theorems.ReachableSafe | backend/research_forge/application/use_cases/finalize_baseline_execution.py:70-156 | the invariant holds after any run, with any interleaving of calls and any crashes |
| Theorems.RunsOnlyMoveForward | backend/research_forge/adapters/outbound/persistence/in_memory.py:99-139 | over any run, finished missions, tasks, attempts, operations and approvals keep their rows, a cancelling mission can only end cancelled or failed, and registrations, metrics, claims, bundles, audits and outbox events are never rewritten |
| Theorems.CompletedPassedTheGate | backend/research_forge/application/use_cases/complete_reproduction_mission.py:127-206 | in every reachable state a completed mission has a bundle of an attempt of its own, a metric of that attempt that lies in the range of the frozen expectation and is the number found in the bytes of the registered metric artifact, at least one claim, and only verified claims with a metric link and a log link whose bytes can be read back; the completing transaction itself checks none of it |
| Theorems.VerifiedResultExactlyWhenCompleted | backend/research_forge/application/use_cases/get_verified_result.py:23-61 | the observer answers exactly for completed missions that came from a proposal, and refuses every other one |
| Theorems.VerifiedResultStands | backend/research_forge/application/use_cases/get_verified_result.py:23-61 | what it answered once it answers in every later state |
| Theorems.OnlyApprovedBytesReachGit | backend/research_forge/application/use_cases/prepare_repair_candidate.py:57-100 | in any run, a diff that was handed to git is byte for byte one that approval was asked for and granted before it expired, for the attempt that resumes from the asking one, and the commit request carries the limits of the mission's spec |
| Theorems.CandidatesAreApproved | backend/research_forge/application/use_cases/prepare_repair_candidate.py:109-160 | every candidate operation has an approved approval of its mission and task whose attempt its own attempt resumes, and its input is the digest of the diff that approval was asked for |
| Theorems.SuccessIsFenced | backend/research_forge/domain/execution/operation.py:57-67 | an operation of any type turns SUCCEEDED only in a step where its attempt holds the live lease of exactly the epoch it was prepared in |
| Theorems.SuccessIsFinal | backend/research_forge/domain/execution/operation.py:57-67 | SUCCEEDED and the result reference never change afterwards, in any run |
| Theorems.CompletionHappensOnce | backend/research_forge/application/use_cases/complete_reproduction_mission.py:331-367 | completed if and only if a bundle is recorded, if and only if exactly one attempt of the mission has succeeded, if and only if exactly one task has; otherwise none has |
| Decisions.FactsAreCollectedIff | backend/research_forge/application/use_cases/complete_reproduction_mission.py:127-206 | in every reachable state the gate opens exactly for the holder of the lease, while the mission verifies, with a metric of the attempt and a claim of the mission |
| Decisions.CompletionIsAnsweredAgain | backend/research_forge/application/use_cases/complete_reproduction_mission.py:109-125 | asking again is answered with the recorded bundle exactly when the mission is completed, and goes on otherwise |
| Decisions.DemandIsJudged | backend/research_forge/application/use_cases/finalize_baseline_execution.py:80-156 | which failure code a run gets, stated as one judgement of the whole run in the order of the requirements: at every stage of the call, what it does next is what the judgement says, and it registers the run exactly if the run passes |
| Decisions.FailedRunIsRecorded | backend/research_forge/application/use_cases/finalize_baseline_execution.py:276-310 | a run that does not pass ends its call and leaves the failed attempt with the code of its judgement, exactly if the call may still fail it; otherwise nothing changes |
| Decisions.EvidenceFitsBudgets | backend/research_forge/application/use_cases/finalize_baseline_execution.py:84-118 | in every reachable state the two artifacts behind a claim fit the log and the artifact budget of the spec |
| Decisions.ArtifactsAreFiled | backend/research_forge/application/use_cases/finalize_baseline_execution.py:89-129 | in every reachable state logs are registered as text, metrics as JSON, patches as diffs and bundles as archives |
| Theorems.OneTaskOfEachKind | backend/research_forge/application/use_cases/finalize_baseline_execution.py:311-353 | exactly one baseline task a mission, at most one repair task, and a repair task only beside a failed baseline task |
| Theorems.ApprovalsAreCoupled | backend/research_forge/application/use_cases/resolve_approval.py:31-96 | at most one pending approval a mission, exactly one while it waits, none while it is ready, running, verifying or completed; as many attempts with a resume parent as granted approvals, in all and for each parent |
| Theorems.GrantedBeforeExpiry | backend/research_forge/domain/approval/model.py:39-62 | a granted approval was decided strictly before it expired, and EXPIRED is never stored |
| Decisions.ApprovalsExpire | backend/research_forge/application/use_cases/request_repair_approval.py:88-100 | in every reachable state an approval expires exactly one time to live after it was asked for |
| Decisions.PendingIsDecidedIff | backend/research_forge/application/use_cases/resolve_approval.py:31-96 | in every reachable state a decision is accepted exactly when the approval is pending, less than its time to live has passed since it was asked for, and its mission waits; a rejection also while the mission is being cancelled, but only of an unfinished task |
| Decisions.DecisionIsRecorded | backend/research_forge/application/use_cases/resolve_approval.py:31-96 | an accepted decision is recorded with its time and its decider and ends the wait of the mission; a refused one leaves no trace |
| Decisions.ContextIsLoadedIff | backend/research_forge/application/use_cases/prepare_repair_candidate.py:109-160 | in every reachable state the checks before a candidate is made come down to the lease, a granted approval, an attempt that resumes the asking one and a repair spec; what is loaded is the diff that was asked for and the limits of the spec |
| Theorems.LeasesNeverOverlap | backend/research_forge/domain/mission/model.py:192-204 | the epoch counts the leases and never exceeds the version, and no instant lies in two leases of one attempt |
| Acceptance.ClaimIsAcceptedIff | backend/research_forge/domain/mission/model.py:192-204 | a claim is accepted exactly for an unfinished task and an attempt that is pending, retryable, or running with a lease that has expired; it is refused as a lost lease exactly while a running attempt has its lease |
| Acceptance.ClaimGrants | backend/research_forge/application/use_cases/claim_baseline_attempt.py:35-68 | the token of a claim has the next epoch and the claimer as its owner, and holds the lease for exactly the lease time; no token from before holds it any more; task and mission run |
| Acceptance.RenewalGrants | backend/research_forge/application/use_cases/renew_attempt_lease.py:30-44 | a heartbeat is accepted exactly from the holder of the lease, and gives a token that holds it for exactly the lease time from then on, while the old one is out of date |
| Decisions.HeartbeatKeepsLease | backend/research_forge/application/use_cases/renew_attempt_lease.py:30-44 | a heartbeat of the holder keeps the lease for exactly the lease time from then on, under the next version; that of anybody else leaves no trace |
| Acceptance.LeaseCheckIff | backend/research_forge/domain/mission/model.py:271-279 | the check passes exactly for the owner, epoch and version of a running attempt strictly before the expiry, and names the first thing that is wrong otherwise: the version, the status, the lease |
| Attainment.UnfinishedAttemptIsTakenOver | backend/research_forge/domain/mission/model.py:192-204 | from every reachable state, however an attempt was left, any worker can get its lease under the next epoch once the one that is held has expired, as long as attempt and task are not finished |
| Theorems.DeadEpochStaysDead | backend/research_forge/domain/mission/model.py:271-279 | once an epoch is superseded, finished or expired, no token of it, for any owner and version, passes the lease check in any later state |
| Theorems.NoWorkIsLostOrMisrouted | backend/research_forge/application/use_cases/publish_pending_outbox.py:32-57 | in every state, one between publish and mark included, each attempt has an unmarked event or was put on its own lane, and never on the other one |
| Theorems.LedgerAgreesWithBlobs | backend/research_forge/application/use_cases/persist_artifact.py:139-175 | a blob operation has succeeded if and only if it has a registration; digest, result reference, attempt and bytes agree |
| Theorems.BundleIsItsRegistration | backend/research_forge/application/use_cases/complete_reproduction_mission.py:343-353 | the bundle recorded for a mission is the artifact that the bundle operation of its attempt registered |
| Theorems.ArtifactsAreWriteOnce | backend/research_forge/adapters/outbound/persistence/in_memory.py:99-104 | a registration is the same in every later state, and its bytes can be read there |
| Decisions.PutIsAdoptedLater | backend/research_forge/application/use_cases/persist_artifact.py:123-137 | a put that was begun can be begun again in every later state under the same epoch: nothing is added, and once the artifact is registered the answer is that registration |
| Acceptance.VerifiedReadIff | backend/research_forge/adapters/outbound/artifacts/local_cas.py:51-59 | a read is answered with bytes exactly when the blob of that digest holds them, they have that digest, and they have that size |
| Theorems.CancellationWins | backend/research_forge/domain/mission/model.py:130-137 | no run leads a cancelling mission back to running, verifying or completed |
| Theorems.NothingStartsWhileCancelling | backend/research_forge/application/use_cases/persist_artifact.py:104-105 | over any stretch of a run in which a mission stays cancelling, it gets no worktree, sandbox or blob operation and no artifact |
| Theorems.CancelledWasStopped | backend/research_forge/application/use_cases/cancel_baseline_attempt.py:29-81 | a cancelled mission has an attempt cancelled with its task, whose sandbox stop was accepted while that attempt held its lease |
| Theorems.RecoveriesAreSpaced | backend/research_forge/application/use_cases/reconcile_stale_operations.py:30-58 | k recovery requests for one operation take at least k stale intervals from its creation |
| Theorems.OperationsKeepTheirIdentity | backend/research_forge/domain/execution/operation.py:77-82 | key, attempt, type, input, epoch, target and creation time of an operation never change |
| Fairness.StaleOperationsArePicked | backend/research_forge/adapters/outbound/persistence/in_memory.py:161-170 | an operation that has been open and untouched for longer than the stale interval, with j older ones, is taken by one of the next floor(j / limit) + 1 reconciler runs unless something else updated it before |
| Fairness.ReconcilerTakesIff | backend/research_forge/application/use_cases/reconcile_stale_operations.py:30-58 | a reconciler run updates exactly the overdue operations that have fewer than `limit` overdue ones before them, and leaves every other operation as it is |
| Fairness.ReconcileSucceeds | backend/research_forge/application/use_cases/reconcile_stale_operations.py:30-58 | in a reachable state a reconciler run raises exactly for a limit that is not positive: every stale operation has its attempt and task |
| Outbox.FetchIsInOrder | backend/research_forge/adapters/outbound/persistence/in_memory.py:197-201 | the publisher fetches the first unmarked events in the order of the outbox, each as often as it is there, as many as the smaller of the limit and their number; no event that is left out stands before one that is fetched |
| Outbox.WaitingEventsAreAnnounced | backend/research_forge/application/use_cases/publish_pending_outbox.py:32-44 | an event with j unmarked ones before it is on its lane and marked after floor(j / limit) + 1 publisher calls that return, whatever else happens during and between them |
| Attainment.PassingResultIsReported | backend/research_forge/application/use_cases/finalize_baseline_execution.py:70-156 | the other direction of the gate: from any reachable state, for every spec, every result that passes its checks and every bundle, some run leads to a new completed mission of that spec whose observer reports that value and that bundle |
| Attainment.AnyDiffCanBeApproved | backend/research_forge/adapters/inbound/worker/repair_worker.py:39-92 | from any reachable state, every unified diff can be approved for a new repair mission after a failing baseline run, is handed to git with the limits of the spec, and its commit is recorded |
| Attainment.CancellationIsAttained | backend/research_forge/application/use_cases/cancel_baseline_attempt.py:29-81 | from any reachable state some run opens a mission of any spec, cancels it while its attempt runs, and confirms the cancellation |
| Attainment.ArtifactKept | backend/research_forge/application/use_cases/persist_artifact.py:42-175 | an undisturbed put, for whichever call, registers its artifact, leaves its bytes in the blob directory, and touches no mission, task, attempt or evidence |
| Sessions.SessionStays | backend/research_forge/application/use_cases/complete_reproduction_mission.py:78-107 | what a call in progress relies on between its transactions is not taken away by any transaction of another call |
| Steps.FactsOpenGate | backend/research_forge/application/use_cases/complete_reproduction_mission.py:141-161 | the checks of the collecting transaction establish the gate: a metric of the attempt and a claim of its mission |
| Steps.ContextAuthorized | backend/research_forge/application/use_cases/prepare_repair_candidate.py:112-160 | a loaded repair context is authorized by the approval, holds the approved bytes, and carries the limits of the spec |
| Steps.DemandProven | backend/research_forge/application/use_cases/finalize_baseline_execution.py:130-156 | a result reaches registration only after its metric artifact and log artifact were registered, and the recorded number is what the pointer finds in the bytes of that metric artifact, and passes |
| Steps.FoundPutIsRegistered | backend/research_forge/application/use_cases/persist_artifact.py:130-135 | an artifact that the persister finds registered is the one it would register now |
| Safety.CommitGoodWith | backend/research_forge/application/use_cases/persist_artifact.py:94-136 | a transaction that keeps the invariant of the tables keeps every session, lease history, hand-over and proposal valid |
| Completion.FinishesMissionCompletions | backend/research_forge/application/use_cases/complete_reproduction_mission.py:331-367 | the completing transaction finishes one mission, one task and one attempt together with the bundle |
| Completion.CompletionsKept | backend/research_forge/domain/mission/model.py:121-143 | every other transaction leaves the completion invariant alone |
| Completion.SchedulesRepairTaskShape | backend/research_forge/application/use_cases/finalize_baseline_execution.py:311-327 | scheduling repair work keeps at most one repair task, beside a failed baseline task |
| Ledger.FinishesPutSettled | backend/research_forge/application/use_cases/persist_artifact.py:150-175 | finalizing a put, after its blob was written, keeps operation, registration and blob in agreement |
| Ledger.SettledWithMoreBlobs | backend/research_forge/adapters/outbound/artifacts/local_cas.py:26-49 | writing another blob disturbs no registration |
| Ledger.RegisteredIsReadable | backend/research_forge/adapters/outbound/artifacts/local_cas.py:51-59 | whatever is registered reads back byte for byte |
| EvidenceGate.RegistersResultGrounded | backend/research_forge/application/use_cases/finalize_baseline_execution.py:200-268 | registering a passed metric grounds its claim, its two links and its metric record in registered artifacts, the recorded number in the bytes of the metric artifact |
| EvidenceGate.GateStaysOpen | backend/research_forge/application/use_cases/complete_reproduction_mission.py:127-206 | a gate that was open once stays open, so the later completing transaction need not look again |
| EvidenceGate.FinishesMissionGrounded | backend/research_forge/application/use_cases/complete_reproduction_mission.py:331-367 | completing after the gate was open grounds the bundle |
| Approvals.AsksApprovalCoupled | backend/research_forge/application/use_cases/request_repair_approval.py:77-126 | asking for approval makes the one pending approval of a mission that now waits |
| Approvals.DecidedCoupled | backend/research_forge/application/use_cases/resolve_approval.py:35-95 | deciding takes away the only pending approval of its mission |
| Approvals.GrantsApprovalChildren | backend/research_forge/application/use_cases/resolve_approval.py:60-70 | each grant adds exactly one resuming attempt to the asking one |
| Approvals.AddsOperationAuthorized | backend/research_forge/application/use_cases/prepare_repair_candidate.py:173-200 | a candidate operation is prepared only for an authorized attempt and diff |
| Acceptance.CandidateIsPreparedIff | backend/research_forge/application/use_cases/prepare_repair_candidate.py:162-200 | a candidate operation is prepared exactly by the holder of the lease for a slot that is free or taken in this epoch by the same diff, and then it is the one that is there |
| Acceptance.ApprovalAuthorizesIff | backend/research_forge/application/use_cases/prepare_repair_candidate.py:112-152 | for any tables and blobs: a diff is loaded exactly if the approval was granted for a commit of this task and mission, the attempt resumes the asking one under its lease, the spec is one for repair, and the bytes of the approval are there, are this diff, and have the approved digest |
| Acceptance.CandidateIsFinishedIff | backend/research_forge/application/use_cases/prepare_repair_candidate.py:202-230 | it is finished exactly by the holder of the lease with the result that it has or its first one, which stays |
| Acceptance.UnifiedDiffIff | backend/research_forge/application/use_cases/prepare_repair_candidate.py:243-244 | what counts as a unified diff: it begins with the header of git and contains the two file lines and a hunk, each at a line start |
| Routing.OpensDelivered | backend/research_forge/application/use_cases/create_reproduction_mission.py:84-114 | the first attempt is stored together with its baseline event |
| Routing.RecoversOperationsDelivered | backend/research_forge/application/use_cases/reconcile_stale_operations.py:38-57 | every redelivery event is on the lane of its attempt's task type, with an id of its own |
| Routing.MarksEventDelivered | backend/research_forge/application/use_cases/publish_pending_outbox.py:36-43 | an event is marked only after it was put on its lane |
| Leases.LeaseLogMoves | backend/research_forge/domain/mission/model.py:192-269 | a claim opens an interval after every earlier one, a heartbeat extends the last one, a finish ends it |
| Leases.EpochOverRefused | backend/research_forge/domain/mission/model.py:271-279 | the lease check refuses all tokens of an epoch if and only if the epoch is over |
| Leases.DeadTokenStaysDead | backend/research_forge/domain/mission/model.py:271-279 | a token that was handed out and fails once fails ever after |
| Recovery.RecoversOperationsPaced | backend/research_forge/application/use_cases/reconcile_stale_operations.py:30-58 | a reconciler run keeps requests one stale interval apart |
| Recovery.RequestsAppended | backend/research_forge/application/use_cases/reconcile_stale_operations.py:48-52 | a run logs exactly one request for each operation it took |
| Cancellation.CancelsAttemptSound | backend/research_forge/application/use_cases/cancel_baseline_attempt.py:38-64 | confirming a cancellation after the accepted stop leaves the evidence of that stop |
| Changes.RecoverChange | backend/research_forge/application/use_cases/reconcile_stale_operations.py:38-57 | the loop touches each stale operation once and adds one audit row and one event for it, in order, and nothing else |
| Changes.ReconcileChange | backend/research_forge/adapters/outbound/persistence/in_memory.py:161-170 | the run takes exactly the oldest stale operations |
| Changes.ScheduleRepairChange | backend/research_forge/application/use_cases/finalize_baseline_execution.py:276-353 | a failing baseline run of a repair mission fails attempt and task, keeps the mission, and schedules the repair work unless there is some |
| Acceptance.RunFailsIff | backend/research_forge/application/use_cases/finalize_baseline_execution.py:276-310 | a run can be failed exactly by the holder of the lease, with an unfinished task, and a mission that can fail unless the repair mode keeps it |
| Acceptance.RunFailsWith | backend/research_forge/application/use_cases/finalize_baseline_execution.py:276-353 | it leaves the attempt failed with this code and without its lease, the task failed, and the mission failed or, for the baseline of a repair mission, as it was |
| Changes.RegisterChange | backend/research_forge/application/use_cases/finalize_baseline_execution.py:185-268 | registering writes the metric, one claim, its two links and the audit row, and moves a running mission to verifying |
| Acceptance.ResultIsRegisteredIff | backend/research_forge/application/use_cases/finalize_baseline_execution.py:185-274 | registering is accepted exactly under the lease with a complete record, in whatever state the mission is; once there is a metric of the attempt nothing changes |
| Changes.CompleteChange | backend/research_forge/application/use_cases/complete_reproduction_mission.py:322-368 | completing succeeds attempt, task and mission and records the bundle of the attempt's bundle operation |
| Acceptance.MissionIsCompletedIff | backend/research_forge/application/use_cases/complete_reproduction_mission.py:322-368 | completing is accepted exactly under the lease of a verifying mission with a running task and a bundle operation, unless another bundle is recorded |
| Acceptance.GateOpensIff | backend/research_forge/application/use_cases/complete_reproduction_mission.py:127-161 | for any tables: the gate opens exactly for the holder of the lease of a verifying mission with a metric, all of whose claims are verified and have a metric link, and one of them a log link; it answers with the metric of the attempt |
| Acceptance.ObserverIsAnsweredIff | backend/research_forge/application/use_cases/get_verified_result.py:23-43 | for any tables: the observer is answered exactly about a completed mission that came from a proposal, with a bundle, a metric of the attempt of the bundle, and claims that are all verified |
| Changes.RequestApprovalChange | backend/research_forge/application/use_cases/request_repair_approval.py:76-126 | asking pauses the mission, releases the attempt as retryable and stores the approval of the patch digest, which expires one time to live later |
| Acceptance.ApprovalIsAskedIff | backend/research_forge/application/use_cases/request_repair_approval.py:76-126 | asking is accepted exactly from the holder of the lease of a repair attempt whose task and mission run |
| Changes.ApproveChange | backend/research_forge/application/use_cases/resolve_approval.py:60-95 | granting resumes the mission with a fresh child attempt and its event |
| Changes.RejectChange | backend/research_forge/application/use_cases/resolve_approval.py:44-59 | rejecting fails task and mission |
| Acceptance.DecisionIsAcceptedIff | backend/research_forge/application/use_cases/resolve_approval.py:31-96 | for any tables: a decision is accepted exactly for a pending approval strictly before its expiry whose mission, and on rejection whose task, can make the move |
| Acceptance.DecisionLeaves | backend/research_forge/application/use_cases/resolve_approval.py:44-95 | it records who decided, when and how; a grant leaves a running mission and a pending child attempt with the next number, a rejection a failed task and a failed mission |
| Changes.CancelChange | backend/research_forge/application/use_cases/cancel_baseline_attempt.py:40-64 | cancelling ends attempt, task and mission in one transaction under the lease |
| Acceptance.CancellationIsAskedIff | backend/research_forge/domain/mission/model.py:130-134 | cancellation can be asked for exactly while the mission is ready, running, waiting or verifying |
| Acceptance.CancellationIsConfirmedIff | backend/research_forge/application/use_cases/cancel_baseline_attempt.py:29-64 | the sandbox is stopped exactly under the lease of a cancelling mission, and the cancellation confirmed if the task is not finished either |
| Changes.PreparePutChange | backend/research_forge/application/use_cases/persist_artifact.py:82-137 | preparing a put adds one operation under the lease and outside cancellation, or changes nothing |
| Acceptance.PutIsPreparedIff | backend/research_forge/application/use_cases/persist_artifact.py:82-137 | a put is prepared exactly under the lease, outside cancellation, for a slot that is free or taken in this epoch by the same bytes; the same put again changes nothing and is answered with the registration once there is one |
| Changes.FinishPutChange | backend/research_forge/application/use_cases/persist_artifact.py:139-175 | finalizing a put succeeds its operation and registers its artifact, and nothing else |
| Acceptance.PutIsFinishedIff | backend/research_forge/application/use_cases/persist_artifact.py:139-175 | a put is finalized exactly under the lease, outside cancellation, for an operation that can take this digest as its result and without another registration |
| Changes.PrepareSandboxChange | backend/research_forge/application/use_cases/run_baseline_attempt.py:85-164 | preparing a run adds one executing operation or begins the one that is there |
| Acceptance.SandboxIsPreparedIff | backend/research_forge/application/use_cases/run_baseline_attempt.py:85-164 | a sandbox run is prepared exactly under the lease, outside cancellation, for an offline spec and a slot that is free or holds the same run of this epoch that did not fail |
| Acceptance.SandboxIsFinishedIff | backend/research_forge/application/use_cases/run_baseline_attempt.py:166-186 | it is finished exactly under the lease with the result of this operation that it has or its first one, which stays |
| Acceptance.SandboxInputIff | backend/research_forge/application/use_cases/run_baseline_attempt.py:109-128 | two runs have the same input exactly when spec, path and arguments agree, where no arguments and one empty argument look alike |
| Acceptance.WorktreeIsPreparedIff | backend/research_forge/application/use_cases/ensure_baseline_workspace.py:71-122 | a worktree is prepared exactly under the lease, outside cancellation, for a slot that is free or taken in this epoch by the same repository and commit |
| Tables.OldestFirst | backend/research_forge/adapters/outbound/persistence/in_memory.py:161-170 | the stale query returns the oldest candidates, without repetition, oldest first, as many as the limit allows, and equally old ones in the order of their ids |
| UseCases.Forge.CreateReproductionMission | backend/research_forge/application/use_cases/create_reproduction_mission.py:60-114 | the initial objects and events, committed, are the specified initial tables |
| UseCases.Forge.ClaimBaselineAttempt | backend/research_forge/application/use_cases/claim_baseline_attempt.py:35-68 | mission, attempt and task objects change in place and are committed together as the specified claim; a refusal half-way leaves the committed objects untouched |
| UseCases.Forge.RenewAttemptLease | backend/research_forge/application/use_cases/renew_attempt_lease.py:30-44 | the heartbeat on the fetched attempt object, committed or without a trace |
| UseCases.Forge.RequestMissionCancellation | backend/research_forge/application/use_cases/request_mission_cancellation.py:19-36 | the request on the fetched mission object, committed or without a trace |
| UseCases.Forge.PrepareBaselineWorkspace | backend/research_forge/application/use_cases/ensure_baseline_workspace.py:71-122 | a fresh operation object, or the one that is there, under the lease; nothing on a refusal |
| UseCases.Forge.FinalizeBaselineWorkspace | backend/research_forge/application/use_cases/ensure_baseline_workspace.py:124-143 | the fetched operation object succeeds in place, unless it had |
| UseCases.Forge.PrepareSandboxRun | backend/research_forge/application/use_cases/run_baseline_attempt.py:85-164 | a fresh begun operation object, or the one that is there begun in place |
| UseCases.Forge.FinalizeSandboxRun | backend/research_forge/application/use_cases/run_baseline_attempt.py:166-186 | the fetched operation object succeeds in place with the id of the run |
| UseCases.Forge.PrepareArtifact | backend/research_forge/application/use_cases/persist_artifact.py:82-137 | a fresh operation object, or the registration of one that had succeeded |
| UseCases.Forge.FinalizeArtifact | backend/research_forge/application/use_cases/persist_artifact.py:139-175 | operation object and registration change together; a conflicting registration takes both back |
| UseCases.Forge.RegisterVerifiedResult | backend/research_forge/application/use_cases/finalize_baseline_execution.py:185-274 | mission object, metric, claim and both links are committed together; the second call only reads back |
| UseCases.Forge.FailBaselineExecution | backend/research_forge/application/use_cases/finalize_baseline_execution.py:276-353 | attempt and task objects fail together with the mission, or with the objects and the event of the one repair task |
| UseCases.Forge.Complete | backend/research_forge/application/use_cases/complete_reproduction_mission.py:322-368 | bundle, mission, task and attempt are committed together as the specified completion; an object that refuses takes the earlier changes back |
| UseCases.Forge.RequestRepairApproval | backend/research_forge/application/use_cases/request_repair_approval.py:76-126 | mission, attempt and task objects pause together with the new approval object |
| UseCases.Forge.ResolveRepairApproval | backend/research_forge/application/use_cases/resolve_approval.py:31-96 | approval, mission and task or child attempt are committed together; a late decision expires the working object, and the rollback takes that back |
| UseCases.Forge.PrepareCandidateOperation | backend/research_forge/application/use_cases/prepare_repair_candidate.py:162-200 | a fresh operation object, or the one that is there |
| UseCases.Forge.FinalizeCandidateOperation | backend/research_forge/application/use_cases/prepare_repair_candidate.py:202-230 | the fetched operation object succeeds in place, with its audit row |
| UseCases.Forge.ConfirmCancellation | backend/research_forge/application/use_cases/cancel_baseline_attempt.py:40-64 | attempt, task and mission objects are cancelled together |
| UseCases.Forge.ReconcileStaleOperations | backend/research_forge/application/use_cases/reconcile_stale_operations.py:30-58 | the loop over the oldest stale operation objects, each changed in place with its audit row and event, all or nothing |
| Calls.Service.Persist | backend/research_forge/application/use_cases/persist_artifact.py:42-80 | the whole call, with anything happening between its steps, is a run of the system; returning normally, it has registered exactly these bytes; raising, some step of it was refused in the state that it met |
| Calls.Service.Finalize | backend/research_forge/application/use_cases/finalize_baseline_execution.py:70-156 | the whole call, with its budget, exit code, metric file and metric checks in order, is a run of the system; only the last exit returns, and then the metric of the attempt is registered; otherwise some step of it was refused, or the run was failed or unreadable |
| Calls.Service.Complete | backend/research_forge/application/use_cases/complete_reproduction_mission.py:69-107 | the whole call is a run of the system; it returns the recorded bundle of the mission, and the one that was recorded before the call if there was one; otherwise some step of it was refused |
| Calls.Service.EnsureWorkspace | backend/research_forge/application/use_cases/ensure_baseline_workspace.py:40-69 | the whole call is a run of the system; returning normally, the worktree operation has succeeded |
| Calls.Service.RunSandbox | backend/research_forge/application/use_cases/run_baseline_attempt.py:41-83 | the whole call is a run of the system; returning normally, the sandbox operation has succeeded; one that had succeeded before is answered from the broker's record, or refused when there is none |
| Calls.Service.RequestApproval | backend/research_forge/application/use_cases/request_repair_approval.py:48-131 | the whole call is a run of the system; returning normally, the stored approval is for this diff; otherwise some step of it was refused |
| Calls.Service.PrepareCandidate | backend/research_forge/application/use_cases/prepare_repair_candidate.py:47-107 | the whole call is a run of the system; the worktree is recovered first, also for an operation that had succeeded, which is answered with its recorded result and not committed again; returning normally, the candidate operation has succeeded, and a commit of this call is the one candidate commit of the repository, a child of the pinned commit within the budget, made of an approved diff, and the only result that the operation can have; a repository that has the commit and the limits of the mission's spec stays so |
| Calls.Service.Cancel | backend/research_forge/application/use_cases/cancel_baseline_attempt.py:29-64 | the whole call is a run of the system; returning normally, the mission is cancelled |
| Calls.Service.Publish | backend/research_forge/application/use_cases/publish_pending_outbox.py:32-43 | the whole loop is a run of the system that returns exactly for a positive limit, and then every event that was fetched at its start was put on its lane and is marked |
| Calls.Service.ProcessBaseline | backend/research_forge/adapters/inbound/worker/baseline_worker.py:46-79 | the whole delivery of a baseline worker, heartbeats and crashes of others included, is a run of the system; returning normally, the mission has its bundle |
| Calls.Service.ProcessRepair | backend/research_forge/adapters/inbound/worker/repair_worker.py:64-94 | the same for an approved attempt of a repair worker; whatever becomes of it, every commit on the candidate repository is made of an approved diff, and the repository stays that of the mission's spec |
| Candidates.CommitsAreApproved | backend/research_forge/application/use_cases/prepare_repair_candidate.py:57-100 | beside any reachable system, a commit on a candidate repository whose commits name their operations is a child of the pinned commit, within the budget, and made of the patch of a diff that was asked for and granted for the attempt of its operation |
| Calls.Service.ClaimLease | backend/research_forge/application/use_cases/claim_baseline_attempt.py:35-68 | it hands out a token, which passes the lease check, exactly when the claim is accepted in the state that it meets |
| Calls.StepLeavesOthers | backend/research_forge/application/use_cases/persist_artifact.py:69-80 | a step of one call leaves every other call where it is |
| Entities.Mission.Transition | backend/research_forge/domain/mission/model.py:139-143 | the object moves to the target and counts a version, or refuses and stays |
| Entities.Mission.Fail | backend/research_forge/domain/mission/model.py:124-128 | the object follows the row function |
| Entities.Mission.RequestCancel | backend/research_forge/domain/mission/model.py:130-134 | the object follows the row function |
| Entities.Task.Transition | backend/research_forge/domain/mission/model.py:170-174 | the object moves to the target and counts a version, or refuses and stays |
| Entities.Attempt.Claim | backend/research_forge/domain/mission/model.py:192-204 | the object is claimed with the next epoch, or refuses with the error of the first failing check and stays |
| Entities.Attempt.AssertActiveLease | backend/research_forge/domain/mission/model.py:271-279 | the checks in their order, without changing the object |
| Entities.Attempt.Heartbeat | backend/research_forge/domain/mission/model.py:206-218 | the lease is extended under the check |
| Entities.Attempt.Finish | backend/research_forge/domain/mission/model.py:257-269 | the lease is ended under the check |
| Entities.Attempt.Fail | backend/research_forge/domain/mission/model.py:229-246 | the object fails with its code, retryable or not |
| Entities.Operation.Begin | backend/research_forge/domain/execution/operation.py:48-55 | beginning twice is allowed and changes nothing |
| Entities.Operation.Succeed | backend/research_forge/domain/execution/operation.py:57-67 | success keeps the first result and refuses another one |
| Entities.Operation.Fail | backend/research_forge/domain/execution/operation.py:69-75 | a successful operation cannot fail |
| Entities.Operation.RequestRecovery | backend/research_forge/domain/execution/operation.py:77-82 | only the update time and the version move |
| Entities.Approval.Decide | backend/research_forge/domain/approval/model.py:39-62 | a late decision is refused and leaves the object itself expired |
| InMemory.InMemoryUnitOfWork.Enter | backend/research_forge/adapters/outbound/persistence/in_memory.py:62-66 | entering copies every table and every entity object; nested contexts are refused |
| InMemory.InMemoryUnitOfWork.Exit | backend/research_forge/adapters/outbound/persistence/in_memory.py:68-74 | a context that raises, or ends without a commit, is rolled back |
| InMemory.InMemoryUnitOfWork.Commit | backend/research_forge/adapters/outbound/persistence/in_memory.py:216-220 | the working tables become the committed ones, objects included |
| InMemory.State.GetOperationByKey | backend/research_forge/adapters/outbound/persistence/in_memory.py:156-159 | a caller gets the working object itself |
| InMemory.State.AddOperation | backend/research_forge/adapters/outbound/persistence/in_memory.py:91-97 | a duplicate key is refused; otherwise object and index are stored, and no other row changes |
| InMemory.State.CallOperation | backend/research_forge/domain/execution/operation.py:48-82 | a method call on a fetched operation object changes its working row and no other |
| InMemory.State.CallMission | backend/research_forge/domain/mission/model.py:109-143 | a method call on a fetched mission object changes its working row and no other |
| InMemory.State.CallAttempt | backend/research_forge/domain/mission/model.py:192-269 | a method call on a fetched attempt object changes its working row and no other |
| InMemory.State.CallApproval | backend/research_forge/domain/approval/model.py:39-62 | a method call on a fetched approval object changes its working row and no other |
| InMemory.State.AddApproval | backend/research_forge/adapters/outbound/persistence/in_memory.py:134-139 | another approval under the same id is refused |
| InMemory.State.GetStaleOperations | backend/research_forge/adapters/outbound/persistence/in_memory.py:161-170 | the stale query over the objects gives the oldest ids in order |
| InMemory.State.AddEvidenceLink | backend/research_forge/adapters/outbound/persistence/in_memory.py:121-125 | a link is added once |
| InMemory.State.AddBundle | backend/research_forge/adapters/outbound/persistence/in_memory.py:127-132 | a conflicting bundle is refused |
| InMemory.InMemoryUnitOfWork.Within | backend/research_forge/adapters/outbound/persistence/in_memory.py:62-74 | for any script of fetches, in-place method calls on objects of all five entities and additions: committed, the tables are exactly what the script made; ended in any other way, they are untouched |
| InMemory.InMemoryUnitOfWork.CallAfterCommit | backend/research_forge/adapters/outbound/persistence/in_memory.py:216-220 | the limit of the isolation: an object of any entity kept past its commit is the committed one, and a method call on it changes the committed tables |
| InMemory.InMemoryUnitOfWork.CallOutside | backend/research_forge/adapters/outbound/persistence/in_memory.py:225-226 | the same for an object that was fetched outside a context |
| InMemory.InMemoryUnitOfWork.Write | backend/research_forge/adapters/outbound/persistence/in_memory.py:228-231 | writing outside a context raises |
| InMemory.ScriptsOnlyGrow | backend/research_forge/adapters/outbound/persistence/in_memory.py:99-139 | any script leaves registered artifacts, metrics, claims and bundles as they were and only appends evidence, audits and events |
| InMemory.AddingKeepsIndexIff | backend/research_forge/adapters/outbound/persistence/in_memory.py:91-97 | adding keeps the key index in bijection with the operations exactly when the id is new or keeps its key |
| InMemory.ChangingKeepsIndex | backend/research_forge/adapters/outbound/persistence/in_memory.py:156-159 | no other action touches the bijection |
| GitWorktree.CandidateRepository.CommitCandidate | backend/research_forge/adapters/outbound/git/worktree.py:155-219 | with a crash or failure after any git command: an answer names the operation's own commit and equals an earlier ref; its paths are distinct, within the limits, and each lies below an allowed entry name by name and climbs nowhere; undisturbed on a clean pinned worktree, it answers exactly for diffs that git can apply within the budget; and the worktree it leaves is clean, and can be recovered for the operation, exactly when the patch created no file |
| GitWorktree.CandidateRepository.AcceptableIff | backend/research_forge/adapters/outbound/git/worktree.py:171-187 | the diffs within the budget, without the words of the check: git can apply them, and the tracked files that they change are at least one and not too many, all inside the allowed entries, with not too many lines |
| GitWorktree.CandidateRepository.AnswerIsAllowed | backend/research_forge/adapters/outbound/git/worktree.py:267-276 | every answer of an operation has distinct allowed paths within the limits, and names exactly the paths on which its commit differs from the pinned one |
| GitWorktree.SafePathIff | backend/research_forge/adapters/outbound/git/worktree.py:258-265 | the check of one path accepts exactly the relative paths without a tab and without `..` whose names begin with those of an allowed entry, and the allowed entries themselves |
| GitWorktree.SiblingIsOutside | backend/research_forge/adapters/outbound/git/worktree.py:263-265 | a sibling whose name only begins like an allowed entry is refused |
| GitWorktree.WithinBudgetIff | backend/research_forge/adapters/outbound/git/worktree.py:236-256 | the check of a change in terms of the trees: how many paths differ, that all lie inside, that git counts their lines, and how many they are |
| GitWorktree.CandidateRepository.Serve | backend/research_forge/adapters/outbound/git/worktree.py:125-219 | any sequence of calls with any operation ids and crashes creates at most one commit; commits and refs never change; every answer is that of its operation; and a committed worktree that is not clean stays so, with every later recovery refused |
| GitWorktree.CandidateRepository.AnswersAgree | backend/research_forge/adapters/outbound/git/worktree.py:155-165 | any two answers are one answer for one operation |
| GitWorktree.CandidateRepository.TryCommit | backend/research_forge/adapters/outbound/git/worktree.py:168-219 | the flags tell an applied patch from a created commit, so only an uncommitted patch is taken back |
| GitWorktree.CandidateRepository.CommitOnPinned | backend/research_forge/adapters/outbound/git/worktree.py:166-219 | a refused proposal leaves a clean worktree at the pinned commit; an accepted one leaves a clean worktree exactly when it created no file |
| GitWorktree.CandidateRepository.Commit | backend/research_forge/adapters/outbound/git/worktree.py:189-207 | a created commit is a child of the pinned one, within the budget, and made of the diff whose digest it names |
| GitWorktree.CandidateRepository.ValidateDiff | backend/research_forge/adapters/outbound/git/worktree.py:236-256 | the loops over paths and lines accept exactly the changes within the budget |
| GitWorktree.CandidateRepository.PublishOperationRef | backend/research_forge/adapters/outbound/git/worktree.py:278-292 | a ref is set once and never moved |
| GitWorktree.CandidateRepository.RecoverCandidate | backend/research_forge/adapters/outbound/git/worktree.py:125-153 | recovery accepts exactly a clean worktree at the pinned commit or at the operation's own commit |
| GitWorktree.CandidateRepository.EnsureCandidate | backend/research_forge/adapters/outbound/git/worktree.py:93-123 | the worktree is created once, clean and at the pinned commit |
| GitWorktree.CheckedIsCommitted | backend/research_forge/adapters/outbound/git/worktree.py:186-188 | what was checked in the working files is what the commit changes |
| GitWorktree.CleanAfterCommitIff | backend/research_forge/adapters/outbound/git/worktree.py:188-207 | what is staged of a patch is all of it exactly when the patch created no file |
| GitWorktree.NewFileStaysBehind | backend/research_forge/adapters/outbound/git/worktree.py:155-219 | for a git whose patch changes one file and creates another: the call accepts and commits it, and leaves a worktree that no recovery accepts |
| RedisLane.LaneConservesAndBounds | backend/research_forge/adapters/outbound/queue/redis_queue.py:112-182 | in every run of a lane, with consumers interleaved command by command and crashing anywhere, each entry is in exactly one of new, pending, acknowledged and dead-lettered, and is handed out no more often than the limit and than it was delivered |
| RedisLane.HandoutsAreBounded | backend/research_forge/adapters/outbound/queue/redis_queue.py:117-131 | hand-outs of one entry use distinct deliveries up to the limit |
| RedisLane.LeavesPendingByAckOrDeadLetter | backend/research_forge/adapters/outbound/queue/redis_queue.py:210-240 | an entry leaves the pending list only by an acknowledgement of its own id or by one dead letter |
| RedisLane.MoveConserves | backend/research_forge/adapters/outbound/queue/redis_queue.py:145-151 | no command loses or duplicates an entry |
| RedisLane.PublishedIsDelivered | backend/research_forge/adapters/outbound/queue/redis_queue.py:99-110 | what is published on a lane is a valid delivery of that lane and of no other |
| RedisLane.DeliveryIff | backend/research_forge/adapters/outbound/queue/redis_queue.py:184-208 | an entry is a delivery of an attempt exactly when it holds what publishing would have written for it on this lane, and only writable text besides |
| RedisLane.DeadLetterNames | backend/research_forge/adapters/outbound/queue/redis_queue.py:210-226 | which attempt a dead letter names, for entries of any content |
| RedisLane.UnreadIsQueue | backend/research_forge/adapters/outbound/queue/redis_queue.py:132-143 | new entries are read in the order in which they were published |
| RedisLane.PendingIsTakenOver | backend/research_forge/adapters/outbound/queue/redis_queue.py:112-118 | after a consumer died any idle consumer, or the same one again, can claim a pending entry, which counts as one more delivery |
| RedisTaskQueue.RedisTaskQueue.Receive | backend/research_forge/adapters/outbound/queue/redis_queue.py:112-143 | the loop over claimed entries and the read of one new entry, with anything in between, is a run of the lane; what it returns is a valid envelope, and the run ends in the hand-out of it, which counts as one more for that entry; it returns nothing only after a read that found no new entry, or a malformed one |
| RedisTaskQueue.RedisTaskQueue.Settle | backend/research_forge/adapters/outbound/queue/redis_queue.py:117-131 | one entry is dead-lettered if delivered too often or malformed, and handed over otherwise, counted once; it raises, and nothing changes, exactly when an entry to be dead-lettered is no longer pending |
| RedisTaskQueue.RedisTaskQueue.DeliveryCount | backend/research_forge/adapters/outbound/queue/redis_queue.py:166-182 | missing metadata ends the call |
| RedisTaskQueue.RedisTaskQueue.Acknowledge | backend/research_forge/adapters/outbound/queue/redis_queue.py:145-151 | acknowledging works exactly for pending entries |
| RedisTaskQueue.RedisTaskQueue.Publish | backend/research_forge/adapters/outbound/queue/redis_queue.py:99-110 | publishing refuses blank attempt ids and adds one envelope otherwise |
| ResultStore.GetNeverFails | backend/research_forge/adapters/outbound/sandbox/completed_result_store.py:40-56 | in any run, reading a good id answers with nothing or with one whole result of that id |
| ResultStore.AnswersNeverChange | backend/research_forge/adapters/outbound/sandbox/completed_result_store.py:58-83 | an answer is the same after any further puts |
| ResultStore.ReturnedPutsAreStored | backend/research_forge/adapters/outbound/sandbox/completed_result_store.py:58-83 | a put that returned normally stored its result or found exactly that result |
| ResultStore.NoConflictReturns | backend/research_forge/adapters/outbound/sandbox/completed_result_store.py:71-76 | two puts of one operation that both returned carried the same result |
| ResultStore.CompletedResultStore.Put | backend/research_forge/adapters/outbound/sandbox/completed_result_store.py:58-83 | one put among any others returns normally exactly when its result is the stored one |
| ResultStore.CompletedResultStore.Recover | backend/research_forge/adapters/outbound/sandbox/completed_result_store.py:40-56 | reading never raises for a good id |
| ResultStore.RecordAnswersIff | backend/research_forge/adapters/outbound/sandbox/completed_result_store.py:40-56 | a record answers exactly with the result that its payload holds, if the payload has the recorded digest and schema and belongs to the operation that was asked for |
| ResultCodec.PayloadRoundTrip | backend/research_forge/adapters/outbound/sandbox/completed_result_store.py:136-165 | writing and reading back gives the same result, for exactly the results without an empty byte field and with solid names |
| ResultCodec.ReadingIsFaithful | backend/research_forge/adapters/outbound/sandbox/completed_result_store.py:150-165 | whatever is read, from any payload, is a storable result, and every field of it is the one of that name in the payload |
| ResultCodec.QuietRunIsRefused | backend/research_forge/adapters/outbound/sandbox/completed_result_store.py:172-177 | a run that prints nothing to stdout or to stderr is refused, whatever else it has |
| ResultCodec.DecodeEncode | backend/research_forge/adapters/outbound/sandbox/completed_result_store.py:199-207 | decoding undoes the Base64 encoding |
| ResultCodec.GroupsOfFour | backend/research_forge/adapters/outbound/sandbox/completed_result_store.py:203-207 | what is decoded is whole groups of four symbols, padded in the last one only, and has three octets for each group less the padding |
| ResultCodec.Examples | backend/research_forge/adapters/outbound/sandbox/completed_result_store.py:199-200 | the encodings of section 10 of RFC 4648 |
| LocalCas.StepsAreAtomicWrites | backend/research_forge/adapters/outbound/artifacts/local_cas.py:26-49 | each file step shows readers nothing new, or all of one payload under its own digest |
| LocalCas.StepIsBlobWrite | backend/research_forge/adapters/outbound/artifacts/local_cas.py:26-59 | a file step of a put either shows nothing new or is the one blob write of the runtime, and reading the directory is the verified read that the runtime uses |
| LocalCas.ReturnedPutsAreReadable | backend/research_forge/adapters/outbound/artifacts/local_cas.py:26-59 | a put that returned can be read back byte for byte in every later state |
| LocalCas.PutReturns | backend/research_forge/adapters/outbound/artifacts/local_cas.py:26-49 | an undisturbed put returns, shows its payload under its digest and nothing else, and leaves no staging file; bytes that are there already are not written again |
| LocalCas.ReadIff | backend/research_forge/adapters/outbound/artifacts/local_cas.py:51-59 | a read is answered with bytes exactly when the file is whole and they have the digest and the size that were asked for |
| LocalCas.VerifyNeverFails | backend/research_forge/adapters/outbound/artifacts/local_cas.py:41-45 | a writer that gets to its final check never fails it |
| JsonPointer.PointerRoundTrip | backend/research_forge/domain/evidence/metric.py:54-73 | escaping and joining the tokens of an existing path and evaluating the pointer gives the value at that path |
| JsonPointer.SuccessNamesAPath | backend/research_forge/domain/evidence/metric.py:54-73 | every success names a real path with that value; the pointer is the one of that path exactly when its tokens are well escaped |
| JsonPointer.ResolvePointer | backend/research_forge/domain/evidence/metric.py:54-73 | the loop computes the specified evaluation, errors included |
| JsonPointer.UnescapeEscape | backend/research_forge/domain/evidence/metric.py:59-59 | the two ordered replacements undo the escapes of section 4 of RFC 6901 |
| JsonPointer.EscapeUnescapeIffWellEscaped | backend/research_forge/domain/evidence/metric.py:59-59 | escaping undoes the replacements exactly on well-escaped tokens |
| JsonPointer.LoneTildeIsAccepted | backend/research_forge/domain/evidence/metric.py:59-59 | a token that RFC 6901 does not allow is read without an error |
| JsonPointer.SplitJoin | backend/research_forge/domain/evidence/metric.py:58-58 | splitting undoes joining |
| JsonPointer.PrintedIndex | backend/research_forge/domain/evidence/metric.py:65-67 | a printed index is accepted and read as itself |
| JsonPointer.ExtractAndValidate | backend/research_forge/domain/evidence/metric.py:35-51 | it succeeds exactly when the pointer finds a number in a JSON document, and the verdict is that this number lies in the range which the expectation that was asked for leaves open |
| JsonPointer.VerdictIsMonotone | backend/research_forge/domain/evidence/metric.py:44-51 | under AtLeast every number above a passing one passes, under AtMost every number below one, and under any comparator every number between two passing ones |
| JsonPointer.EqualsIsBoth | backend/research_forge/domain/evidence/metric.py:44-45 | a number passes under Equals exactly when it passes under both AtLeast and AtMost |
| JsonPointer.ExpectedPasses | backend/research_forge/domain/evidence/metric.py:44-51 | the expected number itself passes under every comparator exactly when the tolerance is not negative; without a tolerance Equals passes no other number |
| RankFusion.ReciprocalRankFusion | backend/co_scientist/modules/m2_retriever/fusion.py:78-122 | over the reals, the merge yields exactly the keys that occur, each once and under its own key, each score is the sum of the contributions of all occurrences, the paper is the first one with that key with the first summary and the first citation count that any of them gives, the order is descending and ties keep the order of first occurrence; it fails exactly when some rank divides by zero |
| RankFusion.ScoreIgnoresOrder | backend/co_scientist/modules/m2_retriever/fusion.py:100-117 | the score of a key does not depend on the order of the source lists |
| RankFusion.FusionIgnoresListOrder | backend/co_scientist/modules/m2_retriever/fusion.py:78-122 | the same lists in any order give the same keys with the same scores |
| RankFusion.SortIsDescendingAndStable | backend/co_scientist/modules/m2_retriever/fusion.py:120-120 | the sort is a descending, stable rearrangement |
| RankFusion.KeyIgnoresCase | backend/co_scientist/modules/m2_retriever/fusion.py:68-75 | papers whose DOI, arXiv identifier and title differ in case only are one key |
| RankFusion.SameKeyIff | backend/co_scientist/modules/m2_retriever/fusion.py:68-75 | two papers are one exactly when they have the same DOI, or no DOI and the same arXiv identifier, or neither and titles that begin with the same sixty letters and digits, all without case |
| RankFusion.MergeFills | backend/co_scientist/modules/m2_retriever/fusion.py:105-112 | merging one more paper of a key keeps the first paper and fills in the first summary and the first citation count |

## Left out

- Progress: a key prepared under one epoch raises a conflict under the next, so a mission may get stuck; only safety
  is stated, with fairness of the reconciler and of the publisher, and that a dead worker's attempt can be taken over.
- The delay between a clock reading and its transaction, and waiting inside a transaction: both are one step.
- Durability of file system and database under power loss; a crash ends a process, not the machine.
- Parsing of JSON and of specs, the ZIP and TAR bytes of a bundle, and the reproduce and extraction scripts: a spec is
  a value, and a bundle is any payload.
- The metric value and the scores are reals; rounding, infinities and NaN of floating point are not modelled.
- Unicode: digits, case folding and white space beyond ASCII in pointer indices, dedupe keys and blank checks.
- A spec's prerequisites and its validation before a mission is created; a blank proposal id or decider.
- `ProposeRepairPatch`: where a proposal's diff comes from; any unified diff may be proposed.
- The heartbeat and cancellation threads of the baseline worker as threads: their calls are steps of their own.
- `collect_orphans` of the blob directory: no use case here calls it.
- Idle times of stream entries: a claim may take any pending entries; stream trimming and the group's creation.
- Git beyond the commands used: the diff algorithm, patch application and path listing are arbitrary functions, and
  ignored files, hooks, symbolic links and the checks of the mirror's path are not modelled.
- The operation trailer of a commit message is compared as an operation id, not as a substring.
- The SQLAlchemy unit of work, the Docker broker and its socket, HTTP, the command line and the Studio modules.
- Labels that no decision reads, such as claim statements, audit payloads and risk levels.
- Base64 text whose length is not a multiple of four is refused; some decoders accept excess padding.
- Steps.StepGood: cites one protocol; it covers the transactions and effects of every use case in this table.
- ResultCodec.PayloadRoundTrip: it is about the record that the broker stores, whose streams are separate; the result of
  `Transactions` has the two streams joined, as `FinalizeBaselineExecution.execute` joins them for the log.
