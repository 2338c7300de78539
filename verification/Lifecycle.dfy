/** The state machines of Mission, Task, Attempt, Operation and Approval, as functions from a
    row to the next row. A refused transition has no next row. */
module Lifecycle {
  import opened Basics
  import opened Content
  import opened JsonPointer

  // ---------------------------------------------------------------- the frozen specification

  datatype Mode = BaselineMode | RepairMode

  /** The validated ReproductionSpec, with the fields the use cases read. */
  datatype Spec = Spec(
    digest: string, mode: Mode,
    repository: string, commit: string,
    allowedPaths: seq<string>, maxFiles: nat, maxChangedLines: nat,
    offline: bool, runArgv: seq<string>,
    maxLogBytes: nat, maxArtifactBytes: nat,
    metricPath: string, expectation: Expectation)

  // ---------------------------------------------------------------- missions

  datatype MissionStatus =
    | Draft | Ready | Running | WaitingApproval | Verifying
    | Completed | Failed | Cancelling | Cancelled

  datatype Mission = Mission(
    spec: Spec, createdAt: Time, proposal: Option<Id>, status: MissionStatus, version: nat)
  {
    function Transition(target: MissionStatus, allowed: set<MissionStatus>): Result<Mission> {
      if status in allowed then Ok(this.(status := target, version := version + 1))
      else Err(InvalidTransition)
    }

    function MarkReady(): Result<Mission> { Transition(MissionStatus.Ready, {MissionStatus.Draft}) }

    function Start(): Result<Mission> {
      Transition(MissionStatus.Running, {MissionStatus.Ready, MissionStatus.WaitingApproval})
    }

    function BeginVerification(): Result<Mission> {
      Transition(MissionStatus.Verifying, {MissionStatus.Running})
    }

    function WaitForApproval(): Result<Mission> {
      Transition(MissionStatus.WaitingApproval, {MissionStatus.Running})
    }

    function Complete(): Result<Mission> {
      Transition(MissionStatus.Completed, {MissionStatus.Verifying})
    }

    function Fail(): Result<Mission> {
      Transition(MissionStatus.Failed,
                 {MissionStatus.Ready, MissionStatus.Running, MissionStatus.WaitingApproval,
                  MissionStatus.Verifying, MissionStatus.Cancelling})
    }

    function RequestCancel(): Result<Mission> {
      Transition(MissionStatus.Cancelling,
                 {MissionStatus.Ready, MissionStatus.Running, MissionStatus.WaitingApproval,
                  MissionStatus.Verifying})
    }

    function ConfirmCancel(): Result<Mission> {
      Transition(MissionStatus.Cancelled, {MissionStatus.Cancelling})
    }
  }

  // ---------------------------------------------------------------- tasks

  datatype TaskType = BaselineReproduction | RepairCandidate

  datatype TaskStatus = Pending | Running | Succeeded | Retryable | Failed | Cancelled

  datatype Task = Task(
    mission: Id, kind: TaskType, createdAt: Time, status: TaskStatus, version: nat)
  {
    function Transition(target: TaskStatus, allowed: set<TaskStatus>): Result<Task> {
      if status in allowed then Ok(this.(status := target, version := version + 1))
      else Err(InvalidTransition)
    }

    function Start(): Result<Task> {
      Transition(TaskStatus.Running, {TaskStatus.Pending, TaskStatus.Retryable})
    }

    function Succeed(): Result<Task> { Transition(TaskStatus.Succeeded, {TaskStatus.Running}) }

    function Retry(): Result<Task> { Transition(TaskStatus.Retryable, {TaskStatus.Running}) }

    function Fail(): Result<Task> {
      Transition(TaskStatus.Failed, {TaskStatus.Pending, TaskStatus.Running, TaskStatus.Retryable})
    }

    function Cancel(): Result<Task> {
      Transition(TaskStatus.Cancelled, {TaskStatus.Pending, TaskStatus.Running, TaskStatus.Retryable})
    }
  }

  // ---------------------------------------------------------------- attempts and their lease

  datatype AttemptStatus = Pending | Running | Succeeded | Retryable | Failed | Cancelled

  /** What a worker holds after a claim: the arguments it repeats on every later call. */
  datatype Token = Token(attempt: Id, owner: Id, epoch: nat, version: nat)

  datatype FailureCode =
    | WaitingApproval | LogBudgetExceeded | SandboxNonzeroExit | MetricArtifactMissing
    | ArtifactBudgetExceeded | MetricExpectationFailed

  datatype Attempt = Attempt(
    task: Id, number: nat, createdAt: Time, parent: Option<Id>,
    status: AttemptStatus, owner: Option<Id>, epoch: nat,
    expires: Option<Time>, heartbeat: Option<Time>, version: nat, failure: Option<FailureCode>)
  {
    function Claim(worker: Id, now: Time, until: Time): Result<Attempt> {
      var isExpired := expires.Some? && expires.value <= now;
      if status !in {AttemptStatus.Pending, AttemptStatus.Retryable, AttemptStatus.Running} then
        Err(InvalidTransition)
      else if status == AttemptStatus.Running && !isExpired then Err(LeaseLost)
      else Ok(this.(status := AttemptStatus.Running, owner := Some(worker), epoch := epoch + 1,
                    expires := Some(until), heartbeat := Some(now), failure := None,
                    version := version + 1))
    }

    /** The lease check, in the order its refusals are raised. */
    function CheckLease(token: Token, now: Time): Result<()> {
      if version != token.version then Err(VersionConflict)
      else if status != AttemptStatus.Running then Err(InvalidTransition)
      else if owner != Some(token.owner) || epoch != token.epoch then Err(LeaseLost)
      else if expires.None? || expires.value <= now then Err(LeaseLost)
      else Ok(())
    }

    function Heartbeat(token: Token, now: Time, until: Time): Result<Attempt> {
      var _ :- CheckLease(token, now);
      Ok(this.(heartbeat := Some(now), expires := Some(until), version := version + 1))
    }

    function Finish(target: AttemptStatus, token: Token, now: Time): Result<Attempt> {
      var _ :- CheckLease(token, now);
      Ok(this.(status := target, expires := Some(now), version := version + 1))
    }

    function Succeed(token: Token, now: Time): Result<Attempt> {
      Finish(AttemptStatus.Succeeded, token, now)
    }

    function Fail(token: Token, now: Time, retryable: bool, code: FailureCode): Result<Attempt> {
      var finished :- Finish(if retryable then AttemptStatus.Retryable else AttemptStatus.Failed, token, now);
      Ok(finished.(failure := Some(code)))
    }

    function Cancel(token: Token, now: Time): Result<Attempt> {
      Finish(AttemptStatus.Cancelled, token, now)
    }
  }

  function NewAttempt(task: Id, number: nat, now: Time, parent: Option<Id>): Attempt {
    Attempt(task, number, now, parent, AttemptStatus.Pending, None, 0, None, None, 0, None)
  }

  // ---------------------------------------------------------------- the operation ledger

  datatype OperationType = WorktreeCreate | SandboxRun | CasPut | BundleBuild | CandidateCommit

  datatype OperationStatus = Prepared | Executing | Succeeded | Failed | ManualRecovery

  /** The suffix a worker appends to its attempt id to build an idempotency key. */
  datatype Slot =
    | BaselineWorktree | Sandbox | CandidateSlot | LogSlot | MetricSlot | BundleSlot
    | PatchSlot(patch: Digest)

  /** `f"{attempt_id}:{slot}"`; attempt ids hold no colon, so the pair is the string. */
  datatype Key = Key(attempt: Id, slot: Slot)

  /** Where the effect lands: one of the two worktrees of a mission, the file of a proposed patch,
      or a path. */
  datatype Target = BaselineTree | CandidateTree | PatchFile(patch: Digest) | At(path: string)

  datatype Operation = Operation(
    key: Key, attempt: Id, kind: OperationType, input: Digest, epoch: nat, target: Target,
    createdAt: Time, updatedAt: Time, result: Option<EffectRef>, errorCode: Option<string>,
    status: OperationStatus, version: nat)
  {
    function Begin(now: Time): Result<Operation> {
      match status
      case Prepared =>
        Ok(this.(status := OperationStatus.Executing, updatedAt := now, version := version + 1))
      case Executing => Ok(this)
      case _ => Err(OperationConflict)
    }

    function Succeed(outcome: EffectRef, now: Time): Result<Operation> {
      if status !in {OperationStatus.Prepared, OperationStatus.Executing, OperationStatus.Succeeded} then
        Err(OperationConflict)
      else if result.Some? && result.value != outcome then Err(OperationConflict)
      else if status == OperationStatus.Succeeded then Ok(this)
      else Ok(this.(status := OperationStatus.Succeeded, result := Some(outcome), updatedAt := now,
                    version := version + 1))
    }

    function Fail(code: string, now: Time, manualRecovery: bool): Result<Operation> {
      if status == OperationStatus.Succeeded then Err(OperationConflict)
      else Ok(this.(status := if manualRecovery then OperationStatus.ManualRecovery else OperationStatus.Failed,
                    errorCode := Some(code), updatedAt := now, version := version + 1))
    }

    function RequestRecovery(now: Time): Result<Operation> {
      if status !in {OperationStatus.Prepared, OperationStatus.Executing} then Err(OperationConflict)
      else Ok(this.(updatedAt := now, version := version + 1))
    }
  }

  function NewOperation(key: Key, kind: OperationType, input: Digest, epoch: nat, target: Target, now: Time)
    : Operation
  {
    Operation(key, key.attempt, kind, input, epoch, target, now, now, None, None, OperationStatus.Prepared, 0)
  }

  // ---------------------------------------------------------------- approvals

  datatype ApprovalStatus = Pending | Approved | Rejected | Expired

  datatype Approval = Approval(
    mission: Id, task: Id, attempt: Id, actionType: OperationType, actionHash: Digest, scope: OperationType,
    requestedAt: Time, expiresAt: Time, patch: Option<ArtifactRef>,
    status: ApprovalStatus, decidedAt: Option<Time>, decidedBy: Option<Id>, version: nat)
  {
    function Expire(now: Time): Approval {
      if status == ApprovalStatus.Pending && expiresAt <= now then
        this.(status := ApprovalStatus.Expired, decidedAt := Some(now), version := version + 1)
      else this
    }

    function Decide(verdict: ApprovalStatus, decider: Id, now: Time): Result<Approval> {
      var current := Expire(now);
      if current.status != ApprovalStatus.Pending then Err(ApprovalUndecidable)
      else Ok(current.(status := verdict, decidedAt := Some(now), decidedBy := Some(decider),
                       version := current.version + 1))
    }

    function Approve(decider: Id, now: Time): Result<Approval> { Decide(ApprovalStatus.Approved, decider, now) }

    function Reject(decider: Id, now: Time): Result<Approval> { Decide(ApprovalStatus.Rejected, decider, now) }
  }
}
