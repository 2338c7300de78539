/** The domain entities as the mutable objects they are, each method against the row function that
    specifies it. An object is built from its row, which is also how a deep copy makes one. A method
    that refuses leaves its object as it was, except that deciding an approval too late first expires
    it. */
module Entities {
  import opened Basics
  import opened Content
  import L = Lifecycle

  class Mission {
    const spec: L.Spec
    const createdAt: Time
    const proposal: Option<Id>
    var status: L.MissionStatus
    var version: nat

    constructor (row: L.Mission)
      ensures State() == row
    {
      spec, createdAt, proposal, status, version := row.spec, row.createdAt, row.proposal, row.status, row.version;
    }

    function State(): L.Mission
      reads this
    {
      L.Mission(spec, createdAt, proposal, status, version)
    }

    method Transition(target: L.MissionStatus, allowed: set<L.MissionStatus>) returns (r: Result<()>)
      modifies this
      ensures var next := old(State()).Transition(target, allowed);
        if next.Ok? then r == Ok(()) && State() == next.value else r == Err(next.error) && State() == old(State())
    {
      if status !in allowed { return Err(InvalidTransition); }
      status, version := target, version + 1;
      return Ok(());
    }

    method MarkReady() returns (r: Result<()>)
      modifies this
      ensures var next := old(State()).MarkReady();
        if next.Ok? then r == Ok(()) && State() == next.value else r == Err(next.error) && State() == old(State())
    {
      r := Transition(L.MissionStatus.Ready, {L.MissionStatus.Draft});
    }

    method Start() returns (r: Result<()>)
      modifies this
      ensures var next := old(State()).Start();
        if next.Ok? then r == Ok(()) && State() == next.value else r == Err(next.error) && State() == old(State())
    {
      r := Transition(L.MissionStatus.Running, {L.MissionStatus.Ready, L.MissionStatus.WaitingApproval});
    }

    method BeginVerification() returns (r: Result<()>)
      modifies this
      ensures var next := old(State()).BeginVerification();
        if next.Ok? then r == Ok(()) && State() == next.value else r == Err(next.error) && State() == old(State())
    {
      r := Transition(L.MissionStatus.Verifying, {L.MissionStatus.Running});
    }

    method WaitForApproval() returns (r: Result<()>)
      modifies this
      ensures var next := old(State()).WaitForApproval();
        if next.Ok? then r == Ok(()) && State() == next.value else r == Err(next.error) && State() == old(State())
    {
      r := Transition(L.MissionStatus.WaitingApproval, {L.MissionStatus.Running});
    }

    method Complete() returns (r: Result<()>)
      modifies this
      ensures var next := old(State()).Complete();
        if next.Ok? then r == Ok(()) && State() == next.value else r == Err(next.error) && State() == old(State())
    {
      r := Transition(L.MissionStatus.Completed, {L.MissionStatus.Verifying});
    }

    method Fail() returns (r: Result<()>)
      modifies this
      ensures var next := old(State()).Fail();
        if next.Ok? then r == Ok(()) && State() == next.value else r == Err(next.error) && State() == old(State())
    {
      r := Transition(L.MissionStatus.Failed,
                      {L.MissionStatus.Ready, L.MissionStatus.Running, L.MissionStatus.WaitingApproval,
                       L.MissionStatus.Verifying, L.MissionStatus.Cancelling});
    }

    method RequestCancel() returns (r: Result<()>)
      modifies this
      ensures var next := old(State()).RequestCancel();
        if next.Ok? then r == Ok(()) && State() == next.value else r == Err(next.error) && State() == old(State())
    {
      r := Transition(L.MissionStatus.Cancelling,
                      {L.MissionStatus.Ready, L.MissionStatus.Running, L.MissionStatus.WaitingApproval,
                       L.MissionStatus.Verifying});
    }

    method ConfirmCancel() returns (r: Result<()>)
      modifies this
      ensures var next := old(State()).ConfirmCancel();
        if next.Ok? then r == Ok(()) && State() == next.value else r == Err(next.error) && State() == old(State())
    {
      r := Transition(L.MissionStatus.Cancelled, {L.MissionStatus.Cancelling});
    }
  }

  class Task {
    const mission: Id
    const kind: L.TaskType
    const createdAt: Time
    var status: L.TaskStatus
    var version: nat

    constructor (row: L.Task)
      ensures State() == row
    {
      mission, kind, createdAt, status, version := row.mission, row.kind, row.createdAt, row.status, row.version;
    }

    function State(): L.Task
      reads this
    {
      L.Task(mission, kind, createdAt, status, version)
    }

    method Transition(target: L.TaskStatus, allowed: set<L.TaskStatus>) returns (r: Result<()>)
      modifies this
      ensures var next := old(State()).Transition(target, allowed);
        if next.Ok? then r == Ok(()) && State() == next.value else r == Err(next.error) && State() == old(State())
    {
      if status !in allowed { return Err(InvalidTransition); }
      status, version := target, version + 1;
      return Ok(());
    }

    method Start() returns (r: Result<()>)
      modifies this
      ensures var next := old(State()).Start();
        if next.Ok? then r == Ok(()) && State() == next.value else r == Err(next.error) && State() == old(State())
    {
      r := Transition(L.TaskStatus.Running, {L.TaskStatus.Pending, L.TaskStatus.Retryable});
    }

    method Succeed() returns (r: Result<()>)
      modifies this
      ensures var next := old(State()).Succeed();
        if next.Ok? then r == Ok(()) && State() == next.value else r == Err(next.error) && State() == old(State())
    {
      r := Transition(L.TaskStatus.Succeeded, {L.TaskStatus.Running});
    }

    method Retry() returns (r: Result<()>)
      modifies this
      ensures var next := old(State()).Retry();
        if next.Ok? then r == Ok(()) && State() == next.value else r == Err(next.error) && State() == old(State())
    {
      r := Transition(L.TaskStatus.Retryable, {L.TaskStatus.Running});
    }

    method Fail() returns (r: Result<()>)
      modifies this
      ensures var next := old(State()).Fail();
        if next.Ok? then r == Ok(()) && State() == next.value else r == Err(next.error) && State() == old(State())
    {
      r := Transition(L.TaskStatus.Failed, {L.TaskStatus.Pending, L.TaskStatus.Running, L.TaskStatus.Retryable});
    }

    method Cancel() returns (r: Result<()>)
      modifies this
      ensures var next := old(State()).Cancel();
        if next.Ok? then r == Ok(()) && State() == next.value else r == Err(next.error) && State() == old(State())
    {
      r := Transition(L.TaskStatus.Cancelled, {L.TaskStatus.Pending, L.TaskStatus.Running, L.TaskStatus.Retryable});
    }
  }

  class Attempt {
    const task: Id
    const number: nat
    const createdAt: Time
    const parent: Option<Id>
    var status: L.AttemptStatus
    var owner: Option<Id>
    var epoch: nat
    var expires: Option<Time>
    var heartbeat: Option<Time>
    var version: nat
    var failure: Option<L.FailureCode>

    constructor (row: L.Attempt)
      ensures State() == row
    {
      task, number, createdAt, parent := row.task, row.number, row.createdAt, row.parent;
      status, owner, epoch, expires := row.status, row.owner, row.epoch, row.expires;
      heartbeat, version, failure := row.heartbeat, row.version, row.failure;
    }

    function State(): L.Attempt
      reads this
    {
      L.Attempt(task, number, createdAt, parent, status, owner, epoch, expires, heartbeat, version, failure)
    }

    method Claim(worker: Id, now: Time, until: Time) returns (r: Result<()>)
      modifies this
      ensures var next := old(State()).Claim(worker, now, until);
        if next.Ok? then r == Ok(()) && State() == next.value else r == Err(next.error) && State() == old(State())
    {
      var isExpired := expires.Some? && expires.value <= now;
      if status !in {L.AttemptStatus.Pending, L.AttemptStatus.Retryable, L.AttemptStatus.Running} {
        return Err(InvalidTransition);
      }
      if status == L.AttemptStatus.Running && !isExpired { return Err(LeaseLost); }
      status := L.AttemptStatus.Running;
      owner := Some(worker);
      epoch := epoch + 1;
      expires := Some(until);
      heartbeat := Some(now);
      failure := None;
      version := version + 1;
      return Ok(());
    }

    method AssertActiveLease(token: L.Token, now: Time) returns (r: Result<()>)
      ensures r == State().CheckLease(token, now)
    {
      if version != token.version { return Err(VersionConflict); }
      if status != L.AttemptStatus.Running { return Err(InvalidTransition); }
      if owner != Some(token.owner) || epoch != token.epoch { return Err(LeaseLost); }
      if expires.None? || expires.value <= now { return Err(LeaseLost); }
      return Ok(());
    }

    method Heartbeat(token: L.Token, now: Time, until: Time) returns (r: Result<()>)
      modifies this
      ensures var next := old(State()).Heartbeat(token, now, until);
        if next.Ok? then r == Ok(()) && State() == next.value else r == Err(next.error) && State() == old(State())
    {
      r := AssertActiveLease(token, now);
      if r.Err? { return; }
      heartbeat := Some(now);
      expires := Some(until);
      version := version + 1;
    }

    method Finish(target: L.AttemptStatus, token: L.Token, now: Time) returns (r: Result<()>)
      modifies this
      ensures var next := old(State()).Finish(target, token, now);
        if next.Ok? then r == Ok(()) && State() == next.value else r == Err(next.error) && State() == old(State())
    {
      r := AssertActiveLease(token, now);
      if r.Err? { return; }
      status := target;
      expires := Some(now);
      version := version + 1;
    }

    method Succeed(token: L.Token, now: Time) returns (r: Result<()>)
      modifies this
      ensures var next := old(State()).Succeed(token, now);
        if next.Ok? then r == Ok(()) && State() == next.value else r == Err(next.error) && State() == old(State())
    {
      r := Finish(L.AttemptStatus.Succeeded, token, now);
    }

    method Fail(token: L.Token, now: Time, retryable: bool, code: L.FailureCode) returns (r: Result<()>)
      modifies this
      ensures var next := old(State()).Fail(token, now, retryable, code);
        if next.Ok? then r == Ok(()) && State() == next.value else r == Err(next.error) && State() == old(State())
    {
      r := Finish(if retryable then L.AttemptStatus.Retryable else L.AttemptStatus.Failed, token, now);
      if r.Err? { return; }
      failure := Some(code);
    }

    method Cancel(token: L.Token, now: Time) returns (r: Result<()>)
      modifies this
      ensures var next := old(State()).Cancel(token, now);
        if next.Ok? then r == Ok(()) && State() == next.value else r == Err(next.error) && State() == old(State())
    {
      r := Finish(L.AttemptStatus.Cancelled, token, now);
    }
  }

  class Operation {
    const key: L.Key
    const attempt: Id
    const kind: L.OperationType
    const input: Digest
    const epoch: nat
    const target: L.Target
    const createdAt: Time
    var updatedAt: Time
    var result: Option<EffectRef>
    var errorCode: Option<string>
    var status: L.OperationStatus
    var version: nat

    constructor (row: L.Operation)
      ensures State() == row
    {
      key, attempt, kind, input, epoch := row.key, row.attempt, row.kind, row.input, row.epoch;
      target, createdAt, updatedAt, result := row.target, row.createdAt, row.updatedAt, row.result;
      errorCode, status, version := row.errorCode, row.status, row.version;
    }

    function State(): L.Operation
      reads this
    {
      L.Operation(key, attempt, kind, input, epoch, target, createdAt, updatedAt, result, errorCode, status, version)
    }

    method Begin(now: Time) returns (r: Result<()>)
      modifies this
      ensures var next := old(State()).Begin(now);
        if next.Ok? then r == Ok(()) && State() == next.value else r == Err(next.error) && State() == old(State())
    {
      if status == L.OperationStatus.Prepared {
        status, updatedAt, version := L.OperationStatus.Executing, now, version + 1;
        return Ok(());
      }
      if status != L.OperationStatus.Executing { return Err(OperationConflict); }
      return Ok(());
    }

    method Succeed(outcome: EffectRef, now: Time) returns (r: Result<()>)
      modifies this
      ensures var next := old(State()).Succeed(outcome, now);
        if next.Ok? then r == Ok(()) && State() == next.value else r == Err(next.error) && State() == old(State())
    {
      if status !in {L.OperationStatus.Prepared, L.OperationStatus.Executing, L.OperationStatus.Succeeded} {
        return Err(OperationConflict);
      }
      if result.Some? && result.value != outcome { return Err(OperationConflict); }
      if status == L.OperationStatus.Succeeded { return Ok(()); }
      status := L.OperationStatus.Succeeded;
      result := Some(outcome);
      updatedAt := now;
      version := version + 1;
      return Ok(());
    }

    method Fail(code: string, now: Time, manualRecovery: bool) returns (r: Result<()>)
      modifies this
      ensures var next := old(State()).Fail(code, now, manualRecovery);
        if next.Ok? then r == Ok(()) && State() == next.value else r == Err(next.error) && State() == old(State())
    {
      if status == L.OperationStatus.Succeeded { return Err(OperationConflict); }
      status := if manualRecovery then L.OperationStatus.ManualRecovery else L.OperationStatus.Failed;
      errorCode := Some(code);
      updatedAt := now;
      version := version + 1;
      return Ok(());
    }

    method RequestRecovery(now: Time) returns (r: Result<()>)
      modifies this
      ensures var next := old(State()).RequestRecovery(now);
        if next.Ok? then r == Ok(()) && State() == next.value else r == Err(next.error) && State() == old(State())
    {
      if status !in {L.OperationStatus.Prepared, L.OperationStatus.Executing} { return Err(OperationConflict); }
      updatedAt, version := now, version + 1;
      return Ok(());
    }
  }

  class Approval {
    const request: L.Approval
    var status: L.ApprovalStatus
    var decidedAt: Option<Time>
    var decidedBy: Option<Id>
    var version: nat

    constructor (request: L.Approval)
      ensures State() == request
    {
      this.request := request;
      status, decidedAt, decidedBy, version := request.status, request.decidedAt, request.decidedBy, request.version;
    }

    /** What was asked for never changes; the decision does. */
    function State(): L.Approval
      reads this
    {
      request.(status := status, decidedAt := decidedAt, decidedBy := decidedBy, version := version)
    }

    method Expire(now: Time)
      modifies this
      ensures State() == old(State()).Expire(now)
    {
      if status == L.ApprovalStatus.Pending && request.expiresAt <= now {
        status, decidedAt, version := L.ApprovalStatus.Expired, Some(now), version + 1;
      }
    }

    /** `_ensure_pending` expires the object before it raises; only the rollback of the enclosing
        transaction keeps EXPIRED out of the tables. */
    method Decide(verdict: L.ApprovalStatus, decider: Id, now: Time) returns (r: Result<()>)
      modifies this
      ensures var next := old(State()).Decide(verdict, decider, now);
        if next.Ok? then r == Ok(()) && State() == next.value
        else r == Err(next.error) && State() == old(State()).Expire(now)
    {
      Expire(now);
      if status != L.ApprovalStatus.Pending { return Err(ApprovalUndecidable); }
      status := verdict;
      decidedAt := Some(now);
      decidedBy := Some(decider);
      version := version + 1;
      return Ok(());
    }

    method Approve(decider: Id, now: Time) returns (r: Result<()>)
      modifies this
      ensures var next := old(State()).Approve(decider, now);
        if next.Ok? then r == Ok(()) && State() == next.value
        else r == Err(next.error) && State() == old(State()).Expire(now)
    {
      r := Decide(L.ApprovalStatus.Approved, decider, now);
    }

    method Reject(decider: Id, now: Time) returns (r: Result<()>)
      modifies this
      ensures var next := old(State()).Reject(decider, now);
        if next.Ok? then r == Ok(()) && State() == next.value
        else r == Err(next.error) && State() == old(State()).Expire(now)
    {
      r := Decide(L.ApprovalStatus.Rejected, decider, now);
    }
  }
}
