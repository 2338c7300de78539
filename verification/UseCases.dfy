/** The transactions of the use cases as the code runs them: inside a context of the unit of work,
    entity objects are fetched and changed in place, records are added, and the context is closed by a
    commit or by the exception that was raised. */
module UseCases {
  import opened Basics
  import opened Content
  import opened Lifecycle
  import opened Tables
  import opened Transactions
  import opened Evolution
  import M = InMemory
  import E = Entities

  /** Fetch an attempt with its task and its mission: `mission` is there only if all three are. */
  method Fetch(s: M.State, id: Id) returns (attempt: E.Attempt?, task: E.Task?, mission: E.Mission?)
    requires s.Valid()
    ensures attempt == null <==> id !in s.View().attempts
    ensures attempt != null ==> id in s.attempts && attempt == s.attempts[id] && attempt in s.Repr
    ensures attempt != null ==> attempt.State() == s.View().attempts[id]
    ensures mission != null <==> Load(s.View(), id).Ok?
    ensures mission == null ==> Load(s.View(), id) == Err(NotFound)
    ensures mission != null ==>
      && attempt != null && task != null && task in s.Repr && mission in s.Repr
      && Load(s.View(), id).value == Context(attempt.State(), task.State(), mission.State())
      && attempt.task in s.tasks && task == s.tasks[attempt.task]
      && task.mission in s.missions && mission == s.missions[task.mission]
  {
    hide M.State.View, M.State.Valid;
    task, mission := null, null;
    attempt := s.GetAttempt(id);
    if attempt == null { return; }
    task := s.GetTask(attempt.task);
    if task == null { return; }
    mission := s.GetMission(task.mission);
  }

  /** A rejected proposal fails its task and its mission. */
  method FailRows(s: M.State, taskId: Id, missionId: Id) returns (r: Result<()>)
    requires s.Valid() && taskId in s.tasks && missionId in s.missions
    requires taskId in s.View().tasks && missionId in s.View().missions
    requires s.tasks[taskId] in s.Repr && s.missions[missionId] in s.Repr
    modifies s.tasks[taskId], s.missions[missionId]
    ensures s.Valid()
    ensures var t := old(s.View()).tasks[taskId].Fail();
      var m := old(s.View()).missions[missionId].Fail();
      if t.Err? then r == Err(t.error)
      else if m.Err? then r == Err(m.error)
      else r == Ok(()) && s.View() == old(s.View()).(tasks := old(s.View()).tasks[taskId := t.value],
                                                     missions := old(s.View()).missions[missionId := m.value])
  {
    hide M.State.View, M.State.Valid, Task.Fail, Mission.Fail;
    r := s.CallTask(taskId, M.FailTask);
    if r.Err? { return; }
    r := s.CallMission(missionId, M.FailMission);
  }

  /** While approval is waited for, the mission pauses and its attempt is given back. */
  method PauseRows(s: M.State, now: Time, token: Token, taskId: Id, missionId: Id) returns (r: Result<()>)
    requires s.Valid() && token.attempt in s.attempts && taskId in s.tasks && missionId in s.missions
    requires token.attempt in s.View().attempts && taskId in s.View().tasks && missionId in s.View().missions
    requires s.attempts[token.attempt] in s.Repr && s.tasks[taskId] in s.Repr && s.missions[missionId] in s.Repr
    modifies s.attempts[token.attempt], s.tasks[taskId], s.missions[missionId]
    ensures s.Valid()
    ensures var m := old(s.View()).missions[missionId].WaitForApproval();
      var a := old(s.View()).attempts[token.attempt].Fail(token, now, true, FailureCode.WaitingApproval);
      var t := old(s.View()).tasks[taskId].Retry();
      if m.Err? then r == Err(m.error)
      else if a.Err? then r == Err(a.error)
      else if t.Err? then r == Err(t.error)
      else r == Ok(()) && s.View() == old(s.View()).(
        missions := old(s.View()).missions[missionId := m.value],
        attempts := old(s.View()).attempts[token.attempt := a.value],
        tasks := old(s.View()).tasks[taskId := t.value])
  {
    hide M.State.View, M.State.Valid, Mission.WaitForApproval, Task.Retry, Attempt.Fail;
    r := s.CallMission(missionId, M.WaitForApproval);
    if r.Err? { return; }
    r := EndAttempt(s, token.attempt, M.FailAttempt(token, now, true, FailureCode.WaitingApproval), taskId,
                    M.RetryTask);
  }

  /** Fetch an attempt whose mission is not being cancelled and whose lease is held. */
  method FetchActive(s: M.State, now: Time, token: Token)
    returns (r: Result<()>, attempt: E.Attempt?, task: E.Task?, mission: E.Mission?)
    requires s.Valid()
    ensures var loaded := Load(s.View(), token.attempt);
      if loaded.Err? then r == Err(loaded.error)
      else if loaded.value.mission.status == MissionStatus.Cancelling then r == Err(CancellationRequested)
      else
        var held := loaded.value.attempt.CheckLease(token, now);
        if held.Err? then r == Err(held.error)
        else r.Ok? && mission != null && mission.State() == loaded.value.mission
  {
    hide M.State.View, M.State.Valid, Attempt.CheckLease;
    attempt, task, mission := Fetch(s, token.attempt);
    if mission == null { r := Err(NotFound); return; }
    if mission.status == MissionStatus.Cancelling { r := Err(CancellationRequested); return; }
    r := attempt.AssertActiveLease(token, now);
  }

  /** Method calls on an attempt and then on its task, as a failing, pausing or cancelled attempt gets. */
  method EndAttempt(s: M.State, attemptId: Id, attemptCall: M.AttemptCall, taskId: Id, taskCall: M.TaskCall)
    returns (r: Result<()>)
    requires s.Valid() && attemptId in s.attempts && taskId in s.tasks
    requires attemptId in s.View().attempts && taskId in s.View().tasks
    requires s.attempts[attemptId] in s.Repr && s.tasks[taskId] in s.Repr
    modifies s.attempts[attemptId], s.tasks[taskId]
    ensures s.Valid()
    ensures var a := M.AttemptAfter(old(s.View()).attempts[attemptId], attemptCall);
      var t := M.TaskAfter(old(s.View()).tasks[taskId], taskCall);
      if a.Err? then r == Err(a.error)
      else if t.Err? then r == Err(t.error)
      else r == Ok(()) && s.View() == old(s.View()).(attempts := old(s.View()).attempts[attemptId := a.value],
                                                     tasks := old(s.View()).tasks[taskId := t.value])
  {
    hide M.State.View, M.State.Valid, M.AttemptAfter, M.TaskAfter;
    r := s.CallAttempt(attemptId, attemptCall);
    if r.Err? { return; }
    r := s.CallTask(taskId, taskCall);
  }

  function Started(mission: Mission): Mission {
    if mission.status == MissionStatus.Ready then mission.Start().value else mission
  }

  method StartIfReady(s: M.State, id: Id)
    requires s.Valid() && id in s.View().missions && id in s.missions && s.missions[id] in s.Repr
    modifies s.missions[id]
    ensures s.Valid()
    ensures old(s.View()).missions[id].status == MissionStatus.Ready ==> old(s.View()).missions[id].Start().Ok?
    ensures s.View() == old(s.View()).(missions := old(s.View()).missions[id := Started(old(s.View()).missions[id])])
  {
    hide M.State.View, M.State.Valid;
    var mission := s.GetMission(id);
    assert s.View().missions == s.View().missions[id := s.View().missions[id]];
    if mission.status == MissionStatus.Ready {
      var started := s.CallMission(id, M.StartMission);
    }
  }

  /** `ClaimBaselineAttempt.execute`. */
  method ClaimInside(s: M.State, cfg: Config, now: Time, attemptId: Id, owner: Id) returns (r: Result<Token>)
    requires s.Valid()
    modifies s, s.Repr
    ensures s.Valid() && fresh(s.Repr - old(s.Repr))
    ensures var t := ClaimAttempt(old(s.View()), cfg, now, attemptId, owner);
      if t.Ok? then r == Ok(t.value.1) && s.View() == t.value.0 else r == Err(t.error)
  {
    hide M.State.View, M.State.Valid, Attempt.Claim, Mission.Start, Task.Start;
    var attempt, task, mission := Fetch(s, attemptId);
    if mission == null { return Err(NotFound); }
    StartIfReady(s, task.mission);
    var claimed := s.CallAttempt(attemptId, M.Claim(owner, now, now + cfg.lease));
    if claimed.Err? { return Err(claimed.error); }
    if task.status != TaskStatus.Running {
      var started := s.CallTask(attempt.task, M.StartTask);
      if started.Err? { return Err(started.error); }
    }
    s.AddAuditEvent(Audit(attemptId, AttemptClaimed, now));
    return Ok(Token(attemptId, owner, attempt.epoch, attempt.version));
  }

  /** `RenewAttemptLease.execute`. */
  method RenewInside(s: M.State, cfg: Config, now: Time, token: Token) returns (r: Result<Token>)
    requires s.Valid()
    modifies s, s.Repr
    ensures s.Valid() && fresh(s.Repr - old(s.Repr))
    ensures var t := RenewLease(old(s.View()), cfg, now, token);
      if t.Ok? then r == Ok(t.value.1) && s.View() == t.value.0 else r == Err(t.error)
  {
    hide M.State.View, M.State.Valid, Attempt.Heartbeat;
    var attempt := s.GetAttempt(token.attempt);
    if attempt == null { return Err(NotFound); }
    var renewed := s.CallAttempt(token.attempt, M.Heartbeat(token, now, now + cfg.lease));
    if renewed.Err? { return Err(renewed.error); }
    return Ok(token.(version := attempt.version));
  }

  /** `RequestMissionCancellation.execute`. */
  method RequestCancellationInside(s: M.State, now: Time, missionId: Id) returns (r: Result<()>)
    requires s.Valid()
    modifies s, s.Repr
    ensures s.Valid() && fresh(s.Repr - old(s.Repr))
    ensures var t := RequestCancellation(old(s.View()), now, missionId);
      if t.Ok? then r == Ok(()) && s.View() == t.value else r == Err(t.error)
  {
    hide M.State.View, M.State.Valid, Mission.RequestCancel;
    var mission := s.GetMission(missionId);
    if mission == null { return Err(NotFound); }
    var asked := s.CallMission(missionId, M.RequestCancel);
    if asked.Err? { return Err(asked.error); }
    s.AddAuditEvent(Audit(missionId, CancellationAsked, now));
    return Ok(());
  }

  /** The mission, its task and its attempt succeed together. */
  method SucceedRows(s: M.State, now: Time, token: Token, taskId: Id, missionId: Id) returns (r: Result<()>)
    requires s.Valid() && token.attempt in s.attempts && taskId in s.tasks && missionId in s.missions
    requires token.attempt in s.View().attempts && taskId in s.View().tasks && missionId in s.View().missions
    requires s.attempts[token.attempt] in s.Repr && s.tasks[taskId] in s.Repr && s.missions[missionId] in s.Repr
    modifies s.attempts[token.attempt], s.tasks[taskId], s.missions[missionId]
    ensures s.Valid()
    ensures var m := old(s.View()).missions[missionId].Complete();
      var t := old(s.View()).tasks[taskId].Succeed();
      var a := old(s.View()).attempts[token.attempt].Succeed(token, now);
      if m.Err? then r == Err(m.error)
      else if t.Err? then r == Err(t.error)
      else if a.Err? then r == Err(a.error)
      else r == Ok(()) && s.View() == old(s.View()).(
        missions := old(s.View()).missions[missionId := m.value],
        tasks := old(s.View()).tasks[taskId := t.value],
        attempts := old(s.View()).attempts[token.attempt := a.value])
  {
    hide M.State.View, M.State.Valid, Mission.Complete, Task.Succeed, Attempt.Succeed;
    r := s.CallMission(missionId, M.CompleteMission);
    if r.Err? { return; }
    r := s.CallTask(taskId, M.SucceedTask);
    if r.Err? { return; }
    r := s.CallAttempt(token.attempt, M.SucceedAttempt(token, now));
  }

  /** The bundle is recorded, the rows succeed, and the completion is logged. */
  method RecordCompletion(s: M.State, now: Time, token: Token, taskId: Id, missionId: Id, registration: Registration)
    returns (r: Result<()>)
    requires s.Valid() && token.attempt in s.attempts && taskId in s.tasks && missionId in s.missions
    requires token.attempt in s.View().attempts && taskId in s.View().tasks && missionId in s.View().missions
    requires s.attempts[token.attempt] in s.Repr && s.tasks[taskId] in s.Repr && s.missions[missionId] in s.Repr
    modifies s, s.Repr
    ensures s.Valid() && s.Repr == old(s.Repr)
    ensures var b := M.Once(old(s.View()).bundles, missionId, registration);
      var m := old(s.View()).missions[missionId].Complete();
      var t := old(s.View()).tasks[taskId].Succeed();
      var a := old(s.View()).attempts[token.attempt].Succeed(token, now);
      if b.Err? then r == Err(b.error)
      else if m.Err? then r == Err(m.error)
      else if t.Err? then r == Err(t.error)
      else if a.Err? then r == Err(a.error)
      else r == Ok(()) && s.View() == old(s.View()).(
        bundles := b.value,
        missions := old(s.View()).missions[missionId := m.value],
        tasks := old(s.View()).tasks[taskId := t.value],
        attempts := old(s.View()).attempts[token.attempt := a.value],
        audits := old(s.View()).audits + [Audit(missionId, MissionCompleted, now)])
  {
    hide M.State.View, M.State.Valid, Mission.Complete, Task.Succeed, Attempt.Succeed;
    r := s.AddBundle(missionId, registration);
    if r.Err? { return; }
    r := SucceedRows(s, now, token, taskId, missionId);
    if r.Err? { return; }
    s.AddAuditEvent(Audit(missionId, MissionCompleted, now));
  }

  /** `CompleteReproductionMission._complete`. */
  method CompleteInside(s: M.State, now: Time, token: Token, artifact: ArtifactRef) returns (r: Result<()>)
    requires s.Valid()
    modifies s, s.Repr
    ensures s.Valid() && fresh(s.Repr - old(s.Repr))
    ensures var t := CompleteMission(old(s.View()), now, token, artifact);
      if t.Ok? then r == Ok(()) && s.View() == t.value else r == Err(t.error)
  {
    hide M.State.View, M.State.Valid, Mission.Complete, Task.Succeed, Attempt.Succeed, Attempt.CheckLease;
    var attempt, task, mission := Fetch(s, token.attempt);
    if mission == null { return Err(NotFound); }
    var held := attempt.AssertActiveLease(token, now);
    if held.Err? { return Err(held.error); }
    var operationId, operation := s.GetOperationByKey(Key(token.attempt, BundleSlot));
    if operation == null { return Err(Refused); }
    var registration := Registration(artifact, Bundle, token.attempt, operationId, now);
    r := RecordCompletion(s, now, token, attempt.task, task.mission, registration);
  }

  /** The checks of a repair proposal. */
  method CheckProposal(s: M.State, now: Time, token: Token)
    returns (r: Result<()>, attempt: E.Attempt?, task: E.Task?, mission: E.Mission?)
    requires s.Valid()
    ensures var v := ValidateProposal(s.View(), now, token);
      if v.Err? then r == Err(v.error)
      else
        && r.Ok? && attempt != null && task != null && mission != null
        && attempt in s.Repr && task in s.Repr && mission in s.Repr
        && v.value == Context(attempt.State(), task.State(), mission.State())
        && token.attempt in s.attempts && attempt == s.attempts[token.attempt]
        && attempt.task in s.tasks && task == s.tasks[attempt.task]
        && task.mission in s.missions && mission == s.missions[task.mission]
        && Load(s.View(), token.attempt) == v
  {
    hide M.State.View, M.State.Valid, Attempt.CheckLease;
    r := Err(Refused);
    attempt, task, mission := Fetch(s, token.attempt);
    if attempt == null { r := Err(NotFound); return; }
    if task == null || task.kind != RepairCandidate { return; }
    if mission == null || mission.status != MissionStatus.Running { return; }
    r := attempt.AssertActiveLease(token, now);
  }

  /** A new approval and its audit row. */
  method StoreRequest(s: M.State, now: Time, id: Id, row: Approval)
    requires s.Valid() && id !in s.View().approvals
    modifies s
    ensures s.Valid() && fresh(s.Repr - old(s.Repr))
    ensures s.View() == old(s.View()).(
      approvals := old(s.View()).approvals[id := row],
      audits := old(s.View()).audits + [Audit(row.mission, ApprovalRequested, now)])
  {
    hide M.State.View, M.State.Valid;
    var approval := new E.Approval(row);
    var added := s.AddApproval(id, approval);
    s.AddAuditEvent(Audit(row.mission, ApprovalRequested, now));
  }

  /** The mission pauses, and the approval is stored. */
  method PauseForApproval(s: M.State, now: Time, token: Token, taskId: Id, missionId: Id, id: Id, row: Approval)
    returns (r: Result<()>)
    requires s.Valid() && token.attempt in s.attempts && taskId in s.tasks && missionId in s.missions
    requires token.attempt in s.View().attempts && taskId in s.View().tasks && missionId in s.View().missions
    requires s.attempts[token.attempt] in s.Repr && s.tasks[taskId] in s.Repr && s.missions[missionId] in s.Repr
    requires id !in s.View().approvals && row.mission == missionId
    modifies s, s.Repr
    ensures s.Valid() && fresh(s.Repr - old(s.Repr))
    ensures var m := old(s.View()).missions[missionId].WaitForApproval();
      var a := old(s.View()).attempts[token.attempt].Fail(token, now, true, FailureCode.WaitingApproval);
      var t := old(s.View()).tasks[taskId].Retry();
      if m.Err? then r == Err(m.error)
      else if a.Err? then r == Err(a.error)
      else if t.Err? then r == Err(t.error)
      else r == Ok(()) && s.View() == old(s.View()).(
        missions := old(s.View()).missions[missionId := m.value],
        attempts := old(s.View()).attempts[token.attempt := a.value],
        tasks := old(s.View()).tasks[taskId := t.value],
        approvals := old(s.View()).approvals[id := row],
        audits := old(s.View()).audits + [Audit(missionId, ApprovalRequested, now)])
  {
    hide M.State.View, M.State.Valid, Mission.WaitForApproval, Task.Retry, Attempt.Fail;
    r := PauseRows(s, now, token, taskId, missionId);
    if r.Err? { return; }
    StoreRequest(s, now, id, row);
  }

  /** `RequestRepairApproval.execute`, the last transaction. */
  method RequestApprovalInside(s: M.State, cfg: Config, now: Time, token: Token, patch: ArtifactRef, newId: Id)
    returns (r: Result<()>)
    requires s.Valid() && newId !in s.View().approvals
    modifies s, s.Repr
    ensures s.Valid() && fresh(s.Repr - old(s.Repr))
    ensures var t := RequestApproval(old(s.View()), cfg, now, token, patch, newId);
      if t.Ok? then r == Ok(()) && s.View() == t.value else r == Err(t.error)
  {
    hide M.State.View, M.State.Valid, Mission.WaitForApproval, Task.Retry, Attempt.Fail;
    var checked, attempt, task, mission := CheckProposal(s, now, token);
    if checked.Err? { return Err(checked.error); }
    hide ValidateProposal, Load;
    var missionId := task.mission;
    r := PauseForApproval(s, now, token, attempt.task, missionId, newId,
                          Approval(missionId, attempt.task, token.attempt, CandidateCommit, patch.sha, CandidateCommit,
                                   now, now + cfg.approvalTtl, Some(patch), ApprovalStatus.Pending, None, None, 0));
  }

  /** A rejection fails the task and the mission. */
  method RejectInside(s: M.State, now: Time, id: Id, decider: Id, child: Id, event: Id) returns (r: Result<()>)
    requires s.Valid() && id in s.approvals && s.approvals[id] in s.Repr && id in s.View().approvals
    requires s.approvals[id].State() == s.View().approvals[id]
    requires s.approvals[id].request.mission in s.View().missions && s.approvals[id].request.task in s.View().tasks
    requires s.approvals[id].request.attempt in s.View().attempts
    modifies s, s.Repr
    ensures s.Valid() && fresh(s.Repr - old(s.Repr))
    ensures var t := ResolveApproval(old(s.View()), now, id, false, decider, child, event);
      if t.Ok? then r == Ok(()) && s.View() == t.value else r == Err(t.error)
  {
    hide M.State.View, M.State.Valid, Approval.Reject, Task.Fail, Mission.Fail;
    var request := s.approvals[id].request;
    var mission := s.GetMission(request.mission);
    var task := s.GetTask(request.task);
    var rejected := s.CallApproval(id, M.Reject(decider, now));
    if rejected.Err? { return Err(rejected.error); }
    var failed := FailRows(s, request.task, request.mission);
    if failed.Err? { return Err(failed.error); }
    s.AddAuditEvent(Audit(request.mission, AuditKind.ApprovalRejected, now));
    return Ok(());
  }

  /** The child attempt that resumes a granted one, and its event. */
  method AddChild(s: M.State, now: Time, mission: Id, child: Id, row: Attempt, event: Id)
    requires s.Valid()
    modifies s
    ensures s.Valid() && fresh(s.Repr - old(s.Repr))
    ensures s.View() == old(s.View()).(
      attempts := old(s.View()).attempts[child := row],
      audits := old(s.View()).audits + [Audit(mission, ApprovalApproved, now)],
      outbox := old(s.View()).outbox + [OutboxEvent(event, RepairReady, child, now)])
  {
    hide M.State.View, M.State.Valid;
    var attempt := new E.Attempt(row);
    s.AddAttempt(child, attempt);
    s.AddAuditEvent(Audit(mission, ApprovalApproved, now));
    s.AddOutboxEvent(OutboxEvent(event, RepairReady, child, now));
  }

  /** A grant resumes the mission with a child attempt and its event. */
  method GrantInside(s: M.State, now: Time, id: Id, decider: Id, child: Id, event: Id) returns (r: Result<()>)
    requires s.Valid() && id in s.approvals && s.approvals[id] in s.Repr && id in s.View().approvals
    requires s.approvals[id].State() == s.View().approvals[id]
    requires s.approvals[id].request.mission in s.View().missions && s.approvals[id].request.task in s.View().tasks
    requires s.approvals[id].request.attempt in s.View().attempts
    modifies s, s.Repr
    ensures s.Valid() && fresh(s.Repr - old(s.Repr))
    ensures var t := ResolveApproval(old(s.View()), now, id, true, decider, child, event);
      if t.Ok? then r == Ok(()) && s.View() == t.value else r == Err(t.error)
  {
    hide M.State.View, M.State.Valid, Approval.Approve, Mission.Start;
    var request := s.approvals[id].request;
    var mission := s.GetMission(request.mission);
    var parent := s.GetAttempt(request.attempt);
    var granted := s.CallApproval(id, M.Approve(decider, now));
    if granted.Err? { return Err(granted.error); }
    var started := s.CallMission(request.mission, M.StartMission);
    if started.Err? { return Err(started.error); }
    var resumed := NewAttempt(request.task, parent.number + 1, now, Some(request.attempt));
    AddChild(s, now, request.mission, child, resumed, event);
    return Ok(());
  }

  /** `ResolveApproval.execute`. */
  method ResolveInside(s: M.State, now: Time, id: Id, approved: bool, decider: Id, child: Id, event: Id)
    returns (r: Result<()>)
    requires s.Valid()
    modifies s, s.Repr
    ensures s.Valid() && fresh(s.Repr - old(s.Repr))
    ensures var t := ResolveApproval(old(s.View()), now, id, approved, decider, child, event);
      if t.Ok? then r == Ok(()) && s.View() == t.value else r == Err(t.error)
  {
    hide M.State.View, M.State.Valid;
    var approval := s.GetApproval(id);
    if approval == null { return Err(NotFound); }
    var mission := s.GetMission(approval.request.mission);
    var task := s.GetTask(approval.request.task);
    var parent := s.GetAttempt(approval.request.attempt);
    if mission == null || task == null || parent == null { return Err(NotFound); }
    hide ResolveApproval;
    if approved {
      r := GrantInside(s, now, id, decider, child, event);
    } else {
      r := RejectInside(s, now, id, decider, child, event);
    }
  }

  /** `CancelBaselineAttempt.execute`, the last transaction. */
  method CancelInside(s: M.State, now: Time, token: Token) returns (r: Result<()>)
    requires s.Valid()
    modifies s, s.Repr
    ensures s.Valid() && fresh(s.Repr - old(s.Repr))
    ensures var t := CancelAttempt(old(s.View()), now, token);
      if t.Ok? then r == Ok(()) && s.View() == t.value else r == Err(t.error)
  {
    hide M.State.View, M.State.Valid, Attempt.Cancel, Task.Cancel, Mission.ConfirmCancel;
    var attempt, task, mission := Fetch(s, token.attempt);
    if mission == null { return Err(NotFound); }
    var missionId := task.mission;
    var ended := EndAttempt(s, token.attempt, M.CancelAttempt(token, now), attempt.task, M.CancelTask);
    if ended.Err? { return Err(ended.error); }
    var confirmed := s.CallMission(missionId, M.ConfirmCancel);
    if confirmed.Err? { return Err(confirmed.error); }
    s.AddAuditEvent(Audit(missionId, MissionCancelled, now));
    return Ok(());
  }

  /** `_schedule_single_repair_attempt`. */
  method ScheduleInside(s: M.State, now: Time, mission: Id, ids: RepairIds)
    requires s.Valid()
    modifies s
    ensures s.Valid() && fresh(s.Repr - old(s.Repr)) && s.View() == ScheduleRepair(old(s.View()), now, mission, ids)
  {
    hide M.State.View, M.State.Valid;
    var scheduled := s.AnyTask(mission, RepairCandidate);
    if scheduled { return; }
    var task := new E.Task(Task(mission, RepairCandidate, now, TaskStatus.Pending, 0));
    var attempt := new E.Attempt(NewAttempt(ids.task, 1, now, None));
    s.AddTask(ids.task, task);
    s.AddAttempt(ids.attempt, attempt);
    s.AddAuditEvent(Audit(mission, RepairScheduled, now));
    s.AddOutboxEvent(OutboxEvent(ids.event, RepairReady, ids.attempt, now));
  }

  /** `FinalizeBaselineExecution._fail`. */
  method FailInside(s: M.State, now: Time, token: Token, code: FailureCode, repairMode: bool, ids: RepairIds)
    returns (r: Result<()>)
    requires s.Valid()
    modifies s, s.Repr
    ensures s.Valid() && fresh(s.Repr - old(s.Repr))
    ensures var t := FailRun(old(s.View()), now, token, code, repairMode, ids);
      if t.Ok? then r == Ok(()) && s.View() == t.value else r == Err(t.error)
  {
    hide M.State.View, M.State.Valid, Attempt.Fail, Task.Fail, Mission.Fail, ScheduleRepair;
    var attempt, task, mission := Fetch(s, token.attempt);
    if mission == null { return Err(NotFound); }
    var missionId, kind := task.mission, task.kind;
    var failed := EndAttempt(s, token.attempt, M.FailAttempt(token, now, false, code), attempt.task, M.FailTask);
    if failed.Err? { return Err(failed.error); }
    if repairMode && kind == BaselineReproduction {
      ScheduleInside(s, now, missionId, ids);
    } else {
      var ended := s.CallMission(missionId, M.FailMission);
      if ended.Err? { return Err(ended.error); }
    }
    return Ok(());
  }

  /** The idempotency check of every prepare transaction. */
  method FindOperation(s: M.State, key: Key, kind: OperationType, input: Digest, epoch: nat)
    returns (r: Result<()>, id: Id, operation: E.Operation?)
    requires s.Valid()
    ensures var found := Adopt(s.View(), key, kind, input, epoch);
      if found.Err? then r == Err(found.error)
      else r == Ok(()) && (operation == null <==> found.value.None?)
    ensures operation != null ==>
      && id == s.View().keys[key] && id in s.operations && operation == s.operations[id] && operation in s.Repr
      && key in s.View().keys && id in s.View().operations && operation.State() == s.View().operations[id]
  {
    hide M.State.View, M.State.Valid;
    id, operation := s.GetOperationByKey(key);
    r := Ok(());
    if operation != null && (operation.kind != kind || operation.input != input || operation.epoch != epoch) {
      r := Err(OperationConflict);
    }
  }

  /** A new operation under a new key. */
  method NewEffect(s: M.State, id: Id, row: Operation)
    requires s.Valid() && row.key !in s.View().keys
    modifies s
    ensures s.Valid() && fresh(s.Repr - old(s.Repr)) && s.View() == AddOperation(old(s.View()), id, row)
  {
    hide M.State.View, M.State.Valid;
    var operation := new E.Operation(row);
    assert operation.key == operation.State().key;
    var added := s.AddOperation(id, operation);
  }

  /** `EnsureBaselineWorkspace._prepare`. */
  method PrepareWorkspaceInside(s: M.State, now: Time, token: Token, newId: Id) returns (r: Result<()>)
    requires s.Valid()
    requires KeyIndex(s.View().operations, s.View().keys) && newId !in s.View().operations
    modifies s, s.Repr
    ensures s.Valid() && fresh(s.Repr - old(s.Repr))
    ensures var t := PrepareWorktree(old(s.View()), now, token, newId);
      if t.Ok? then r == Ok(()) && s.View() == t.value else r == Err(t.error)
  {
    hide M.State.View, M.State.Valid, WorktreeInput, Attempt.CheckLease, Load;
    var active, attempt, task, mission := FetchActive(s, now, token);
    if active.Err? { return Err(active.error); }
    var key, input := Key(token.attempt, BaselineWorktree), WorktreeInput(mission.spec);
    var found, id, operation := FindOperation(s, key, WorktreeCreate, input, token.epoch);
    if found.Err? { return Err(found.error); }
    if operation == null {
      NewEffect(s, newId, NewOperation(key, WorktreeCreate, input, token.epoch, BaselineTree, now));
    }
    return Ok(());
  }

  /** `EnsureBaselineWorkspace._finalize`. */
  method FinishWorkspaceInside(s: M.State, now: Time, token: Token, path: string) returns (r: Result<()>)
    requires s.Valid()
    modifies s, s.Repr
    ensures s.Valid() && fresh(s.Repr - old(s.Repr))
    ensures var t := FinishWorktree(old(s.View()), now, token, path);
      if t.Ok? then r == Ok(()) && s.View() == t.value else r == Err(t.error)
  {
    hide M.State.View, M.State.Valid, Operation.Succeed, Attempt.CheckLease;
    var attempt := s.GetAttempt(token.attempt);
    var id, operation := s.GetOperationByKey(Key(token.attempt, BaselineWorktree));
    if attempt == null || operation == null { return Err(NotFound); }
    var held := attempt.AssertActiveLease(token, now);
    if held.Err? { return Err(held.error); }
    if operation.status != OperationStatus.Succeeded {
      var done := s.CallOperation(id, M.SucceedOperation(External(path), now));
      if done.Err? { return Err(done.error); }
    }
    return Ok(());
  }

  /** `RunBaselineAttempt._prepare`: the operation of this run and whether it had succeeded already. */
  method PrepareSandboxInside(s: M.State, now: Time, token: Token, path: string, newId: Id)
    returns (r: Result<(Id, bool)>)
    requires s.Valid()
    requires KeyIndex(s.View().operations, s.View().keys) && newId !in s.View().operations
    modifies s, s.Repr
    ensures s.Valid() && fresh(s.Repr - old(s.Repr))
    ensures var t := PrepareSandbox(old(s.View()), now, token, path, newId);
      if t.Ok? then r == Ok((t.value.1, t.value.2)) && s.View() == t.value.0 else r == Err(t.error)
  {
    hide M.State.View, M.State.Valid, SandboxInput, Attempt.CheckLease, Operation.Begin, Load;
    var active, attempt, task, mission := FetchActive(s, now, token);
    if active.Err? { return Err(active.error); }
    if !mission.spec.offline { return Err(OperationConflict); }
    var key, input := Key(token.attempt, Sandbox), SandboxInput(mission.spec, path);
    var found, id, operation := FindOperation(s, key, SandboxRun, input, token.epoch);
    if found.Err? { return Err(found.error); }
    if operation == null {
      var row := NewOperation(key, SandboxRun, input, token.epoch, At(path), now);
      BeginsNew(row, now);
      NewEffect(s, newId, row.Begin(now).value);
      return Ok((newId, false));
    }
    if operation.status == OperationStatus.Succeeded { return Ok((id, true)); }
    var begun := s.CallOperation(id, M.Begin(now));
    if begun.Err? { return Err(begun.error); }
    return Ok((id, false));
  }

  lemma BeginsNew(row: Operation, now: Time)
    requires row.status == OperationStatus.Prepared
    ensures row.Begin(now).Ok? && row.Begin(now).value.key == row.key
  {}

  /** `RunBaselineAttempt._finalize`. */
  method FinishSandboxInside(s: M.State, now: Time, token: Token, result: SandboxResult) returns (r: Result<()>)
    requires s.Valid()
    modifies s, s.Repr
    ensures s.Valid() && fresh(s.Repr - old(s.Repr))
    ensures var t := FinishSandbox(old(s.View()), now, token, result);
      if t.Ok? then r == Ok(()) && s.View() == t.value else r == Err(t.error)
  {
    hide M.State.View, M.State.Valid, Operation.Succeed, Attempt.CheckLease;
    var attempt := s.GetAttempt(token.attempt);
    var id, operation := s.GetOperationByKey(Key(token.attempt, Sandbox));
    if attempt == null || operation == null { return Err(NotFound); }
    var held := attempt.AssertActiveLease(token, now);
    if held.Err? { return Err(held.error); }
    if result.operation != id { return Err(OperationConflict); }
    r := s.CallOperation(id, M.SucceedOperation(External(result.execution), now));
  }

  /** `PersistArtifact._prepare_or_get_existing`. */
  method PreparePutInside(s: M.State, now: Time, token: Token, put: Put, newId: Id)
    returns (r: Result<Option<Registration>>)
    requires s.Valid()
    requires KeyIndex(s.View().operations, s.View().keys) && newId !in s.View().operations
    modifies s, s.Repr
    ensures s.Valid() && fresh(s.Repr - old(s.Repr))
    ensures var t := PreparePut(old(s.View()), now, token, put, newId);
      if t.Ok? then r == Ok(t.value.1) && s.View() == t.value.0 else r == Err(t.error)
  {
    hide M.State.View, M.State.Valid, Attempt.CheckLease, Load;
    var active, attempt, task, mission := FetchActive(s, now, token);
    if active.Err? { return Err(active.error); }
    var key, input := Key(token.attempt, put.slot), Sha256(put.payload);
    var found, id, operation := FindOperation(s, key, CasPut, input, token.epoch);
    if found.Err? { return Err(found.error); }
    if operation == null {
      NewEffect(s, newId, NewOperation(key, CasPut, input, token.epoch, put.target, now));
      return Ok(None);
    }
    if operation.attempt != token.attempt { return Err(OperationConflict); }
    if operation.status == OperationStatus.Succeeded {
      var records := s.Read();
      if id !in records.artifacts { return Err(OperationConflict); }
      return Ok(Some(records.artifacts[id]));
    }
    return Ok(None);
  }

  /** `PersistArtifact._finalize`. */
  method FinishPutInside(s: M.State, now: Time, token: Token, put: Put) returns (r: Result<()>)
    requires s.Valid()
    modifies s, s.Repr
    ensures s.Valid() && fresh(s.Repr - old(s.Repr))
    ensures var t := FinishPut(old(s.View()), now, token, put);
      if t.Ok? then r == Ok(()) && s.View() == t.value else r == Err(t.error)
  {
    hide M.State.View, M.State.Valid, Operation.Succeed, Attempt.CheckLease, Put.Ref, Put.Kind;
    var attempt, task, mission := Fetch(s, token.attempt);
    var id, operation := s.GetOperationByKey(Key(token.attempt, put.slot));
    if attempt == null || operation == null { return Err(NotFound); }
    if mission == null { return Err(NotFound); }
    if mission.status == MissionStatus.Cancelling { return Err(CancellationRequested); }
    var held := attempt.AssertActiveLease(token, now);
    if held.Err? { return Err(held.error); }
    r := s.CallOperation(id, M.SucceedOperation(CasUri(put.Ref().sha), now));
    if r.Err? { return; }
    r := s.AddArtifact(id, Registration(put.Ref(), put.Kind(), token.attempt, id, now));
  }

  /** `PrepareRepairCandidate._prepare_operation`. */
  method PrepareCandidateInside(s: M.State, now: Time, token: Token, diff: string, newId: Id) returns (r: Result<Id>)
    requires s.Valid()
    requires KeyIndex(s.View().operations, s.View().keys) && newId !in s.View().operations
    modifies s, s.Repr
    ensures s.Valid() && fresh(s.Repr - old(s.Repr))
    ensures var t := PrepareCandidate(old(s.View()), now, token, diff, newId);
      if t.Ok? then r == Ok(t.value.1) && s.View() == t.value.0 else r == Err(t.error)
  {
    hide M.State.View, M.State.Valid, Attempt.CheckLease;
    var attempt := s.GetAttempt(token.attempt);
    if attempt == null { return Err(NotFound); }
    var held := attempt.AssertActiveLease(token, now);
    if held.Err? { return Err(held.error); }
    var key, input := Key(token.attempt, CandidateSlot), Sha256(Utf8(diff));
    var found, id, operation := FindOperation(s, key, CandidateCommit, input, token.epoch);
    if found.Err? { return Err(found.error); }
    if operation == null {
      NewEffect(s, newId, NewOperation(key, CandidateCommit, input, token.epoch, CandidateTree, now));
      return Ok(newId);
    }
    return Ok(id);
  }

  /** `PrepareRepairCandidate._finalize_operation`. */
  method FinishCandidateInside(s: M.State, now: Time, token: Token, commit: string) returns (r: Result<()>)
    requires s.Valid()
    modifies s, s.Repr
    ensures s.Valid() && fresh(s.Repr - old(s.Repr))
    ensures var t := FinishCandidate(old(s.View()), now, token, commit);
      if t.Ok? then r == Ok(()) && s.View() == t.value else r == Err(t.error)
  {
    hide M.State.View, M.State.Valid, Operation.Succeed, Attempt.CheckLease;
    var attempt := s.GetAttempt(token.attempt);
    var id, operation := s.GetOperationByKey(Key(token.attempt, CandidateSlot));
    if attempt == null || operation == null { return Err(NotFound); }
    var held := attempt.AssertActiveLease(token, now);
    if held.Err? { return Err(held.error); }
    var done := s.CallOperation(id, M.SucceedOperation(External(commit), now));
    if done.Err? { return Err(done.error); }
    s.AddAuditEvent(Audit(token.attempt, CandidateCommitted, now));
    return Ok(());
  }

  lemma NoLinksYet(db: Db, claim: Id, links: seq<EvidenceLink>)
    requires claim !in db.evidence
    ensures EvidenceOf(db, claim) + links == links
  {}

  /** The records of a verified metric: the metric, its claim with two links, and the audit row. */
  method RecordResult(s: M.State, now: Time, token: Token, record: MetricRecord, claim: Id, row: Claim, e: Evidence)
    requires s.Valid() && token.attempt !in s.View().metrics && claim !in s.View().claims && claim !in s.View().evidence
    modifies s
    ensures s.Valid() && s.Repr == old(s.Repr)
    ensures s.View() == old(s.View()).(
      metrics := old(s.View()).metrics[token.attempt := record],
      claims := old(s.View()).claims[claim := row],
      evidence := old(s.View()).evidence[claim :=
        [EvidenceLink(claim, MetricArtifact, e.metric), EvidenceLink(claim, LogArtifact, e.log)]],
      audits := old(s.View()).audits + [Audit(row.mission, MetricVerified, now)])
  {
    hide M.State.View, M.State.Valid;
    var metricAdded := s.AddMetric(token.attempt, record);
    var claimAdded := s.AddClaim(claim, row);
    var metricLink, logLink := EvidenceLink(claim, MetricArtifact, e.metric), EvidenceLink(claim, LogArtifact, e.log);
    assert [] + [metricLink] == [metricLink] && [metricLink] + [logLink] == [metricLink, logLink];
    s.AddEvidenceLink(metricLink);
    s.AddEvidenceLink(logLink);
    assert s.View().evidence == old(s.View()).evidence[claim := [metricLink, logLink]];
    s.AddAuditEvent(Audit(row.mission, MetricVerified, now));
  }

  function Verifying(mission: Mission): Mission {
    if mission.status == MissionStatus.Running then mission.BeginVerification().value else mission
  }

  method StartVerifying(s: M.State, id: Id)
    requires s.Valid() && id in s.View().missions
    modifies s.Repr
    ensures s.Valid() && s.Repr == old(s.Repr)
    ensures s.View() == old(s.View()).(missions := old(s.View()).missions[id := Verifying(old(s.View()).missions[id])])
  {
    hide M.State.View, M.State.Valid;
    var mission := s.GetMission(id);
    assert s.View().missions == s.View().missions[id := s.View().missions[id]];
    if mission.status == MissionStatus.Running {
      var verifying := s.CallMission(id, M.BeginVerification);
    }
  }

  /** A running mission starts verification, and the result is recorded. */
  method EnterVerification(s: M.State, now: Time, token: Token, record: MetricRecord, claim: Id, row: Claim,
                           e: Evidence)
    requires s.Valid() && token.attempt !in s.View().metrics && claim !in s.View().claims && claim !in s.View().evidence
    requires row.mission in s.View().missions
    modifies s, s.Repr
    ensures s.Valid() && s.Repr == old(s.Repr)
    ensures s.View() == WithResult(old(s.View()), now, token, record, claim, row, e)
  {
    hide M.State.View, M.State.Valid, Mission.BeginVerification;
    StartVerifying(s, row.mission);
    RecordResult(s, now, token, record, claim, row, e);
  }

  /** The tables after a result was registered for a mission that verifies or starts to. */
  function WithResult(db: Db, now: Time, token: Token, record: MetricRecord, claim: Id, row: Claim, e: Evidence): Db
    requires row.mission in db.missions
  {
    db.(missions := db.missions[row.mission := Verifying(db.missions[row.mission])],
        metrics := db.metrics[token.attempt := record],
        claims := db.claims[claim := row],
        evidence := db.evidence[claim :=
          [EvidenceLink(claim, MetricArtifact, e.metric), EvidenceLink(claim, LogArtifact, e.log)]],
        audits := db.audits + [Audit(row.mission, MetricVerified, now)])
  }

  /** `FinalizeBaselineExecution._register_verified_result`. */
  method RegisterInside(s: M.State, now: Time, token: Token, e: Evidence, metric: Id, claim: Id) returns (r: Result<()>)
    requires s.Valid()
    requires claim !in s.View().claims && claim !in s.View().evidence
    modifies s, s.Repr
    ensures s.Valid() && fresh(s.Repr - old(s.Repr))
    ensures var t := RegisterResult(old(s.View()), now, token, e, metric, claim);
      if t.Ok? then r == Ok(()) && s.View() == t.value else r == Err(t.error)
  {
    hide M.State.View, M.State.Valid, Attempt.CheckLease, MetricRecord.Valid;
    var attempt, task, mission := Fetch(s, token.attempt);
    if mission == null { return Err(NotFound); }
    var missionId := task.mission;
    var records := s.Read();
    if token.attempt in records.metrics {
      if exists c :: c in records.claims && records.claims[c].mission == missionId
          && records.claims[c].status == Verified {
        return Ok(());
      }
      return Err(NotFound);
    }
    var held := attempt.AssertActiveLease(token, now);
    if held.Err? { return Err(held.error); }
    var record := MetricRecord(metric, token.attempt, e.metric, e.validation.expectation, e.validation.value,
                               e.commit, mission.spec.runArgv, e.environment, e.dataset);
    if !record.Valid() { return Err(Refused); }
    var row := Claim(missionId, token.attempt, Verified, e.validation.value, e.validation.expectation.unit, now);
    EnterVerification(s, now, token, record, claim, row, e);
    NoLinksYet(old(s.View()), claim,
               [EvidenceLink(claim, MetricArtifact, e.metric), EvidenceLink(claim, LogArtifact, e.log)]);
    return Ok(());
  }

  /** One round of the reconciling loop. */
  method RecoverInside(s: M.State, now: Time, id: Id, event: Id) returns (r: Result<()>)
    requires s.Valid()
    modifies s, s.Repr
    ensures s.Valid() && s.Repr == old(s.Repr)
    ensures var db := old(s.View());
      if id !in db.operations then r == Err(NotFound)
      else
        var recovered := db.operations[id].RequestRecovery(now);
        if recovered.Err? then r == Err(recovered.error)
        else if recovered.value.attempt !in db.attempts || db.attempts[recovered.value.attempt].task !in db.tasks then
          r == Err(NotFound)
        else
          var topic := TopicOf(db.tasks[db.attempts[recovered.value.attempt].task].kind);
          r == Ok(()) && s.View() == db.(
            operations := db.operations[id := recovered.value],
            audits := db.audits + [Audit(id, RecoveryRequested, now)],
            outbox := db.outbox + [OutboxEvent(event, topic, recovered.value.attempt, now)])
  {
    hide M.State.View, M.State.Valid, Operation.RequestRecovery;
    var operation := s.GetOperation(id);
    if operation == null { return Err(NotFound); }
    r := s.CallOperation(id, M.RequestRecovery(now));
    if r.Err? { return; }
    var attempt := s.GetAttempt(operation.attempt);
    if attempt == null { return Err(NotFound); }
    var task := s.GetTask(attempt.task);
    if task == null { return Err(NotFound); }
    s.AddAuditEvent(Audit(id, RecoveryRequested, now));
    var topic := if task.kind == BaselineReproduction then BaselineReady else RepairReady;
    s.AddOutboxEvent(OutboxEvent(event, topic, operation.attempt, now));
  }

  lemma RecoverNone(db: Db, now: Time, ids: seq<Id>, event: Id)
    requires ids == []
    ensures Recover(db, now, ids, event) == Ok(db)
  {}

  /** The loop over the stale operations; an operation without its attempt or task raises. */
  method ReconcileInside(s: M.State, cfg: Config, now: Time, limit: int, event: Id) returns (r: Result<seq<Id>>)
    requires s.Valid()
    modifies s, s.Repr
    ensures s.Valid() && fresh(s.Repr - old(s.Repr))
    ensures var t := ReconcileStale(old(s.View()), cfg, now, limit, event);
      if t.Ok? then r.Ok? && s.View() == t.value else r == Err(t.error)
    ensures r.Ok? ==>
      r.value == OldestFirst(old(s.View()).operations, StaleIds(old(s.View()).operations, now - cfg.staleAfter), limit)
  {
    hide M.State.View, M.State.Valid, Recover, OldestFirst, Operation.RequestRecovery;
    ghost var db := s.View();
    var stale := s.GetStaleOperations(now - cfg.staleAfter, limit);
    if stale.Err? { return Err(stale.error); }
    var ids := stale.value;
    var i := 0;
    while i < |ids|
      invariant 0 <= i <= |ids| && s.Valid() && s.Repr == old(s.Repr)
      invariant Recover(s.View(), now, ids[i..], event + i) == Recover(db, now, ids, event)
    {
      assert ids[i..][0] == ids[i] && ids[i..][1..] == ids[i + 1..];
      RecoverOne(s.View(), now, ids[i..], event + i);
      var done := RecoverInside(s, now, ids[i], event + i);
      if done.Err? { return Err(done.error); }
      i := i + 1;
    }
    RecoverNone(s.View(), now, ids[i..], event + i);
    return Ok(ids);
  }

  /** One round of the loop. */
  lemma RecoverOne(db: Db, now: Time, ids: seq<Id>, event: Id)
    requires ids != []
    ensures Recover(db, now, ids, event) ==
      if ids[0] !in db.operations then Err(NotFound)
      else
        var recovered := db.operations[ids[0]].RequestRecovery(now);
        if recovered.Err? then Err(recovered.error)
        else
          var attempt := recovered.value.attempt;
          if attempt !in db.attempts || db.attempts[attempt].task !in db.tasks then Err(NotFound)
          else
            var topic := TopicOf(db.tasks[db.attempts[attempt].task].kind);
            Recover(db.(operations := db.operations[ids[0] := recovered.value],
                        audits := db.audits + [Audit(ids[0], RecoveryRequested, now)],
                        outbox := db.outbox + [OutboxEvent(event, topic, attempt, now)]), now, ids[1..], event + 1)
  {
    hide Operation.RequestRecovery;
  }

  /** The first transaction of a mission. */
  method CreateInside(s: M.State, now: Time, mission: Id, task: Id, attempt: Id, event: Id, spec: Spec,
                      proposal: Option<Id>)
    requires s.Valid()
    modifies s
    ensures s.Valid() && fresh(s.Repr - old(s.Repr))
    ensures CreateMission(old(s.View()), now, mission, task, attempt, event, spec, proposal) == Ok(s.View())
  {
    hide M.State.View, M.State.Valid;
    var m := new E.Mission(Mission(spec, now, proposal, MissionStatus.Draft, 0));
    var ready := m.MarkReady();
    var t := new E.Task(Task(mission, BaselineReproduction, now, TaskStatus.Pending, 0));
    var a := new E.Attempt(NewAttempt(task, 1, now, None));
    s.AddMission(mission, m);
    s.AddTask(task, t);
    s.AddAttempt(attempt, a);
    s.AddAuditEvent(Audit(mission, MissionCreated, now));
    s.AddOutboxEvent(OutboxEvent(event, BaselineReady, attempt, now));
  }

  // ---------------------------------------------------------------- the contexts

  /** Each use case opens a context, runs its statements on the working copy, and leaves. What it
      commits is the transaction's next tables; if it raises, the committed objects are untouched,
      although its own objects may have been changed half-way. */
  class Forge {
    const cfg: Config
    const uow: M.InMemoryUnitOfWork

    constructor (cfg: Config)
      ensures uow.Valid() && uow.working == null && uow.Committed() == EmptyDb && this.cfg == cfg && fresh(uow)
    {
      this.cfg := cfg;
      uow := new M.InMemoryUnitOfWork();
    }

    method CreateReproductionMission(now: Time, mission: Id, task: Id, attempt: Id, event: Id, spec: Spec,
                                     proposal: Option<Id>)
      requires uow.Valid() && uow.working == null
      modifies uow
      ensures uow.Valid() && uow.working == null
      ensures CreateMission(old(uow.Committed()), now, mission, task, attempt, event, spec,
                            proposal) == Ok(uow.Committed())
    {
      hide CreateMission, M.State.View, M.State.Valid;
      uow.Open();
      CreateInside(uow.working, now, mission, task, attempt, event, spec, proposal);
      uow.Close(false);
    }

    method ClaimBaselineAttempt(attemptId: Id, owner: Id, now: Time) returns (r: Result<Token>)
      requires uow.Valid() && uow.working == null
      modifies uow
      ensures uow.Valid() && uow.working == null
      ensures var t := ClaimAttempt(old(uow.Committed()), cfg, now, attemptId, owner);
        if t.Ok? then r == Ok(t.value.1) && uow.Committed() == t.value.0
        else r == Err(t.error) && uow.Committed() == old(uow.Committed()) && uow.state == old(uow.state)
    {
      hide ClaimAttempt, M.State.View, M.State.Valid;
      uow.Open();
      r := ClaimInside(uow.working, cfg, now, attemptId, owner);
      uow.Close(r.Err?);
    }

    method RenewAttemptLease(token: Token, now: Time) returns (r: Result<Token>)
      requires uow.Valid() && uow.working == null
      modifies uow
      ensures uow.Valid() && uow.working == null
      ensures var t := RenewLease(old(uow.Committed()), cfg, now, token);
        if t.Ok? then r == Ok(t.value.1) && uow.Committed() == t.value.0
        else r == Err(t.error) && uow.Committed() == old(uow.Committed()) && uow.state == old(uow.state)
    {
      hide RenewLease, M.State.View, M.State.Valid;
      uow.Open();
      r := RenewInside(uow.working, cfg, now, token);
      uow.Close(r.Err?);
    }

    method RequestMissionCancellation(missionId: Id, now: Time) returns (r: Result<()>)
      requires uow.Valid() && uow.working == null
      modifies uow
      ensures uow.Valid() && uow.working == null
      ensures var t := RequestCancellation(old(uow.Committed()), now, missionId);
        if t.Ok? then r == Ok(()) && uow.Committed() == t.value
        else r == Err(t.error) && uow.Committed() == old(uow.Committed()) && uow.state == old(uow.state)
    {
      hide RequestCancellation, M.State.View, M.State.Valid;
      uow.Open();
      r := RequestCancellationInside(uow.working, now, missionId);
      uow.Close(r.Err?);
    }

    method PrepareBaselineWorkspace(token: Token, now: Time, newId: Id) returns (r: Result<()>)
      requires uow.Valid() && uow.working == null
      requires KeyIndex(uow.Committed().operations, uow.Committed().keys) && newId !in uow.Committed().operations
      modifies uow
      ensures uow.Valid() && uow.working == null
      ensures var t := PrepareWorktree(old(uow.Committed()), now, token, newId);
        if t.Ok? then r == Ok(()) && uow.Committed() == t.value
        else r == Err(t.error) && uow.Committed() == old(uow.Committed()) && uow.state == old(uow.state)
    {
      hide PrepareWorktree, M.State.View, M.State.Valid;
      uow.Open();
      r := PrepareWorkspaceInside(uow.working, now, token, newId);
      uow.Close(r.Err?);
    }

    method FinalizeBaselineWorkspace(token: Token, path: string, now: Time) returns (r: Result<()>)
      requires uow.Valid() && uow.working == null
      modifies uow
      ensures uow.Valid() && uow.working == null
      ensures var t := FinishWorktree(old(uow.Committed()), now, token, path);
        if t.Ok? then r == Ok(()) && uow.Committed() == t.value
        else r == Err(t.error) && uow.Committed() == old(uow.Committed()) && uow.state == old(uow.state)
    {
      hide FinishWorktree, M.State.View, M.State.Valid;
      uow.Open();
      r := FinishWorkspaceInside(uow.working, now, token, path);
      uow.Close(r.Err?);
    }

    method PrepareSandboxRun(token: Token, path: string, now: Time, newId: Id) returns (r: Result<(Id, bool)>)
      requires uow.Valid() && uow.working == null
      requires KeyIndex(uow.Committed().operations, uow.Committed().keys) && newId !in uow.Committed().operations
      modifies uow
      ensures uow.Valid() && uow.working == null
      ensures var t := PrepareSandbox(old(uow.Committed()), now, token, path, newId);
        if t.Ok? then r == Ok((t.value.1, t.value.2)) && uow.Committed() == t.value.0
        else r == Err(t.error) && uow.Committed() == old(uow.Committed()) && uow.state == old(uow.state)
    {
      hide PrepareSandbox, M.State.View, M.State.Valid;
      uow.Open();
      r := PrepareSandboxInside(uow.working, now, token, path, newId);
      uow.Close(r.Err?);
    }

    method FinalizeSandboxRun(token: Token, result: SandboxResult, now: Time) returns (r: Result<()>)
      requires uow.Valid() && uow.working == null
      modifies uow
      ensures uow.Valid() && uow.working == null
      ensures var t := FinishSandbox(old(uow.Committed()), now, token, result);
        if t.Ok? then r == Ok(()) && uow.Committed() == t.value
        else r == Err(t.error) && uow.Committed() == old(uow.Committed()) && uow.state == old(uow.state)
    {
      hide FinishSandbox, M.State.View, M.State.Valid;
      uow.Open();
      r := FinishSandboxInside(uow.working, now, token, result);
      uow.Close(r.Err?);
    }

    method PrepareArtifact(token: Token, put: Put, now: Time, newId: Id) returns (r: Result<Option<Registration>>)
      requires uow.Valid() && uow.working == null
      requires KeyIndex(uow.Committed().operations, uow.Committed().keys) && newId !in uow.Committed().operations
      modifies uow
      ensures uow.Valid() && uow.working == null
      ensures var t := PreparePut(old(uow.Committed()), now, token, put, newId);
        if t.Ok? then r == Ok(t.value.1) && uow.Committed() == t.value.0
        else r == Err(t.error) && uow.Committed() == old(uow.Committed()) && uow.state == old(uow.state)
    {
      hide PreparePut, M.State.View, M.State.Valid;
      uow.Open();
      r := PreparePutInside(uow.working, now, token, put, newId);
      uow.Close(r.Err?);
    }

    method FinalizeArtifact(token: Token, put: Put, now: Time) returns (r: Result<()>)
      requires uow.Valid() && uow.working == null
      modifies uow
      ensures uow.Valid() && uow.working == null
      ensures var t := FinishPut(old(uow.Committed()), now, token, put);
        if t.Ok? then r == Ok(()) && uow.Committed() == t.value
        else r == Err(t.error) && uow.Committed() == old(uow.Committed()) && uow.state == old(uow.state)
    {
      hide FinishPut, M.State.View, M.State.Valid;
      uow.Open();
      r := FinishPutInside(uow.working, now, token, put);
      uow.Close(r.Err?);
    }

    method RegisterVerifiedResult(token: Token, e: Evidence, now: Time, metric: Id, claim: Id) returns (r: Result<()>)
      requires uow.Valid() && uow.working == null
      requires claim !in uow.Committed().claims && claim !in uow.Committed().evidence
      modifies uow
      ensures uow.Valid() && uow.working == null
      ensures var t := RegisterResult(old(uow.Committed()), now, token, e, metric, claim);
        if t.Ok? then r == Ok(()) && uow.Committed() == t.value
        else r == Err(t.error) && uow.Committed() == old(uow.Committed()) && uow.state == old(uow.state)
    {
      hide RegisterResult, M.State.View, M.State.Valid;
      uow.Open();
      r := RegisterInside(uow.working, now, token, e, metric, claim);
      uow.Close(r.Err?);
    }

    method FailBaselineExecution(token: Token, code: FailureCode, repairMode: bool, now: Time, ids: RepairIds)
      returns (r: Result<()>)
      requires uow.Valid() && uow.working == null
      modifies uow
      ensures uow.Valid() && uow.working == null
      ensures var t := FailRun(old(uow.Committed()), now, token, code, repairMode, ids);
        if t.Ok? then r == Ok(()) && uow.Committed() == t.value
        else r == Err(t.error) && uow.Committed() == old(uow.Committed()) && uow.state == old(uow.state)
    {
      hide FailRun, M.State.View, M.State.Valid;
      uow.Open();
      r := FailInside(uow.working, now, token, code, repairMode, ids);
      uow.Close(r.Err?);
    }

    method Complete(token: Token, artifact: ArtifactRef, now: Time) returns (r: Result<()>)
      requires uow.Valid() && uow.working == null
      modifies uow
      ensures uow.Valid() && uow.working == null
      ensures var t := CompleteMission(old(uow.Committed()), now, token, artifact);
        if t.Ok? then r == Ok(()) && uow.Committed() == t.value
        else r == Err(t.error) && uow.Committed() == old(uow.Committed()) && uow.state == old(uow.state)
    {
      hide CompleteMission, M.State.View, M.State.Valid;
      uow.Open();
      r := CompleteInside(uow.working, now, token, artifact);
      uow.Close(r.Err?);
    }

    method RequestRepairApproval(token: Token, patch: ArtifactRef, now: Time, newId: Id) returns (r: Result<()>)
      requires uow.Valid() && uow.working == null
      requires newId !in uow.Committed().approvals
      modifies uow
      ensures uow.Valid() && uow.working == null
      ensures var t := RequestApproval(old(uow.Committed()), cfg, now, token, patch, newId);
        if t.Ok? then r == Ok(()) && uow.Committed() == t.value
        else r == Err(t.error) && uow.Committed() == old(uow.Committed()) && uow.state == old(uow.state)
    {
      hide RequestApproval, M.State.View, M.State.Valid;
      uow.Open();
      r := RequestApprovalInside(uow.working, cfg, now, token, patch, newId);
      uow.Close(r.Err?);
    }

    method ResolveRepairApproval(approvalId: Id, approved: bool, decider: Id, now: Time, child: Id, event: Id)
      returns (r: Result<()>)
      requires uow.Valid() && uow.working == null
      modifies uow
      ensures uow.Valid() && uow.working == null
      ensures var t := ResolveApproval(old(uow.Committed()), now, approvalId, approved, decider, child, event);
        if t.Ok? then r == Ok(()) && uow.Committed() == t.value
        else r == Err(t.error) && uow.Committed() == old(uow.Committed()) && uow.state == old(uow.state)
    {
      hide ResolveApproval, M.State.View, M.State.Valid;
      uow.Open();
      r := ResolveInside(uow.working, now, approvalId, approved, decider, child, event);
      uow.Close(r.Err?);
    }

    method PrepareCandidateOperation(token: Token, diff: string, now: Time, newId: Id) returns (r: Result<Id>)
      requires uow.Valid() && uow.working == null
      requires KeyIndex(uow.Committed().operations, uow.Committed().keys) && newId !in uow.Committed().operations
      modifies uow
      ensures uow.Valid() && uow.working == null
      ensures var t := PrepareCandidate(old(uow.Committed()), now, token, diff, newId);
        if t.Ok? then r == Ok(t.value.1) && uow.Committed() == t.value.0
        else r == Err(t.error) && uow.Committed() == old(uow.Committed()) && uow.state == old(uow.state)
    {
      hide PrepareCandidate, M.State.View, M.State.Valid;
      uow.Open();
      r := PrepareCandidateInside(uow.working, now, token, diff, newId);
      uow.Close(r.Err?);
    }

    method FinalizeCandidateOperation(token: Token, commit: string, now: Time) returns (r: Result<()>)
      requires uow.Valid() && uow.working == null
      modifies uow
      ensures uow.Valid() && uow.working == null
      ensures var t := FinishCandidate(old(uow.Committed()), now, token, commit);
        if t.Ok? then r == Ok(()) && uow.Committed() == t.value
        else r == Err(t.error) && uow.Committed() == old(uow.Committed()) && uow.state == old(uow.state)
    {
      hide FinishCandidate, M.State.View, M.State.Valid;
      uow.Open();
      r := FinishCandidateInside(uow.working, now, token, commit);
      uow.Close(r.Err?);
    }

    method ConfirmCancellation(token: Token, now: Time) returns (r: Result<()>)
      requires uow.Valid() && uow.working == null
      modifies uow
      ensures uow.Valid() && uow.working == null
      ensures var t := CancelAttempt(old(uow.Committed()), now, token);
        if t.Ok? then r == Ok(()) && uow.Committed() == t.value
        else r == Err(t.error) && uow.Committed() == old(uow.Committed()) && uow.state == old(uow.state)
    {
      hide CancelAttempt, M.State.View, M.State.Valid;
      uow.Open();
      r := CancelInside(uow.working, now, token);
      uow.Close(r.Err?);
    }

    method ReconcileStaleOperations(limit: int, now: Time, event: Id) returns (r: Result<seq<Id>>)
      requires uow.Valid() && uow.working == null
      modifies uow
      ensures uow.Valid() && uow.working == null
      ensures var t := ReconcileStale(old(uow.Committed()), cfg, now, limit, event);
        if t.Ok? then r.Ok? && uow.Committed() == t.value
        else r == Err(t.error) && uow.Committed() == old(uow.Committed()) && uow.state == old(uow.state)
      ensures r.Ok? ==>
        var operations := old(uow.Committed()).operations;
        r.value == OldestFirst(operations, StaleIds(operations, now - cfg.staleAfter), limit)
    {
      hide ReconcileStale, M.State.View, M.State.Valid;
      uow.Open();
      r := ReconcileInside(uow.working, cfg, now, limit, event);
      uow.Close(r.Err?);
    }
  }
}
