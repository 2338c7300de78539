/** The effect of every transaction as a relation between the tables before and after it.

    Each predicate names the rows a transaction touches and says what those rows become and
    that nothing else changes; the lemmas at the end prove it of each transaction, once. The
    invariants are proved from the effects. */
module Changes {
  import opened Basics
  import opened Content
  import opened Lifecycle
  import opened Tables
  import opened Transactions
  import opened Evolution

  // ---------------------------------------------------------------- the rows of one attempt

  predicate Indexed(db: Db, a: Id) {
    a in db.attempts && db.attempts[a].task in db.tasks && db.tasks[db.attempts[a].task].mission in db.missions
  }

  function TaskOf(db: Db, a: Id): Id
    requires Indexed(db, a)
  {
    db.attempts[a].task
  }

  function MissionOf(db: Db, a: Id): Id
    requires Indexed(db, a)
  {
    db.tasks[db.attempts[a].task].mission
  }

  /** Only the rows of attempt `a`, its task and its mission changed in those three tables. */
  predicate RowsOf(db: Db, after: Db, a: Id) {
    && Indexed(db, a)
    && TaskOf(db, a) in after.tasks && MissionOf(db, a) in after.missions && a in after.attempts
    && after.missions == db.missions[MissionOf(db, a) := after.missions[MissionOf(db, a)]]
    && after.tasks == db.tasks[TaskOf(db, a) := after.tasks[TaskOf(db, a)]]
    && after.attempts == db.attempts[a := after.attempts[a]]
  }

  predicate Logged(db: Db, after: Db, subject: Id, kind: AuditKind, now: Time) {
    after.audits == db.audits + [Audit(subject, kind, now)]
  }

  predicate SameEvidence(db: Db, after: Db) {
    after.metrics == db.metrics && after.claims == db.claims && after.evidence == db.evidence
  }

  predicate SameLedger(db: Db, after: Db) {
    after.operations == db.operations && after.keys == db.keys && after.artifacts == db.artifacts
  }

  predicate SameOutbox(db: Db, after: Db) {
    after.outbox == db.outbox && after.published == db.published
  }

  predicate SameWork(db: Db, after: Db) {
    after.missions == db.missions && after.tasks == db.tasks && after.attempts == db.attempts
  }

  predicate LeaseHeld(db: Db, token: Token, now: Time) {
    token.attempt in db.attempts && db.attempts[token.attempt].CheckLease(token, now).Ok?
  }

  function KindOf(slot: Slot): OperationType {
    match slot
    case BaselineWorktree => WorktreeCreate
    case Sandbox => SandboxRun
    case CandidateSlot => CandidateCommit
    case _ => CasPut
  }

  // ---------------------------------------------------------------- effects

  predicate Opens(db: Db, after: Db, now: Time, mission: Id, task: Id, attempt: Id, event: Id) {
    && mission !in db.missions && task !in db.tasks && attempt !in db.attempts && FreshEvent(db.outbox, event)
    && mission in after.missions && after.missions == db.missions[mission := after.missions[mission]]
    && after.missions[mission].status == MissionStatus.Ready && after.missions[mission].version == 1
    && after.tasks == db.tasks[task := Task(mission, BaselineReproduction, now, TaskStatus.Pending, 0)]
    && after.attempts == db.attempts[attempt := NewAttempt(task, 1, now, None)]
    && after.outbox == db.outbox + [OutboxEvent(event, BaselineReady, attempt, now)]
    && after.published == db.published
    && SameLedger(db, after) && SameEvidence(db, after)
    && after.bundles == db.bundles && after.approvals == db.approvals
    && Logged(db, after, mission, MissionCreated, now)
  }

  predicate TakesLease(db: Db, after: Db, now: Time, a: Id, owner: Id, until: Time) {
    && until > now && RowsOf(db, after, a)
    && (var before, then_ := db.missions[MissionOf(db, a)], after.missions[MissionOf(db, a)];
        if before.status == MissionStatus.Ready then before.Start() == Ok(then_) else then_ == before)
    && (var before, then_ := db.tasks[TaskOf(db, a)], after.tasks[TaskOf(db, a)];
        if before.status != TaskStatus.Running then before.Start() == Ok(then_) else then_ == before)
    && db.attempts[a].Claim(owner, now, until) == Ok(after.attempts[a])
    && SameLedger(db, after) && SameEvidence(db, after) && SameOutbox(db, after)
    && after.bundles == db.bundles && after.approvals == db.approvals
    && Logged(db, after, a, AttemptClaimed, now)
  }

  predicate RenewsLease(db: Db, after: Db, now: Time, token: Token, until: Time) {
    && until > now && LeaseHeld(db, token, now) && token.attempt in after.attempts
    && db.attempts[token.attempt].Heartbeat(token, now, until) == Ok(after.attempts[token.attempt])
    && after == db.(attempts := db.attempts[token.attempt := after.attempts[token.attempt]])
  }

  predicate AsksCancellation(db: Db, after: Db, now: Time, mission: Id) {
    && mission in db.missions && mission in after.missions
    && db.missions[mission].RequestCancel() == Ok(after.missions[mission])
    && after == db.(missions := db.missions[mission := after.missions[mission]], audits := after.audits)
    && Logged(db, after, mission, CancellationAsked, now)
  }

  predicate AddsOperation(db: Db, after: Db, now: Time, token: Token, id: Id, o: Operation) {
    && id !in db.operations && o.key !in db.keys && after == AddOperation(db, id, o)
    && LeaseHeld(db, token, now)
    && o.attempt == o.key.attempt == token.attempt && o.epoch == token.epoch
    && Begun(o, now) && o.kind == KindOf(o.key.slot)
    && (o.kind != CandidateCommit ==>
          Indexed(db, token.attempt) && db.missions[MissionOf(db, token.attempt)].status != MissionStatus.Cancelling)
  }

  predicate AdvancesOperation(db: Db, after: Db, now: Time, token: Token, id: Id) {
    && id in db.operations && id in after.operations
    && LeaseHeld(db, token, now) && db.operations[id].key.attempt == token.attempt
    && db.operations[id].kind != CasPut && OperationMoves(db.operations[id], after.operations[id], now)
    && after == db.(operations := db.operations[id := after.operations[id]], audits := after.audits)
    && (after.audits == db.audits || Logged(db, after, token.attempt, CandidateCommitted, now))
  }

  predicate FinishesPut(db: Db, after: Db, now: Time, token: Token, put: Put, id: Id) {
    && LeaseHeld(db, token, now) && Indexed(db, token.attempt)
    && db.missions[MissionOf(db, token.attempt)].status != MissionStatus.Cancelling
    && id in db.operations && id in after.operations && id in after.artifacts
    && db.operations[id].key == Key(token.attempt, put.slot)
    && db.operations[id].Succeed(CasUri(put.Ref().sha), now) == Ok(after.operations[id])
    && after.artifacts[id] == Registration(put.Ref(), put.Kind(), token.attempt, id, now)
    && (id in db.artifacts ==> db.artifacts[id] == after.artifacts[id])
    && after == db.(operations := db.operations[id := after.operations[id]],
                    artifacts := db.artifacts[id := after.artifacts[id]])
  }

  predicate RegistersResult(db: Db, after: Db, now: Time, token: Token, e: Evidence, metric: Id, claim: Id) {
    && LeaseHeld(db, token, now) && Indexed(db, token.attempt)
    && token.attempt !in db.metrics && claim !in db.claims && claim !in db.evidence
    && (var mission := MissionOf(db, token.attempt);
        && mission in after.missions && after.missions == db.missions[mission := after.missions[mission]]
        && (if db.missions[mission].status == MissionStatus.Running
            then db.missions[mission].BeginVerification() == Ok(after.missions[mission])
            else after.missions[mission] == db.missions[mission])
        && after.claims == db.claims[claim := Claim(mission, token.attempt, Verified, e.validation.value,
                                                    e.validation.expectation.unit, now)]
        && after.metrics == db.metrics[token.attempt :=
             MetricRecord(metric, token.attempt, e.metric, e.validation.expectation, e.validation.value,
                          e.commit, db.missions[mission].spec.runArgv, e.environment, e.dataset)]
        && after.metrics[token.attempt].Valid()
        && Logged(db, after, mission, MetricVerified, now))
    && after.evidence == db.evidence[claim := [EvidenceLink(claim, MetricArtifact, e.metric),
                                               EvidenceLink(claim, LogArtifact, e.log)]]
    && after.tasks == db.tasks && after.attempts == db.attempts
    && SameLedger(db, after) && SameOutbox(db, after)
    && after.bundles == db.bundles && after.approvals == db.approvals
  }

  predicate FailsRun(db: Db, after: Db, now: Time, token: Token, code: FailureCode) {
    && LeaseHeld(db, token, now) && RowsOf(db, after, token.attempt)
    && db.attempts[token.attempt].Fail(token, now, false, code) == Ok(after.attempts[token.attempt])
    && db.tasks[TaskOf(db, token.attempt)].Fail() == Ok(after.tasks[TaskOf(db, token.attempt)])
    && db.missions[MissionOf(db, token.attempt)].Fail() == Ok(after.missions[MissionOf(db, token.attempt)])
    && after == db.(missions := after.missions, tasks := after.tasks, attempts := after.attempts)
  }

  predicate SchedulesRepair(db: Db, after: Db, now: Time, token: Token, code: FailureCode, ids: RepairIds) {
    && LeaseHeld(db, token, now) && Indexed(db, token.attempt)
    && token.attempt in after.attempts && TaskOf(db, token.attempt) in after.tasks
    && ids.task !in db.tasks && ids.attempt !in db.attempts && FreshEvent(db.outbox, ids.event)
    && db.tasks[TaskOf(db, token.attempt)].kind == BaselineReproduction
    && db.attempts[token.attempt].Fail(token, now, false, code) == Ok(after.attempts[token.attempt])
    && db.tasks[TaskOf(db, token.attempt)].Fail() == Ok(after.tasks[TaskOf(db, token.attempt)])
    && after.missions == db.missions && after.published == db.published
    && SameLedger(db, after) && SameEvidence(db, after)
    && after.bundles == db.bundles && after.approvals == db.approvals
    && (var mission := MissionOf(db, token.attempt);
        var attempts := db.attempts[token.attempt := after.attempts[token.attempt]];
        var tasks := db.tasks[TaskOf(db, token.attempt) := after.tasks[TaskOf(db, token.attempt)]];
        if HasRepairTask(db.tasks, mission) then
          after.attempts == attempts && after.tasks == tasks && after.outbox == db.outbox && after.audits == db.audits
        else
          && after.attempts == attempts[ids.attempt := NewAttempt(ids.task, 1, now, None)]
          && after.tasks == tasks[ids.task := Task(mission, RepairCandidate, now, TaskStatus.Pending, 0)]
          && after.outbox == db.outbox + [OutboxEvent(ids.event, RepairReady, ids.attempt, now)]
          && Logged(db, after, mission, RepairScheduled, now))
  }

  predicate FinishesMission(db: Db, after: Db, now: Time, token: Token, artifact: ArtifactRef) {
    && LeaseHeld(db, token, now) && RowsOf(db, after, token.attempt)
    && db.attempts[token.attempt].Succeed(token, now) == Ok(after.attempts[token.attempt])
    && db.tasks[TaskOf(db, token.attempt)].Succeed() == Ok(after.tasks[TaskOf(db, token.attempt)])
    && db.missions[MissionOf(db, token.attempt)].Complete() == Ok(after.missions[MissionOf(db, token.attempt)])
    && (var mission, key := MissionOf(db, token.attempt), Key(token.attempt, BundleSlot);
        && key in db.keys && db.keys[key] in db.operations
        && (mission in db.bundles ==>
              db.bundles[mission] == Registration(artifact, Bundle, token.attempt, db.keys[key], now))
        && after.bundles == db.bundles[mission := Registration(artifact, Bundle, token.attempt, db.keys[key], now)]
        && Logged(db, after, mission, MissionCompleted, now))
    && after == db.(missions := after.missions, tasks := after.tasks, attempts := after.attempts,
                    bundles := after.bundles, audits := after.audits)
  }

  predicate AsksApproval(db: Db, after: Db, cfg: Config, now: Time, token: Token, patch: ArtifactRef, approval: Id) {
    && LeaseHeld(db, token, now) && RowsOf(db, after, token.attempt)
    && approval !in db.approvals && approval in after.approvals && cfg.approvalTtl > 0
    && db.tasks[TaskOf(db, token.attempt)].kind == RepairCandidate
    && db.attempts[token.attempt].Fail(token, now, true,
                                       FailureCode.WaitingApproval) == Ok(after.attempts[token.attempt])
    && db.tasks[TaskOf(db, token.attempt)].Retry() == Ok(after.tasks[TaskOf(db, token.attempt)])
    && db.missions[MissionOf(db, token.attempt)].WaitForApproval() == Ok(after.missions[MissionOf(db, token.attempt)])
    && after.approvals == db.approvals[approval := after.approvals[approval]]
    && (var row := after.approvals[approval];
        && row == Approval(MissionOf(db, token.attempt), TaskOf(db, token.attempt), token.attempt, CandidateCommit,
                           patch.sha, CandidateCommit, now, now + cfg.approvalTtl, Some(patch),
                           ApprovalStatus.Pending, None, None, 0))
    && after == db.(missions := after.missions, tasks := after.tasks, attempts := after.attempts,
                    approvals := after.approvals, audits := after.audits)
    && Logged(db, after, MissionOf(db, token.attempt), ApprovalRequested, now)
  }

  predicate GrantsApproval(db: Db, after: Db, now: Time, approval: Id, decider: Id, child: Id, event: Id) {
    && approval in db.approvals && approval in after.approvals && child !in db.attempts && FreshEvent(db.outbox, event)
    && (var row := db.approvals[approval];
        && row.mission in db.missions && row.mission in after.missions
        && row.task in db.tasks && row.attempt in db.attempts
        && row.Approve(decider, now) == Ok(after.approvals[approval])
        && db.missions[row.mission].Start() == Ok(after.missions[row.mission])
        && after.missions == db.missions[row.mission := after.missions[row.mission]]
        && after.attempts == db.attempts[child :=
             NewAttempt(row.task, db.attempts[row.attempt].number + 1, now, Some(row.attempt))]
        && Logged(db, after, row.mission, ApprovalApproved, now))
    && after == db.(missions := after.missions, attempts := after.attempts, audits := after.audits,
                    approvals := db.approvals[approval := after.approvals[approval]],
                    outbox := db.outbox + [OutboxEvent(event, RepairReady, child, now)])
  }

  predicate DeniesApproval(db: Db, after: Db, now: Time, approval: Id, decider: Id) {
    && approval in db.approvals && approval in after.approvals
    && (var row := db.approvals[approval];
        && row.mission in db.missions && row.mission in after.missions
        && row.task in db.tasks && row.task in after.tasks
        && row.Reject(decider, now) == Ok(after.approvals[approval])
        && db.missions[row.mission].Fail() == Ok(after.missions[row.mission])
        && db.tasks[row.task].Fail() == Ok(after.tasks[row.task])
        && after.missions == db.missions[row.mission := after.missions[row.mission]]
        && after.tasks == db.tasks[row.task := after.tasks[row.task]]
        && Logged(db, after, row.mission, ApprovalRejected, now))
    && after == db.(missions := after.missions, tasks := after.tasks, audits := after.audits,
                    approvals := db.approvals[approval := after.approvals[approval]])
  }

  predicate CancelsAttempt(db: Db, after: Db, now: Time, token: Token) {
    && LeaseHeld(db, token, now) && RowsOf(db, after, token.attempt)
    && db.attempts[token.attempt].Cancel(token, now) == Ok(after.attempts[token.attempt])
    && db.tasks[TaskOf(db, token.attempt)].Cancel() == Ok(after.tasks[TaskOf(db, token.attempt)])
    && db.missions[MissionOf(db, token.attempt)].ConfirmCancel() == Ok(after.missions[MissionOf(db, token.attempt)])
    && after == db.(missions := after.missions, tasks := after.tasks, attempts := after.attempts,
                    audits := after.audits)
    && Logged(db, after, MissionOf(db, token.attempt), MissionCancelled, now)
  }

  function EventAbout(db: Db, o: Id, event: Id, now: Time): OutboxEvent
    requires o in db.operations && Indexed(db, db.operations[o].attempt)
  {
    var attempt := db.operations[o].attempt;
    OutboxEvent(event, TopicOf(db.tasks[TaskOf(db, attempt)].kind), attempt, now)
  }

  /** Every stale operation is touched once, and gets one audit row and one event, in order. */
  predicate RecoversOperations(db: Db, after: Db, now: Time, ids: seq<Id>, event: Id) {
    && (forall i :: 0 <= i < |ids| ==> ids[i] in db.operations && Indexed(db, db.operations[ids[i]].attempt))
    && (forall e <- db.outbox :: e.id < event)
    && after.operations.Keys == db.operations.Keys
    && (forall o :: o in db.operations && o !in ids ==> after.operations[o] == db.operations[o])
    && (forall o :: o in db.operations && o in ids ==> db.operations[o].RequestRecovery(now) == Ok(after.operations[o]))
    && db.audits <= after.audits && |after.audits| == |db.audits| + |ids|
    && (forall i :: 0 <= i < |ids| ==> after.audits[|db.audits| + i] == Audit(ids[i], RecoveryRequested, now))
    && db.outbox <= after.outbox && |after.outbox| == |db.outbox| + |ids|
    && (forall i :: 0 <= i < |ids| ==> after.outbox[|db.outbox| + i] == EventAbout(db, ids[i], event + i, now))
    && after == db.(operations := after.operations, audits := after.audits, outbox := after.outbox)
  }

  predicate MarksEvent(db: Db, after: Db, now: Time, event: Id) {
    && (exists e <- db.outbox :: e.id == event)
    && after == db.(published := if event in db.published then db.published else db.published[event := now])
  }

  // ---------------------------------------------------------------- each transaction has its effect

  lemma CreateChange(db: Db, now: Time, mission: Id, task: Id, attempt: Id, event: Id, spec: Spec, proposal: Option<Id>)
    requires mission !in db.missions && task !in db.tasks && attempt !in db.attempts && FreshEvent(db.outbox, event)
    requires CreateMission(db, now, mission, task, attempt, event, spec, proposal).Ok?
    ensures Opens(db, CreateMission(db, now, mission, task, attempt, event, spec, proposal).value, now, mission,
                  task, attempt, event)
  {}

  lemma ClaimChange(db: Db, cfg: Config, now: Time, attempt: Id, owner: Id)
    requires cfg.Valid() && ClaimAttempt(db, cfg, now, attempt, owner).Ok?
    ensures TakesLease(db, ClaimAttempt(db, cfg, now, attempt, owner).value.0, now, attempt, owner, now + cfg.lease)
  {}

  lemma RenewChange(db: Db, cfg: Config, now: Time, token: Token)
    requires cfg.Valid() && RenewLease(db, cfg, now, token).Ok?
    ensures RenewsLease(db, RenewLease(db, cfg, now, token).value.0, now, token, now + cfg.lease)
  {}

  lemma RequestCancellationChange(db: Db, now: Time, mission: Id)
    requires RequestCancellation(db, now, mission).Ok?
    ensures AsksCancellation(db, RequestCancellation(db, now, mission).value, now, mission)
  {}

  /** A prepare transaction adds its operation, advances the one it finds, or changes nothing. */
  predicate Prepares(db: Db, after: Db, now: Time, token: Token, key: Key, id: Id) {
    if OperationFor(db, key).None? then
      id in after.operations && after.operations[id].key == key
      && AddsOperation(db, after, now, token, id, after.operations[id])
    else after == db || AdvancesOperation(db, after, now, token, db.keys[key])
  }

  lemma PrepareWorktreeChange(db: Db, now: Time, token: Token, id: Id)
    requires id !in db.operations && KeyIndex(db.operations, db.keys)
    requires PrepareWorktree(db, now, token, id).Ok?
    ensures var after := PrepareWorktree(db, now, token, id).value;
      Prepares(db, after, now, token, Key(token.attempt, BaselineWorktree), id)
  {
    hide WorktreeInput;
  }

  lemma PrepareSandboxChange(db: Db, now: Time, token: Token, path: string, id: Id)
    requires id !in db.operations && KeyIndex(db.operations, db.keys)
    requires PrepareSandbox(db, now, token, path, id).Ok?
    ensures var after := PrepareSandbox(db, now, token, path, id).value.0;
      Prepares(db, after, now, token, Key(token.attempt, Sandbox), id)
  {
    hide SandboxInput;
  }

  lemma PreparePutChange(db: Db, now: Time, token: Token, put: Put, id: Id)
    requires id !in db.operations && KeyIndex(db.operations, db.keys) && KindOf(put.slot) == CasPut
    requires PreparePut(db, now, token, put, id).Ok?
    ensures var after := PreparePut(db, now, token, put, id).value.0;
      Prepares(db, after, now, token, Key(token.attempt, put.slot), id)
  {}

  lemma PrepareCandidateChange(db: Db, now: Time, token: Token, diff: string, id: Id)
    requires id !in db.operations && KeyIndex(db.operations, db.keys)
    requires PrepareCandidate(db, now, token, diff, id).Ok?
    ensures var after := PrepareCandidate(db, now, token, diff, id).value.0;
      Prepares(db, after, now, token, Key(token.attempt, CandidateSlot), id)
  {}

  lemma FinishWorktreeChange(db: Db, now: Time, token: Token, path: string)
    requires KeyIndex(db.operations, db.keys) && OperationsKinded(db.operations)
    requires FinishWorktree(db, now, token, path).Ok?
    ensures var after := FinishWorktree(db, now, token, path).value;
      after == db || AdvancesOperation(db, after, now, token, db.keys[Key(token.attempt, BaselineWorktree)])
  {}

  lemma FinishSandboxChange(db: Db, now: Time, token: Token, result: SandboxResult)
    requires KeyIndex(db.operations, db.keys) && OperationsKinded(db.operations)
    requires FinishSandbox(db, now, token, result).Ok?
    ensures AdvancesOperation(db, FinishSandbox(db, now, token, result).value, now, token,
                              db.keys[Key(token.attempt, Sandbox)])
  {}

  lemma FinishCandidateChange(db: Db, now: Time, token: Token, commit: string)
    requires KeyIndex(db.operations, db.keys) && OperationsKinded(db.operations)
    requires FinishCandidate(db, now, token, commit).Ok?
    ensures AdvancesOperation(db, FinishCandidate(db, now, token, commit).value, now, token,
                              db.keys[Key(token.attempt, CandidateSlot)])
  {}

  lemma FinishPutChange(db: Db, now: Time, token: Token, put: Put)
    requires KeyIndex(db.operations, db.keys)
    requires FinishPut(db, now, token, put).Ok?
    ensures FinishesPut(db, FinishPut(db, now, token, put).value, now, token, put,
                        db.keys[Key(token.attempt, put.slot)])
  {}

  lemma RegisterChange(db: Db, now: Time, token: Token, e: Evidence, metric: Id, claim: Id)
    requires claim !in db.claims && claim !in db.evidence && token.attempt !in db.metrics
    requires RegisterResult(db, now, token, e, metric, claim).Ok?
    ensures RegistersResult(db, RegisterResult(db, now, token, e, metric, claim).value, now, token, e, metric, claim)
  {
    var links := [EvidenceLink(claim, MetricArtifact, e.metric), EvidenceLink(claim, LogArtifact, e.log)];
    assert EvidenceOf(db, claim) + links == links;
  }

  lemma FailRunChange(db: Db, now: Time, token: Token, code: FailureCode, repairMode: bool, ids: RepairIds)
    requires FailRun(db, now, token, code, repairMode, ids).Ok?
    requires !(repairMode && db.tasks[TaskOf(db, token.attempt)].kind == BaselineReproduction)
    ensures FailsRun(db, FailRun(db, now, token, code, repairMode, ids).value, now, token, code)
  {}

  /** A failing baseline run of a repair mission: the attempt and the task fail first ... */
  lemma FailBaseline(db: Db, now: Time, token: Token, code: FailureCode, ids: RepairIds)
    requires FailRun(db, now, token, code, true, ids).Ok?
    requires db.tasks[TaskOf(db, token.attempt)].kind == BaselineReproduction
    ensures LeaseHeld(db, token, now) && Indexed(db, token.attempt)
    ensures db.attempts[token.attempt].Fail(token, now, false, code).Ok?
    ensures db.tasks[TaskOf(db, token.attempt)].Fail().Ok?
    ensures var failed := db.(
              attempts := db.attempts[token.attempt := db.attempts[token.attempt].Fail(token, now, false, code).value],
              tasks := db.tasks[TaskOf(db, token.attempt) := db.tasks[TaskOf(db, token.attempt)].Fail().value]);
            FailRun(db, now, token, code, true,
                    ids) == Ok(ScheduleRepair(failed, now, MissionOf(db, token.attempt), ids))
  {
    hide ScheduleRepair;
  }

  /** ... and then the one repair task of the mission is scheduled. */
  lemma ScheduleRepairChange(db: Db, now: Time, token: Token, code: FailureCode, ids: RepairIds)
    requires ids.task !in db.tasks && ids.attempt !in db.attempts && FreshEvent(db.outbox, ids.event)
    requires FailRun(db, now, token, code, true, ids).Ok?
    requires db.tasks[TaskOf(db, token.attempt)].kind == BaselineReproduction
    ensures SchedulesRepair(db, FailRun(db, now, token, code, true, ids).value, now, token, code, ids)
  {
    hide FailRun, HasRepairTask;
    FailBaseline(db, now, token, code, ids);
    HasRepairTaskFrame(db.tasks, TaskOf(db, token.attempt), db.tasks[TaskOf(db, token.attempt)].Fail().value,
                       MissionOf(db, token.attempt));
  }

  lemma HasRepairTaskFrame(tasks: map<Id, Task>, t: Id, y: Task, mission: Id)
    requires t in tasks && y.mission == tasks[t].mission && y.kind == tasks[t].kind
    ensures HasRepairTask(tasks[t := y], mission) == HasRepairTask(tasks, mission)
  {
    var changed := tasks[t := y];
    if HasRepairTask(tasks, mission) {
      var r :| r in tasks && tasks[r].mission == mission && tasks[r].kind == RepairCandidate;
      assert r in changed && changed[r].mission == mission && changed[r].kind == RepairCandidate;
    }
  }

  lemma CompleteChange(db: Db, now: Time, token: Token, artifact: ArtifactRef)
    requires CompleteMission(db, now, token, artifact).Ok?
    ensures FinishesMission(db, CompleteMission(db, now, token, artifact).value, now, token, artifact)
  {}

  lemma RequestApprovalChange(db: Db, cfg: Config, now: Time, token: Token, patch: ArtifactRef, id: Id)
    requires cfg.Valid() && id !in db.approvals
    requires RequestApproval(db, cfg, now, token, patch, id).Ok?
    ensures AsksApproval(db, RequestApproval(db, cfg, now, token, patch, id).value, cfg, now, token, patch, id)
  {}

  lemma ApproveChange(db: Db, now: Time, approval: Id, decider: Id, child: Id, event: Id)
    requires child !in db.attempts && FreshEvent(db.outbox, event)
    requires ResolveApproval(db, now, approval, true, decider, child, event).Ok?
    ensures GrantsApproval(db, ResolveApproval(db, now, approval, true, decider, child, event).value, now,
                           approval, decider, child, event)
  {}

  lemma RejectChange(db: Db, now: Time, approval: Id, decider: Id, child: Id, event: Id)
    requires ResolveApproval(db, now, approval, false, decider, child, event).Ok?
    ensures DeniesApproval(db, ResolveApproval(db, now, approval, false, decider, child, event).value, now,
                           approval, decider)
  {}

  lemma CancelChange(db: Db, now: Time, token: Token)
    requires CancelAttempt(db, now, token).Ok?
    ensures CancelsAttempt(db, CancelAttempt(db, now, token).value, now, token)
  {}

  predicate Distinct(ids: seq<Id>) {
    forall i, j :: 0 <= i < j < |ids| ==> ids[i] != ids[j]
  }

  /** The tables after the first operation of the loop. */
  function RecoverFirst(db: Db, now: Time, o: Id, event: Id): Db
    requires o in db.operations && Indexed(db, db.operations[o].attempt)
    requires db.operations[o].RequestRecovery(now).Ok?
  {
    db.(operations := db.operations[o := db.operations[o].RequestRecovery(now).value],
        audits := db.audits + [Audit(o, RecoveryRequested, now)],
        outbox := db.outbox + [EventAbout(db, o, event, now)])
  }

  lemma RecoverUnfolds(db: Db, now: Time, ids: seq<Id>, event: Id)
    requires ids != [] && Recover(db, now, ids, event).Ok?
    requires ids[0] in db.operations && Indexed(db, db.operations[ids[0]].attempt)
    ensures db.operations[ids[0]].RequestRecovery(now).Ok?
    ensures Recover(db, now, ids, event) == Recover(RecoverFirst(db, now, ids[0], event), now, ids[1..], event + 1)
  {}

  /** The loop over the stale operations, all at once. */
  lemma {:induction false} RecoverChange(db: Db, now: Time, ids: seq<Id>, event: Id)
    requires Distinct(ids)
    requires forall o <- ids :: o in db.operations && Indexed(db, db.operations[o].attempt)
    requires forall e <- db.outbox :: e.id < event
    requires Recover(db, now, ids, event).Ok?
    ensures RecoversOperations(db, Recover(db, now, ids, event).value, now, ids, event)
    decreases |ids|
  {
    if ids != [] {
      RecoverUnfolds(db, now, ids, event);
      var next := RecoverFirst(db, now, ids[0], event);
      FirstKeepsRows(db, now, ids, event);
      RecoverChange(next, now, ids[1..], event + 1);
      var after := Recover(db, now, ids, event).value;
      RecoverJoins(db, next, after, now, ids, event);
    }
  }

  lemma FirstKeepsRows(db: Db, now: Time, ids: seq<Id>, event: Id)
    requires ids != [] && Distinct(ids)
    requires forall o <- ids :: o in db.operations && Indexed(db, db.operations[o].attempt)
    requires forall e <- db.outbox :: e.id < event
    requires db.operations[ids[0]].RequestRecovery(now).Ok?
    ensures var next := RecoverFirst(db, now, ids[0], event);
      && Distinct(ids[1..])
      && (forall o <- ids[1..] :: o in next.operations && Indexed(next, next.operations[o].attempt))
      && (forall e <- next.outbox :: e.id < event + 1)
  {
    var next := RecoverFirst(db, now, ids[0], event);
    forall o | o in ids[1..] ensures o in next.operations && Indexed(next, next.operations[o].attempt) {
      assert o in ids && o != ids[0];
    }
  }

  lemma RecoverJoinsLogs(db: Db, next: Db, after: Db, now: Time, ids: seq<Id>, event: Id, i: nat)
    requires ids != [] && Distinct(ids) && i < |ids|
    requires forall o <- ids :: o in db.operations && Indexed(db, db.operations[o].attempt)
    requires db.operations[ids[0]].RequestRecovery(now).Ok?
    requires next == RecoverFirst(db, now, ids[0], event)
    requires RecoversOperations(next, after, now, ids[1..], event + 1)
    ensures after.audits[|db.audits| + i] == Audit(ids[i], RecoveryRequested, now)
    ensures after.outbox[|db.outbox| + i] == EventAbout(db, ids[i], event + i, now)
  {
    if i == 0 {
      assert after.audits[|db.audits|] == next.audits[|db.audits|];
      assert after.outbox[|db.outbox|] == next.outbox[|db.outbox|];
    } else {
      var rest := ids[1..];
      assert ids[i] == rest[i - 1] && ids[i] != ids[0];
      assert after.audits[|next.audits| + (i - 1)] == Audit(rest[i - 1], RecoveryRequested, now);
      assert after.outbox[|next.outbox| + (i - 1)] == EventAbout(next, rest[i - 1], event + 1 + (i - 1), now);
    }
  }

  lemma RecoverJoinsRows(db: Db, next: Db, after: Db, now: Time, ids: seq<Id>, event: Id, o: Id)
    requires ids != [] && Distinct(ids) && o in db.operations
    requires forall o <- ids :: o in db.operations && Indexed(db, db.operations[o].attempt)
    requires db.operations[ids[0]].RequestRecovery(now).Ok?
    requires next == RecoverFirst(db, now, ids[0], event)
    requires RecoversOperations(next, after, now, ids[1..], event + 1)
    ensures after.operations.Keys == db.operations.Keys
    ensures o !in ids ==> after.operations[o] == db.operations[o]
    ensures o in ids ==> db.operations[o].RequestRecovery(now) == Ok(after.operations[o])
  {
    assert o in ids <==> o == ids[0] || o in ids[1..];
    assert ids[0] !in ids[1..];
    assert next.operations.Keys == db.operations.Keys;
  }

  lemma RecoverJoins(db: Db, next: Db, after: Db, now: Time, ids: seq<Id>, event: Id)
    requires ids != [] && Distinct(ids)
    requires forall o <- ids :: o in db.operations && Indexed(db, db.operations[o].attempt)
    requires forall e <- db.outbox :: e.id < event
    requires db.operations[ids[0]].RequestRecovery(now).Ok?
    requires next == RecoverFirst(db, now, ids[0], event)
    requires RecoversOperations(next, after, now, ids[1..], event + 1)
    ensures RecoversOperations(db, after, now, ids, event)
  {
    RecoverJoinsRows(db, next, after, now, ids, event, ids[0]);
    forall o | o in db.operations
      ensures o !in ids ==> after.operations[o] == db.operations[o]
      ensures o in ids ==> db.operations[o].RequestRecovery(now) == Ok(after.operations[o])
    {
      RecoverJoinsRows(db, next, after, now, ids, event, o);
    }
    forall i | 0 <= i < |ids|
      ensures after.audits[|db.audits| + i] == Audit(ids[i], RecoveryRequested, now)
      ensures after.outbox[|db.outbox| + i] == EventAbout(db, ids[i], event + i, now)
    {
      RecoverJoinsLogs(db, next, after, now, ids, event, i);
    }
  }

  lemma StalePicks(operations: map<Id, Operation>, before: Time, limit: nat)
    ensures var ids := OldestFirst(operations, StaleIds(operations, before), limit);
      Distinct(ids) && forall o <- ids :: o in operations && IsStale(operations[o], before)
  {
    var ids := OldestFirst(operations, StaleIds(operations, before), limit);
    assert forall o <- ids :: o in StaleIds(operations, before);
  }

  lemma ReconcileChange(db: Db, cfg: Config, now: Time, limit: int, event: Id)
    requires forall o :: o in db.operations ==> Indexed(db, db.operations[o].attempt)
    requires forall e <- db.outbox :: e.id < event
    requires ReconcileStale(db, cfg, now, limit, event).Ok?
    ensures RecoversOperations(db, ReconcileStale(db, cfg, now, limit, event).value, now,
              OldestFirst(db.operations, StaleIds(db.operations, now - cfg.staleAfter), limit), event)
  {
    hide Recover, RecoversOperations;
    var ids := OldestFirst(db.operations, StaleIds(db.operations, now - cfg.staleAfter), limit);
    StalePicks(db.operations, now - cfg.staleAfter, limit);
    RecoverChange(db, now, ids, event);
  }

  lemma MarkPublishedChange(db: Db, now: Time, event: Id)
    requires MarkPublished(db, now, event).Ok?
    ensures MarksEvent(db, MarkPublished(db, now, event).value, now, event)
  {}

  /** Every operation has the type that its slot stands for. */
  ghost predicate OperationsKinded(operations: map<Id, Operation>) {
    forall o :: o in operations ==>
      operations[o].kind == KindOf(operations[o].key.slot) && operations[o].attempt == operations[o].key.attempt
  }
}
