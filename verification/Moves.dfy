/** Every effect moves each row by at most one legal step and never rewrites a write-once row. */
module Moves {
  import opened Basics
  import opened Content
  import opened Lifecycle
  import opened Tables
  import opened Transactions
  import opened Evolution
  import opened Changes

  lemma OpensEvolves(db: Db, after: Db, now: Time, mission: Id, task: Id, attempt: Id, event: Id)
    requires Opens(db, after, now, mission, task, attempt, event)
    ensures Evolves(db, after, now)
  {}

  /** The transactions that move the three rows of one attempt. */
  lemma RowsEvolve(db: Db, after: Db, now: Time, a: Id)
    requires RowsOf(db, after, a)
    requires MissionMoves(db.missions[MissionOf(db, a)], after.missions[MissionOf(db, a)])
    requires TaskMoves(db.tasks[TaskOf(db, a)], after.tasks[TaskOf(db, a)])
    requires AttemptMoves(db.attempts[a], after.attempts[a], now)
    ensures MissionsMove(db.missions, after.missions)
    ensures TasksMove(db.tasks, after.tasks)
    ensures AttemptsMove(db.attempts, after.attempts, now)
  {
    MissionRow(db.missions, MissionOf(db, a), after.missions[MissionOf(db, a)]);
    TaskRow(db.tasks, TaskOf(db, a), after.tasks[TaskOf(db, a)]);
    AttemptRow(db.attempts, a, after.attempts[a], now);
  }

  lemma TakesLeaseEvolves(db: Db, after: Db, now: Time, a: Id, owner: Id, until: Time)
    requires TakesLease(db, after, now, a, owner, until)
    ensures Evolves(db, after, now)
  {
    hide MissionsMove, TasksMove, AttemptsMove, OperationsMove, ApprovalsMove, Extends;
    Unmoved(db, now);
    RowsEvolve(db, after, now, a);
  }

  lemma RenewsLeaseEvolves(db: Db, after: Db, now: Time, token: Token, until: Time)
    requires RenewsLease(db, after, now, token, until)
    ensures Evolves(db, after, now)
  {
    hide MissionsMove, TasksMove, AttemptsMove, OperationsMove, ApprovalsMove, Extends;
    Unmoved(db, now);
    AttemptRow(db.attempts, token.attempt, after.attempts[token.attempt], now);
  }

  lemma AsksCancellationEvolves(db: Db, after: Db, now: Time, mission: Id)
    requires AsksCancellation(db, after, now, mission)
    ensures Evolves(db, after, now)
  {
    hide MissionsMove, TasksMove, AttemptsMove, OperationsMove, ApprovalsMove, Extends;
    Unmoved(db, now);
    MissionRow(db.missions, mission, after.missions[mission]);
  }

  lemma AddsOperationEvolves(db: Db, after: Db, now: Time, token: Token, id: Id, o: Operation)
    requires AddsOperation(db, after, now, token, id, o)
    ensures Evolves(db, after, now)
  {
    hide MissionsMove, TasksMove, AttemptsMove, OperationsMove, ApprovalsMove, Extends;
    Unmoved(db, now);
    OperationRow(db.operations, id, o, now);
    NewRow(db.keys, o.key, id);
  }

  lemma AdvancesOperationEvolves(db: Db, after: Db, now: Time, token: Token, id: Id)
    requires AdvancesOperation(db, after, now, token, id)
    ensures Evolves(db, after, now)
  {
    hide MissionsMove, TasksMove, AttemptsMove, OperationsMove, ApprovalsMove, Extends;
    Unmoved(db, now);
    OperationRow(db.operations, id, after.operations[id], now);
  }

  lemma FinishesPutEvolves(db: Db, after: Db, now: Time, token: Token, put: Put, id: Id)
    requires FinishesPut(db, after, now, token, put, id)
    ensures Evolves(db, after, now)
  {
    hide MissionsMove, TasksMove, AttemptsMove, OperationsMove, ApprovalsMove, Extends;
    Unmoved(db, now);
    OperationRow(db.operations, id, after.operations[id], now);
    NewRow(db.artifacts, id, after.artifacts[id]);
  }

  lemma RegistersResultEvolves(db: Db, after: Db, now: Time, token: Token, e: Evidence, metric: Id, claim: Id)
    requires RegistersResult(db, after, now, token, e, metric, claim)
    ensures Evolves(db, after, now)
  {
    hide MissionsMove, TasksMove, AttemptsMove, OperationsMove, ApprovalsMove, Extends;
    Unmoved(db, now);
    var mission := MissionOf(db, token.attempt);
    MissionRow(db.missions, mission, after.missions[mission]);
    NewRow(db.metrics, token.attempt, after.metrics[token.attempt]);
    NewRow(db.claims, claim, after.claims[claim]);
    NewRow(db.evidence, claim, after.evidence[claim]);
  }

  lemma FailsRunEvolves(db: Db, after: Db, now: Time, token: Token, code: FailureCode)
    requires FailsRun(db, after, now, token, code)
    ensures Evolves(db, after, now)
  {
    hide MissionsMove, TasksMove, AttemptsMove, OperationsMove, ApprovalsMove, Extends;
    Unmoved(db, now);
    RowsEvolve(db, after, now, token.attempt);
  }

  lemma SchedulesRepairEvolves(db: Db, after: Db, now: Time, token: Token, code: FailureCode, ids: RepairIds)
    requires SchedulesRepair(db, after, now, token, code, ids)
    ensures Evolves(db, after, now)
  {
    hide MissionsMove, TasksMove, AttemptsMove, OperationsMove, ApprovalsMove, Extends, HasRepairTask;
    Unmoved(db, now);
    var t := TaskOf(db, token.attempt);
    AttemptRow(db.attempts, token.attempt, after.attempts[token.attempt], now);
    TaskRow(db.tasks, t, after.tasks[t]);
    if !HasRepairTask(db.tasks, MissionOf(db, token.attempt)) {
      TwoTaskRows(db.tasks, t, after.tasks[t], ids.task, after.tasks[ids.task]);
      TwoAttemptRows(db.attempts, token.attempt, after.attempts[token.attempt], ids.attempt,
                     after.attempts[ids.attempt], now);
    }
  }

  lemma FinishesMissionEvolves(db: Db, after: Db, now: Time, token: Token, artifact: ArtifactRef)
    requires FinishesMission(db, after, now, token, artifact)
    ensures Evolves(db, after, now)
  {
    hide MissionsMove, TasksMove, AttemptsMove, OperationsMove, ApprovalsMove, Extends;
    Unmoved(db, now);
    RowsEvolve(db, after, now, token.attempt);
    NewRow(db.bundles, MissionOf(db, token.attempt), after.bundles[MissionOf(db, token.attempt)]);
  }

  lemma AsksApprovalEvolves(db: Db, after: Db, cfg: Config, now: Time, token: Token, patch: ArtifactRef, approval: Id)
    requires AsksApproval(db, after, cfg, now, token, patch, approval)
    ensures Evolves(db, after, now)
  {
    hide MissionsMove, TasksMove, AttemptsMove, OperationsMove, ApprovalsMove, Extends;
    Unmoved(db, now);
    RowsEvolve(db, after, now, token.attempt);
    ApprovalRow(db.approvals, approval, after.approvals[approval], now);
  }

  lemma GrantsApprovalEvolves(db: Db, after: Db, now: Time, approval: Id, decider: Id, child: Id, event: Id)
    requires GrantsApproval(db, after, now, approval, decider, child, event)
    ensures Evolves(db, after, now)
  {
    hide MissionsMove, TasksMove, AttemptsMove, OperationsMove, ApprovalsMove, Extends;
    Unmoved(db, now);
    var mission := db.approvals[approval].mission;
    MissionRow(db.missions, mission, after.missions[mission]);
    AttemptRow(db.attempts, child, after.attempts[child], now);
    ApprovalRow(db.approvals, approval, after.approvals[approval], now);
  }

  lemma DeniesApprovalEvolves(db: Db, after: Db, now: Time, approval: Id, decider: Id)
    requires DeniesApproval(db, after, now, approval, decider)
    ensures Evolves(db, after, now)
  {
    hide MissionsMove, TasksMove, AttemptsMove, OperationsMove, ApprovalsMove, Extends;
    Unmoved(db, now);
    var row := db.approvals[approval];
    MissionRow(db.missions, row.mission, after.missions[row.mission]);
    TaskRow(db.tasks, row.task, after.tasks[row.task]);
    ApprovalRow(db.approvals, approval, after.approvals[approval], now);
  }

  lemma CancelsAttemptEvolves(db: Db, after: Db, now: Time, token: Token)
    requires CancelsAttempt(db, after, now, token)
    ensures Evolves(db, after, now)
  {
    hide MissionsMove, TasksMove, AttemptsMove, OperationsMove, ApprovalsMove, Extends;
    Unmoved(db, now);
    RowsEvolve(db, after, now, token.attempt);
  }

  lemma RecoversOperationsEvolves(db: Db, after: Db, now: Time, ids: seq<Id>, event: Id)
    requires RecoversOperations(db, after, now, ids, event)
    ensures Evolves(db, after, now)
  {
    hide MissionsMove, TasksMove, AttemptsMove, ApprovalsMove, Extends;
    Unmoved(db, now);
  }

  lemma MarksEventEvolves(db: Db, after: Db, now: Time, event: Id)
    requires MarksEvent(db, after, now, event)
    ensures Evolves(db, after, now)
  {
    hide MissionsMove, TasksMove, AttemptsMove, OperationsMove, ApprovalsMove, Extends;
    Unmoved(db, now);
    if event !in db.published {
      NewRow(db.published, event, now);
    }
  }
}
