/** Exactly-once completion: which missions, tasks and attempts may be finished, and the shape
    of the work of one mission. */
module Completion {
  import opened Basics
  import opened Content
  import opened Lifecycle
  import opened Tables
  import opened Transactions
  import opened Evolution
  import opened Changes

  ghost predicate RowsLinked(missions: map<Id, Mission>, tasks: map<Id, Task>, attempts: map<Id, Attempt>) {
    && (forall a :: a in attempts ==> attempts[a].task in tasks)
    && (forall t :: t in tasks ==> tasks[t].mission in missions)
  }

  /** The mission of an attempt. */
  predicate OwnedBy(tasks: map<Id, Task>, attempts: map<Id, Attempt>, a: Id, m: Id) {
    a in attempts && attempts[a].task in tasks && tasks[attempts[a].task].mission == m
  }

  predicate MissionSettled(missions: map<Id, Mission>, bundles: map<Id, Registration>, m: Id)
    requires m in missions
  {
    missions[m].status == MissionStatus.Completed <==> m in bundles
  }

  predicate TaskSettled(tasks: map<Id, Task>, attempts: map<Id, Attempt>, bundles: map<Id, Registration>, t: Id)
    requires t in tasks
  {
    tasks[t].status == TaskStatus.Succeeded <==>
      var m := tasks[t].mission;
      m in bundles && bundles[m].attempt in attempts && attempts[bundles[m].attempt].task == t
  }

  predicate AttemptSettled(tasks: map<Id, Task>, attempts: map<Id, Attempt>, bundles: map<Id, Registration>, a: Id)
    requires a in attempts && attempts[a].task in tasks
  {
    attempts[a].status == AttemptStatus.Succeeded <==>
      var m := tasks[attempts[a].task].mission;
      m in bundles && bundles[m].attempt == a
  }

  predicate BundleSettled(tasks: map<Id, Task>, attempts: map<Id, Attempt>, bundles: map<Id, Registration>, m: Id)
    requires m in bundles
  {
    OwnedBy(tasks, attempts, bundles[m].attempt, m)
  }

  /** A mission is completed exactly when it has a bundle; the bundle's attempt and its task are
      the only ones of the mission that ever succeed. */
  ghost predicate Completions(missions: map<Id, Mission>, tasks: map<Id, Task>, attempts: map<Id, Attempt>,
                              bundles: map<Id, Registration>)
  {
    && RowsLinked(missions, tasks, attempts)
    && (forall m :: m in missions ==> MissionSettled(missions, bundles, m))
    && (forall m :: m in bundles ==> m in missions && BundleSettled(tasks, attempts, bundles, m))
    && (forall t :: t in tasks ==> TaskSettled(tasks, attempts, bundles, t))
    && (forall a :: a in attempts ==> AttemptSettled(tasks, attempts, bundles, a))
  }

  /** No row reaches its successful end in this transaction. */
  ghost predicate NoneFinishes(db: Db, after: Db) {
    && (forall m :: m in after.missions && after.missions[m].status == MissionStatus.Completed ==>
          m in db.missions && db.missions[m].status == MissionStatus.Completed)
    && (forall t :: t in after.tasks && after.tasks[t].status == TaskStatus.Succeeded ==>
          t in db.tasks && db.tasks[t].status == TaskStatus.Succeeded)
    && (forall a :: a in after.attempts && after.attempts[a].status == AttemptStatus.Succeeded ==>
          a in db.attempts && db.attempts[a].status == AttemptStatus.Succeeded)
  }

  /** Rows added by a transaction point at rows that exist. */
  ghost predicate NewRowsLinked(db: Db, after: Db) {
    && (forall a :: a in after.attempts && a !in db.attempts ==> after.attempts[a].task in after.tasks)
    && (forall t :: t in after.tasks && t !in db.tasks ==> after.tasks[t].mission in after.missions)
  }

  lemma LinksKept(db: Db, after: Db, now: Time)
    requires RowsLinked(db.missions, db.tasks, db.attempts)
    requires MissionsMove(db.missions, after.missions) && TasksMove(db.tasks, after.tasks)
    requires AttemptsMove(db.attempts, after.attempts, now) && NewRowsLinked(db, after)
    ensures RowsLinked(after.missions, after.tasks, after.attempts)
  {}

  predicate SameMission(x: Mission, y: Mission) {
    x.status == MissionStatus.Completed <==> y.status == MissionStatus.Completed
  }

  predicate SameTask(x: Task, y: Task) {
    x.mission == y.mission && (x.status == TaskStatus.Succeeded <==> y.status == TaskStatus.Succeeded)
  }

  predicate SameAttempt(x: Attempt, y: Attempt) {
    x.task == y.task && (x.status == AttemptStatus.Succeeded <==> y.status == AttemptStatus.Succeeded)
  }

  /** What is left of the moves when no row finishes. */
  ghost predicate Steady(db: Db, after: Db) {
    && (forall m :: m in db.missions ==> m in after.missions && SameMission(db.missions[m], after.missions[m]))
    && (forall t :: t in db.tasks ==> t in after.tasks && SameTask(db.tasks[t], after.tasks[t]))
    && (forall a :: a in db.attempts ==> a in after.attempts && SameAttempt(db.attempts[a], after.attempts[a]))
  }

  lemma StaysSteady(db: Db, after: Db, now: Time)
    requires MissionsMove(db.missions, after.missions) && TasksMove(db.tasks, after.tasks)
    requires AttemptsMove(db.attempts, after.attempts, now) && NoneFinishes(db, after)
    ensures Steady(db, after)
  {}

  lemma NewRowsUnfinished(db: Db, after: Db)
    requires NoneFinishes(db, after)
    ensures forall m :: m in after.missions && m !in db.missions ==> after.missions[m].status != MissionStatus.Completed
    ensures forall t :: t in after.tasks && t !in db.tasks ==> after.tasks[t].status != TaskStatus.Succeeded
    ensures forall a :: a in after.attempts && a !in db.attempts ==> after.attempts[a].status != AttemptStatus.Succeeded
  {}

  lemma MissionStaysSettled(db: Db, after: Db, m: Id)
    requires Completions(db.missions, db.tasks, db.attempts, db.bundles)
    requires Steady(db, after) && after.bundles == db.bundles && m in after.missions
    requires m !in db.missions ==> after.missions[m].status != MissionStatus.Completed
    ensures MissionSettled(after.missions, after.bundles, m)
  {
    if m in db.missions { assert MissionSettled(db.missions, db.bundles, m); }
  }

  lemma BundleStaysSettled(db: Db, after: Db, m: Id)
    requires Completions(db.missions, db.tasks, db.attempts, db.bundles)
    requires Steady(db, after) && after.bundles == db.bundles && m in after.bundles
    ensures m in after.missions && BundleSettled(after.tasks, after.attempts, after.bundles, m)
  {
    assert BundleSettled(db.tasks, db.attempts, db.bundles, m);
  }

  lemma TaskStaysSettled(db: Db, after: Db, t: Id)
    requires Completions(db.missions, db.tasks, db.attempts, db.bundles)
    requires Steady(db, after) && after.bundles == db.bundles && t in after.tasks
    requires t !in db.tasks ==> after.tasks[t].status != TaskStatus.Succeeded
    ensures TaskSettled(after.tasks, after.attempts, after.bundles, t)
  {
    if t in db.tasks { assert TaskSettled(db.tasks, db.attempts, db.bundles, t); }
    var m := after.tasks[t].mission;
    if m in after.bundles { assert BundleSettled(db.tasks, db.attempts, db.bundles, m); }
  }

  lemma AttemptStaysSettled(db: Db, after: Db, a: Id)
    requires Completions(db.missions, db.tasks, db.attempts, db.bundles)
    requires Steady(db, after) && after.bundles == db.bundles && a in after.attempts
    requires after.attempts[a].task in after.tasks
    requires a !in db.attempts ==> after.attempts[a].status != AttemptStatus.Succeeded
    ensures AttemptSettled(after.tasks, after.attempts, after.bundles, a)
  {
    if a in db.attempts { assert AttemptSettled(db.tasks, db.attempts, db.bundles, a); }
    var m := after.tasks[after.attempts[a].task].mission;
    if m in after.bundles { assert BundleSettled(db.tasks, db.attempts, db.bundles, m); }
  }

  /** A transaction in which no row finishes keeps the completion invariant. */
  lemma CompletionsKept(db: Db, after: Db, now: Time)
    requires Completions(db.missions, db.tasks, db.attempts, db.bundles)
    requires MissionsMove(db.missions, after.missions) && TasksMove(db.tasks, after.tasks)
    requires AttemptsMove(db.attempts, after.attempts, now) && NewRowsLinked(db, after)
    requires NoneFinishes(db, after) && after.bundles == db.bundles
    ensures Completions(after.missions, after.tasks, after.attempts, after.bundles)
  {
    hide MissionsMove, TasksMove, AttemptsMove, NewRowsLinked, NoneFinishes, Steady;
    hide RowsLinked, MissionSettled, BundleSettled, TaskSettled, AttemptSettled;
    LinksKept(db, after, now);
    StaysSteady(db, after, now);
    NewRowsUnfinished(db, after);
    forall m | m in after.missions ensures MissionSettled(after.missions, after.bundles, m) {
      MissionStaysSettled(db, after, m);
    }
    forall m | m in after.bundles ensures m in after.missions
        && BundleSettled(after.tasks, after.attempts, after.bundles, m) {
      BundleStaysSettled(db, after, m);
    }
    forall t | t in after.tasks ensures TaskSettled(after.tasks, after.attempts, after.bundles, t) {
      TaskStaysSettled(db, after, t);
    }
    forall a | a in after.attempts ensures AttemptSettled(after.tasks, after.attempts, after.bundles, a) {
      AttemptStaysSettled(db, after, a);
    }
  }

  lemma FinishedAttemptSettled(db: Db, after: Db, now: Time, token: Token, artifact: ArtifactRef, a: Id)
    requires FinishesMission(db, after, now, token, artifact)
    requires Completions(db.missions, db.tasks, db.attempts, db.bundles) && a in after.attempts
    ensures after.attempts[a].task in after.tasks && AttemptSettled(after.tasks, after.attempts, after.bundles, a)
  {
    assert AttemptSettled(db.tasks, db.attempts, db.bundles, a);
  }

  lemma FinishedTaskSettled(db: Db, after: Db, now: Time, token: Token, artifact: ArtifactRef, t: Id)
    requires FinishesMission(db, after, now, token, artifact)
    requires Completions(db.missions, db.tasks, db.attempts, db.bundles) && t in after.tasks
    ensures TaskSettled(after.tasks, after.attempts, after.bundles, t)
  {
    assert TaskSettled(db.tasks, db.attempts, db.bundles, t);
  }

  lemma FinishedMissionSettled(db: Db, after: Db, now: Time, token: Token, artifact: ArtifactRef, m: Id)
    requires FinishesMission(db, after, now, token, artifact)
    requires Completions(db.missions, db.tasks, db.attempts, db.bundles) && m in after.missions
    ensures MissionSettled(after.missions, after.bundles, m)
  {
    assert MissionSettled(db.missions, db.bundles, m);
  }

  lemma FinishedBundleSettled(db: Db, after: Db, now: Time, token: Token, artifact: ArtifactRef, m: Id)
    requires FinishesMission(db, after, now, token, artifact)
    requires Completions(db.missions, db.tasks, db.attempts, db.bundles) && m in after.bundles
    ensures m in after.missions && BundleSettled(after.tasks, after.attempts, after.bundles, m)
  {
    if m in db.bundles { assert BundleSettled(db.tasks, db.attempts, db.bundles, m); }
  }

  lemma FinishedRowsLinked(db: Db, after: Db, now: Time, token: Token, artifact: ArtifactRef)
    requires FinishesMission(db, after, now, token, artifact)
    requires RowsLinked(db.missions, db.tasks, db.attempts)
    ensures RowsLinked(after.missions, after.tasks, after.attempts)
  {}

  lemma FinishedWorkSettled(db: Db, after: Db, now: Time, token: Token, artifact: ArtifactRef)
    requires FinishesMission(db, after, now, token, artifact)
    requires Completions(db.missions, db.tasks, db.attempts, db.bundles)
    ensures RowsLinked(after.missions, after.tasks, after.attempts)
    ensures forall t :: t in after.tasks ==> TaskSettled(after.tasks, after.attempts, after.bundles, t)
    ensures forall a :: a in after.attempts ==> AttemptSettled(after.tasks, after.attempts, after.bundles, a)
  {
    hide FinishesMission, TaskSettled, AttemptSettled;
    FinishedRowsLinked(db, after, now, token, artifact);
    forall t | t in after.tasks ensures TaskSettled(after.tasks, after.attempts, after.bundles, t) {
      FinishedTaskSettled(db, after, now, token, artifact, t);
    }
    forall a | a in after.attempts ensures AttemptSettled(after.tasks, after.attempts, after.bundles, a) {
      FinishedAttemptSettled(db, after, now, token, artifact, a);
    }
  }

  lemma FinishedHeadsSettled(db: Db, after: Db, now: Time, token: Token, artifact: ArtifactRef)
    requires FinishesMission(db, after, now, token, artifact)
    requires Completions(db.missions, db.tasks, db.attempts, db.bundles)
    ensures forall m :: m in after.missions ==> MissionSettled(after.missions, after.bundles, m)
    ensures forall m :: m in after.bundles ==>
      m in after.missions && BundleSettled(after.tasks, after.attempts, after.bundles, m)
  {
    hide FinishesMission, MissionSettled, BundleSettled;
    forall m | m in after.missions ensures MissionSettled(after.missions, after.bundles, m) {
      FinishedMissionSettled(db, after, now, token, artifact, m);
    }
    forall m | m in after.bundles ensures m in after.missions
        && BundleSettled(after.tasks, after.attempts, after.bundles, m) {
      FinishedBundleSettled(db, after, now, token, artifact, m);
    }
  }

  /** The one transaction that finishes rows finishes one of each kind, with the bundle. */
  lemma FinishesMissionCompletions(db: Db, after: Db, now: Time, token: Token, artifact: ArtifactRef)
    requires FinishesMission(db, after, now, token, artifact)
    requires Completions(db.missions, db.tasks, db.attempts, db.bundles)
    ensures Completions(after.missions, after.tasks, after.attempts, after.bundles)
  {
    hide FinishesMission, RowsLinked, MissionSettled, BundleSettled, TaskSettled, AttemptSettled;
    FinishedWorkSettled(db, after, now, token, artifact);
    FinishedHeadsSettled(db, after, now, token, artifact);
  }

  // ---------------------------------------------------------------- the other transactions are quiet

  lemma OpensQuiet(db: Db, after: Db, now: Time, mission: Id, task: Id, attempt: Id, event: Id)
    requires Opens(db, after, now, mission, task, attempt, event)
    ensures NoneFinishes(db, after) && NewRowsLinked(db, after)
  {}

  lemma TakesLeaseQuiet(db: Db, after: Db, now: Time, a: Id, owner: Id, until: Time)
    requires TakesLease(db, after, now, a, owner, until)
    ensures NoneFinishes(db, after) && NewRowsLinked(db, after)
  {}

  lemma RenewsLeaseQuiet(db: Db, after: Db, now: Time, token: Token, until: Time)
    requires RenewsLease(db, after, now, token, until)
    ensures NoneFinishes(db, after) && NewRowsLinked(db, after)
  {}

  lemma AsksCancellationQuiet(db: Db, after: Db, now: Time, mission: Id)
    requires AsksCancellation(db, after, now, mission)
    ensures NoneFinishes(db, after) && NewRowsLinked(db, after)
  {}

  lemma RegistersResultQuiet(db: Db, after: Db, now: Time, token: Token, e: Evidence, metric: Id, claim: Id)
    requires RegistersResult(db, after, now, token, e, metric, claim)
    ensures NoneFinishes(db, after) && NewRowsLinked(db, after)
  {}

  lemma FailsRunQuiet(db: Db, after: Db, now: Time, token: Token, code: FailureCode)
    requires FailsRun(db, after, now, token, code)
    ensures NoneFinishes(db, after) && NewRowsLinked(db, after)
  {}

  lemma SchedulesRepairQuiet(db: Db, after: Db, now: Time, token: Token, code: FailureCode, ids: RepairIds)
    requires SchedulesRepair(db, after, now, token, code, ids)
    ensures NoneFinishes(db, after) && NewRowsLinked(db, after)
  {
    hide HasRepairTask;
  }

  lemma AsksApprovalQuiet(db: Db, after: Db, cfg: Config, now: Time, token: Token, patch: ArtifactRef, approval: Id)
    requires AsksApproval(db, after, cfg, now, token, patch, approval)
    ensures NoneFinishes(db, after) && NewRowsLinked(db, after)
  {}

  lemma GrantsApprovalQuiet(db: Db, after: Db, now: Time, approval: Id, decider: Id, child: Id, event: Id)
    requires GrantsApproval(db, after, now, approval, decider, child, event)
    ensures NoneFinishes(db, after) && NewRowsLinked(db, after)
  {}

  lemma DeniesApprovalQuiet(db: Db, after: Db, now: Time, approval: Id, decider: Id)
    requires DeniesApproval(db, after, now, approval, decider)
    ensures NoneFinishes(db, after) && NewRowsLinked(db, after)
  {}

  lemma CancelsAttemptQuiet(db: Db, after: Db, now: Time, token: Token)
    requires CancelsAttempt(db, after, now, token)
    ensures NoneFinishes(db, after) && NewRowsLinked(db, after)
  {}

  // ---------------------------------------------------------------- one baseline task, one repair task

  predicate Rivals(tasks: map<Id, Task>, t: Id, u: Id)
    requires t in tasks && u in tasks
  {
    t != u && tasks[t].mission == tasks[u].mission && tasks[t].kind == tasks[u].kind
  }

  predicate IsBaselineOf(tasks: map<Id, Task>, t: Id, m: Id) {
    t in tasks && tasks[t].mission == m && tasks[t].kind == BaselineReproduction
  }

  /** A repair task stands beside a baseline task only after that one failed. */
  predicate RepairAfterFailure(tasks: map<Id, Task>, t: Id, b: Id)
    requires t in tasks && b in tasks
  {
    (tasks[t].kind == RepairCandidate
        && IsBaselineOf(tasks, b, tasks[t].mission)) ==> tasks[b].status == TaskStatus.Failed
  }

  /** Every mission has one baseline task and at most one repair task, which exists only if the
      baseline task failed. */
  ghost predicate TaskShape(missions: map<Id, Mission>, tasks: map<Id, Task>) {
    && (forall t, u :: t in tasks && u in tasks ==> !Rivals(tasks, t, u))
    && (forall t, u :: t in tasks && u in tasks ==> RepairAfterFailure(tasks, t, u))
    && (forall m :: m in missions ==> exists t :: IsBaselineOf(tasks, t, m))
  }

  lemma TaskShapeKept(db: Db, after: Db)
    requires TaskShape(db.missions, db.tasks)
    requires TasksMove(db.tasks, after.tasks)
    requires after.tasks.Keys == db.tasks.Keys && after.missions.Keys == db.missions.Keys
    ensures TaskShape(after.missions, after.tasks)
  {
    forall t, u | t in after.tasks && u in after.tasks
      ensures !Rivals(after.tasks, t, u) && RepairAfterFailure(after.tasks, t, u)
    {
      assert !Rivals(db.tasks, t, u) && RepairAfterFailure(db.tasks, t, u);
    }
    forall m | m in after.missions ensures exists t :: IsBaselineOf(after.tasks, t, m) {
      var t :| IsBaselineOf(db.tasks, t, m);
      assert IsBaselineOf(after.tasks, t, m);
    }
  }

  lemma OpensTaskShape(db: Db, after: Db, now: Time, mission: Id, task: Id, attempt: Id, event: Id)
    requires Opens(db, after, now, mission, task, attempt, event)
    requires TaskShape(db.missions, db.tasks) && RowsLinked(db.missions, db.tasks, db.attempts)
    ensures TaskShape(after.missions, after.tasks)
  {
    forall t, u | t in after.tasks && u in after.tasks
      ensures !Rivals(after.tasks, t, u) && RepairAfterFailure(after.tasks, t, u)
    {
      if t != task && u != task { assert !Rivals(db.tasks, t, u) && RepairAfterFailure(db.tasks, t, u); }
    }
    forall m | m in after.missions ensures exists t :: IsBaselineOf(after.tasks, t, m) {
      if m == mission {
        assert IsBaselineOf(after.tasks, task, m);
      } else {
        var t :| IsBaselineOf(db.tasks, t, m);
        assert IsBaselineOf(after.tasks, t, m);
      }
    }
  }

  lemma SchedulesRepairTasks(db: Db, after: Db, now: Time, token: Token, code: FailureCode, ids: RepairIds, t: Id,
                             u: Id)
    requires SchedulesRepair(db, after, now, token, code, ids) && TaskShape(db.missions, db.tasks)
    requires t in after.tasks && u in after.tasks
    ensures !Rivals(after.tasks, t, u) && RepairAfterFailure(after.tasks, t, u)
  {
    var failed := TaskOf(db, token.attempt);
    if t in db.tasks && u in db.tasks {
      assert !Rivals(db.tasks, t, u) && RepairAfterFailure(db.tasks, t, u);
    } else if u in db.tasks {
      assert !Rivals(db.tasks, failed, u);
    } else if t in db.tasks {
      assert !Rivals(db.tasks, failed, t);
    }
  }

  lemma SchedulesRepairBaseline(db: Db, after: Db, now: Time, token: Token, code: FailureCode, ids: RepairIds, m: Id)
    requires SchedulesRepair(db, after, now, token, code, ids) && TaskShape(db.missions, db.tasks)
    requires m in after.missions
    ensures exists t :: IsBaselineOf(after.tasks, t, m)
  {
    var t :| IsBaselineOf(db.tasks, t, m);
    assert IsBaselineOf(after.tasks, t, m);
  }

  lemma SchedulesRepairTaskShape(db: Db, after: Db, now: Time, token: Token, code: FailureCode, ids: RepairIds)
    requires SchedulesRepair(db, after, now, token, code, ids) && TaskShape(db.missions, db.tasks)
    ensures TaskShape(after.missions, after.tasks)
  {
    hide SchedulesRepair, Rivals, RepairAfterFailure, IsBaselineOf;
    forall t, u | t in after.tasks && u in after.tasks
      ensures !Rivals(after.tasks, t, u) && RepairAfterFailure(after.tasks, t, u)
    {
      SchedulesRepairTasks(db, after, now, token, code, ids, t, u);
    }
    forall m | m in after.missions ensures exists t :: IsBaselineOf(after.tasks, t, m) {
      SchedulesRepairBaseline(db, after, now, token, code, ids, m);
    }
  }
}
