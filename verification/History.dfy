/** What never changes back over a whole run: identities, finished rows and write-once tables. */
module History {
  import opened Basics
  import opened Lifecycle
  import opened Tables
  import opened Transactions
  import opened Evolution

  predicate Over(s: MissionStatus) {
    s == MissionStatus.Completed || s == MissionStatus.Failed || s == MissionStatus.Cancelled
  }

  /** A finished mission stays as it is, and one that is being cancelled can only end cancelled
      or failed. */
  predicate MissionLater(x: Mission, y: Mission) {
    && y.spec == x.spec && y.proposal == x.proposal && x.version <= y.version
    && (Over(x.status) ==> y == x)
    && (x.status == MissionStatus.Cancelling ==>
          y.status in {MissionStatus.Cancelling, MissionStatus.Cancelled, MissionStatus.Failed})
  }

  predicate TaskLater(x: Task, y: Task) {
    && y.mission == x.mission && y.kind == x.kind && x.version <= y.version
    && (x.status in {TaskStatus.Succeeded, TaskStatus.Failed, TaskStatus.Cancelled} ==> y == x)
  }

  predicate AttemptLater(x: Attempt, y: Attempt) {
    && y.task == x.task && y.parent == x.parent && x.version <= y.version && x.epoch <= y.epoch
    && (x.version == y.version ==> y == x)
    && (x.status in {AttemptStatus.Succeeded, AttemptStatus.Failed, AttemptStatus.Cancelled} ==> y == x)
  }

  predicate OperationLater(x: Operation, y: Operation) {
    && SameIdentity(x, y) && x.version <= y.version
    && (x.version == y.version ==> y == x)
    && (!Open(x) ==> y == x)
  }

  predicate ApprovalLater(x: Approval, y: Approval) {
    && y.mission == x.mission && y.task == x.task && y.attempt == x.attempt
    && y.actionHash == x.actionHash && y.patch == x.patch && y.expiresAt == x.expiresAt
    && (x.status != ApprovalStatus.Pending ==> y == x)
  }

  ghost predicate MissionsLater(xs: map<Id, Mission>, ys: map<Id, Mission>) {
    forall m :: m in xs ==> m in ys && MissionLater(xs[m], ys[m])
  }

  ghost predicate TasksLater(xs: map<Id, Task>, ys: map<Id, Task>) {
    forall t :: t in xs ==> t in ys && TaskLater(xs[t], ys[t])
  }

  ghost predicate AttemptsLater(xs: map<Id, Attempt>, ys: map<Id, Attempt>) {
    forall a :: a in xs ==> a in ys && AttemptLater(xs[a], ys[a])
  }

  ghost predicate OperationsLater(xs: map<Id, Operation>, ys: map<Id, Operation>) {
    forall o :: o in xs ==> o in ys && OperationLater(xs[o], ys[o])
  }

  ghost predicate ApprovalsLater(xs: map<Id, Approval>, ys: map<Id, Approval>) {
    forall p :: p in xs ==> p in ys && ApprovalLater(xs[p], ys[p])
  }

  ghost predicate Later(db: Db, after: Db) {
    && MissionsLater(db.missions, after.missions)
    && TasksLater(db.tasks, after.tasks)
    && AttemptsLater(db.attempts, after.attempts)
    && OperationsLater(db.operations, after.operations)
    && ApprovalsLater(db.approvals, after.approvals)
    && WriteOnce(db, after)
  }

  lemma NowIsLater(db: Db)
    ensures Later(db, db)
  {}

  lemma MissionsMoveLater(xs: map<Id, Mission>, ys: map<Id, Mission>)
    requires MissionsMove(xs, ys)
    ensures MissionsLater(xs, ys)
  {}

  lemma TasksMoveLater(xs: map<Id, Task>, ys: map<Id, Task>)
    requires TasksMove(xs, ys)
    ensures TasksLater(xs, ys)
  {}

  lemma AttemptsMoveLater(xs: map<Id, Attempt>, ys: map<Id, Attempt>, now: Time)
    requires AttemptsMove(xs, ys, now)
    ensures AttemptsLater(xs, ys)
  {}

  lemma OperationsMoveLater(xs: map<Id, Operation>, ys: map<Id, Operation>, now: Time)
    requires OperationsMove(xs, ys, now)
    ensures OperationsLater(xs, ys)
  {}

  lemma ApprovalsMoveLater(xs: map<Id, Approval>, ys: map<Id, Approval>, now: Time)
    requires ApprovalsMove(xs, ys, now)
    ensures ApprovalsLater(xs, ys)
  {}

  /** One transaction only moves the tables forward. */
  lemma EvolvesLater(db: Db, after: Db, now: Time)
    requires Evolves(db, after, now)
    ensures Later(db, after)
  {
    hide MissionsMove, TasksMove, AttemptsMove, OperationsMove, ApprovalsMove, WriteOnce;
    hide MissionsLater, TasksLater, AttemptsLater, OperationsLater, ApprovalsLater;
    MissionsMoveLater(db.missions, after.missions);
    TasksMoveLater(db.tasks, after.tasks);
    AttemptsMoveLater(db.attempts, after.attempts, now);
    OperationsMoveLater(db.operations, after.operations, now);
    ApprovalsMoveLater(db.approvals, after.approvals, now);
  }

  lemma WorkLaterThrough(db: Db, next: Db, after: Db)
    requires MissionsLater(db.missions, next.missions) && MissionsLater(next.missions, after.missions)
    requires TasksLater(db.tasks, next.tasks) && TasksLater(next.tasks, after.tasks)
    requires AttemptsLater(db.attempts, next.attempts) && AttemptsLater(next.attempts, after.attempts)
    ensures MissionsLater(db.missions, after.missions) && TasksLater(db.tasks, after.tasks)
    ensures AttemptsLater(db.attempts, after.attempts)
  {}

  lemma LedgerLaterThrough(db: Db, next: Db, after: Db)
    requires OperationsLater(db.operations, next.operations) && OperationsLater(next.operations, after.operations)
    requires ApprovalsLater(db.approvals, next.approvals) && ApprovalsLater(next.approvals, after.approvals)
    ensures OperationsLater(db.operations, after.operations) && ApprovalsLater(db.approvals, after.approvals)
  {}

  lemma WriteOnceThrough(db: Db, next: Db, after: Db)
    requires WriteOnce(db, next) && WriteOnce(next, after)
    ensures WriteOnce(db, after)
  {}

  lemma LaterThrough(db: Db, next: Db, after: Db)
    requires Later(db, next) && Later(next, after)
    ensures Later(db, after)
  {
    hide WriteOnce, MissionsLater, TasksLater, AttemptsLater, OperationsLater, ApprovalsLater;
    WorkLaterThrough(db, next, after);
    LedgerLaterThrough(db, next, after);
    WriteOnceThrough(db, next, after);
  }
}
