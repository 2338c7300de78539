/** What one transaction may do to each row: the two-state relation between the tables before
    and after it. */
module Evolution {
  import opened Basics
  import opened Lifecycle
  import opened Tables
  import opened Transactions

  // ---------------------------------------------------------------- one row

  predicate LegalMission(s: MissionStatus, t: MissionStatus) {
    match t
    case Draft => false
    case Ready => s == MissionStatus.Draft
    case Running => s == MissionStatus.Ready || s == MissionStatus.WaitingApproval
    case WaitingApproval => s == MissionStatus.Running
    case Verifying => s == MissionStatus.Running
    case Completed => s == MissionStatus.Verifying
    case Failed => s in {MissionStatus.Ready, MissionStatus.Running, MissionStatus.WaitingApproval,
                         MissionStatus.Verifying, MissionStatus.Cancelling}
    case Cancelling => s in {MissionStatus.Ready, MissionStatus.Running, MissionStatus.WaitingApproval,
                             MissionStatus.Verifying}
    case Cancelled => s == MissionStatus.Cancelling
  }

  predicate MissionMoves(x: Mission, y: Mission) {
    x == y ||
    (&& y.spec == x.spec && y.createdAt == x.createdAt && y.proposal == x.proposal
     && y.version == x.version + 1 && LegalMission(x.status, y.status))
  }

  predicate LegalTask(s: TaskStatus, t: TaskStatus) {
    match t
    case Pending => false
    case Running => s == TaskStatus.Pending || s == TaskStatus.Retryable
    case Succeeded => s == TaskStatus.Running
    case Retryable => s == TaskStatus.Running
    case _ => s in {TaskStatus.Pending, TaskStatus.Running, TaskStatus.Retryable}
  }

  predicate TaskMoves(x: Task, y: Task) {
    x == y ||
    (&& y.mission == x.mission && y.kind == x.kind && y.createdAt == x.createdAt
     && y.version == x.version + 1 && LegalTask(x.status, y.status))
  }

  /** A lease is live at `now`: running, and not yet expired. */
  predicate Live(a: Attempt, now: Time) {
    a.status == AttemptStatus.Running && a.expires.Some? && a.expires.value > now
  }

  predicate Claims(x: Attempt, y: Attempt, now: Time) {
    && (x.status == AttemptStatus.Pending || x.status == AttemptStatus.Retryable
        || (x.status == AttemptStatus.Running && x.expires.Some? && x.expires.value <= now))
    && y.epoch == x.epoch + 1 && Live(y, now) && y.owner.Some?
  }

  predicate Renews(x: Attempt, y: Attempt, now: Time) {
    Live(x, now) && Live(y, now) && y.epoch == x.epoch && y.owner == x.owner
  }

  predicate Finishes(x: Attempt, y: Attempt, now: Time) {
    && Live(x, now) && y.epoch == x.epoch && y.owner == x.owner && y.expires == Some(now)
    && y.status !in {AttemptStatus.Pending, AttemptStatus.Running}
  }

  predicate AttemptMoves(x: Attempt, y: Attempt, now: Time) {
    x == y ||
    (&& y.task == x.task && y.number == x.number && y.createdAt == x.createdAt && y.parent == x.parent
     && y.version == x.version + 1
     && (Claims(x, y, now) || Renews(x, y, now) || Finishes(x, y, now)))
  }

  predicate SameIdentity(x: Operation, y: Operation) {
    && y.key == x.key && y.attempt == x.attempt && y.kind == x.kind && y.input == x.input && y.epoch == x.epoch
    && y.target == x.target && y.createdAt == x.createdAt
  }

  predicate Open(o: Operation) {
    o.status == OperationStatus.Prepared || o.status == OperationStatus.Executing
  }

  predicate OperationMoves(x: Operation, y: Operation, now: Time) {
    x == y ||
    (&& SameIdentity(x, y) && Open(x) && y.version == x.version + 1 && y.updatedAt == now
     && ((Open(y) && y.result == x.result) || (y.status == OperationStatus.Succeeded && y.result.Some?)))
  }

  predicate ApprovalMoves(x: Approval, y: Approval, now: Time) {
    x == y ||
    (&& x.status == ApprovalStatus.Pending && now < x.expiresAt
     && (y.status == ApprovalStatus.Approved || y.status == ApprovalStatus.Rejected)
     && y.decidedAt == Some(now) && y.decidedBy.Some? && y.version == x.version + 1
     && y.mission == x.mission && y.task == x.task && y.attempt == x.attempt
     && y.actionType == x.actionType && y.actionHash == x.actionHash && y.scope == x.scope
     && y.requestedAt == x.requestedAt && y.expiresAt == x.expiresAt && y.patch == x.patch)
  }

  // ---------------------------------------------------------------- one table

  ghost predicate Extends<K, V>(m: map<K, V>, n: map<K, V>) {
    forall k :: k in m ==> k in n && n[k] == m[k]
  }

  ghost predicate MissionsMove(ms: map<Id, Mission>, ns: map<Id, Mission>) {
    && (forall m :: m in ms ==> m in ns && MissionMoves(ms[m], ns[m]))
    && (forall m :: m in ns && m !in ms ==> ns[m].status == MissionStatus.Ready)
  }

  ghost predicate TasksMove(ts: map<Id, Task>, us: map<Id, Task>) {
    && (forall t :: t in ts ==> t in us && TaskMoves(ts[t], us[t]))
    && (forall t :: t in us && t !in ts ==> us[t].status == TaskStatus.Pending)
  }

  predicate Unclaimed(a: Attempt) {
    a.status == AttemptStatus.Pending && a.epoch == 0 && a.version == 0 && a.expires == None && a.owner == None
  }

  ghost predicate AttemptsMove(xs: map<Id, Attempt>, ys: map<Id, Attempt>, now: Time) {
    && (forall a :: a in xs ==> a in ys && AttemptMoves(xs[a], ys[a], now))
    && (forall a :: a in ys && a !in xs ==> Unclaimed(ys[a]))
  }

  predicate Begun(o: Operation, now: Time) {
    Open(o) && o.result == None && o.createdAt == now && o.updatedAt == now && o.attempt == o.key.attempt
  }

  ghost predicate OperationsMove(os: map<Id, Operation>, ps: map<Id, Operation>, now: Time) {
    && (forall o :: o in os ==> o in ps && OperationMoves(os[o], ps[o], now))
    && (forall o :: o in ps && o !in os ==> Begun(ps[o], now))
  }

  ghost predicate ApprovalsMove(xs: map<Id, Approval>, ys: map<Id, Approval>, now: Time) {
    && (forall p :: p in xs ==> p in ys && ApprovalMoves(xs[p], ys[p], now))
    && (forall p :: p in ys && p !in xs ==> ys[p].status == ApprovalStatus.Pending)
  }

  ghost predicate WriteOnce(db: Db, after: Db) {
    && Extends(db.keys, after.keys) && Extends(db.artifacts, after.artifacts)
    && Extends(db.metrics, after.metrics) && Extends(db.claims, after.claims)
    && Extends(db.evidence, after.evidence) && Extends(db.bundles, after.bundles)
    && Extends(db.published, after.published)
    && db.audits <= after.audits && db.outbox <= after.outbox
  }

  /** The relation between the tables before and after one transaction at time `now`. */
  ghost predicate Evolves(db: Db, after: Db, now: Time) {
    && MissionsMove(db.missions, after.missions)
    && TasksMove(db.tasks, after.tasks)
    && AttemptsMove(db.attempts, after.attempts, now)
    && OperationsMove(db.operations, after.operations, now)
    && ApprovalsMove(db.approvals, after.approvals, now)
    && WriteOnce(db, after)
  }

  // ---------------------------------------------------------------- one changed row

  lemma Unmoved(db: Db, now: Time)
    ensures Evolves(db, db, now)
  {}

  lemma MissionRow(ms: map<Id, Mission>, m: Id, y: Mission)
    requires m in ms && MissionMoves(ms[m], y)
    ensures MissionsMove(ms, ms[m := y])
  {}

  lemma TaskRow(ts: map<Id, Task>, t: Id, y: Task)
    requires t in ts && TaskMoves(ts[t], y)
    ensures TasksMove(ts, ts[t := y])
  {}

  lemma AttemptRow(xs: map<Id, Attempt>, a: Id, y: Attempt, now: Time)
    requires if a in xs then AttemptMoves(xs[a], y, now) else Unclaimed(y)
    ensures AttemptsMove(xs, xs[a := y], now)
  {}

  lemma OperationRow(os: map<Id, Operation>, o: Id, y: Operation, now: Time)
    requires if o in os then OperationMoves(os[o], y, now) else Begun(y, now)
    ensures OperationsMove(os, os[o := y], now)
  {}

  lemma ApprovalRow(xs: map<Id, Approval>, p: Id, y: Approval, now: Time)
    requires if p in xs then ApprovalMoves(xs[p], y, now) else y.status == ApprovalStatus.Pending
    ensures ApprovalsMove(xs, xs[p := y], now)
  {}

  lemma TwoTaskRows(ts: map<Id, Task>, t: Id, y: Task, newId: Id, z: Task)
    requires t in ts && TaskMoves(ts[t], y) && newId !in ts && z.status == TaskStatus.Pending
    ensures TasksMove(ts, ts[t := y][newId := z])
  {}

  lemma TwoAttemptRows(xs: map<Id, Attempt>, a: Id, y: Attempt, newId: Id, z: Attempt, now: Time)
    requires a in xs && AttemptMoves(xs[a], y, now) && newId !in xs && Unclaimed(z)
    ensures AttemptsMove(xs, xs[a := y][newId := z], now)
  {}

  lemma NewRow<K, V>(m: map<K, V>, k: K, v: V)
    requires k in m ==> m[k] == v
    ensures Extends(m, m[k := v])
  {}

  predicate FreshEvent(outbox: seq<OutboxEvent>, event: Id) {
    forall e <- outbox :: e.id != event
  }

  /** The idempotency-key index is in bijection with the operations. */
  ghost predicate KeyIndex(operations: map<Id, Operation>, keys: map<Key, Id>) {
    && (forall k :: k in keys ==> keys[k] in operations && operations[keys[k]].key == k)
    && (forall o :: o in operations ==> operations[o].key in keys && keys[operations[o].key] == o)
  }
}
