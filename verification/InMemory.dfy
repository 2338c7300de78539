/** The in-memory unit of work as the object structure it is: committed tables, a deep copy to work
    on, and entity objects that callers fetch and change in place. */
module InMemory {
  import opened Basics
  import opened Content
  import L = Lifecycle
  import opened Tables
  import opened Evolution
  import E = Entities

  // ---------------------------------------------------------------- method calls on entity objects

  datatype MissionCall = MarkReady | StartMission | BeginVerification | WaitForApproval | CompleteMission | FailMission
    | RequestCancel | ConfirmCancel

  datatype TaskCall = StartTask | SucceedTask | RetryTask | FailTask | CancelTask

  datatype AttemptCall =
    | Claim(worker: Id, now: Time, until: Time)
    | Heartbeat(token: L.Token, now: Time, until: Time)
    | SucceedAttempt(token: L.Token, now: Time)
    | FailAttempt(token: L.Token, now: Time, retryable: bool, code: L.FailureCode)
    | CancelAttempt(token: L.Token, now: Time)

  datatype OperationCall =
    | Begin(now: Time)
    | SucceedOperation(outcome: EffectRef, now: Time)
    | FailOperation(code: string, now: Time)
    | RequestRecovery(now: Time)

  datatype ApprovalCall = Approve(decider: Id, now: Time) | Reject(decider: Id, now: Time)

  function MissionAfter(row: L.Mission, call: MissionCall): Result<L.Mission> {
    match call
    case MarkReady => row.MarkReady()
    case StartMission => row.Start()
    case BeginVerification => row.BeginVerification()
    case WaitForApproval => row.WaitForApproval()
    case CompleteMission => row.Complete()
    case FailMission => row.Fail()
    case RequestCancel => row.RequestCancel()
    case ConfirmCancel => row.ConfirmCancel()
  }

  function TaskAfter(row: L.Task, call: TaskCall): Result<L.Task> {
    match call
    case StartTask => row.Start()
    case SucceedTask => row.Succeed()
    case RetryTask => row.Retry()
    case FailTask => row.Fail()
    case CancelTask => row.Cancel()
  }

  function AttemptAfter(row: L.Attempt, call: AttemptCall): Result<L.Attempt> {
    match call
    case Claim(worker, now, until) => row.Claim(worker, now, until)
    case Heartbeat(token, now, until) => row.Heartbeat(token, now, until)
    case SucceedAttempt(token, now) => row.Succeed(token, now)
    case FailAttempt(token, now, retryable, code) => row.Fail(token, now, retryable, code)
    case CancelAttempt(token, now) => row.Cancel(token, now)
  }

  function OperationAfter(row: L.Operation, call: OperationCall): Result<L.Operation> {
    match call
    case Begin(now) => row.Begin(now)
    case SucceedOperation(outcome, now) => row.Succeed(outcome, now)
    case FailOperation(code, now) => row.Fail(code, now, false)
    case RequestRecovery(now) => row.RequestRecovery(now)
  }

  function ApprovalAfter(row: L.Approval, call: ApprovalCall): Result<L.Approval> {
    match call
    case Approve(decider, now) => row.Approve(decider, now)
    case Reject(decider, now) => row.Reject(decider, now)
  }

  // ---------------------------------------------------------------- what callers do inside a context

  /** Fetch an object and call a method on it, or add to a table. */
  datatype Action =
    | OnMission(id: Id, missionCall: MissionCall)
    | OnTask(id: Id, taskCall: TaskCall)
    | OnAttempt(id: Id, attemptCall: AttemptCall)
    | OnOperation(id: Id, operationCall: OperationCall)
    | OnApproval(id: Id, approvalCall: ApprovalCall)
    | AddMission(id: Id, newMission: L.Mission)
    | AddTask(id: Id, newTask: L.Task)
    | AddAttempt(id: Id, newAttempt: L.Attempt)
    | AddOperation(id: Id, newOperation: L.Operation)
    | AddApproval(id: Id, newApproval: L.Approval)
    | AddArtifact(id: Id, registration: Registration)
    | AddMetric(id: Id, metric: MetricRecord)
    | AddClaim(id: Id, claim: Tables.Claim)
    | AddLink(link: EvidenceLink)
    | AddBundle(id: Id, bundle: Registration)
    | AddAudit(audit: Audit)
    | AddEvent(event: OutboxEvent)
    | MarkEvent(id: Id, at: Time)

  /** How a context ends: with a commit, without one, or by an exception after the script. */
  datatype Ending = Committing | Forgetting | Raising

  /** A write-once table takes a new row, or the same row again. */
  function Once<V(==)>(table: map<Id, V>, id: Id, row: V): Result<map<Id, V>> {
    if id in table && table[id] != row then Err(Refused) else Ok(table[id := row])
  }

  /** A method call on an entity. */
  function ActOnEntity(c: Db, action: Action): Result<Db> {
    match action
    case OnMission(id, call) =>
      if id !in c.missions then Err(NotFound)
      else var row :- MissionAfter(c.missions[id], call); Ok(c.(missions := c.missions[id := row]))
    case OnTask(id, call) =>
      if id !in c.tasks then Err(NotFound)
      else var row :- TaskAfter(c.tasks[id], call); Ok(c.(tasks := c.tasks[id := row]))
    case OnAttempt(id, call) =>
      if id !in c.attempts then Err(NotFound)
      else var row :- AttemptAfter(c.attempts[id], call); Ok(c.(attempts := c.attempts[id := row]))
    case OnOperation(id, call) =>
      if id !in c.operations then Err(NotFound)
      else var row :- OperationAfter(c.operations[id], call); Ok(c.(operations := c.operations[id := row]))
    case OnApproval(id, call) =>
      if id !in c.approvals then Err(NotFound)
      else var row :- ApprovalAfter(c.approvals[id], call); Ok(c.(approvals := c.approvals[id := row]))
    case _ => Ok(c)
  }

  /** A new entity. */
  function ActNewEntity(c: Db, action: Action): Result<Db> {
    match action
    case AddMission(id, row) => Ok(c.(missions := c.missions[id := row]))
    case AddTask(id, row) => Ok(c.(tasks := c.tasks[id := row]))
    case AddAttempt(id, row) => Ok(c.(attempts := c.attempts[id := row]))
    case AddOperation(id, row) =>
      if row.key in c.keys && c.keys[row.key] != id then Err(Refused)
      else Ok(c.(operations := c.operations[id := row], keys := c.keys[row.key := id]))
    case AddApproval(id, row) => var t :- Once(c.approvals, id, row); Ok(c.(approvals := t))
    case _ => Ok(c)
  }

  /** A frozen record. */
  function ActOnRecord(c: Db, action: Action): Result<Db> {
    match action
    case AddArtifact(id, registration) => var t :- Once(c.artifacts, id, registration); Ok(c.(artifacts := t))
    case AddMetric(id, metric) => var t :- Once(c.metrics, id, metric); Ok(c.(metrics := t))
    case AddClaim(id, claim) => var t :- Once(c.claims, id, claim); Ok(c.(claims := t))
    case AddLink(link) =>
      var links := EvidenceOf(c, link.claim);
      Ok(c.(evidence := c.evidence[link.claim := if link in links then links else links + [link]]))
    case AddBundle(id, bundle) => var t :- Once(c.bundles, id, bundle); Ok(c.(bundles := t))
    case AddAudit(audit) => Ok(c.(audits := c.audits + [audit]))
    case AddEvent(event) => Ok(c.(outbox := c.outbox + [event]))
    case MarkEvent(id, at) =>
      if !exists e <- c.outbox :: e.id == id then Err(Refused)
      else Ok(c.(published := if id in c.published then c.published else c.published[id := at]))
    case _ => Ok(c)
  }

  predicate IsCall(action: Action) {
    action.OnMission? || action.OnTask? || action.OnAttempt? || action.OnOperation? || action.OnApproval?
  }

  predicate IsNewEntity(action: Action) {
    action.AddMission? || action.AddTask? || action.AddAttempt? || action.AddOperation? || action.AddApproval?
  }

  /** One action on the working tables; an error is an exception. */
  function Act(c: Db, action: Action): Result<Db> {
    if IsCall(action) then ActOnEntity(c, action)
    else if IsNewEntity(action) then ActNewEntity(c, action)
    else ActOnRecord(c, action)
  }

  function ActAll(c: Db, script: seq<Action>): Result<Db>
    decreases |script|
  {
    if script == [] then Ok(c)
    else
      var next :- Act(c, script[0]);
      ActAll(next, script[1..])
  }

  // ---------------------------------------------------------------- what every script keeps

  /** Nothing that was registered changes: four tables are write-once, and the logs only grow. */
  ghost predicate Grown(c: Db, d: Db) {
    && Extends(c.artifacts, d.artifacts) && Extends(c.metrics, d.metrics) && Extends(c.claims, d.claims)
    && Extends(c.bundles, d.bundles) && Extends(c.published, d.published)
    && c.audits <= d.audits && c.outbox <= d.outbox
    && (forall k :: k in c.evidence ==> k in d.evidence && c.evidence[k] <= d.evidence[k])
  }

  lemma EntitiesOnlyDiffer(c: Db, action: Action)
    requires Act(c, action).Ok? && (IsCall(action) || IsNewEntity(action))
    ensures Grown(c, Act(c, action).value)
  {
    hide MissionAfter, TaskAfter, AttemptAfter, OperationAfter, ApprovalAfter, ActOnRecord;
  }

  lemma ActGrows(c: Db, action: Action)
    requires Act(c, action).Ok?
    ensures Grown(c, Act(c, action).value)
  {
    hide ActOnEntity, ActNewEntity;
    if IsCall(action) || IsNewEntity(action) { EntitiesOnlyDiffer(c, action); }
  }

  lemma GrownThrough(c: Db, d: Db, e: Db)
    requires Grown(c, d) && Grown(d, e)
    ensures Grown(c, e)
  {}

  lemma {:induction false} ScriptsOnlyGrow(c: Db, script: seq<Action>)
    requires ActAll(c, script).Ok?
    ensures Grown(c, ActAll(c, script).value)
    decreases |script|
  {
    hide Act, Grown;
    if script == [] {
      GrownNow(c);
    } else {
      ActGrows(c, script[0]);
      var next := Act(c, script[0]).value;
      ScriptsOnlyGrow(next, script[1..]);
      GrownThrough(c, next, ActAll(c, script).value);
    }
  }

  lemma GrownNow(c: Db)
    ensures Grown(c, c)
  {}

  /** Adding an operation keeps the key index in bijection exactly when its id is new or keeps its
      key: the code checks the key, and relies on fresh ids. */
  lemma AddingKeepsIndexIff(c: Db, id: Id, row: L.Operation)
    requires KeyIndex(c.operations, c.keys) && Act(c, AddOperation(id, row)).Ok?
    ensures var d := Act(c, AddOperation(id, row)).value;
      KeyIndex(d.operations, d.keys) <==> (id in c.operations ==> c.operations[id].key == row.key)
  {
    var d := Act(c, AddOperation(id, row)).value;
    if id in c.operations && c.operations[id].key != row.key {
      assert d.keys[c.operations[id].key] == id && d.operations[id].key == row.key;
    }
  }

  lemma OnlyOperationsAreIndexed(c: Db, action: Action)
    requires Act(c, action).Ok? && !action.AddOperation? && !action.OnOperation?
    ensures Act(c, action).value.operations == c.operations && Act(c, action).value.keys == c.keys
  {
    hide MissionAfter, TaskAfter, AttemptAfter, OperationAfter, ApprovalAfter;
  }

  lemma CallsKeepKeys(row: L.Operation, call: OperationCall)
    requires OperationAfter(row, call).Ok?
    ensures OperationAfter(row, call).value.key == row.key
  {}

  lemma ChangingKeepsIndex(c: Db, action: Action)
    requires KeyIndex(c.operations, c.keys) && Act(c, action).Ok? && !action.AddOperation?
    ensures KeyIndex(Act(c, action).value.operations, Act(c, action).value.keys)
  {
    if action.OnOperation? {
      hide OperationAfter;
      CallsKeepKeys(c.operations[action.id], action.operationCall);
    } else {
      hide Act;
      OnlyOperationsAreIndexed(c, action);
    }
  }

  // ---------------------------------------------------------------- tables of objects

  ghost predicate NoSharing<T>(objects: map<Id, T>) {
    forall i, j :: i in objects && j in objects && i != j ==> objects[i] != objects[j]
  }

  lemma NoSharingWith<T>(objects: map<Id, T>, id: Id, o: T)
    requires NoSharing(objects) && o !in objects.Values
    ensures NoSharing(objects[id := o])
  {}

  function MissionRows(objects: map<Id, E.Mission>): map<Id, L.Mission>
    reads objects.Values
  {
    map id | id in objects :: objects[id].State()
  }

  lemma MissionRowsWith(objects: map<Id, E.Mission>, id: Id, o: E.Mission)
    ensures MissionRows(objects[id := o]) == MissionRows(objects)[id := o.State()]
  {}

  function TaskRows(objects: map<Id, E.Task>): map<Id, L.Task>
    reads objects.Values
  {
    map id | id in objects :: objects[id].State()
  }

  lemma TaskRowsWith(objects: map<Id, E.Task>, id: Id, o: E.Task)
    ensures TaskRows(objects[id := o]) == TaskRows(objects)[id := o.State()]
  {}

  function AttemptRows(objects: map<Id, E.Attempt>): map<Id, L.Attempt>
    reads objects.Values
  {
    map id | id in objects :: objects[id].State()
  }

  lemma AttemptRowsWith(objects: map<Id, E.Attempt>, id: Id, o: E.Attempt)
    ensures AttemptRows(objects[id := o]) == AttemptRows(objects)[id := o.State()]
  {}

  function OperationRows(objects: map<Id, E.Operation>): map<Id, L.Operation>
    reads objects.Values
  {
    map id | id in objects :: objects[id].State()
  }

  lemma OperationRowsWith(objects: map<Id, E.Operation>, id: Id, o: E.Operation)
    ensures OperationRows(objects[id := o]) == OperationRows(objects)[id := o.State()]
  {}

  function ApprovalRows(objects: map<Id, E.Approval>): map<Id, L.Approval>
    reads objects.Values
  {
    map id | id in objects :: objects[id].State()
  }

  lemma ApprovalRowsWith(objects: map<Id, E.Approval>, id: Id, o: E.Approval)
    ensures ApprovalRows(objects[id := o]) == ApprovalRows(objects)[id := o.State()]
  {}

  /** A method call on one mission object changes its row and no other. */
  method CallOnMission(objects: map<Id, E.Mission>, id: Id, call: MissionCall) returns (r: Result<()>)
    requires id in objects && NoSharing(objects)
    modifies objects[id]
    ensures var next := MissionAfter(old(objects[id].State()), call);
      if next.Ok? then r == Ok(()) && MissionRows(objects) == old(MissionRows(objects))[id := next.value]
      else r == Err(next.error) && MissionRows(objects) == old(MissionRows(objects))
  {
    var mission := objects[id];
    match call {
    case MarkReady => r := mission.MarkReady();
    case StartMission => r := mission.Start();
    case BeginVerification => r := mission.BeginVerification();
    case WaitForApproval => r := mission.WaitForApproval();
    case CompleteMission => r := mission.Complete();
    case FailMission => r := mission.Fail();
    case RequestCancel => r := mission.RequestCancel();
    case ConfirmCancel => r := mission.ConfirmCancel();
    }
  }

  /** A method call on one task object changes its row and no other. */
  method CallOnTask(objects: map<Id, E.Task>, id: Id, call: TaskCall) returns (r: Result<()>)
    requires id in objects && NoSharing(objects)
    modifies objects[id]
    ensures var next := TaskAfter(old(objects[id].State()), call);
      if next.Ok? then r == Ok(()) && TaskRows(objects) == old(TaskRows(objects))[id := next.value]
      else r == Err(next.error) && TaskRows(objects) == old(TaskRows(objects))
  {
    var task := objects[id];
    match call {
    case StartTask => r := task.Start();
    case SucceedTask => r := task.Succeed();
    case RetryTask => r := task.Retry();
    case FailTask => r := task.Fail();
    case CancelTask => r := task.Cancel();
    }
  }

  /** A method call on one attempt object changes its row and no other. */
  method CallOnAttempt(objects: map<Id, E.Attempt>, id: Id, call: AttemptCall) returns (r: Result<()>)
    requires id in objects && NoSharing(objects)
    modifies objects[id]
    ensures var next := AttemptAfter(old(objects[id].State()), call);
      if next.Ok? then r == Ok(()) && AttemptRows(objects) == old(AttemptRows(objects))[id := next.value]
      else r == Err(next.error) && AttemptRows(objects) == old(AttemptRows(objects))
  {
    var attempt := objects[id];
    match call {
    case Claim(worker, now, until) => r := attempt.Claim(worker, now, until);
    case Heartbeat(token, now, until) => r := attempt.Heartbeat(token, now, until);
    case SucceedAttempt(token, now) => r := attempt.Succeed(token, now);
    case FailAttempt(token, now, retryable, code) => r := attempt.Fail(token, now, retryable, code);
    case CancelAttempt(token, now) => r := attempt.Cancel(token, now);
    }
  }

  /** A method call on one operation object changes its row and no other. */
  method CallOnOperation(objects: map<Id, E.Operation>, id: Id, call: OperationCall) returns (r: Result<()>)
    requires id in objects && NoSharing(objects)
    modifies objects[id]
    ensures var next := OperationAfter(old(objects[id].State()), call);
      if next.Ok? then r == Ok(()) && OperationRows(objects) == old(OperationRows(objects))[id := next.value]
      else r == Err(next.error) && OperationRows(objects) == old(OperationRows(objects))
  {
    var operation := objects[id];
    match call {
    case Begin(now) => r := operation.Begin(now);
    case SucceedOperation(outcome, now) => r := operation.Succeed(outcome, now);
    case FailOperation(code, now) => r := operation.Fail(code, now, false);
    case RequestRecovery(now) => r := operation.RequestRecovery(now);
    }
  }

  /** A method call on one approval object changes its row and no other. */
  method CallOnApproval(objects: map<Id, E.Approval>, id: Id, call: ApprovalCall) returns (r: Result<()>)
    requires id in objects && NoSharing(objects)
    modifies objects[id]
    ensures var next := ApprovalAfter(old(objects[id].State()), call);
      if next.Ok? then r == Ok(()) && ApprovalRows(objects) == old(ApprovalRows(objects))[id := next.value]
      else r == Err(next.error)
  {
    var approval := objects[id];
    match call {
    case Approve(decider, now) => r := approval.Approve(decider, now);
    case Reject(decider, now) => r := approval.Reject(decider, now);
    }
  }

  /** The tables of frozen rows. */
  datatype Records = Records(
    keys: map<L.Key, Id>, artifacts: map<Id, Registration>, metrics: map<Id, MetricRecord>,
    claims: map<Id, Tables.Claim>, evidence: map<Id, seq<EvidenceLink>>, bundles: map<Id, Registration>,
    audits: seq<Audit>, outbox: seq<OutboxEvent>, published: map<Id, Time>)

  function DbOf(missions: map<Id, L.Mission>, tasks: map<Id, L.Task>, attempts: map<Id, L.Attempt>,
                operations: map<Id, L.Operation>, approvals: map<Id, L.Approval>, r: Records): Db
  {
    Db(missions, tasks, attempts, operations, r.keys, r.artifacts, r.metrics, r.claims, r.evidence, r.bundles,
       approvals, r.audits, r.outbox, r.published)
  }

  /** `_State`: tables of objects for the five entities, and of frozen rows for the rest. `Repr` holds
      the entity objects. */
  class State {
    var missions: map<Id, E.Mission>
    var tasks: map<Id, E.Task>
    var attempts: map<Id, E.Attempt>
    var operations: map<Id, E.Operation>
    var approvals: map<Id, E.Approval>
    var records: Records
    ghost var Repr: set<object>

    constructor (missions: map<Id, E.Mission>, tasks: map<Id, E.Task>, attempts: map<Id, E.Attempt>,
                 operations: map<Id, E.Operation>, approvals: map<Id, E.Approval>, records: Records,
                 ghost repr: set<object>)
      requires NoSharing(missions) && NoSharing(tasks) && NoSharing(attempts) && NoSharing(operations)
      requires NoSharing(approvals)
      requires (forall id <- missions :: missions[id] in repr) && (forall id <- tasks :: tasks[id] in repr)
      requires (forall id <- attempts :: attempts[id] in repr) && (forall id <- operations :: operations[id] in repr)
      requires forall id <- approvals :: approvals[id] in repr
      ensures Valid() && Repr == repr
      ensures View() == DbOf(MissionRows(missions), TaskRows(tasks), AttemptRows(attempts), OperationRows(operations),
                             ApprovalRows(approvals), records)
    {
      this.missions, this.tasks, this.attempts := missions, tasks, attempts;
      this.operations, this.approvals, this.records := operations, approvals, records;
      Repr := repr;
      new;
      hide MissionRows, TaskRows, AttemptRows, OperationRows, ApprovalRows, NoSharing, DbOf;
    }

    ghost predicate Holds()
      reads this
    {
      && (forall id <- missions :: missions[id] in Repr) && (forall id <- tasks :: tasks[id] in Repr)
      && (forall id <- attempts :: attempts[id] in Repr) && (forall id <- operations :: operations[id] in Repr)
      && (forall id <- approvals :: approvals[id] in Repr)
    }

    ghost predicate Valid()
      reads this
    {
      && Holds() && this !in Repr
      && NoSharing(missions) && NoSharing(tasks) && NoSharing(attempts) && NoSharing(operations) && NoSharing(approvals)
    }

    ghost function View(): Db
      requires Valid()
      reads this, Repr
    {
      DbOf(MissionRows(missions), TaskRows(tasks), AttemptRows(attempts), OperationRows(operations),
           ApprovalRows(approvals), records)
    }

    /** A method call on one mission object changes its row and nothing else. */
    method CallMission(id: Id, call: MissionCall) returns (r: Result<()>)
      requires Valid() && id in missions
      modifies missions[id]
      ensures Valid() && missions[id].State() == View().missions[id]
      ensures var next := MissionAfter(old(View()).missions[id], call);
        if next.Ok? then r == Ok(()) && View() == old(View()).(missions := old(View()).missions[id := next.value])
        else r == Err(next.error) && View() == old(View())
    {
      hide MissionAfter, NoSharing, TaskRows, AttemptRows, OperationRows, ApprovalRows;
      r := CallOnMission(missions, id, call);
    }

    /** A method call on one task object changes its row and nothing else. */
    method CallTask(id: Id, call: TaskCall) returns (r: Result<()>)
      requires Valid() && id in tasks
      modifies tasks[id]
      ensures Valid() && tasks[id].State() == View().tasks[id]
      ensures var next := TaskAfter(old(View()).tasks[id], call);
        if next.Ok? then r == Ok(()) && View() == old(View()).(tasks := old(View()).tasks[id := next.value])
        else r == Err(next.error) && View() == old(View())
    {
      hide TaskAfter, NoSharing, MissionRows, AttemptRows, OperationRows, ApprovalRows;
      r := CallOnTask(tasks, id, call);
    }

    /** A method call on one attempt object changes its row and nothing else. */
    method CallAttempt(id: Id, call: AttemptCall) returns (r: Result<()>)
      requires Valid() && id in attempts
      modifies attempts[id]
      ensures Valid() && attempts[id].State() == View().attempts[id]
      ensures var next := AttemptAfter(old(View()).attempts[id], call);
        if next.Ok? then r == Ok(()) && View() == old(View()).(attempts := old(View()).attempts[id := next.value])
        else r == Err(next.error) && View() == old(View())
    {
      hide AttemptAfter, NoSharing, MissionRows, TaskRows, OperationRows, ApprovalRows;
      r := CallOnAttempt(attempts, id, call);
    }

    /** A method call on one operation object changes its row and nothing else. */
    method CallOperation(id: Id, call: OperationCall) returns (r: Result<()>)
      requires Valid() && id in operations
      modifies operations[id]
      ensures Valid() && operations[id].State() == View().operations[id]
      ensures var next := OperationAfter(old(View()).operations[id], call);
        if next.Ok? then r == Ok(()) && View() == old(View()).(operations := old(View()).operations[id := next.value])
        else r == Err(next.error) && View() == old(View())
    {
      hide OperationAfter, NoSharing, MissionRows, TaskRows, AttemptRows, ApprovalRows;
      r := CallOnOperation(operations, id, call);
    }

    /** A method call on one approval object changes its row and nothing else. */
    method CallApproval(id: Id, call: ApprovalCall) returns (r: Result<()>)
      requires Valid() && id in approvals
      modifies approvals[id]
      ensures Valid() && approvals[id].State() == View().approvals[id]
      ensures var next := ApprovalAfter(old(View()).approvals[id], call);
        if next.Ok? then r == Ok(()) && View() == old(View()).(approvals := old(View()).approvals[id := next.value])
        else r == Err(next.error)
    {
      hide ApprovalAfter, NoSharing, MissionRows, TaskRows, AttemptRows, OperationRows;
      r := CallOnApproval(approvals, id, call);
    }

    /** `get_mission`: the caller gets the object itself. */
    method GetMission(id: Id) returns (o: E.Mission?)
      requires Valid()
      ensures o == null <==> id !in View().missions
      ensures o != null ==> id in missions && o == missions[id] && o in Repr && o.State() == View().missions[id]
    {
      hide NoSharing;
      return if id in missions then missions[id] else null;
    }

    /** `get_task`: the caller gets the object itself. */
    method GetTask(id: Id) returns (o: E.Task?)
      requires Valid()
      ensures o == null <==> id !in View().tasks
      ensures o != null ==> id in tasks && o == tasks[id] && o in Repr && o.State() == View().tasks[id]
    {
      hide NoSharing;
      return if id in tasks then tasks[id] else null;
    }

    /** `get_attempt`: the caller gets the object itself. */
    method GetAttempt(id: Id) returns (o: E.Attempt?)
      requires Valid()
      ensures o == null <==> id !in View().attempts
      ensures o != null ==> id in attempts && o == attempts[id] && o in Repr && o.State() == View().attempts[id]
    {
      hide NoSharing;
      return if id in attempts then attempts[id] else null;
    }

    /** `get_operation`: the caller gets the object itself. */
    method GetOperation(id: Id) returns (o: E.Operation?)
      requires Valid()
      ensures o == null <==> id !in View().operations
      ensures o != null ==> id in operations && o == operations[id] && o in Repr && o.State() == View().operations[id]
    {
      hide NoSharing;
      return if id in operations then operations[id] else null;
    }

    /** `get_approval`: the caller gets the object itself. */
    method GetApproval(id: Id) returns (o: E.Approval?)
      requires Valid()
      ensures o == null <==> id !in View().approvals
      ensures o != null ==> id in approvals && o == approvals[id] && o in Repr && o.State() == View().approvals[id]
    {
      hide NoSharing;
      return if id in approvals then approvals[id] else null;
    }

    /** `add_mission`: the object itself goes into the table. */
    method AddMission(id: Id, mission: E.Mission)
      requires Valid() && mission !in Repr
      modifies this`missions, this`Repr
      ensures Valid() && Repr == old(Repr) + {mission}
      ensures View() == old(View()).(missions := old(View()).missions[id := mission.State()])
    {
      hide MissionRows, TaskRows, AttemptRows, OperationRows, ApprovalRows, NoSharing;
      MissionRowsWith(missions, id, mission);
      NoSharingWith(missions, id, mission);
      missions, Repr := missions[id := mission], Repr + {mission};
    }

    /** `add_task`: the object itself goes into the table. */
    method AddTask(id: Id, task: E.Task)
      requires Valid() && task !in Repr
      modifies this`tasks, this`Repr
      ensures Valid() && Repr == old(Repr) + {task}
      ensures View() == old(View()).(tasks := old(View()).tasks[id := task.State()])
    {
      hide MissionRows, TaskRows, AttemptRows, OperationRows, ApprovalRows, NoSharing;
      TaskRowsWith(tasks, id, task);
      NoSharingWith(tasks, id, task);
      tasks, Repr := tasks[id := task], Repr + {task};
    }

    /** `add_attempt`: the object itself goes into the table. */
    method AddAttempt(id: Id, attempt: E.Attempt)
      requires Valid() && attempt !in Repr
      modifies this`attempts, this`Repr
      ensures Valid() && Repr == old(Repr) + {attempt}
      ensures View() == old(View()).(attempts := old(View()).attempts[id := attempt.State()])
    {
      hide MissionRows, TaskRows, AttemptRows, OperationRows, ApprovalRows, NoSharing;
      AttemptRowsWith(attempts, id, attempt);
      NoSharingWith(attempts, id, attempt);
      attempts, Repr := attempts[id := attempt], Repr + {attempt};
    }

    /** The object itself goes into the table. */
    method StoreApproval(id: Id, approval: E.Approval)
      requires Valid() && approval !in Repr
      modifies this`approvals, this`Repr
      ensures Valid() && Repr == old(Repr) + {approval}
      ensures View() == old(View()).(approvals := old(View()).approvals[id := approval.State()])
    {
      hide MissionRows, TaskRows, AttemptRows, OperationRows, ApprovalRows, NoSharing;
      ApprovalRowsWith(approvals, id, approval);
      NoSharingWith(approvals, id, approval);
      approvals, Repr := approvals[id := approval], Repr + {approval};
    }

    method StoreOperation(id: Id, operation: E.Operation)
      requires Valid() && operation !in Repr
      modifies this`operations, this`records, this`Repr
      ensures Valid() && Repr == old(Repr) + {operation}
      ensures View() == old(View()).(operations := old(View()).operations[id := operation.State()],
                                     keys := old(View()).keys[operation.key := id])
    {
      hide MissionRows, TaskRows, AttemptRows, OperationRows, ApprovalRows, NoSharing;
      OperationRowsWith(operations, id, operation);
      NoSharingWith(operations, id, operation);
      operations, Repr := operations[id := operation], Repr + {operation};
      records := records.(keys := records.keys[operation.key := id]);
    }

    /** `add_operation`: a key of another operation is refused. */
    method AddOperation(id: Id, operation: E.Operation) returns (r: Result<()>)
      requires Valid() && operation !in Repr
      modifies this`operations, this`records, this`Repr
      ensures Valid() && Repr <= old(Repr) + {operation}
      ensures r == if operation.key in old(View()).keys
          && old(View()).keys[operation.key] != id then Err(Refused) else Ok(())
      ensures View() == if r.Err? then old(View()) else old(View()).(
        operations := old(View()).operations[id := operation.State()], keys := old(View()).keys[operation.key := id])
    {
      hide Holds, MissionRows, TaskRows, AttemptRows, OperationRows, ApprovalRows, NoSharing;
      if operation.key in records.keys && records.keys[operation.key] != id { return Err(Refused); }
      StoreOperation(id, operation);
      return Ok(());
    }

    /** `add_approval`: another approval under the same id is refused. */
    method AddApproval(id: Id, approval: E.Approval) returns (r: Result<()>)
      requires Valid() && approval !in Repr
      modifies this`approvals, this`Repr
      ensures Valid() && Repr <= old(Repr) + {approval}
      ensures var next := Once(old(View()).approvals, id, approval.State());
        if next.Ok? then r == Ok(()) && View() == old(View()).(approvals := next.value)
        else r == Err(next.error) && View() == old(View())
    {
      hide Holds, View, NoSharing;
      var existing := GetApproval(id);
      if existing != null && existing.State() != approval.State() { return Err(Refused); }
      StoreApproval(id, approval);
      return Ok(());
    }

    /** `get_operation_by_idempotency_key`, with the id that the object carries in the code. */
    method GetOperationByKey(key: L.Key) returns (id: Id, o: E.Operation?)
      requires Valid()
      ensures o == null <==> !(key in View().keys && View().keys[key] in View().operations)
      ensures o != null ==> id == View().keys[key] && id in operations && o == operations[id] && o in Repr
      ensures o != null ==> o.State() == View().operations[id]
    {
      hide NoSharing;
      if key !in records.keys { return 0, null; }
      id := records.keys[key];
      o := if id in operations then operations[id] else null;
    }

    /** The frozen records. */
    method Read() returns (r: Records)
      requires Valid()
      ensures r.artifacts == View().artifacts && r.metrics == View().metrics && r.claims == View().claims
    {
      hide MissionRows, TaskRows, AttemptRows, OperationRows, ApprovalRows, NoSharing;
      return records;
    }

    /** Whether a mission has a task of this type. */
    method AnyTask(mission: Id, kind: L.TaskType) returns (found: bool)
      requires Valid()
      ensures var rows := View().tasks;
        found <==> exists t :: t in rows && rows[t].mission == mission && rows[t].kind == kind
    {
      hide NoSharing;
      found := exists t :: t in tasks && tasks[t].mission == mission && tasks[t].kind == kind;
      if found {
        var t :| t in tasks && tasks[t].mission == mission && tasks[t].kind == kind;
        assert View().tasks[t] == tasks[t].State();
      }
    }

    /** `get_stale_operations`. */
    method GetStaleOperations(before: Time, limit: int) returns (r: Result<seq<Id>>)
      requires Valid()
      ensures r == if limit <= 0 then Err(Refused)
        else Ok(OldestFirst(View().operations, StaleIds(View().operations, before), limit))
    {
      if limit <= 0 { return Err(Refused); }
      var rows := OperationRows(operations);
      return Ok(OldestFirst(rows, StaleIds(rows, before), limit));
    }

    method AddArtifact(id: Id, registration: Registration) returns (r: Result<()>)
      requires Valid()
      modifies this`records
      ensures Valid()
      ensures var next := Once(old(View()).artifacts, id, registration);
        if next.Ok? then r == Ok(()) && View() == old(View()).(artifacts := next.value)
        else r == Err(next.error) && View() == old(View())
    {
      hide MissionRows, TaskRows, AttemptRows, OperationRows, ApprovalRows, NoSharing;
      if id in records.artifacts && records.artifacts[id] != registration { return Err(Refused); }
      records := records.(artifacts := records.artifacts[id := registration]);
      return Ok(());
    }

    method AddMetric(id: Id, metric: MetricRecord) returns (r: Result<()>)
      requires Valid()
      modifies this`records
      ensures Valid()
      ensures var next := Once(old(View()).metrics, id, metric);
        if next.Ok? then r == Ok(()) && View() == old(View()).(metrics := next.value)
        else r == Err(next.error) && View() == old(View())
    {
      hide MissionRows, TaskRows, AttemptRows, OperationRows, ApprovalRows, NoSharing;
      if id in records.metrics && records.metrics[id] != metric { return Err(Refused); }
      records := records.(metrics := records.metrics[id := metric]);
      return Ok(());
    }

    method AddClaim(id: Id, claim: Tables.Claim) returns (r: Result<()>)
      requires Valid()
      modifies this`records
      ensures Valid()
      ensures var next := Once(old(View()).claims, id, claim);
        if next.Ok? then r == Ok(()) && View() == old(View()).(claims := next.value)
        else r == Err(next.error) && View() == old(View())
    {
      hide MissionRows, TaskRows, AttemptRows, OperationRows, ApprovalRows, NoSharing;
      if id in records.claims && records.claims[id] != claim { return Err(Refused); }
      records := records.(claims := records.claims[id := claim]);
      return Ok(());
    }

    method AddBundle(id: Id, bundle: Registration) returns (r: Result<()>)
      requires Valid()
      modifies this`records
      ensures Valid()
      ensures var next := Once(old(View()).bundles, id, bundle);
        if next.Ok? then r == Ok(()) && View() == old(View()).(bundles := next.value)
        else r == Err(next.error) && View() == old(View())
    {
      hide MissionRows, TaskRows, AttemptRows, OperationRows, ApprovalRows, NoSharing;
      if id in records.bundles && records.bundles[id] != bundle { return Err(Refused); }
      records := records.(bundles := records.bundles[id := bundle]);
      return Ok(());
    }

    method AddEvidenceLink(link: EvidenceLink)
      requires Valid()
      modifies this`records
      ensures Valid()
      ensures var links := EvidenceOf(old(View()), link.claim);
        View() == old(View()).(
          evidence := old(View()).evidence[link.claim := if link in links then links else links + [link]])
    {
      hide MissionRows, TaskRows, AttemptRows, OperationRows, ApprovalRows, NoSharing;
      var links := if link.claim in records.evidence then records.evidence[link.claim] else [];
      records := records.(
        evidence := records.evidence[link.claim := if link in links then links else links + [link]]);
    }

    method AddAuditEvent(audit: Audit)
      requires Valid()
      modifies this`records
      ensures Valid() && View() == old(View()).(audits := old(View()).audits + [audit])
    {
      hide MissionRows, TaskRows, AttemptRows, OperationRows, ApprovalRows, NoSharing;
      records := records.(audits := records.audits + [audit]);
    }

    method AddOutboxEvent(event: OutboxEvent)
      requires Valid()
      modifies this`records
      ensures Valid() && View() == old(View()).(outbox := old(View()).outbox + [event])
    {
      hide MissionRows, TaskRows, AttemptRows, OperationRows, ApprovalRows, NoSharing;
      records := records.(outbox := records.outbox + [event]);
    }

    method MarkOutboxEventPublished(id: Id, at: Time) returns (r: Result<()>)
      requires Valid()
      modifies this`records
      ensures Valid()
      ensures r == if exists e <- old(View()).outbox :: e.id == id then Ok(()) else Err(Refused)
      ensures View() == if r.Err? || id in old(View()).published then old(View())
        else old(View()).(published := old(View()).published[id := at])
    {
      hide MissionRows, TaskRows, AttemptRows, OperationRows, ApprovalRows, NoSharing, MissionAfter, TaskAfter;
      hide AttemptAfter, OperationAfter, ApprovalAfter, EvidenceOf;
      if !exists e <- records.outbox :: e.id == id { return Err(Refused); }
      if id !in records.published { records := records.(published := records.published[id := at]); }
      return Ok(());
    }

    /** A method call on any entity. */
    method DoCall(action: Action) returns (r: Result<()>)
      requires Valid() && IsCall(action)
      modifies Repr
      ensures Valid() && Repr == old(Repr)
      ensures var next := ActOnEntity(old(View()), action);
        if next.Ok? then r == Ok(()) && View() == next.value else r == Err(next.error)
    {
      hide MissionAfter, TaskAfter, AttemptAfter, OperationAfter, ApprovalAfter, MissionRows, TaskRows, AttemptRows;
      hide OperationRows, ApprovalRows, NoSharing;
      match action
      case OnMission(id, call) =>
        var o := GetMission(id);
        if o == null { return Err(NotFound); }
        r := CallMission(id, call);
      case OnTask(id, call) =>
        var o := GetTask(id);
        if o == null { return Err(NotFound); }
        r := CallTask(id, call);
      case OnAttempt(id, call) =>
        var o := GetAttempt(id);
        if o == null { return Err(NotFound); }
        r := CallAttempt(id, call);
      case OnOperation(id, call) =>
        var o := GetOperation(id);
        if o == null { return Err(NotFound); }
        r := CallOperation(id, call);
      case OnApproval(id, call) =>
        var o := GetApproval(id);
        if o == null { return Err(NotFound); }
        r := CallApproval(id, call);
    }

    method NewMission(id: Id, row: L.Mission)
      requires Valid()
      modifies this
      ensures Valid() && fresh(Repr - old(Repr))
      ensures View() == old(View()).(missions := old(View()).missions[id := row])
    {
      hide View, Valid;
      var mission := new E.Mission(row);
      AddMission(id, mission);
    }

    method NewTask(id: Id, row: L.Task)
      requires Valid()
      modifies this
      ensures Valid() && fresh(Repr - old(Repr))
      ensures View() == old(View()).(tasks := old(View()).tasks[id := row])
    {
      hide View, Valid;
      var task := new E.Task(row);
      AddTask(id, task);
    }

    method NewAttempt(id: Id, row: L.Attempt)
      requires Valid()
      modifies this
      ensures Valid() && fresh(Repr - old(Repr))
      ensures View() == old(View()).(attempts := old(View()).attempts[id := row])
    {
      hide View, Valid;
      var attempt := new E.Attempt(row);
      AddAttempt(id, attempt);
    }

    method NewOperation(id: Id, row: L.Operation) returns (r: Result<()>)
      requires Valid()
      modifies this
      ensures Valid() && fresh(Repr - old(Repr))
      ensures var next := ActNewEntity(old(View()), Action.AddOperation(id, row));
        if next.Ok? then r == Ok(()) && View() == next.value else r == Err(next.error) && View() == old(View())
    {
      hide View, Valid;
      var operation := new E.Operation(row);
      assert operation.key == operation.State().key;
      r := AddOperation(id, operation);
    }

    method NewApproval(id: Id, row: L.Approval) returns (r: Result<()>)
      requires Valid()
      modifies this
      ensures Valid() && fresh(Repr - old(Repr))
      ensures var next := ActNewEntity(old(View()), Action.AddApproval(id, row));
        if next.Ok? then r == Ok(()) && View() == next.value else r == Err(next.error) && View() == old(View())
    {
      hide View, Valid;
      var approval := new E.Approval(row);
      r := AddApproval(id, approval);
    }

    /** A new entity, built from its row. */
    method DoNewEntity(action: Action) returns (r: Result<()>)
      requires Valid() && IsNewEntity(action)
      modifies this
      ensures Valid() && fresh(Repr - old(Repr))
      ensures var next := ActNewEntity(old(View()), action);
        if next.Ok? then r == Ok(()) && View() == next.value else r == Err(next.error)
    {
      hide View, Valid;
      r := Ok(());
      match action
      case AddMission(id, row) => NewMission(id, row);
      case AddTask(id, row) => NewTask(id, row);
      case AddAttempt(id, row) => NewAttempt(id, row);
      case AddOperation(id, row) => r := NewOperation(id, row);
      case AddApproval(id, row) => r := NewApproval(id, row);
    }

    method DoRecord(action: Action) returns (r: Result<()>)
      requires Valid() && !IsCall(action) && !IsNewEntity(action)
      modifies this`records
      ensures Valid()
      ensures var next := ActOnRecord(old(View()), action);
        if next.Ok? then r == Ok(()) && View() == next.value else r == Err(next.error)
    {
      hide View, Valid;
      match action {
        case AddArtifact(id, registration) => r := AddArtifact(id, registration);
        case AddMetric(id, metric) => r := AddMetric(id, metric);
        case AddClaim(id, claim) => r := AddClaim(id, claim);
        case AddLink(link) =>
          AddEvidenceLink(link);
          r := Ok(());
        case AddBundle(id, bundle) => r := AddBundle(id, bundle);
        case AddAudit(audit) =>
          AddAuditEvent(audit);
          r := Ok(());
        case AddEvent(event) =>
          AddOutboxEvent(event);
          r := Ok(());
        case MarkEvent(id, at) => r := MarkOutboxEventPublished(id, at);
      }
    }

    /** Any one action. */
    method Do(action: Action) returns (r: Result<()>)
      requires Valid()
      modifies this, Repr
      ensures Valid() && fresh(Repr - old(Repr))
      ensures var next := Act(old(View()), action);
        if next.Ok? then r == Ok(()) && View() == next.value else r == Err(next.error)
    {
      hide View, Valid, ActOnEntity, ActNewEntity, ActOnRecord;
      if IsCall(action) {
        r := DoCall(action);
      } else if IsNewEntity(action) {
        r := DoNewEntity(action);
      } else {
        r := DoRecord(action);
      }
    }
  }

  // ---------------------------------------------------------------- the deep copy

  method MissionCopies(objects: map<Id, E.Mission>) returns (copies: map<Id, E.Mission>, ghost made: set<object>)
    ensures fresh(made) && NoSharing(copies) && (forall id <- copies :: copies[id] in made)
    ensures MissionRows(copies) == MissionRows(objects)
  {
    copies, made := map[], {};
    var todo := objects.Keys;
    while todo != {}
      invariant todo <= objects.Keys && copies.Keys == objects.Keys - todo
      invariant NoSharing(copies) && fresh(made)
      invariant forall id <- copies :: copies[id] in made && copies[id].State() == objects[id].State()
      decreases |todo|
    {
      var id :| id in todo;
      var copy := new E.Mission(objects[id].State());
      copies, made := copies[id := copy], made + {copy};
      todo := todo - {id};
    }
  }

  method TaskCopies(objects: map<Id, E.Task>) returns (copies: map<Id, E.Task>, ghost made: set<object>)
    ensures fresh(made) && NoSharing(copies) && (forall id <- copies :: copies[id] in made)
    ensures TaskRows(copies) == TaskRows(objects)
  {
    copies, made := map[], {};
    var todo := objects.Keys;
    while todo != {}
      invariant todo <= objects.Keys && copies.Keys == objects.Keys - todo
      invariant NoSharing(copies) && fresh(made)
      invariant forall id <- copies :: copies[id] in made && copies[id].State() == objects[id].State()
      decreases |todo|
    {
      var id :| id in todo;
      var copy := new E.Task(objects[id].State());
      copies, made := copies[id := copy], made + {copy};
      todo := todo - {id};
    }
  }

  method AttemptCopies(objects: map<Id, E.Attempt>) returns (copies: map<Id, E.Attempt>, ghost made: set<object>)
    ensures fresh(made) && NoSharing(copies) && (forall id <- copies :: copies[id] in made)
    ensures AttemptRows(copies) == AttemptRows(objects)
  {
    copies, made := map[], {};
    var todo := objects.Keys;
    while todo != {}
      invariant todo <= objects.Keys && copies.Keys == objects.Keys - todo
      invariant NoSharing(copies) && fresh(made)
      invariant forall id <- copies :: copies[id] in made && copies[id].State() == objects[id].State()
      decreases |todo|
    {
      var id :| id in todo;
      var copy := new E.Attempt(objects[id].State());
      copies, made := copies[id := copy], made + {copy};
      todo := todo - {id};
    }
  }

  method OperationCopies(objects: map<Id, E.Operation>) returns (copies: map<Id, E.Operation>, ghost made: set<object>)
    ensures fresh(made) && NoSharing(copies) && (forall id <- copies :: copies[id] in made)
    ensures OperationRows(copies) == OperationRows(objects)
  {
    copies, made := map[], {};
    var todo := objects.Keys;
    while todo != {}
      invariant todo <= objects.Keys && copies.Keys == objects.Keys - todo
      invariant NoSharing(copies) && fresh(made)
      invariant forall id <- copies :: copies[id] in made && copies[id].State() == objects[id].State()
      decreases |todo|
    {
      var id :| id in todo;
      var copy := new E.Operation(objects[id].State());
      copies, made := copies[id := copy], made + {copy};
      todo := todo - {id};
    }
  }

  method ApprovalCopies(objects: map<Id, E.Approval>) returns (copies: map<Id, E.Approval>, ghost made: set<object>)
    ensures fresh(made) && NoSharing(copies) && (forall id <- copies :: copies[id] in made)
    ensures ApprovalRows(copies) == ApprovalRows(objects)
  {
    copies, made := map[], {};
    var todo := objects.Keys;
    while todo != {}
      invariant todo <= objects.Keys && copies.Keys == objects.Keys - todo
      invariant NoSharing(copies) && fresh(made)
      invariant forall id <- copies :: copies[id] in made && copies[id].State() == objects[id].State()
      decreases |todo|
    {
      var id :| id in todo;
      var copy := new E.Approval(objects[id].State());
      copies, made := copies[id := copy], made + {copy};
      todo := todo - {id};
    }
  }

  method WorkCopies(s: State)
    returns (missions: map<Id, E.Mission>, tasks: map<Id, E.Task>, attempts: map<Id, E.Attempt>,
             ghost made: set<object>)
    ensures fresh(made) && NoSharing(missions) && NoSharing(tasks) && NoSharing(attempts)
    ensures (forall id <- missions :: missions[id] in made) && (forall id <- tasks :: tasks[id] in made)
    ensures forall id <- attempts :: attempts[id] in made
    ensures MissionRows(missions) == MissionRows(s.missions) && TaskRows(tasks) == TaskRows(s.tasks)
    ensures AttemptRows(attempts) == AttemptRows(s.attempts)
  {
    hide MissionRows, TaskRows, AttemptRows, OperationRows, ApprovalRows, NoSharing;
    ghost var m, t, a;
    missions, m := MissionCopies(s.missions);
    tasks, t := TaskCopies(s.tasks);
    attempts, a := AttemptCopies(s.attempts);
    made := m + t + a;
  }

  /** `deepcopy` of all tables: a new object for every old one. */
  method DeepCopy(s: State) returns (copy: State)
    requires s.Valid()
    ensures copy.Valid() && fresh(copy) && fresh(copy.Repr) && copy.View() == s.View()
  {
    hide MissionRows, TaskRows, AttemptRows, OperationRows, ApprovalRows, NoSharing, State.Holds, DbOf;
    var missions, tasks, attempts, made := WorkCopies(s);
    var operations, o := OperationCopies(s.operations);
    var approvals, p := ApprovalCopies(s.approvals);
    copy := new State(missions, tasks, attempts, operations, approvals, s.records, made + o + p);
  }

  // ---------------------------------------------------------------- the unit of work

  class InMemoryUnitOfWork {
    var state: State
    var working: State?

    ghost predicate Valid()
      reads this, state, working
    {
      && state.Valid() && this !in state.Repr
      && (working != null ==>
            && working.Valid() && working != state && state.Repr !! working.Repr
            && state !in working.Repr && this !in working.Repr && working !in state.Repr)
    }

    ghost function Committed(): Db
      requires Valid()
      reads this, state, working, state.Repr
    {
      state.View()
    }

    constructor ()
      ensures Valid() && working == null && Committed() == EmptyDb && fresh(state) && fresh(state.Repr)
    {
      state := new State(map[], map[], map[], map[], map[],
                         Records(map[], map[], map[], map[], map[], map[], [], [], map[]), {});
      working := null;
    }

    /** `__enter__`: everything is copied, objects included. */
    method Enter() returns (r: Result<()>)
      requires Valid()
      modifies this
      ensures Valid() && state == old(state) && Committed() == old(Committed())
      ensures r.Ok? <==> old(working) == null
      ensures r.Err? ==> working == old(working)
      ensures r.Ok? ==> working != null && fresh(working) && fresh(working.Repr) && working.View() == Committed()
    {
      hide State.View, State.Valid;
      if working != null { return Err(Refused); }
      working := DeepCopy(state);
      return Ok(());
    }

    /** `commit`: the working tables become the committed ones. */
    method Commit() returns (r: Result<()>)
      requires Valid()
      modifies this
      ensures Valid() && working == null && (r.Ok? <==> old(working) != null)
      ensures r.Ok? ==> state == old(working) && Committed() == old(working.View())
      ensures r.Err? ==> state == old(state) && Committed() == old(Committed())
    {
      hide State.View, State.Valid;
      if working == null { return Err(Refused); }
      state := working;
      working := null;
      return Ok(());
    }

    method Rollback()
      requires Valid()
      modifies this
      ensures Valid() && working == null && state == old(state) && Committed() == old(Committed())
    {
      hide State.View, State.Valid;
      working := null;
    }

    /** `__exit__`: a context that ends by an exception, or without a commit, is rolled back; the
        latter raises. */
    method Exit(raised: bool) returns (r: Result<()>)
      requires Valid()
      modifies this
      ensures Valid() && working == null && state == old(state) && Committed() == old(Committed())
      ensures r.Err? <==> raised || old(working) != null
    {
      hide State.View, State.Valid;
      if raised {
        Rollback();
        return Err(Refused);
      }
      if working != null {
        Rollback();
        return Err(Refused);
      }
      return Ok(());
    }

    /** How every use case begins ... */
    method Open()
      requires Valid() && working == null
      modifies this
      ensures Valid() && state == old(state) && Committed() == old(Committed())
      ensures working != null && fresh(working) && fresh(working.Repr) && working.View() == Committed()
    {
      hide State.View, State.Valid;
      var entered := Enter();
    }

    /** ... and ends: with a commit, or by the exception that was raised. */
    method Close(raised: bool)
      requires Valid() && working != null
      modifies this
      ensures Valid() && working == null
      ensures if raised then state == old(state) && Committed() == old(Committed())
        else Committed() == old(working.View())
    {
      hide State.View, State.Valid;
      if !raised { var committed := Commit(); }
      var left := Exit(raised);
    }

    /** A whole context. The committed tables become what the script made of them if it ran to its end
        and committed; in every other case, an exception half-way included, they are untouched. */
    method Within(script: seq<Action>, ending: Ending) returns (r: Result<()>)
      requires Valid() && working == null
      modifies this
      ensures Valid() && working == null
      ensures var end := ActAll(old(Committed()), script);
        if end.Ok? && ending == Committing then r.Ok? && Committed() == end.value
        else r.Err? && Committed() == old(Committed()) && state == old(state)
    {
      hide Act, State.Valid, State.View;
      var entered := Enter();
      ghost var begin := working.View();
      var n := 0;
      while n < |script|
        invariant Valid() && working != null && n <= |script| && state == old(state) && Committed() == old(Committed())
        invariant fresh(working) && fresh(working.Repr)
        invariant ActAll(working.View(), script[n..]) == ActAll(begin, script)
      {
        var done := working.Do(script[n]);
        if done.Err? {
          r := Exit(true);
          return;
        }
        assert script[n..][1..] == script[n + 1..];
        n := n + 1;
      }
      assert script[n..] == [];
      match ending
      case Committing =>
        var committed := Commit();
        r := Exit(false);
      case Forgetting => r := Exit(false);
      case Raising => r := Exit(true);
    }

    /** `_read`: outside a context a caller is handed the committed state. */
    method Read() returns (s: State)
      requires Valid()
      ensures s == if working != null then working else state
    {
      return if working != null then working else state;
    }

    /** `_write`: outside a context it raises. */
    method Write() returns (r: Result<State>)
      requires Valid()
      ensures r == if working != null then Ok(working) else Err(Refused)
    {
      return if working != null then Ok(working) else Err(Refused);
    }

    /** The limit of the isolation: an object of any entity that was fetched outside a context is the
        committed one, and a method call on it lands in the committed tables without a transaction. */
    method CallOutside(action: Action) returns (r: Result<()>)
      requires Valid() && working == null && IsCall(action) && Act(Committed(), action).Ok?
      modifies state.Repr
      ensures Valid() && working == null && state == old(state)
      ensures Act(old(Committed()), action) == Ok(Committed())
    {
      hide ActOnEntity, State.View, State.Valid;
      var s := Read();
      r := s.DoCall(action);
    }

    /** So is an object that was fetched in a context and kept past its commit. */
    method CallAfterCommit(action: Action) returns (r: Result<()>)
      requires Valid() && working != null && IsCall(action) && Act(working.View(), action).Ok?
      modifies this, working.Repr
      ensures Valid() && working == null && state == old(working)
      ensures Act(old(working.View()), action) == Ok(Committed())
    {
      hide Act, State.View, State.Valid;
      var committed := Commit();
      r := CallOutside(action);
    }
  }
}
