/** Every transaction of the Forge use cases, as a function from the committed tables to the
    next committed tables. `Err` is an exception that leaves the unit of work: it rolls back,
    so the tables stay as they were. Fresh identifiers and the clock reading are arguments. */
module Transactions {
  import opened Basics
  import opened Content
  import opened JsonPointer
  import opened Lifecycle
  import opened Tables

  /** The durations given to the use cases; their constructors refuse values that are not positive. */
  datatype Config = Config(lease: Time, approvalTtl: Time, staleAfter: Time) {
    predicate Valid() { lease > 0 && approvalTtl > 0 && staleAfter > 0 }
  }

  /** The JSON document that a byte string is the UTF-8 text of, if it is one. Which byte strings are
      documents is left open: everything holds for any answer. */
  const JsonOf: Bytes -> Option<Json>

  /** `extract_and_validate_metric`. */
  function ValidateMetric(payload: Bytes, e: Expectation): Result<Validation> {
    ExtractAndValidate(JsonOf(payload), e)
  }

  /** What the sandbox broker reports; `log` is stdout, a newline and stderr. */
  datatype SandboxResult = SandboxResult(
    operation: Id, execution: string, exitCode: int, log: Bytes, files: map<string, Bytes>,
    environment: string, dataset: string)

  /** An attempt with the task and the mission it belongs to. */
  datatype Context = Context(attempt: Attempt, task: Task, mission: Mission) {
    function MissionId(): Id { task.mission }
  }

  function Load(db: Db, attempt: Id): Result<Context> {
    if attempt !in db.attempts then Err(NotFound)
    else if db.attempts[attempt].task !in db.tasks then Err(NotFound)
    else
      var task := db.tasks[db.attempts[attempt].task];
      if task.mission !in db.missions then Err(NotFound)
      else Ok(Context(db.attempts[attempt], task, db.missions[task.mission]))
  }

  function OperationFor(db: Db, key: Key): Option<Operation> {
    if key in db.keys && db.keys[key] in db.operations then Some(db.operations[db.keys[key]]) else None
  }

  function AddOperation(db: Db, id: Id, operation: Operation): Db {
    db.(operations := db.operations[id := operation], keys := db.keys[operation.key := id])
  }

  // ---------------------------------------------------------------- missions and leases

  function CreateMission(db: Db, now: Time, mission: Id, task: Id, attempt: Id, event: Id,
                         spec: Spec, proposal: Option<Id>): Result<Db>
  {
    var draft := Mission(spec, now, proposal, MissionStatus.Draft, 0);
    var ready :- draft.MarkReady();
    Ok(db.(missions := db.missions[mission := ready],
           tasks := db.tasks[task := Task(mission, BaselineReproduction, now, TaskStatus.Pending, 0)],
           attempts := db.attempts[attempt := NewAttempt(task, 1, now, None)],
           audits := db.audits + [Audit(mission, MissionCreated, now)],
           outbox := db.outbox + [OutboxEvent(event, BaselineReady, attempt, now)]))
  }

  function ClaimAttempt(db: Db, cfg: Config, now: Time, attempt: Id, owner: Id): Result<(Db, Token)> {
    var c :- Load(db, attempt);
    var mission :- if c.mission.status == MissionStatus.Ready then c.mission.Start() else Ok(c.mission);
    var claimed :- c.attempt.Claim(owner, now, now + cfg.lease);
    var task :- if c.task.status != TaskStatus.Running then c.task.Start() else Ok(c.task);
    Ok((db.(missions := db.missions[c.task.mission := mission],
            tasks := db.tasks[c.attempt.task := task],
            attempts := db.attempts[attempt := claimed],
            audits := db.audits + [Audit(attempt, AttemptClaimed, now)]),
        Token(attempt, owner, claimed.epoch, claimed.version)))
  }

  function RenewLease(db: Db, cfg: Config, now: Time, token: Token): Result<(Db, Token)> {
    if token.attempt !in db.attempts then Err(NotFound)
    else
      var renewed :- db.attempts[token.attempt].Heartbeat(token, now, now + cfg.lease);
      Ok((db.(attempts := db.attempts[token.attempt := renewed]), token.(version := renewed.version)))
  }

  function RequestCancellation(db: Db, now: Time, mission: Id): Result<Db> {
    if mission !in db.missions then Err(NotFound)
    else
      var cancelling :- db.missions[mission].RequestCancel();
      Ok(db.(missions := db.missions[mission := cancelling],
             audits := db.audits + [Audit(mission, CancellationAsked, now)]))
  }

  // ---------------------------------------------------------------- operations of one attempt

  /** The prepare transactions accept an existing operation only if it is the same effect. */
  predicate SameEffect(o: Operation, kind: OperationType, input: Digest, epoch: nat) {
    o.kind == kind && o.input == input && o.epoch == epoch
  }

  /** The idempotency check of every prepare transaction. */
  function Adopt(db: Db, key: Key, kind: OperationType, input: Digest, epoch: nat): Result<Option<Operation>> {
    match OperationFor(db, key)
    case None => Ok(None)
    case Some(o) => if SameEffect(o, kind, input, epoch) then Ok(Some(o)) else Err(OperationConflict)
  }

  function WorktreeInput(spec: Spec): Digest {
    Sha256(Utf8(spec.repository + "\n" + spec.commit))
  }

  function PrepareWorktree(db: Db, now: Time, token: Token, newId: Id): Result<Db> {
    var c :- Load(db, token.attempt);
    if c.mission.status == MissionStatus.Cancelling then Err(CancellationRequested)
    else
      var _ :- c.attempt.CheckLease(token, now);
      var key := Key(token.attempt, BaselineWorktree);
      var input := WorktreeInput(c.mission.spec);
      var found :- Adopt(db, key, WorktreeCreate, input, token.epoch);
      if found.Some? then Ok(db)
      else Ok(AddOperation(db, newId, NewOperation(key, WorktreeCreate, input, token.epoch, BaselineTree, now)))
  }

  function FinishWorktree(db: Db, now: Time, token: Token, path: string): Result<Db> {
    var key := Key(token.attempt, BaselineWorktree);
    if token.attempt !in db.attempts || OperationFor(db, key).None? then Err(NotFound)
    else
      var _ :- db.attempts[token.attempt].CheckLease(token, now);
      var o := OperationFor(db, key).value;
      if o.status == OperationStatus.Succeeded then Ok(db)
      else
        var done :- o.Succeed(External(path), now);
        Ok(db.(operations := db.operations[db.keys[key] := done]))
  }

  function SandboxInput(spec: Spec, path: string): Digest {
    Sha256(Utf8(spec.digest + "\n" + path + "\n" + if spec.runArgv == [] then "" else Join(spec.runArgv, '\0')))
  }

  /** Returns the operation id and whether it had already succeeded. */
  function PrepareSandbox(db: Db, now: Time, token: Token, path: string, newId: Id): Result<(Db, Id, bool)> {
    var c :- Load(db, token.attempt);
    if c.mission.status == MissionStatus.Cancelling then Err(CancellationRequested)
    else
      var _ :- c.attempt.CheckLease(token, now);
      if !c.mission.spec.offline then Err(OperationConflict)
      else
        var key := Key(token.attempt, Sandbox);
        var input := SandboxInput(c.mission.spec, path);
        var found :- Adopt(db, key, SandboxRun, input, token.epoch);
        if found.None? then
          var begun :- NewOperation(key, SandboxRun, input, token.epoch, At(path), now).Begin(now);
          Ok((AddOperation(db, newId, begun), newId, false))
        else if found.value.status == OperationStatus.Succeeded then Ok((db, db.keys[key], true))
        else
          var begun :- found.value.Begin(now);
          Ok((db.(operations := db.operations[db.keys[key] := begun]), db.keys[key], false))
  }

  function FinishSandbox(db: Db, now: Time, token: Token, result: SandboxResult): Result<Db> {
    var key := Key(token.attempt, Sandbox);
    if token.attempt !in db.attempts || OperationFor(db, key).None? then Err(NotFound)
    else
      var _ :- db.attempts[token.attempt].CheckLease(token, now);
      if result.operation != db.keys[key] then Err(OperationConflict)
      else
        var done :- OperationFor(db, key).value.Succeed(External(result.execution), now);
        Ok(db.(operations := db.operations[db.keys[key] := done]))
  }

  // ---------------------------------------------------------------- artifacts

  /** The kind and the media type that the callers of the persister pass with each slot. */
  function KindIn(slot: Slot): ArtifactKind {
    match slot
    case LogSlot => ExecutionLog
    case MetricSlot => ArtifactKind.Metric
    case BundleSlot => Bundle
    case _ => Patch
  }

  function MediaIn(slot: Slot): MediaType {
    match slot
    case LogSlot => PlainText
    case MetricSlot => JsonDocument
    case BundleSlot => ZipArchive
    case _ => UnifiedDiff
  }

  /** One call of the artifact persister: which slot of the attempt it fills, with which bytes. */
  datatype Put = Put(slot: Slot, payload: Bytes, target: Target) {
    function Kind(): ArtifactKind { KindIn(slot) }

    function Media(): MediaType { MediaIn(slot) }

    function Ref(): ArtifactRef { RefOf(payload, Media()) }
  }

  /** `Some` when the operation had already succeeded: its registration, with nothing left to do. */
  function PreparePut(db: Db, now: Time, token: Token, put: Put, newId: Id): Result<(Db, Option<Registration>)> {
    var c :- Load(db, token.attempt);
    if c.mission.status == MissionStatus.Cancelling then Err(CancellationRequested)
    else
      var _ :- c.attempt.CheckLease(token, now);
      var key := Key(token.attempt, put.slot);
      var input := Sha256(put.payload);
      var found :- Adopt(db, key, CasPut, input, token.epoch);
      if found.None? then
        Ok((AddOperation(db, newId, NewOperation(key, CasPut, input, token.epoch, put.target, now)), None))
      else if found.value.attempt != token.attempt then Err(OperationConflict)
      else if found.value.status != OperationStatus.Succeeded then Ok((db, None))
      else if db.keys[key] !in db.artifacts then Err(OperationConflict)
      else Ok((db, Some(db.artifacts[db.keys[key]])))
  }

  /** The operation succeeds and its artifact is registered. */
  function StorePut(db: Db, now: Time, token: Token, put: Put, id: Id): Result<Db>
    requires id in db.operations
  {
    var done :- db.operations[id].Succeed(CasUri(put.Ref().sha), now);
    var registration := Registration(put.Ref(), put.Kind(), token.attempt, id, now);
    if id in db.artifacts && db.artifacts[id] != registration then Err(Refused)
    else Ok(db.(operations := db.operations[id := done], artifacts := db.artifacts[id := registration]))
  }

  function FinishPut(db: Db, now: Time, token: Token, put: Put): Result<Db> {
    var key := Key(token.attempt, put.slot);
    if token.attempt !in db.attempts || OperationFor(db, key).None? then Err(NotFound)
    else
      var c :- Load(db, token.attempt);
      if c.mission.status == MissionStatus.Cancelling then Err(CancellationRequested)
      else
        var _ :- c.attempt.CheckLease(token, now);
        StorePut(db, now, token, put, db.keys[key])
  }

  // ---------------------------------------------------------------- evidence

  function LoadSpec(db: Db, attempt: Id): Result<Spec> {
    var c :- Load(db, attempt);
    Ok(c.mission.spec)
  }

  datatype Evidence = Evidence(
    validation: Validation, metric: ArtifactRef, log: ArtifactRef, commit: string,
    environment: string, dataset: string)

  function HasVerifiedClaim(db: Db, mission: Id): bool {
    exists c :: c in db.claims && db.claims[c].mission == mission && db.claims[c].status == Verified
  }

  /** A second call for the same attempt only reads back what the first one registered. */
  function RegisterResult(db: Db, now: Time, token: Token, e: Evidence, metric: Id, claim: Id): Result<Db> {
    var c :- Load(db, token.attempt);
    if token.attempt in db.metrics then
      if HasVerifiedClaim(db, c.MissionId()) then Ok(db) else Err(NotFound)
    else
      var _ :- c.attempt.CheckLease(token, now);
      var record := MetricRecord(metric, token.attempt, e.metric, e.validation.expectation, e.validation.value,
                                 e.commit, c.mission.spec.runArgv, e.environment, e.dataset);
      if !record.Valid() then Err(Refused)
      else
        var mission :- if c.mission.status == MissionStatus.Running then c.mission.BeginVerification()
                       else Ok(c.mission);
        var row := Claim(c.MissionId(), token.attempt, Verified, e.validation.value,
                         e.validation.expectation.unit, now);
        var links := [EvidenceLink(claim, MetricArtifact, e.metric), EvidenceLink(claim, LogArtifact, e.log)];
        Ok(db.(missions := db.missions[c.MissionId() := mission],
               metrics := db.metrics[token.attempt := record],
               claims := db.claims[claim := row],
               evidence := db.evidence[claim := EvidenceOf(db, claim) + links],
               audits := db.audits + [Audit(c.MissionId(), MetricVerified, now)]))
  }

  /** The ids a failing baseline run of a repair mission needs for its repair work. */
  datatype RepairIds = RepairIds(task: Id, attempt: Id, event: Id)

  predicate HasRepairTask(tasks: map<Id, Task>, mission: Id) {
    exists t :: t in tasks && tasks[t].mission == mission && tasks[t].kind == RepairCandidate
  }

  function ScheduleRepair(db: Db, now: Time, mission: Id, ids: RepairIds): Db {
    if HasRepairTask(db.tasks, mission) then db
    else
      db.(tasks := db.tasks[ids.task := Task(mission, RepairCandidate, now, TaskStatus.Pending, 0)],
          attempts := db.attempts[ids.attempt := NewAttempt(ids.task, 1, now, None)],
          audits := db.audits + [Audit(mission, RepairScheduled, now)],
          outbox := db.outbox + [OutboxEvent(ids.event, RepairReady, ids.attempt, now)])
  }

  function FailRun(db: Db, now: Time, token: Token, code: FailureCode, repairMode: bool, ids: RepairIds): Result<Db> {
    var c :- Load(db, token.attempt);
    var attempt :- c.attempt.Fail(token, now, false, code);
    var task :- c.task.Fail();
    var failed := db.(attempts := db.attempts[token.attempt := attempt], tasks := db.tasks[c.attempt.task := task]);
    if repairMode && c.task.kind == BaselineReproduction then
      Ok(ScheduleRepair(failed, now, c.MissionId(), ids))
    else
      var mission :- c.mission.Fail();
      Ok(failed.(missions := failed.missions[c.MissionId() := mission]))
  }

  // ---------------------------------------------------------------- completion

  function AlreadyCompleted(db: Db, attempt: Id): Result<Option<Registration>> {
    if attempt !in db.attempts || db.attempts[attempt].task !in db.tasks then Err(NotFound)
    else
      var mission := db.tasks[db.attempts[attempt].task].mission;
      Ok(if mission in db.bundles then Some(db.bundles[mission]) else None)
  }

  predicate HasLink(links: seq<EvidenceLink>, kind: EvidenceType) {
    exists link <- links :: link.kind == kind
  }

  /** The evidence gate. It is a transaction of its own: the completing transaction comes later
      and does not repeat these checks. */
  function CollectFacts(db: Db, now: Time, token: Token): Result<MetricRecord> {
    var c :- Load(db, token.attempt);
    var _ :- c.attempt.CheckLease(token, now);
    var claims := ClaimsOf(db.claims, c.MissionId());
    if c.mission.status != MissionStatus.Verifying then Err(Refused)
    else if token.attempt !in db.metrics then Err(Refused)
    else if claims == {} || exists k <- claims :: db.claims[k].status != Verified then Err(Refused)
    else if exists k <- claims :: !HasLink(EvidenceOf(db, k), MetricArtifact) then Err(Refused)
    else if forall k <- claims :: !HasLink(EvidenceOf(db, k), LogArtifact) then Err(NotFound)
    else Ok(db.metrics[token.attempt])
  }

  function CompleteMission(db: Db, now: Time, token: Token, artifact: ArtifactRef): Result<Db> {
    var c :- Load(db, token.attempt);
    var _ :- c.attempt.CheckLease(token, now);
    var key := Key(token.attempt, BundleSlot);
    if OperationFor(db, key).None? then Err(Refused)
    else
      var registration := Registration(artifact, Bundle, token.attempt, db.keys[key], now);
      if c.MissionId() in db.bundles && db.bundles[c.MissionId()] != registration then Err(Refused)
      else
        var mission :- c.mission.Complete();
        var task :- c.task.Succeed();
        var attempt :- c.attempt.Succeed(token, now);
        Ok(db.(bundles := db.bundles[c.MissionId() := registration],
               missions := db.missions[c.MissionId() := mission],
               tasks := db.tasks[c.attempt.task := task],
               attempts := db.attempts[token.attempt := attempt],
               audits := db.audits + [Audit(c.MissionId(), MissionCompleted, now)]))
  }

  datatype VerifiedResult = VerifiedResult(
    proposal: Id, mission: Id, specDigest: string, metric: MetricRecord, bundle: Digest, completedAt: Time)

  /** What the Studio may read; every refusal is an exception there. */
  function GetVerifiedResult(db: Db, mission: Id): Result<VerifiedResult> {
    if mission !in db.missions then Err(NotFound)
    else
      var m := db.missions[mission];
      var claims := ClaimsOf(db.claims, mission);
      if m.status != MissionStatus.Completed || m.proposal.None? then Err(Refused)
      else if mission !in db.bundles || db.bundles[mission].attempt !in db.metrics then Err(Refused)
      else if claims == {} || exists k <- claims :: db.claims[k].status != Verified then Err(Refused)
      else
        var bundle := db.bundles[mission];
        Ok(VerifiedResult(m.proposal.value, mission, m.spec.digest, db.metrics[bundle.attempt],
                          bundle.artifact.sha, bundle.createdAt))
  }

  // ---------------------------------------------------------------- approvals

  function ValidateProposal(db: Db, now: Time, token: Token): Result<Context> {
    if token.attempt !in db.attempts then Err(NotFound)
    else
      var attempt := db.attempts[token.attempt];
      if attempt.task !in db.tasks || db.tasks[attempt.task].kind != RepairCandidate then Err(Refused)
      else
        var task := db.tasks[attempt.task];
        if task.mission !in db.missions || db.missions[task.mission].status != MissionStatus.Running then Err(Refused)
        else
          var _ :- attempt.CheckLease(token, now);
          Ok(Context(attempt, task, db.missions[task.mission]))
  }

  function RequestApproval(db: Db, cfg: Config, now: Time, token: Token, patch: ArtifactRef, newId: Id): Result<Db> {
    var c :- ValidateProposal(db, now, token);
    var approval := Approval(c.MissionId(), c.attempt.task, token.attempt, CandidateCommit, patch.sha,
                             CandidateCommit, now, now + cfg.approvalTtl, Some(patch),
                             ApprovalStatus.Pending, None, None, 0);
    var mission :- c.mission.WaitForApproval();
    var attempt :- c.attempt.Fail(token, now, true, FailureCode.WaitingApproval);
    var task :- c.task.Retry();
    Ok(db.(approvals := db.approvals[newId := approval],
           missions := db.missions[c.MissionId() := mission],
           attempts := db.attempts[token.attempt := attempt],
           tasks := db.tasks[c.attempt.task := task],
           audits := db.audits + [Audit(c.MissionId(), ApprovalRequested, now)]))
  }

  function ResolveApproval(db: Db, now: Time, approval: Id, approved: bool, decider: Id, child: Id, event: Id)
    : Result<Db>
  {
    if approval !in db.approvals then Err(NotFound)
    else
      var row := db.approvals[approval];
      if row.mission !in db.missions || row.task !in db.tasks || row.attempt !in db.attempts then Err(NotFound)
      else if approved then
        var decided :- row.Approve(decider, now);
        var mission :- db.missions[row.mission].Start();
        var resumed := NewAttempt(row.task, db.attempts[row.attempt].number + 1, now, Some(row.attempt));
        Ok(db.(approvals := db.approvals[approval := decided],
               missions := db.missions[row.mission := mission],
               attempts := db.attempts[child := resumed],
               audits := db.audits + [Audit(row.mission, ApprovalApproved, now)],
               outbox := db.outbox + [OutboxEvent(event, RepairReady, child, now)]))
      else
        var decided :- row.Reject(decider, now);
        var task :- db.tasks[row.task].Fail();
        var mission :- db.missions[row.mission].Fail();
        Ok(db.(approvals := db.approvals[approval := decided],
               tasks := db.tasks[row.task := task],
               missions := db.missions[row.mission := mission],
               audits := db.audits + [Audit(row.mission, AuditKind.ApprovalRejected, now)]))
  }

  predicate StartsWith(s: string, head: string) {
    |head| <= |s| && s[..|head|] == head
  }

  predicate Holds(s: string, part: string) {
    exists i :: 0 <= i <= |s| && StartsWith(s[i..], part)
  }

  predicate IsUnifiedDiff(value: string) {
    StartsWith(value, "diff --git ") && Holds(value, "\n--- ") && Holds(value, "\n+++ ") && Holds(value, "\n@@ ")
  }

  /** What the candidate commit will be asked to do. */
  datatype RepairContext = RepairContext(
    mission: Id, parentCommit: string, allowedPaths: seq<string>, maxFiles: nat, maxChangedLines: nat, diff: string)

  /** `ReadVerified` of the blob directory. */
  function ReadVerified(blobs: map<Digest, Bytes>, artifact: ArtifactRef): Result<Bytes> {
    if artifact.sha !in blobs then Err(Refused)
    else
      var payload := blobs[artifact.sha];
      if Sha256(payload) != artifact.sha || Size(payload) != artifact.size then Err(Refused) else Ok(payload)
  }

  function LoadRepairContext(db: Db, blobs: map<Digest, Bytes>, now: Time, token: Token, approval: Id)
    : Result<RepairContext>
  {
    if token.attempt !in db.attempts then Err(NotFound)
    else
      var attempt := db.attempts[token.attempt];
      if attempt.task !in db.tasks || db.tasks[attempt.task].kind != RepairCandidate then Err(OperationConflict)
      else
        var c :- Load(db, token.attempt);
        var _ :- attempt.CheckLease(token, now);
        if approval !in db.approvals || db.approvals[approval].status != ApprovalStatus.Approved then
          Err(OperationConflict)
        else
          var row := db.approvals[approval];
          if row.scope != CandidateCommit || row.actionType != CandidateCommit
             || row.task != attempt.task || row.mission != c.MissionId() then Err(OperationConflict)
          else if attempt.parent != Some(row.attempt) then Err(OperationConflict)
          else if row.patch.None? || row.patch.value.sha != row.actionHash then Err(OperationConflict)
          else
            var payload :- ReadVerified(blobs, row.patch.value);
            if Sha256(payload) != row.actionHash then Err(OperationConflict)
            else
              var diff :- Decode(payload);
              if !IsUnifiedDiff(diff) || c.mission.spec.mode != RepairMode then Err(OperationConflict)
              else
                var spec := c.mission.spec;
                Ok(RepairContext(c.MissionId(), spec.commit, spec.allowedPaths, spec.maxFiles,
                                 spec.maxChangedLines, diff))
  }

  /** Returns the operation row as the unit of work left it. */
  function PrepareCandidate(db: Db, now: Time, token: Token, diff: string, newId: Id): Result<(Db, Id)> {
    if token.attempt !in db.attempts then Err(NotFound)
    else
      var _ :- db.attempts[token.attempt].CheckLease(token, now);
      var key := Key(token.attempt, CandidateSlot);
      var input := Sha256(Utf8(diff));
      var found :- Adopt(db, key, CandidateCommit, input, token.epoch);
      if found.Some? then Ok((db, db.keys[key]))
      else
        Ok((AddOperation(db, newId, NewOperation(key, CandidateCommit, input, token.epoch, CandidateTree, now)), newId))
  }

  function FinishCandidate(db: Db, now: Time, token: Token, commit: string): Result<Db> {
    var key := Key(token.attempt, CandidateSlot);
    if token.attempt !in db.attempts || OperationFor(db, key).None? then Err(NotFound)
    else
      var _ :- db.attempts[token.attempt].CheckLease(token, now);
      var done :- OperationFor(db, key).value.Succeed(External(commit), now);
      Ok(db.(operations := db.operations[db.keys[key] := done],
             audits := db.audits + [Audit(token.attempt, CandidateCommitted, now)]))
  }

  // ---------------------------------------------------------------- cancellation

  function AssertCancelling(db: Db, now: Time, token: Token): Result<()> {
    var c :- Load(db, token.attempt);
    if c.mission.status != MissionStatus.Cancelling then Err(CancellationRequested)
    else c.attempt.CheckLease(token, now)
  }

  function CancelAttempt(db: Db, now: Time, token: Token): Result<Db> {
    var c :- Load(db, token.attempt);
    var attempt :- c.attempt.Cancel(token, now);
    var task :- c.task.Cancel();
    var mission :- c.mission.ConfirmCancel();
    Ok(db.(attempts := db.attempts[token.attempt := attempt],
           tasks := db.tasks[c.attempt.task := task],
           missions := db.missions[c.MissionId() := mission],
           audits := db.audits + [Audit(c.MissionId(), MissionCancelled, now)]))
  }

  // ---------------------------------------------------------------- reconciliation and outbox

  /** The loop over the stale operations; the event of the i-th one gets the id `event + i`. */
  function Recover(db: Db, now: Time, ids: seq<Id>, event: Id): Result<Db>
    decreases |ids|
  {
    if ids == [] then Ok(db)
    else if ids[0] !in db.operations then Err(NotFound)
    else
      var recovered :- db.operations[ids[0]].RequestRecovery(now);
      if recovered.attempt !in db.attempts || db.attempts[recovered.attempt].task !in db.tasks then Err(NotFound)
      else
        var topic := TopicOf(db.tasks[db.attempts[recovered.attempt].task].kind);
        var next := db.(operations := db.operations[ids[0] := recovered],
                        audits := db.audits + [Audit(ids[0], RecoveryRequested, now)],
                        outbox := db.outbox + [OutboxEvent(event, topic, recovered.attempt, now)]);
        Recover(next, now, ids[1..], event + 1)
  }

  function ReconcileStale(db: Db, cfg: Config, now: Time, limit: int, event: Id): Result<Db> {
    if limit <= 0 then Err(Refused)
    else
      var before := now - cfg.staleAfter;
      Recover(db, now, OldestFirst(db.operations, StaleIds(db.operations, before), limit), event)
  }

  function FetchUnpublished(db: Db, limit: int): Result<seq<OutboxEvent>> {
    if limit <= 0 then Err(Refused) else Ok(Prefix(Unpublished(db.outbox, db.published), limit))
  }

  function MarkPublished(db: Db, now: Time, event: Id): Result<Db> {
    if !exists e <- db.outbox :: e.id == event then Err(Refused)
    else if event in db.published then Ok(db)
    else Ok(db.(published := db.published[event := now]))
  }
}
