/** What runs can reach: the theorems about completed, repaired and cancelled missions speak of
    states that do arise, from every reachable state and for every input that passes the checks. */
module Attainment {
  import opened Basics
  import opened Content
  import opened JsonPointer
  import opened Lifecycle
  import opened Tables
  import opened Transactions
  import opened Evolution
  import opened Changes
  import opened Completion
  import opened Ledger
  import opened EvidenceGate
  import opened Approvals
  import opened Cancellation
  import opened Runtime
  import opened Safety
  import opened Effects
  import opened Steps
  import opened Theorems
  import opened Calls
  import opened Leases
  import opened Acceptance

  // ---------------------------------------------------------------- one worker at its attempt

  /** An attempt of a mission under the lease of one worker. */
  datatype Job = Job(token: Token, mission: Id, kind: TaskType, spec: Spec, proposal: Option<Id>)

  /** The rows of the job: its attempt, with its task and mission. */
  predicate RowsFit(db: Db, job: Job, task: TaskStatus, mission: MissionStatus) {
    var a := job.token.attempt;
    && Indexed(db, a) && MissionOf(db, a) == job.mission
    && db.tasks[TaskOf(db, a)].status == task && db.tasks[TaskOf(db, a)].kind == job.kind
    && db.missions[job.mission].status == mission
    && db.missions[job.mission].spec == job.spec && db.missions[job.mission].proposal == job.proposal
  }

  predicate Held(db: Db, now: Time, job: Job, status: MissionStatus) {
    LeaseHeld(db, job.token, now) && RowsFit(db, job, TaskStatus.Running, status)
  }

  /** An attempt that was never claimed; the job's token is the one that worker 0 will get. */
  predicate Waiting(db: Db, job: Job, task: TaskStatus, mission: MissionStatus) {
    && RowsFit(db, job, task, mission) && job.token == Token(job.token.attempt, 0, 1, 1)
    && db.attempts[job.token.attempt].status == AttemptStatus.Pending
    && db.attempts[job.token.attempt].epoch == 0 && db.attempts[job.token.attempt].version == 0
  }

  ghost predicate Vacant(keys: map<Key, Id>, a: Id) {
    forall slot :: Key(a, slot) !in keys
  }

  predicate Unrecorded(db: Db, job: Job) {
    job.token.attempt !in db.metrics && job.mission !in db.bundles && ClaimsOf(db.claims, job.mission) == {}
  }

  lemma Onward(w: World, u: World, step: Step, v: World)
    requires Safe(u) && Runs(w, u) && v == Apply(u, step)
    ensures Safe(v) && Runs(w, v)
  {
    hide Safe, Good, Apply, Runs, RunFrom;
    StepGood(u, step);
    StepForward(u, v);
    OneStep(u, step);
    RunsOn(w, u, [step]);
  }

  // ---------------------------------------------------------------- a fresh mission

  lemma FreshRowsAreVacant(w: World, a: Id, m: Id)
    requires Safe(w)
    ensures a !in w.db.attempts ==> Vacant(w.db.keys, a) && a !in w.db.metrics
    ensures m !in w.db.missions ==> m !in w.db.bundles && ClaimsOf(w.db.claims, m) == {}
  {
    hide Safe, Registered, GateOpen, InRange, Completions;
    SafeKeys(w);
    SafeGrounded(w);
    SafeRows(w);
    forall a | a in w.db.metrics ensures a in w.db.attempts {
      assert MetricGrounded(w.db, a);
    }
    forall c | c in w.db.claims ensures w.db.claims[c].mission in w.db.missions {
      assert ClaimGrounded(w.db, c);
    }
    forall b | b in w.db.bundles ensures b in w.db.missions {
      assert BundleGrounded(w.db, b);
    }
  }

  lemma CreateSucceeds(db: Db, now: Time, job: Job, t: Id, e: Id)
    requires job.mission !in db.missions && t !in db.tasks && job.token.attempt !in db.attempts
    requires job.kind == BaselineReproduction && job.token == Token(job.token.attempt, 0, 1, 1)
    ensures var r := CreateMission(db, now, job.mission, t, job.token.attempt, e, job.spec, job.proposal);
      && r.Ok? && Waiting(r.value, job, TaskStatus.Pending, MissionStatus.Ready)
      && SameLedger(db, r.value) && SameEvidence(db, r.value) && r.value.bundles == db.bundles
  {}

  lemma ClaimSucceeds(db: Db, cfg: Config, now: Time, job: Job, task: TaskStatus, mission: MissionStatus)
    requires cfg.Valid() && Waiting(db, job, task, mission)
    requires task in {TaskStatus.Pending, TaskStatus.Retryable}
    requires mission in {MissionStatus.Ready, MissionStatus.Running}
    ensures var r := ClaimAttempt(db, cfg, now, job.token.attempt, 0);
      && r.Ok? && r.value.1 == job.token && TakesLease(db, r.value.0, now, job.token.attempt, 0, now + cfg.lease)
      && Held(r.value.0, now, job, MissionStatus.Running)
  {}

  lemma CreateRuns(w: World, job: Job, t: Id, e: Id)
    requires job.mission !in w.db.missions && t !in w.db.tasks && job.token.attempt !in w.db.attempts
    requires FreshEvent(w.db.outbox, e)
    requires CreateMission(w.db, w.now, job.mission, t, job.token.attempt, e, job.spec, job.proposal).Ok?
    ensures Create(w, job.mission, t, job.token.attempt, e, job.spec, job.proposal) ==
            Commit(w, CreateMission(w.db, w.now, job.mission, t, job.token.attempt, e, job.spec, job.proposal).value)
  {
    hide CreateMission, Commit, FreshEvent, ApplyEvidential, ApplyOther;
  }

  lemma ClaimRuns(w: World, a: Id, owner: Id)
    requires ClaimAttempt(w.db, w.cfg, w.now, a, owner).Ok?
    ensures ClaimLease(w, a, owner) == Commit(w, ClaimAttempt(w.db, w.cfg, w.now, a, owner).value.0)
  {
    hide ClaimAttempt, Commit, ApplyEvidential, ApplyOther;
  }

  lemma Claimed(w: World, u: World, job: Job, task: TaskStatus, mission: MissionStatus) returns (v: World)
    requires Safe(u) && Runs(w, u) && Waiting(u.db, job, task, mission)
    requires task in {TaskStatus.Pending, TaskStatus.Retryable}
    requires mission in {MissionStatus.Ready, MissionStatus.Running}
    ensures Safe(v) && Runs(w, v) && Held(v.db, v.now, job, MissionStatus.Running)
    ensures v == Commit(u, v.db) && TakesLease(u.db, v.db, u.now, job.token.attempt, 0, u.now + u.cfg.lease)
  {
    hide Safe, Apply, Runs, ClaimAttempt, Waiting, Held, TakesLease, RecordAll;
    SafeParts(u);
    ClaimSucceeds(u.db, u.cfg, u.now, job, task, mission);
    ClaimRuns(u, job.token.attempt, 0);
    v := Commit(u, ClaimAttempt(u.db, u.cfg, u.now, job.token.attempt, 0).value.0);
    ClaimApplies(u, job.token.attempt, 0);
    Onward(w, u, ClaimStep(job.token.attempt, 0), v);
  }

  lemma FreshWork(w: World) returns (m: Id, ids: RepairIds)
    ensures m !in w.db.missions && FreshRepair(w.db, ids)
  {
    hide FreshEvent;
    FreshExists(w.db.missions.Keys);
    FreshIds(w);
    m :| m !in w.db.missions.Keys;
    ids :| FreshRepair(w.db, ids);
  }

  /** In any state a new mission can be opened and its attempt claimed. */
  lemma Opened(w: World, spec: Spec, proposal: Option<Id>) returns (v: World, job: Job)
    requires Safe(w)
    ensures Runs(w, v) && Safe(v) && job.mission !in w.db.missions
    ensures job.kind == BaselineReproduction && job.spec == spec && job.proposal == proposal
    ensures Held(v.db, v.now, job, MissionStatus.Running) && Vacant(v.db.keys, job.token.attempt)
    ensures Unrecorded(v.db, job) && v.sessions == w.sessions
  {
    hide Safe, Apply, Runs, Vacant, FreshEvent, ClaimsOf, Waiting, Held, CreateMission, RecordAll, RowsOf;
    var m, ids := FreshWork(w);
    job := Job(Token(ids.attempt, 0, 1, 1), m, BaselineReproduction, spec, proposal);
    FreshRowsAreVacant(w, ids.attempt, m);
    RunsNowhere(w);
    CreateSucceeds(w.db, w.now, job, ids.task, ids.event);
    CreateRuns(w, job, ids.task, ids.event);
    var u := Commit(w, CreateMission(w.db, w.now, m, ids.task, ids.attempt, ids.event, spec, proposal).value);
    CreateApplies(w, m, ids.task, ids.attempt, ids.event, spec, proposal);
    Onward(w, w, CreateStep(m, ids.task, ids.attempt, ids.event, spec, proposal), u);
    v := Claimed(w, u, job, TaskStatus.Pending, MissionStatus.Ready);
  }

  // ---------------------------------------------------------------- keeping an artifact

  /** Only the ledger, the registrations, the blobs and the calls differ. */
  predicate OnlyKeeps(w: World, v: World) {
    && v.cfg == w.cfg && v.now == w.now && v.proposals == w.proposals && v.handed == w.handed
    && SameWork(w.db, v.db) && SameEvidence(w.db, v.db) && SameOutbox(w.db, v.db)
    && v.db.bundles == w.db.bundles && v.db.approvals == w.db.approvals
  }

  lemma PutPrepareSucceeds(db: Db, now: Time, job: Job, status: MissionStatus, put: Put, id: Id)
    requires Held(db, now, job, status) && status != MissionStatus.Cancelling
    requires Key(job.token.attempt, put.slot) !in db.keys
    ensures var o := NewOperation(Key(job.token.attempt, put.slot), CasPut, Sha256(put.payload), job.token.epoch,
                                  put.target, now);
      PreparePut(db, now, job.token, put, id) == Ok((AddOperation(db, id, o), None))
  {}

  lemma PutFinishSucceeds(db: Db, now: Time, job: Job, status: MissionStatus, put: Put, id: Id)
    requires Held(db, now, job, status) && status != MissionStatus.Cancelling
    requires Key(job.token.attempt, put.slot) in db.keys && db.keys[Key(job.token.attempt, put.slot)] == id
    requires id in db.operations && id !in db.artifacts
    requires db.operations[id].status == OperationStatus.Prepared && db.operations[id].result == None
    ensures var r := FinishPut(db, now, job.token, put);
      && r.Ok? && r.value == db.(operations := r.value.operations, artifacts := r.value.artifacts)
      && r.value.operations.Keys == db.operations.Keys
  {
    hide Put.Ref, Put.Kind;
  }

  lemma PutPrepareRuns(w: World, s: Id, id: Id, db: Db)
    requires s in w.sessions && DemandOf(w.sessions[s]).Persist? && id !in w.db.operations
    requires !w.sessions[s].Publishing? && !w.sessions[s].EventSent?
    requires PreparePut(w.db, w.now, w.sessions[s].token, DemandOf(w.sessions[s]).put, id) == Ok((db, None))
    ensures PutPrepare(w, s, id) ==
            Go(Commit(w, db), s, Persisting(w.sessions[s].token, DemandOf(w.sessions[s]).put,
                                            DemandOf(w.sessions[s]).follow))
  {
    hide PreparePut, Commit, DemandOf, Kept, ApplyBasic, ApplyOther;
  }

  lemma BlobWriteRuns(w: World, s: Id, token: Token, put: Put, follow: Follow)
    requires s in w.sessions && w.sessions[s] == Persisting(token, put, follow)
    ensures BlobWrite(w, s) ==
            Go(w.(blobs := w.blobs[Sha256(put.payload) := put.payload]), s, BlobWritten(token, put, follow))
  {
    hide ApplyBasic, ApplyOther;
  }

  lemma PutFinishRuns(w: World, s: Id, token: Token, put: Put, follow: Follow)
    requires s in w.sessions && w.sessions[s] == BlobWritten(token, put, follow)
    requires FinishPut(w.db, w.now, token, put).Ok?
    ensures PutFinish(w, s) ==
            Go(Commit(w, FinishPut(w.db, w.now, token, put).value), s, Kept(token, follow, put.Ref()))
  {
    hide FinishPut, Commit, Kept, Put.Ref, ApplyBasic, ApplyOther;
  }

  lemma HeldLater(db: Db, after: Db, now: Time, job: Job, status: MissionStatus)
    requires Held(db, now, job, status) && SameWork(db, after)
    ensures Held(after, now, job, status)
  {}

  /** The put is prepared and its bytes are written ... */
  lemma BytesWritten(w: World, u: World, s: Id, job: Job, status: MissionStatus, id: Id) returns (v: World)
    requires Safe(u) && Runs(w, u) && Held(u.db, u.now, job, status) && status != MissionStatus.Cancelling
    requires s in u.sessions && DemandOf(u.sessions[s]).Persist?
    requires !u.sessions[s].Publishing? && !u.sessions[s].EventSent? && u.sessions[s].token == job.token
    requires Key(job.token.attempt, DemandOf(u.sessions[s]).put.slot) !in u.db.keys && id !in u.db.operations
    ensures Safe(v) && Runs(w, v) && OnlyKeeps(u, v) && v.db.artifacts == u.db.artifacts
    ensures var (put, follow) := (DemandOf(u.sessions[s]).put, DemandOf(u.sessions[s]).follow);
      var key := Key(job.token.attempt, put.slot);
      && v.sessions == u.sessions[s := BlobWritten(job.token, put, follow)]
      && v.db.keys == u.db.keys[key := id] && id in v.db.operations
      && v.db.operations[id] == NewOperation(key, CasPut, Sha256(put.payload), job.token.epoch, put.target, u.now)
      && v.blobs == u.blobs[Sha256(put.payload) := put.payload]
  {
    hide Safe, Apply, Runs, Held, PreparePut, DemandOf, RecordAll;
    var put, follow := DemandOf(u.sessions[s]).put, DemandOf(u.sessions[s]).follow;
    PutPrepareSucceeds(u.db, u.now, job, status, put, id);
    var db := PreparePut(u.db, u.now, job.token, put, id).value.0;
    PutPrepareRuns(u, s, id, db);
    var prepared := Go(Commit(u, db), s, Persisting(job.token, put, follow));
    PutPrepareApplies(u, s, id);
    Onward(w, u, PutPrepareStep(s, id), prepared);
    BlobWriteRuns(prepared, s, job.token, put, follow);
    v := Go(prepared.(blobs := prepared.blobs[Sha256(put.payload) := put.payload]), s,
            BlobWritten(job.token, put, follow));
    BlobWriteApplies(prepared, s);
    Onward(w, prepared, BlobWriteStep(s), v);
  }

  /** ... so an undisturbed put goes through: the artifact is registered and its bytes are there. */
  lemma ArtifactKept(w: World, u: World, s: Id, job: Job, status: MissionStatus) returns (v: World)
    requires Safe(u) && Runs(w, u) && Held(u.db, u.now, job, status) && status != MissionStatus.Cancelling
    requires s in u.sessions && DemandOf(u.sessions[s]).Persist?
    requires !u.sessions[s].Publishing? && !u.sessions[s].EventSent? && u.sessions[s].token == job.token
    requires Key(job.token.attempt, DemandOf(u.sessions[s]).put.slot) !in u.db.keys
    ensures Safe(v) && Runs(w, v) && Held(v.db, v.now, job, status) && OnlyKeeps(u, v)
    ensures var demand := DemandOf(u.sessions[s]);
      && v.sessions == u.sessions[s := Kept(job.token, demand.follow, demand.put.Ref())]
      && v.db.keys.Keys == u.db.keys.Keys + {Key(job.token.attempt, demand.put.slot)}
      && OperationFor(v.db, Key(job.token.attempt, demand.put.slot)).Some?
      && v.blobs == u.blobs[Sha256(demand.put.payload) := demand.put.payload]
  {
    hide Safe, Apply, Runs, Held, FinishPut, DemandOf, RecordAll, Kept, Put.Ref;
    FreshExists(u.db.operations.Keys);
    var id: Id :| id !in u.db.operations.Keys;
    OwnersExist(u, id);
    var put, follow := DemandOf(u.sessions[s]).put, DemandOf(u.sessions[s]).follow;
    var written := BytesWritten(w, u, s, job, status, id);
    HeldLater(u.db, written.db, u.now, job, status);
    PutFinishSucceeds(written.db, u.now, job, status, put, id);
    PutFinishRuns(written, s, job.token, put, follow);
    var after := FinishPut(written.db, u.now, job.token, put).value;
    v := Go(Commit(written, after), s, Kept(job.token, follow, put.Ref()));
    PutFinishApplies(written, s);
    Onward(w, written, PutFinishStep(s), v);
    HeldLater(written.db, after, u.now, job, status);
  }

  // ---------------------------------------------------------------- a run that passes

  /** A sandbox result that passes every check of the spec, and fills a valid metric record. */
  predicate Passing(spec: Spec, result: SandboxResult, commit: string) {
    && Size(result.log) <= spec.maxLogBytes && result.exitCode == 0 && spec.metricPath in result.files
    && Size(result.log) + Size(result.files[spec.metricPath]) <= spec.maxArtifactBytes
    && ValidateMetric(result.files[spec.metricPath], spec.expectation).Ok?
    && Measure(spec, result).passed
    && |commit| == 40 && |result.dataset| == 64 && spec.runArgv != [] && result.environment != ""
  }

  function Measure(spec: Spec, result: SandboxResult): Validation
    requires spec.metricPath in result.files
    requires ValidateMetric(result.files[spec.metricPath], spec.expectation).Ok?
  {
    ValidateMetric(result.files[spec.metricPath], spec.expectation).value
  }

  lemma PassingDemands(token: Token, run: Run, log: ArtifactRef, metric: ArtifactRef)
    requires Passing(run.spec, run.result, run.commit)
    ensures DemandOf(LogKept(token, run, log)) ==
            Persist(Put(MetricSlot, run.result.files[run.spec.metricPath], At(run.spec.metricPath)),
                    KeepMetric(run, log))
    ensures DemandOf(MetricKept(token, run, log, metric)) ==
            RegisterNow(Evidence(Measure(run.spec, run.result), metric, log, run.commit, run.result.environment,
                                 run.result.dataset))
  {
    hide Size, ValidateMetric;
  }

  lemma FinalizeBeginRuns(w: World, s: Id, job: Job, status: MissionStatus, result: SandboxResult, commit: string)
    requires s !in w.sessions && Held(w.db, w.now, job, status)
    ensures FinalizeBegin(w, s, job.token, result, commit) ==
            Go(w, s, RunLoaded(job.token, Run(job.spec, result, commit)))
  {
    hide ApplyBasic, ApplyOther;
  }

  lemma LogDemanded(token: Token, run: Run)
    requires Size(run.result.log) <= run.spec.maxLogBytes
    ensures DemandOf(RunLoaded(token, run)) == Persist(Put(LogSlot, run.result.log, At("execution.log")), KeepLog(run))
  {
    hide Size;
  }

  /** The log is kept ... */
  lemma LogStored(w: World, u: World, s: Id, job: Job, run: Run) returns (v: World, log: ArtifactRef)
    requires Safe(u) && Runs(w, u) && Held(u.db, u.now, job, MissionStatus.Running) && s !in u.sessions
    requires run.spec == job.spec && Size(run.result.log) <= run.spec.maxLogBytes
    requires Vacant(u.db.keys, job.token.attempt)
    ensures Safe(v) && Runs(w, v) && Held(v.db, v.now, job, MissionStatus.Running) && OnlyKeeps(u, v)
    ensures s in v.sessions && v.sessions[s] == LogKept(job.token, run, log)
    ensures v.db.keys.Keys == u.db.keys.Keys + {Key(job.token.attempt, LogSlot)}
  {
    hide Safe, Apply, Runs, Held, DemandOf, OperationFor, Put.Ref, Size;
    LogDemanded(job.token, run);
    FinalizeBeginRuns(u, s, job, MissionStatus.Running, run.result, run.commit);
    var loaded := Go(u, s, RunLoaded(job.token, run));
    FinalizeBeginApplies(u, s, job.token, run.result, run.commit);
    Onward(w, u, FinalizeBeginStep(s, job.token, run.result, run.commit), loaded);
    log := Put(LogSlot, run.result.log, At("execution.log")).Ref();
    v := ArtifactKept(w, loaded, s, job, MissionStatus.Running);
  }

  /** ... and then the metric file. */
  lemma Measured(w: World, u: World, s: Id, job: Job, run: Run)
    returns (v: World, log: ArtifactRef, metric: ArtifactRef)
    requires Safe(u) && Runs(w, u) && Held(u.db, u.now, job, MissionStatus.Running) && s !in u.sessions
    requires run.spec == job.spec && Passing(run.spec, run.result, run.commit) && Vacant(u.db.keys, job.token.attempt)
    ensures Safe(v) && Runs(w, v) && Held(v.db, v.now, job, MissionStatus.Running)
    ensures v.db.metrics == u.db.metrics && v.db.bundles == u.db.bundles && v.db.claims == u.db.claims
    ensures s in v.sessions && v.sessions[s] == MetricKept(job.token, run, log, metric)
    ensures Key(job.token.attempt, BundleSlot) !in v.db.keys
  {
    hide Safe, Apply, Runs, Held, DemandOf, OperationFor, Put.Ref, Size, ValidateMetric;
    assert Size(run.result.log) <= run.spec.maxLogBytes;
    hide Passing;
    var logged;
    logged, log := LogStored(w, u, s, job, run);
    PassingDemands(job.token, run, log, log);
    metric := DemandOf(LogKept(job.token, run, log)).put.Ref();
    v := ArtifactKept(w, logged, s, job, MissionStatus.Running);
  }

  /** What the gate looks for, for a mission with this one claim. */
  predicate Recorded(db: Db, job: Job, claim: Id, value: real) {
    && job.token.attempt in db.metrics && db.metrics[job.token.attempt].value == value
    && ClaimsOf(db.claims, job.mission) == {claim} && claim in db.claims && db.claims[claim].status == Verified
    && HasLink(EvidenceOf(db, claim), MetricArtifact) && HasLink(EvidenceOf(db, claim), LogArtifact)
    && job.mission !in db.bundles
  }

  lemma RegisterSucceeds(db: Db, now: Time, job: Job, e: Evidence, metric: Id, claim: Id)
    requires Held(db, now, job, MissionStatus.Running) && Unrecorded(db, job)
    requires claim !in db.claims && claim !in db.evidence
    requires |e.commit| == 40 && |e.dataset| == 64 && job.spec.runArgv != [] && e.environment != ""
    ensures var r := RegisterResult(db, now, job.token, e, metric, claim);
      && r.Ok? && RegistersResult(db, r.value, now, job.token, e, metric, claim)
      && Held(r.value, now, job, MissionStatus.Verifying)
  {
    hide HasVerifiedClaim;
    assert RegisterResult(db, now, job.token, e, metric, claim).Ok?;
    RegisterChange(db, now, job.token, e, metric, claim);
  }

  lemma RegisteredIsRecorded(db: Db, now: Time, job: Job, e: Evidence, metric: Id, claim: Id)
    requires Held(db, now, job, MissionStatus.Running) && Unrecorded(db, job)
    requires claim !in db.claims && claim !in db.evidence
    requires |e.commit| == 40 && |e.dataset| == 64 && job.spec.runArgv != [] && e.environment != ""
    ensures var r := RegisterResult(db, now, job.token, e, metric, claim);
      && r.Ok? && Held(r.value, now, job, MissionStatus.Verifying)
      && Recorded(r.value, job, claim, e.validation.value) && r.value.keys == db.keys
  {
    RegisterSucceeds(db, now, job, e, metric, claim);
    hide RegisterResult;
    var after := RegisterResult(db, now, job.token, e, metric, claim).value;
    var links := after.evidence[claim];
    assert links[0] in links && links[1] in links;
  }

  lemma RegisterRuns(w: World, s: Id, metric: Id, claim: Id, db: Db)
    requires s in w.sessions && w.sessions[s].MetricKept? && DemandOf(w.sessions[s]).RegisterNow?
    requires claim !in w.db.claims && claim !in w.db.evidence
    requires RegisterResult(w.db, w.now, w.sessions[s].token, DemandOf(w.sessions[s]).evidence, metric, claim) == Ok(db)
    ensures ResultRegister(w, s, metric, claim) == End(Commit(w, db), s)
  {
    hide RegisterResult, Commit, DemandOf, ApplyBasic, ApplyOther;
  }

  /** The result is registered, which ends the call. */
  lemma ResultRegistered(w: World, u: World, s: Id, job: Job, run: Run, log: ArtifactRef, metric: ArtifactRef)
    returns (v: World, claim: Id)
    requires Safe(u) && Runs(w, u) && Held(u.db, u.now, job, MissionStatus.Running) && Unrecorded(u.db, job)
    requires run.spec == job.spec && Passing(run.spec, run.result, run.commit)
    requires s in u.sessions && u.sessions[s] == MetricKept(job.token, run, log, metric)
    ensures Safe(v) && Runs(w, v) && Held(v.db, v.now, job, MissionStatus.Verifying) && s !in v.sessions
    ensures Recorded(v.db, job, claim, Measure(run.spec, run.result).value) && v.db.keys == u.db.keys
  {
    hide Safe, Apply, Runs, Held, DemandOf, RecordAll, RegisterResult, Recorded, Size, ValidateMetric, Unrecorded;
    PassingDemands(job.token, run, log, metric);
    var e := Evidence(Measure(run.spec, run.result), metric, log, run.commit, run.result.environment,
                      run.result.dataset);
    FreshIds(u);
    claim :| claim !in u.db.claims && claim !in u.db.evidence;
    RegisteredIsRecorded(u.db, u.now, job, e, 0, claim);
    var db := RegisterResult(u.db, u.now, job.token, e, 0, claim).value;
    RegisterRuns(u, s, 0, claim, db);
    v := End(Commit(u, db), s);
    ResultRegisterApplies(u, s, 0, claim);
    Onward(w, u, ResultRegisterStep(s, 0, claim), v);
  }

  // ---------------------------------------------------------------- completing it

  lemma FactsSucceed(db: Db, now: Time, job: Job, claim: Id, value: real)
    requires Held(db, now, job, MissionStatus.Verifying) && Recorded(db, job, claim, value)
    ensures AlreadyCompleted(db, job.token.attempt) == Ok(None) && CollectFacts(db, now, job.token).Ok?
  {
    hide HasLink;
  }

  lemma CompleteSucceeds(db: Db, now: Time, job: Job, artifact: ArtifactRef)
    requires Held(db, now, job, MissionStatus.Verifying) && job.mission !in db.bundles
    requires OperationFor(db, Key(job.token.attempt, BundleSlot)).Some?
    ensures CompleteMission(db, now, job.token, artifact).Ok?
    ensures FinishesMission(db, CompleteMission(db, now, job.token, artifact).value, now, job.token, artifact)
  {}

  lemma CompletionBeginRuns(w: World, s: Id, token: Token)
    requires s !in w.sessions && AlreadyCompleted(w.db, token.attempt) == Ok(None)
    ensures CompletionBegin(w, s, token) == Go(w, s, CompletionChecked(token))
  {
    hide AlreadyCompleted, ApplyBasic, ApplyOther;
  }

  lemma FactsCollectRuns(w: World, s: Id, token: Token)
    requires s in w.sessions && w.sessions[s] == CompletionChecked(token) && CollectFacts(w.db, w.now, token).Ok?
    ensures FactsCollect(w, s) == Go(w, s, FactsCollected(token))
  {
    hide CollectFacts, ApplyBasic, ApplyOther;
  }

  lemma BundleBuildRuns(w: World, s: Id, token: Token, payload: Bytes)
    requires s in w.sessions && w.sessions[s] == FactsCollected(token)
    ensures BuildBundle(w, s, payload) == Go(w, s, BundleBuilt(token, payload))
  {
    hide ApplyBasic, ApplyOther;
  }

  lemma CompleteRuns(w: World, s: Id, token: Token, bundle: ArtifactRef)
    requires s in w.sessions && w.sessions[s] == BundleKept(token, bundle)
    requires CompleteMission(w.db, w.now, token, bundle).Ok?
    ensures MissionComplete(w, s) == End(Commit(w, CompleteMission(w.db, w.now, token, bundle).value), s)
  {
    hide CompleteMission, Commit, ApplyBasic, ApplyOther;
  }

  lemma BundleDemanded(token: Token, payload: Bytes)
    ensures DemandOf(BundleBuilt(token, payload)) ==
            Persist(Put(BundleSlot, payload, At("bundle/research-bundle.zip")), KeepBundle)
    ensures Kept(token, KeepBundle, RefOf(payload, ZipArchive)) == BundleKept(token, RefOf(payload, ZipArchive))
    ensures Put(BundleSlot, payload, At("bundle/research-bundle.zip")).Ref() == RefOf(payload, ZipArchive)
  {}

  lemma RecordedLater(db: Db, after: Db, job: Job, claim: Id, value: real)
    requires Recorded(db, job, claim, value) && SameEvidence(db, after) && after.bundles == db.bundles
    ensures Recorded(after, job, claim, value) && job.mission !in after.bundles
  {
    hide HasLink;
  }

  lemma BundleStored(w: World, u: World, s: Id, job: Job, claim: Id, value: real, payload: Bytes) returns (v: World)
    requires Safe(u) && Runs(w, u) && Held(u.db, u.now, job, MissionStatus.Verifying) && s !in u.sessions
    requires Recorded(u.db, job, claim, value) && Key(job.token.attempt, BundleSlot) !in u.db.keys
    ensures Safe(v) && Runs(w, v) && Held(v.db, v.now, job, MissionStatus.Verifying) && OnlyKeeps(u, v)
    ensures s in v.sessions && v.sessions[s] == BundleKept(job.token, RefOf(payload, ZipArchive))
    ensures OperationFor(v.db, Key(job.token.attempt, BundleSlot)).Some?
  {
    hide Safe, Apply, Runs, Held, DemandOf, Put.Ref, Kept, AlreadyCompleted, CollectFacts, OperationFor, RefOf;
    FactsSucceed(u.db, u.now, job, claim, value);
    hide Recorded;
    CompletionBeginRuns(u, s, job.token);
    var checked := Go(u, s, CompletionChecked(job.token));
    CompletionBeginApplies(u, s, job.token);
    Onward(w, u, CompletionBeginStep(s, job.token), checked);
    FactsCollectRuns(checked, s, job.token);
    var collected := Go(checked, s, FactsCollected(job.token));
    FactsCollectApplies(checked, s);
    Onward(w, checked, FactsCollectStep(s), collected);
    BundleBuildRuns(collected, s, job.token, payload);
    var built := Go(collected, s, BundleBuilt(job.token, payload));
    BundleBuildApplies(collected, s, payload);
    Onward(w, collected, BundleBuildStep(s, payload), built);
    BundleDemanded(job.token, payload);
    v := ArtifactKept(w, built, s, job, MissionStatus.Verifying);
  }

  /** From any reachable state, for every spec, every result that passes its checks and every bundle,
      there is a run after which the observer reports a new mission of that spec, with the value
      that the result holds and with that bundle. */
  lemma PassingResultIsReported(w: World, spec: Spec, proposal: Id, result: SandboxResult, commit: string,
                                bundle: Bytes)
    requires Reachable(w) && Passing(spec, result, commit)
    ensures exists v: World, m: Id :: Runs(w, v) && m !in w.db.missions && Reports(v.db, m, spec, proposal,
                                        Measure(spec, result).value, Sha256(bundle))
  {
    hide Reachable, Safe, Runs, Apply, Held, Vacant, Recorded, RecordAll, OperationFor, ClaimsOf, Size, Reports;
    hide ValidateMetric;
    var value := Measure(spec, result).value;
    hide Passing;
    ReachableSafe(w);
    var s := Above(w.sessions.Keys);
    var ready, job := Opened(w, spec, Some(proposal));
    assert s !in ready.sessions;
    var run := Run(spec, result, commit);
    var measured, log, metric := Measured(w, ready, s, job, run);
    var registered, claim := ResultRegistered(w, measured, s, job, run, log, metric);
    var stored := BundleStored(w, registered, s, job, claim, value, bundle);
    var artifact := RefOf(bundle, ZipArchive);
    RecordedLater(registered.db, stored.db, job, claim, value);
    var v := Finished(w, stored, s, job, artifact);
    FinishedReports(stored.db, v.db, v.now, job, claim, value, artifact);
    assert Reports(v.db, job.mission, spec, proposal, value, Sha256(bundle));
  }

  predicate Reports(db: Db, m: Id, spec: Spec, proposal: Id, value: real, bundle: Digest) {
    && m in db.missions && db.missions[m].spec == spec
    && GetVerifiedResult(db, m).Ok?
    && GetVerifiedResult(db, m).value.proposal == proposal && GetVerifiedResult(db, m).value.metric.value == value
    && GetVerifiedResult(db, m).value.bundle == bundle
  }

  lemma Finished(w: World, u: World, s: Id, job: Job, artifact: ArtifactRef) returns (v: World)
    requires Safe(u) && Runs(w, u) && Held(u.db, u.now, job, MissionStatus.Verifying) && job.mission !in u.db.bundles
    requires s in u.sessions && u.sessions[s] == BundleKept(job.token, artifact)
    requires OperationFor(u.db, Key(job.token.attempt, BundleSlot)).Some?
    ensures Safe(v) && Runs(w, v) && v.now == u.now && FinishesMission(u.db, v.db, u.now, job.token, artifact)
  {
    hide Safe, Apply, Runs, Held, CompleteMission, RecordAll, OperationFor, FinishesMission;
    CompleteSucceeds(u.db, u.now, job, artifact);
    CompleteRuns(u, s, job.token, artifact);
    v := End(Commit(u, CompleteMission(u.db, u.now, job.token, artifact).value), s);
    MissionCompleteApplies(u, s);
    Onward(w, u, MissionCompleteStep(s), v);
  }

  lemma FinishedReports(db: Db, after: Db, now: Time, job: Job, claim: Id, value: real, artifact: ArtifactRef)
    requires Held(db, now, job, MissionStatus.Verifying) && Recorded(db, job, claim, value) && job.proposal.Some?
    requires FinishesMission(db, after, now, job.token, artifact)
    ensures Reports(after, job.mission, job.spec, job.proposal.value, value, artifact.sha)
  {
    hide HasLink;
  }

  // ---------------------------------------------------------------- a diff that is approved

  lemma NoRepairYet(w: World, job: Job)
    requires Safe(w) && Held(w.db, w.now, job, MissionStatus.Running) && job.kind == BaselineReproduction
    ensures !HasRepairTask(w.db.tasks, job.mission)
  {
    hide Safe, Completions;
    SafeCompletions(w);
    var b := TaskOf(w.db, job.token.attempt);
    forall r | r in w.db.tasks
      ensures !(w.db.tasks[r].mission == job.mission && w.db.tasks[r].kind == RepairCandidate)
    {
      assert RepairAfterFailure(w.db.tasks, r, b);
    }
  }

  lemma NonzeroExitFails(token: Token, run: Run, log: ArtifactRef)
    requires run.result.exitCode != 0
    ensures DemandOf(LogKept(token, run, log)) == FailWith(SandboxNonzeroExit)
  {}

  lemma RunFailRuns(w: World, s: Id, ids: RepairIds, db: Db)
    requires s in w.sessions && w.sessions[s].LogKept? && DemandOf(w.sessions[s]).FailWith? && FreshRepair(w.db, ids)
    requires w.sessions[s].run.spec.mode == RepairMode
    requires FailRun(w.db, w.now, w.sessions[s].token, DemandOf(w.sessions[s]).code, true, ids) == Ok(db)
    ensures RunFail(w, s, ids) == End(Commit(w, db), s)
  {
    hide FailRun, Commit, DemandOf, FreshEvent, ApplyBasic, ApplyOther;
  }

  lemma FailRunSucceeds(db: Db, now: Time, job: Job, code: FailureCode, ids: RepairIds)
    requires Held(db, now, job, MissionStatus.Running) && job.kind == BaselineReproduction && FreshRepair(db, ids)
    requires !HasRepairTask(db.tasks, job.mission)
    ensures var r := FailRun(db, now, job.token, code, true, ids);
      && r.Ok? && SchedulesRepair(db, r.value, now, job.token, code, ids)
      && Waiting(r.value, job.(token := Token(ids.attempt, 0, 1, 1), kind := RepairCandidate),
                 TaskStatus.Pending, MissionStatus.Running)
  {
    hide HasRepairTask, FreshEvent, FailRun;
    assert FailRun(db, now, job.token, code, true, ids).Ok? by { FailRunOk(db, now, job, code, ids); }
    ScheduleRepairChange(db, now, job.token, code, ids);
  }

  lemma FailRunOk(db: Db, now: Time, job: Job, code: FailureCode, ids: RepairIds)
    requires Held(db, now, job, MissionStatus.Running) && job.kind == BaselineReproduction
    ensures FailRun(db, now, job.token, code, true, ids).Ok?
  {
    hide ScheduleRepair;
  }

  /** A failing run of a repair mission leaves a repair attempt, which is claimed. */
  lemma RepairTaken(w: World, u: World, s: Id, job: Job, run: Run, log: ArtifactRef) returns (v: World, repair: Job)
    requires Safe(u) && Runs(w, u) && Held(u.db, u.now, job, MissionStatus.Running)
    requires job.kind == BaselineReproduction
    requires s in u.sessions && u.sessions[s] == LogKept(job.token, run, log)
    requires run.result.exitCode != 0 && run.spec.mode == RepairMode
    ensures Safe(v) && Runs(w, v) && Held(v.db, v.now, repair, MissionStatus.Running)
    ensures repair.kind == RepairCandidate && repair.mission == job.mission && repair.spec == job.spec
    ensures Vacant(v.db.keys, repair.token.attempt) && s !in v.sessions
  {
    hide Safe, Apply, Runs, Held, DemandOf, RecordAll, FailRun, SchedulesRepair, HasRepairTask, Waiting, Vacant;
    hide FreshEvent;
    hide RowsOf;
    NonzeroExitFails(job.token, run, log);
    NoRepairYet(u, job);
    FreshIds(u);
    var ids: RepairIds :| FreshRepair(u.db, ids);
    FreshRowsAreVacant(u, ids.attempt, job.mission);
    FailRunSucceeds(u.db, u.now, job, SandboxNonzeroExit, ids);
    var db := FailRun(u.db, u.now, job.token, SandboxNonzeroExit, true, ids).value;
    RunFailRuns(u, s, ids, db);
    var failed := End(Commit(u, db), s);
    RunFailApplies(u, s, ids);
    Onward(w, u, RunFailStep(s, ids), failed);
    repair := job.(token := Token(ids.attempt, 0, 1, 1), kind := RepairCandidate);
    assert db.keys == u.db.keys by { ScheduledKeys(u.db, db, u.now, job.token, SandboxNonzeroExit, ids); }
    v := Claimed(w, failed, repair, TaskStatus.Pending, MissionStatus.Running);
  }

  lemma ScheduledKeys(db: Db, after: Db, now: Time, token: Token, code: FailureCode, ids: RepairIds)
    requires SchedulesRepair(db, after, now, token, code, ids)
    ensures after.keys == db.keys
  {}

  lemma ProposalSucceeds(db: Db, now: Time, job: Job)
    requires Held(db, now, job, MissionStatus.Running) && job.kind == RepairCandidate
    ensures ValidateProposal(db, now, job.token).Ok?
  {}

  lemma ProposalBeginRuns(w: World, s: Id, token: Token, diff: string)
    requires s !in w.sessions && IsUnifiedDiff(diff) && ValidateProposal(w.db, w.now, token).Ok?
    ensures ProposalBegin(w, s, token, diff) == Go(w, s, ProposalChecked(token, diff))
  {
    hide ValidateProposal, IsUnifiedDiff, ApplyBasic, ApplyEvidential;
  }

  lemma PatchDemanded(token: Token, diff: string)
    ensures var patch := Sha256(Utf8(diff));
      DemandOf(ProposalChecked(token, diff)) == Persist(Put(PatchSlot(patch), Utf8(diff), PatchFile(patch)),
                                                        KeepPatch(diff))
    ensures var patch := RefOf(Utf8(diff), UnifiedDiff);
      Kept(token, KeepPatch(diff), patch) == PatchKept(token, diff, patch)
    ensures Put(PatchSlot(Sha256(Utf8(diff))), Utf8(diff),
                PatchFile(Sha256(Utf8(diff)))).Ref() == RefOf(Utf8(diff), UnifiedDiff)
  {}

  lemma AskSucceeds(db: Db, cfg: Config, now: Time, job: Job, patch: ArtifactRef, p: Id)
    requires Held(db, now, job, MissionStatus.Running) && job.kind == RepairCandidate
    requires cfg.Valid() && p !in db.approvals
    ensures var r := RequestApproval(db, cfg, now, job.token, patch, p);
      && r.Ok? && AsksApproval(db, r.value, cfg, now, job.token, patch, p)
      && Asked(r.value, now, job, patch, p) && r.value.keys == db.keys
  {}

  /** The approval waits to be decided, and the mission with it. */
  predicate Asked(db: Db, now: Time, job: Job, patch: ArtifactRef, p: Id) {
    && RowsFit(db, job, TaskStatus.Retryable, MissionStatus.WaitingApproval) && p in db.approvals
    && (var row := db.approvals[p];
        && row.mission == job.mission && row.task == TaskOf(db, job.token.attempt) && row.attempt == job.token.attempt
        && row.actionType == CandidateCommit && row.scope == CandidateCommit && row.actionHash == patch.sha
        && row.patch == Some(patch) && row.status == ApprovalStatus.Pending && now < row.expiresAt)
  }

  lemma AskRuns(w: World, s: Id, token: Token, diff: string, patch: ArtifactRef, p: Id, db: Db)
    requires s in w.sessions && w.sessions[s] == PatchKept(token, diff, patch) && p !in w.db.approvals
    requires RequestApproval(w.db, w.cfg, w.now, token, patch, p) == Ok(db)
    ensures ApprovalAsk(w, s, p) == End(Commit(w.(proposals := w.proposals[p := diff]), db), s)
  {
    hide RequestApproval, Commit, ApplyBasic, ApplyEvidential;
  }

  /** Approval is asked for the diff, which is kept as an artifact. */
  lemma ApprovalAsked(w: World, u: World, s: Id, job: Job, diff: string) returns (v: World, p: Id)
    requires Safe(u) && Runs(w, u) && Held(u.db, u.now, job, MissionStatus.Running) && s !in u.sessions
    requires job.kind == RepairCandidate && Vacant(u.db.keys, job.token.attempt) && IsUnifiedDiff(diff)
    ensures Safe(v) && Runs(w, v) && s !in v.sessions
    ensures Asked(v.db, v.now, job, RefOf(Utf8(diff), UnifiedDiff), p)
    ensures Sha256(Utf8(diff)) in v.blobs && v.blobs[Sha256(Utf8(diff))] == Utf8(diff)
  {
    hide Safe, Apply, Runs, Held, DemandOf, Put.Ref, Kept, OperationFor, RefOf, IsUnifiedDiff, ValidateProposal;
    hide RequestApproval, AsksApproval, Asked, RecordAll;
    ProposalSucceeds(u.db, u.now, job);
    ProposalBeginRuns(u, s, job.token, diff);
    var checked := Go(u, s, ProposalChecked(job.token, diff));
    ProposalBeginApplies(u, s, job.token, diff);
    Onward(w, u, ProposalBeginStep(s, job.token, diff), checked);
    PatchDemanded(job.token, diff);
    var kept := ArtifactKept(w, checked, s, job, MissionStatus.Running);
    var patch := RefOf(Utf8(diff), UnifiedDiff);
    FreshIds(kept);
    p :| p !in kept.db.approvals;
    SafeParts(kept);
    AskSucceeds(kept.db, kept.cfg, kept.now, job, patch, p);
    var db := RequestApproval(kept.db, kept.cfg, kept.now, job.token, patch, p).value;
    AskRuns(kept, s, job.token, diff, patch, p, db);
    v := End(Commit(kept.(proposals := kept.proposals[p := diff]), db), s);
    ApprovalAskApplies(kept, s, p);
    Onward(w, kept, ApprovalAskStep(s, p), v);
  }

  /** The approval was granted for this patch, and the job's attempt resumes the one that asked. */
  predicate Granted(db: Db, job: Job, patch: ArtifactRef, p: Id) {
    && Authorizes(db, p, job.token.attempt, patch.sha)
    && db.approvals[p].scope == CandidateCommit && db.approvals[p].actionType == CandidateCommit
    && db.approvals[p].patch == Some(patch)
  }

  lemma ResolveSucceeds(db: Db, now: Time, job: Job, patch: ArtifactRef, p: Id, child: Id, event: Id)
    requires Asked(db, now, job, patch, p) && child !in db.attempts
    ensures var r := ResolveApproval(db, now, p, true, 0, child, event);
      var resumed := job.(token := Token(child, 0, 1, 1));
      && r.Ok? && Waiting(r.value, resumed, TaskStatus.Retryable, MissionStatus.Running)
      && Granted(r.value, resumed, patch, p) && r.value.keys == db.keys
  {}

  lemma ResolveRuns(w: World, p: Id, child: Id, event: Id, db: Db)
    requires child !in w.db.attempts && FreshEvent(w.db.outbox, event)
    requires ResolveApproval(w.db, w.now, p, true, 0, child, event) == Ok(db)
    ensures Decide(w, p, true, 0, child, event) == Commit(w, db)
  {
    hide ResolveApproval, FreshEvent, Commit, ApplyEvidential, ApplyOther;
  }

  lemma GrantedClaimed(db: Db, after: Db, now: Time, until: Time, job: Job, patch: ArtifactRef, p: Id)
    requires TakesLease(db, after, now, job.token.attempt, 0, until) && Granted(db, job, patch, p)
    ensures Granted(after, job, patch, p) && after.keys == db.keys
  {}

  /** The approval is granted, and the resuming attempt is claimed. */
  lemma ChildTaken(w: World, u: World, job: Job, patch: ArtifactRef, p: Id) returns (v: World, resumed: Job)
    requires Safe(u) && Runs(w, u) && Asked(u.db, u.now, job, patch, p)
    ensures Safe(v) && Runs(w, v) && Held(v.db, v.now, resumed, MissionStatus.Running)
    ensures Granted(v.db, resumed, patch, p) && Vacant(v.db.keys, resumed.token.attempt)
    ensures resumed == job.(token := resumed.token) && v.sessions == u.sessions && v.blobs == u.blobs
  {
    hide Safe, Apply, Runs, Held, Asked, Waiting, Granted, ResolveApproval, RecordAll, Vacant, FreshEvent, TakesLease;
    FreshIds(u);
    var ids: RepairIds :| FreshRepair(u.db, ids);
    var child := ids.attempt;
    resumed := job.(token := Token(child, 0, 1, 1));
    FreshRowsAreVacant(u, child, job.mission);
    ResolveSucceeds(u.db, u.now, job, patch, p, child, ids.event);
    var db := ResolveApproval(u.db, u.now, p, true, 0, child, ids.event).value;
    ResolveRuns(u, p, child, ids.event, db);
    var granted := Commit(u, db);
    ResolveApplies(u, p, true, 0, child, ids.event);
    Onward(w, u, ResolveStep(p, true, 0, child, ids.event), granted);
    v := Claimed(w, granted, resumed, TaskStatus.Retryable, MissionStatus.Running);
    GrantedClaimed(db, v.db, granted.now, granted.now + granted.cfg.lease, resumed, patch, p);
  }

  lemma ContextSucceeds(db: Db, blobs: map<Digest, Bytes>, now: Time, job: Job, diff: string, p: Id)
    requires Held(db, now, job, MissionStatus.Running) && job.kind == RepairCandidate && job.spec.mode == RepairMode
    requires Granted(db, job, RefOf(Utf8(diff), UnifiedDiff), p) && IsUnifiedDiff(diff)
    requires Sha256(Utf8(diff)) in blobs && blobs[Sha256(Utf8(diff))] == Utf8(diff)
    ensures LoadRepairContext(db, blobs, now, job.token, p) == Ok(ContextFor(job, diff))
  {
    hide IsUnifiedDiff, Size;
  }

  function ContextFor(job: Job, diff: string): RepairContext {
    RepairContext(job.mission, job.spec.commit, job.spec.allowedPaths, job.spec.maxFiles,
                  job.spec.maxChangedLines, diff)
  }

  lemma CandidateSucceeds(db: Db, now: Time, job: Job, diff: string, id: Id, commit: string)
    requires Held(db, now, job, MissionStatus.Running) && Key(job.token.attempt, CandidateSlot) !in db.keys
    ensures var key := Key(job.token.attempt, CandidateSlot);
      var o := NewOperation(key, CandidateCommit, Sha256(Utf8(diff)), job.token.epoch, CandidateTree, now);
      var prepared := AddOperation(db, id, o);
      && PrepareCandidate(db, now, job.token, diff, id) == Ok((prepared, id))
      && prepared.operations[id].status == OperationStatus.Prepared
      && (var r := FinishCandidate(prepared, now, job.token, commit);
          && r.Ok? && id in r.value.operations && r.value.operations[id].status == OperationStatus.Succeeded
          && r.value.operations[id].result == Some(External(commit)))
  {}

  lemma CandidateBeginRuns(w: World, s: Id, token: Token, p: Id, context: RepairContext)
    requires s !in w.sessions && LoadRepairContext(w.db, w.blobs, w.now, token, p) == Ok(context)
    ensures CandidateBegin(w, s, token, p) == Go(w, s, ContextLoaded(token, p, context))
  {
    hide LoadRepairContext, ApplyBasic, ApplyEvidential;
  }

  lemma CandidatePrepareRuns(w: World, s: Id, token: Token, p: Id, context: RepairContext, id: Id, db: Db)
    requires s in w.sessions && w.sessions[s] == ContextLoaded(token, p, context) && id !in w.db.operations
    requires PrepareCandidate(w.db, w.now, token, context.diff, id) == Ok((db, id))
    requires id in db.operations && db.operations[id].status != OperationStatus.Succeeded
    ensures CandidatePrepare(w, s, id) == Go(Commit(w, db), s, CandidatePrepared(token, context, id))
  {
    hide PrepareCandidate, Commit, ApplyBasic, ApplyEvidential;
  }

  lemma CandidateCommitRuns(w: World, s: Id, token: Token, context: RepairContext, id: Id, commit: string)
    requires s in w.sessions && w.sessions[s] == CandidatePrepared(token, context, id)
    ensures CommitCandidate(w, s, commit) ==
            Go(w.(handed := w.handed + {Handed(id, context)}), s, Session.CandidateCommitted(token, commit))
  {
    hide ApplyBasic, ApplyEvidential;
  }

  lemma CandidateFinishRuns(w: World, s: Id, token: Token, commit: string, db: Db)
    requires s in w.sessions && w.sessions[s] == Session.CandidateCommitted(token, commit)
    requires FinishCandidate(w.db, w.now, token, commit) == Ok(db)
    ensures CandidateFinish(w, s) == End(Commit(w, db), s)
  {
    hide FinishCandidate, Commit, ApplyBasic, ApplyEvidential;
  }

  /** Mission `m` has a candidate commit that git made of the context. */
  ghost predicate CommittedFrom(w: World, id: Id, context: RepairContext, commit: string) {
    && Handed(id, context) in w.handed && id in w.db.operations
    && w.db.operations[id].status == OperationStatus.Succeeded && w.db.operations[id].result == Some(External(commit))
  }

  lemma CommittedAndRecorded(w: World, u: World, s: Id, job: Job, p: Id, diff: string, commit: string)
    returns (v: World, id: Id)
    requires Safe(u) && Runs(w, u) && Held(u.db, u.now, job, MissionStatus.Running) && s !in u.sessions
    requires job.kind == RepairCandidate && job.spec.mode == RepairMode && Vacant(u.db.keys, job.token.attempt)
    requires Granted(u.db, job, RefOf(Utf8(diff), UnifiedDiff), p) && IsUnifiedDiff(diff)
    requires Sha256(Utf8(diff)) in u.blobs && u.blobs[Sha256(Utf8(diff))] == Utf8(diff)
    ensures Safe(v) && Runs(w, v) && CommittedFrom(v, id, ContextFor(job, diff), commit)
  {
    hide Safe, Apply, Runs, Held, Granted, RefOf, IsUnifiedDiff, LoadRepairContext, PrepareCandidate, FinishCandidate;
    hide RecordAll;
    ContextSucceeds(u.db, u.blobs, u.now, job, diff, p);
    var context := ContextFor(job, diff);
    CandidateBeginRuns(u, s, job.token, p, context);
    var loaded := Go(u, s, ContextLoaded(job.token, p, context));
    CandidateBeginApplies(u, s, job.token, p);
    Onward(w, u, CandidateBeginStep(s, job.token, p), loaded);
    FreshExists(u.db.operations.Keys);
    id :| id !in u.db.operations.Keys;
    CandidateSucceeds(u.db, u.now, job, diff, id, commit);
    var db := PrepareCandidate(u.db, u.now, job.token, diff, id).value.0;
    CandidatePrepareRuns(loaded, s, job.token, p, context, id, db);
    var prepared := Go(Commit(loaded, db), s, CandidatePrepared(job.token, context, id));
    CandidatePrepareApplies(loaded, s, id);
    Onward(w, loaded, CandidatePrepareStep(s, id), prepared);
    CandidateCommitRuns(prepared, s, job.token, context, id, commit);
    var committed := Go(prepared.(handed := prepared.handed + {Handed(id, context)}), s,
                        Session.CandidateCommitted(job.token, commit));
    CandidateCommitApplies(prepared, s, commit);
    Onward(w, prepared, CandidateCommitStep(s, commit), committed);
    var after := FinishCandidate(db, u.now, job.token, commit).value;
    CandidateFinishRuns(committed, s, job.token, commit, after);
    v := End(Commit(committed, after), s);
    CandidateFinishApplies(committed, s);
    Onward(w, committed, CandidateFinishStep(s), v);
  }

  /** The sandbox result of a run that exits with an error and prints nothing. */
  const Crashed := SandboxResult(0, "", 1, Binary([]), map[], "", "")

  /** From any reachable state, for every repair spec, every unified diff and every commit id, there is
      a run that approves the diff for a new mission of that spec, hands it to git with the limits of
      the spec, and records the commit. */
  lemma AnyDiffCanBeApproved(w: World, spec: Spec, diff: string, commit: string)
    requires Reachable(w) && spec.mode == RepairMode && IsUnifiedDiff(diff)
    ensures exists v: World, id: Id, job: Job ::
      Runs(w, v) && job.mission !in w.db.missions && job.spec == spec
          && CommittedFrom(v, id, ContextFor(job, diff), commit)
  {
    hide Reachable, Safe, Runs, Apply, Held, Vacant, IsUnifiedDiff, Asked, Granted, CommittedFrom, RefOf, Unrecorded;
    ReachableSafe(w);
    var s := Above(w.sessions.Keys);
    var ready, job := Opened(w, spec, None);
    assert s !in ready.sessions;
    var run := Run(spec, Crashed, commit);
    var logged, log := LogStored(w, ready, s, job, run);
    var taken, repair := RepairTaken(w, logged, s, job, run, log);
    var asked, p := ApprovalAsked(w, taken, s, repair, diff);
    var resumed, child := ChildTaken(w, asked, repair, RefOf(Utf8(diff), UnifiedDiff), p);
    var v, id := CommittedAndRecorded(w, resumed, s, child, p, diff, commit);
    assert Runs(w, v) && child.mission !in w.db.missions && child.spec == spec;
  }

  // ---------------------------------------------------------------- a cancellation that is confirmed

  lemma CancellationSucceeds(db: Db, now: Time, job: Job)
    requires Held(db, now, job, MissionStatus.Running)
    ensures var r := RequestCancellation(db, now, job.mission);
      && r.Ok? && Held(r.value, now, job, MissionStatus.Cancelling)
  {}

  lemma ConfirmSucceeds(db: Db, now: Time, job: Job)
    requires Held(db, now, job, MissionStatus.Cancelling)
    ensures AssertCancelling(db, now, job.token).Ok? && CancelAttempt(db, now, job.token).Ok?
    ensures RowsFit(CancelAttempt(db, now, job.token).value, job, TaskStatus.Cancelled, MissionStatus.Cancelled)
  {}

  lemma AskCancelRuns(w: World, m: Id, db: Db)
    requires RequestCancellation(w.db, w.now, m) == Ok(db)
    ensures AskCancel(w, m) == Commit(w, db)
  {
    hide RequestCancellation, Commit, ApplyEvidential, ApplyOther;
  }

  lemma CancelBeginRuns(w: World, s: Id, token: Token)
    requires s !in w.sessions && AssertCancelling(w.db, w.now, token).Ok?
    ensures CancelBegin(w, s, token) == Go(w, s, StopDue(token))
  {
    hide AssertCancelling, ApplyBasic, ApplyEvidential;
  }

  lemma SandboxStopRuns(w: World, s: Id, token: Token)
    requires s in w.sessions && w.sessions[s] == StopDue(token) && LeaseHeld(w.db, token, w.now)
    ensures var stop := Stop(token, w.now, true);
      SandboxStop(w, s) == Go(w.(stops := w.stops + {stop}), s, StopAccepted(token, stop))
  {
    hide ApplyBasic, ApplyEvidential;
  }

  lemma MissionCancelRuns(w: World, s: Id, token: Token, db: Db)
    requires s in w.sessions && w.sessions[s].StopAccepted? && w.sessions[s].token == token
    requires CancelAttempt(w.db, w.now, token) == Ok(db)
    ensures MissionCancel(w, s) == End(Commit(w, db), s)
  {
    hide CancelAttempt, Commit, ApplyBasic, ApplyEvidential;
  }

  lemma CancellationConfirmed(w: World, u: World, s: Id, job: Job) returns (v: World)
    requires Safe(u) && Runs(w, u) && Held(u.db, u.now, job, MissionStatus.Cancelling) && s !in u.sessions
    ensures Safe(v) && Runs(w, v) && RowsFit(v.db, job, TaskStatus.Cancelled, MissionStatus.Cancelled)
  {
    hide Safe, Apply, Runs, AssertCancelling, CancelAttempt, RecordAll, RowsFit;
    ConfirmSucceeds(u.db, u.now, job);
    CancelBeginRuns(u, s, job.token);
    var due := Go(u, s, StopDue(job.token));
    CancelBeginApplies(u, s, job.token);
    Onward(w, u, CancelBeginStep(s, job.token), due);
    SandboxStopRuns(due, s, job.token);
    var stop := Stop(job.token, u.now, true);
    var stopped := Go(due.(stops := due.stops + {stop}), s, StopAccepted(job.token, stop));
    SandboxStopApplies(due, s);
    Onward(w, due, SandboxStopStep(s), stopped);
    var db := CancelAttempt(u.db, u.now, job.token).value;
    MissionCancelRuns(stopped, s, job.token, db);
    v := End(Commit(stopped, db), s);
    MissionCancelApplies(stopped, s);
    Onward(w, stopped, MissionCancelStep(s), v);
  }

  /** From any reachable state there is a run that opens a mission of any spec, cancels it while its
      attempt runs, and confirms the cancellation. */
  lemma CancellationIsAttained(w: World, spec: Spec, proposal: Option<Id>)
    requires Reachable(w)
    ensures exists v: World, m: Id :: Runs(w, v) && m !in w.db.missions && m in v.db.missions
                                      && v.db.missions[m].status == MissionStatus.Cancelled
                                          && v.db.missions[m].spec == spec
  {
    hide Reachable, Safe, Runs, Apply, Held, Vacant, Unrecorded, RequestCancellation, RecordAll;
    ReachableSafe(w);
    var s := Above(w.sessions.Keys);
    var ready, job := Opened(w, spec, proposal);
    CancellationSucceeds(ready.db, ready.now, job);
    var db := RequestCancellation(ready.db, ready.now, job.mission).value;
    AskCancelRuns(ready, job.mission, db);
    var asked := Commit(ready, db);
    AskCancelApplies(ready, job.mission);
    Onward(w, ready, AskCancelStep(job.mission), asked);
    assert s !in asked.sessions;
    var v := CancellationConfirmed(w, asked, s, job);
    assert v.db.missions[job.mission].status == MissionStatus.Cancelled;
  }

  // ---------------------------------------------------------------- an attempt whose worker died

  lemma RunningExpires(w: World, a: Id)
    requires Safe(w) && a in w.db.attempts && w.db.attempts[a].status == AttemptStatus.Running
    ensures w.db.attempts[a].expires.Some?
  {
    hide Safe;
    SafeLease(w, a);
  }

  lemma TickApplies(w: World, elapsed: nat)
    ensures Apply(w, Tick(elapsed)) == w.(now := w.now + elapsed)
  {
    hide ApplyEvidential, ApplyOther;
  }

  /** The attempt and its task are not finished. */
  predicate Unfinished(db: Db, a: Id) {
    && Indexed(db, a)
    && db.attempts[a].status in {AttemptStatus.Pending, AttemptStatus.Running, AttemptStatus.Retryable}
    && db.tasks[TaskOf(db, a)].status in {TaskStatus.Pending, TaskStatus.Running, TaskStatus.Retryable}
  }

  lemma LeaseTaken(w: World, u: World, a: Id, owner: Id) returns (v: World, token: Token)
    requires Safe(u) && Runs(w, u) && Unfinished(u.db, a)
    requires u.db.attempts[a].status == AttemptStatus.Running ==>
               u.db.attempts[a].expires.Some? && u.db.attempts[a].expires.value <= u.now
    ensures Runs(w, v) && token == Token(a, owner, u.db.attempts[a].epoch + 1, u.db.attempts[a].version + 1)
    ensures HoldsLease(v.db, token, v.now)
  {
    hide Safe, Runs, Apply, ClaimAttempt, HoldsLease, RecordAll;
    SafeParts(u);
    ClaimIsAcceptedIff(u.db, u.cfg, u.now, a, owner);
    ClaimRuns(u, a, owner);
    v := Commit(u, ClaimAttempt(u.db, u.cfg, u.now, a, owner).value.0);
    token := ClaimAttempt(u.db, u.cfg, u.now, a, owner).value.1;
    ClaimApplies(u, a, owner);
    Onward(w, u, ClaimStep(a, owner), v);
    ClaimGrants(u.db, u.cfg, u.now, a, owner, u.now, Token(a, owner, 0, 0));
  }

  /** The attempt's lease is in this owner's hands, in this epoch. */
  predicate InHands(v: World, a: Id, owner: Id, epoch: nat) {
    a in v.db.attempts && HoldsLease(v.db, Token(a, owner, epoch, v.db.attempts[a].version), v.now)
  }

  /** However an attempt was left, by a worker that died with its lease or by nobody at all: as long as it
      and its task are not finished, any worker can get its lease, under the next epoch, once the lease
      that is held has expired. */
  lemma UnfinishedAttemptIsTakenOver(w: World, a: Id, owner: Id)
    requires Reachable(w) && Unfinished(w.db, a)
    ensures exists v: World :: Runs(w, v) && InHands(v, a, owner, w.db.attempts[a].epoch + 1)
  {
    hide Reachable, Safe, Runs, Apply;
    ReachableSafe(w);
    var row := w.db.attempts[a];
    if row.status == AttemptStatus.Running { RunningExpires(w, a); }
    var wait := if row.expires.Some? && w.now < row.expires.value then row.expires.value - w.now else 0;
    var u := w.(now := w.now + wait);
    TickApplies(w, wait);
    RunsNowhere(w);
    Onward(w, w, Tick(wait), u);
    var v, token := LeaseTaken(w, u, a, owner);
    assert InHands(v, a, owner, row.epoch + 1);
  }
}
