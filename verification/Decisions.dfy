/** When the calls that decide something succeed, in every reachable state: the checks that a transaction
    makes, less what every reachable state guarantees anyway. */
module Decisions {
  import opened Basics
  import opened Content
  import opened JsonPointer
  import opened Lifecycle
  import opened Tables
  import opened Transactions
  import opened Evolution
  import opened Changes
  import opened Completion
  import opened Ledger
  import opened EvidenceGate
  import opened Approvals
  import opened Routing
  import opened Acceptance
  import opened Invariant
  import opened Runtime
  import opened Sessions
  import opened Safety
  import opened Effects
  import opened Steps
  import opened History
  import opened Theorems

  // ---------------------------------------------------------------- approvals

  /** An approval expires one time to live after it was asked for, whatever happens to it. */
  lemma ApprovalsExpire(w: World, p: Id)
    requires Reachable(w) && p in w.db.approvals
    ensures w.db.approvals[p].expiresAt == w.db.approvals[p].requestedAt + w.cfg.approvalTtl
  {
    hide Reachable, Safe, IsUnifiedDiff;
    ReachableSafe(w);
    SafeProposals(w);
    assert ProposalSound(w.db.approvals, w.proposals, w.cfg.approvalTtl, p);
  }

  lemma ApprovalRows(w: World, p: Id)
    requires Safe(w) && p in w.db.approvals
    ensures var row := w.db.approvals[p];
      && Indexed(w.db, row.attempt) && TaskOf(w.db, row.attempt) == row.task
      && MissionOf(w.db, row.attempt) == row.mission && row.mission in w.db.missions
      && (row.status == ApprovalStatus.Pending ==> Paused(w.db.missions[row.mission].status))
  {
    hide Safe, CandidatesAuthorized, Registered;
    SafeApprovals(w);
    assert ApprovalSound(w.db, p);
    SafeCoupled(w);
    hide AllChildrenCounted;
    assert PendingPauses(w.db.missions, w.db.approvals, p);
  }

  /** A decision is accepted exactly when the approval is pending, its time to live has not passed, and
      its mission waits for it; a rejection is also taken while the mission is being cancelled, but only
      for a task that is not finished. */
  lemma PendingIsDecidedIff(w: World, p: Id, decider: Id, child: Id, event: Id)
    requires Reachable(w) && p in w.db.approvals
    ensures var row := w.db.approvals[p];
      && row.mission in w.db.missions && row.task in w.db.tasks
      && (ResolveApproval(w.db, w.now, p, true, decider, child, event).Ok? <==>
            && row.status == ApprovalStatus.Pending && w.now < row.requestedAt + w.cfg.approvalTtl
            && w.db.missions[row.mission].status == MissionStatus.WaitingApproval)
      && (ResolveApproval(w.db, w.now, p, false, decider, child, event).Ok? <==>
            && row.status == ApprovalStatus.Pending && w.now < row.requestedAt + w.cfg.approvalTtl
            && w.db.missions[row.mission].status in {MissionStatus.WaitingApproval, MissionStatus.Cancelling}
            && w.db.tasks[row.task].status in {TaskStatus.Pending, TaskStatus.Running, TaskStatus.Retryable})
  {
    hide Reachable, Safe, ResolveApproval;
    ReachableSafe(w);
    ApprovalsExpire(w, p);
    ApprovalRows(w, p);
    DecisionIsAcceptedIff(w.db, w.now, p, decider, child, event);
  }

  /** A decision that is accepted is recorded with its time and its decider, and ends the wait of the mission;
      one that is refused leaves no trace. */
  lemma DecisionIsRecorded(w: World, p: Id, approved: bool, decider: Id, child: Id, event: Id)
    requires p in w.db.approvals && child !in w.db.attempts && FreshEvent(w.db.outbox, event)
    ensures var (v, row) := (Apply(w, ResolveStep(p, approved, decider, child, event)), w.db.approvals[p]);
      if ResolveApproval(w.db, w.now, p, approved, decider, child, event).Ok? then
        && p in v.db.approvals && row.mission in v.db.missions
        && v.db.approvals[p].decidedAt == Some(w.now) && v.db.approvals[p].decidedBy == Some(decider)
        && v.db.approvals[p].status == (if approved then ApprovalStatus.Approved else ApprovalStatus.Rejected)
        && v.db.missions[row.mission].status == (if approved then MissionStatus.Running else MissionStatus.Failed)
      else v == w
  {
    hide Apply, ResolveApproval, RecordAll, FreshEvent;
    ResolveApplies(w, p, approved, decider, child, event);
    if ResolveApproval(w.db, w.now, p, approved, decider, child, event).Ok? {
      DecisionLeaves(w.db, w.now, p, approved, decider, child, event);
    }
  }

  /** A heartbeat of the holder of a lease keeps it for the lease time from then on, under the next version;
      that of anybody else leaves no trace. */
  lemma HeartbeatKeepsLease(w: World, token: Token, t: Time)
    ensures var (v, renewed) := (Apply(w, RenewStep(token)), token.(version := token.version + 1));
      if HoldsLease(w.db, token, w.now) then HoldsLease(v.db, renewed, t) <==> t < w.now + w.cfg.lease else v == w
  {
    hide Apply, RenewLease, RecordAll, HoldsLease;
    RenewApplies(w, token);
    RenewalGrants(w.db, w.cfg, w.now, token, t);
  }

  // ---------------------------------------------------------------- the candidate

  lemma ProposalIsKept(w: World, p: Id)
    requires Safe(w) && p in w.db.approvals
    ensures p in w.proposals && IsUnifiedDiff(w.proposals[p])
    ensures var (row, payload) := (w.db.approvals[p], Utf8(w.proposals[p]));
      && row.actionHash == Sha256(payload) && row.scope == CandidateCommit && row.actionType == CandidateCommit
      && row.patch.Some? && row.patch.value.sha == row.actionHash
      && ReadVerified(w.blobs, row.patch.value) == Ok(payload)
  {
    hide Safe, CandidatesAuthorized, Registered, IsUnifiedDiff, Indexed;
    SafeApprovals(w);
    SafeProposals(w);
    assert ApprovalSound(w.db, p) && ProposalSound(w.db.approvals, w.proposals, w.cfg.approvalTtl, p);
    var row := w.db.approvals[p];
    RegisteredReads(w, Key(row.attempt, PatchSlot(row.actionHash)), row.patch.value);
    hide Size, ApprovalSound, ProposalSound;
  }

  lemma ParentIsLinked(w: World, a: Id)
    requires Safe(w) && a in w.db.attempts && w.db.attempts[a].parent.Some?
    ensures Indexed(w.db, a) && Indexed(w.db, w.db.attempts[a].parent.value)
    ensures TaskOf(w.db, a) == TaskOf(w.db, w.db.attempts[a].parent.value)
  {
    SafeWork(w);
    SafeRows(w);
    hide Safe, RecordsSound, EffectsSound, Completions, TaskShape, Coupled, AllChildrenCounted;
  }

  lemma ParentAsked(w: World, a: Id, p: Id)
    requires Safe(w) && a in w.db.attempts && p in w.db.approvals
    requires w.db.attempts[a].parent == Some(w.db.approvals[p].attempt)
    ensures Indexed(w.db, a) && TaskOf(w.db, a) == w.db.approvals[p].task
    ensures MissionOf(w.db, a) == w.db.approvals[p].mission
    ensures w.db.tasks[TaskOf(w.db, a)].kind == RepairCandidate
  {
    hide Safe, CandidatesAuthorized, Registered;
    ParentIsLinked(w, a);
    ApprovalRows(w, p);
    SafeApprovals(w);
    assert ApprovalSound(w.db, p);
  }

  /** Of all its checks, loading what an approval authorizes comes down to four: the lease, a granted
      approval, an attempt that resumes the one that asked, and a repair spec. What it loads is the diff
      that was asked for, with the limits of the spec. */
  lemma ContextIsLoadedIff(w: World, token: Token, p: Id)
    requires Reachable(w)
    ensures var (r, a) := (LoadRepairContext(w.db, w.blobs, w.now, token, p), token.attempt);
      && (r.Ok? <==>
            && HoldsLease(w.db, token, w.now)
            && p in w.db.approvals && w.db.approvals[p].status == ApprovalStatus.Approved
            && w.db.attempts[a].parent == Some(w.db.approvals[p].attempt)
            && Indexed(w.db, a) && w.db.missions[MissionOf(w.db, a)].spec.mode == RepairMode)
      && (r.Ok? ==> p in w.proposals && r.value.diff == w.proposals[p] && ContextOf(w.db, a, r.value))
  {
    hide Reachable, Safe, LoadRepairContext, HoldsLease;
    ReachableSafe(w);
    if token.attempt in w.db.attempts && p in w.db.approvals {
      ProposalIsKept(w, p);
      if w.db.attempts[token.attempt].parent == Some(w.db.approvals[p].attempt) { ParentAsked(w, token.attempt, p); }
      ContextChecks(w.db, w.blobs, w.now, token, p, w.proposals[p]);
    } else {
      NoContext(w.db, w.blobs, w.now, token, p);
    }
  }

  lemma NoContext(db: Db, blobs: map<Digest, Bytes>, now: Time, token: Token, p: Id)
    requires token.attempt !in db.attempts || p !in db.approvals
    ensures LoadRepairContext(db, blobs, now, token, p).Err?
    ensures token.attempt !in db.attempts ==> !HoldsLease(db, token, now)
  {
    hide Attempt.CheckLease, IsUnifiedDiff, ReadVerified;
  }

  lemma ContextChecks(db: Db, blobs: map<Digest, Bytes>, now: Time, token: Token, p: Id, diff: string)
    requires token.attempt in db.attempts && p in db.approvals
    requires var (row, a) := (db.approvals[p], token.attempt);
      && row.actionHash == Sha256(Utf8(diff)) && row.scope == CandidateCommit && row.actionType == CandidateCommit
      && row.patch.Some? && row.patch.value.sha == row.actionHash && IsUnifiedDiff(diff)
      && ReadVerified(blobs, row.patch.value) == Ok(Utf8(diff))
      && (db.attempts[a].parent == Some(row.attempt) ==>
            Indexed(db, a) && TaskOf(db, a) == row.task && MissionOf(db, a) == row.mission
            && db.tasks[TaskOf(db, a)].kind == RepairCandidate)
    ensures var (r, a) := (LoadRepairContext(db, blobs, now, token, p), token.attempt);
      && (r.Ok? <==>
            && HoldsLease(db, token, now) && db.approvals[p].status == ApprovalStatus.Approved
            && db.attempts[a].parent == Some(db.approvals[p].attempt)
            && Indexed(db, a) && db.missions[MissionOf(db, a)].spec.mode == RepairMode)
      && (r.Ok? ==> r.value.diff == diff && ContextOf(db, a, r.value))
  {
    LeaseCheckIff(db, token, now);
    hide HoldsLease, Attempt.CheckLease, IsUnifiedDiff, ReadVerified;
  }

  // ---------------------------------------------------------------- completion

  /** The gate opens exactly for a verifying mission with a metric of the attempt and a claim: every claim
      and link that there is was registered verified. */
  lemma FactsAreCollectedIff(w: World, token: Token)
    requires Reachable(w)
    ensures CollectFacts(w.db, w.now, token).Ok? <==>
      && HoldsLease(w.db, token, w.now) && GateOpen(w.db, token.attempt)
      && w.db.missions[MissionOf(w.db, token.attempt)].status == MissionStatus.Verifying
  {
    hide Reachable, Safe;
    ReachableSafe(w);
    SafeRows(w);
    var a := token.attempt;
    if a in w.db.attempts {
      LeaseCheckIff(w.db, token, w.now);
      hide HoldsLease, Attempt.CheckLease, HasLink;
      var claims := ClaimsOf(w.db.claims, MissionOf(w.db, a));
      forall c | c in claims ensures ClaimBacked(w, c) {
        ClaimIsBacked(w, c);
      }
      assert GateOpen(w.db, a) <==> a in w.db.metrics && claims != {} by {
        if claims != {} { var c :| c in claims; assert ClaimFor(w.db, c, MissionOf(w.db, a)); }
        if GateOpen(w.db, a) { var c :| ClaimFor(w.db, c, MissionOf(w.db, a)); assert c in claims; }
      }
      hide GateOpen;
      if claims != {} { var c :| c in claims; assert ClaimBacked(w, c); }
    }
  }

  /** Whoever asks again is told: the bundle that is recorded when the mission is completed, and nothing
      before. */
  lemma CompletionIsAnsweredAgain(w: World, a: Id)
    requires Reachable(w)
    ensures !Indexed(w.db, a) ==> AlreadyCompleted(w.db, a) == Err(NotFound)
    ensures Indexed(w.db, a) ==>
      var (r, m) := (AlreadyCompleted(w.db, a), MissionOf(w.db, a));
      if w.db.missions[m].status == MissionStatus.Completed then m in w.db.bundles && r == Ok(Some(w.db.bundles[m]))
      else r == Ok(None)
  {
    hide Reachable, Safe;
    ReachableSafe(w);
    SafeRows(w);
    if a in w.db.attempts { CompletionHappensOnce(w, MissionOf(w.db, a)); }
  }

  // ---------------------------------------------------------------- starting over

  lemma SlotStays(db: Db, after: Db, key: Key)
    requires Later(db, after) && key in db.keys && db.keys[key] in db.operations
    ensures key in after.keys && after.keys[key] == db.keys[key] && after.keys[key] in after.operations
    ensures SameIdentity(db.operations[db.keys[key]], after.operations[after.keys[key]])
  {
    hide MissionsLater, TasksLater, AttemptsLater, ApprovalsLater;
  }

  /** A put that was begun can be begun again in every later state, by whoever holds the lease in the same
      epoch: nothing is added, and once the artifact is registered that is the answer. */
  lemma PutIsAdoptedLater(w: World, v: World, token: Token, again: Token, put: Put, id: Id)
    requires Reachable(w) && Runs(w, v) && KindOf(put.slot) == CasPut
    requires InProgressFor(w.db, token, put.slot, Sha256(put.payload))
    requires again.attempt == token.attempt && again.epoch == token.epoch && MayWork(v.db, again, v.now)
    ensures var (r, key) := (PreparePut(v.db, v.now, again, put, id), Key(token.attempt, put.slot));
      && r.Ok? && r.value.0 == v.db && (r.value.1.Some? <==> Taken(v.db, key))
      && (r.value.1.Some? ==> r.value.1.value.artifact.sha == Sha256(put.payload)
                              && r.value.1.value.operation == w.db.keys[key])
  {
    hide Reachable, Safe, Runs, PreparePut, Later, HoldsLease;
    ReachableSafe(w);
    RunsOnlyMoveForward(w, v);
    ReachableLater(w, v);
    var key := Key(token.attempt, put.slot);
    SlotStays(w.db, v.db, key);
    SafeKeys(v);
    LedgerAgreesWithBlobs(v, v.db.keys[key]);
    hide Keyed, ReadVerified;
    PutIsPreparedIff(v.db, v.now, again, put, id);
  }

  // ---------------------------------------------------------------- judging a run

  /** What becomes of a sandbox run under a spec: the first requirement that it does not meet decides. */
  datatype Judgement = Fails(code: FailureCode) | Unreadable | Passes(value: real)

  function Judge(spec: Spec, result: SandboxResult): Judgement {
    if Size(result.log) > spec.maxLogBytes then Fails(LogBudgetExceeded)
    else if result.exitCode != 0 then Fails(SandboxNonzeroExit)
    else if spec.metricPath !in result.files then Fails(MetricArtifactMissing)
    else
      var metric := result.files[spec.metricPath];
      if Size(result.log) + Size(metric) > spec.maxArtifactBytes then Fails(ArtifactBudgetExceeded)
      else
        match ValidateMetric(metric, spec.expectation)
        case Err(_) => Unreadable
        case Ok(v) => if InRange(v.value, spec.expectation) then Passes(v.value) else Fails(MetricExpectationFailed)
  }

  /** The call finalizes this run. */
  predicate Finalizes(session: Session, run: Run) {
    (session.RunLoaded? || session.LogKept? || session.MetricKept?) && session.run == run
  }

  /** What a finalizing call does next, at whichever of its stages it is, is what the judgement of its run
      says: it fails the run with that code and no other, or goes on to the next artifact, and it registers
      the run exactly if that passes. */
  lemma DemandIsJudged(w: World, s: Id, run: Run)
    requires Safe(w) && s in w.sessions && Finalizes(w.sessions[s], run)
    ensures var (demand, judgement) := (DemandOf(w.sessions[s]), Judge(run.spec, run.result));
      && (demand.FailWith? ==> judgement == Fails(demand.code))
      && (demand.RegisterNow? ==> judgement == Passes(demand.evidence.validation.value))
      && (demand.Raise? ==> judgement == Unreadable)
      && (w.sessions[s].MetricKept? ==>
            (judgement.Fails? ==> demand.FailWith?) && (judgement.Passes? ==> demand.RegisterNow?))
      && (demand.Persist? ==>
            demand.put.slot == if w.sessions[s].RunLoaded? then LogSlot else MetricSlot)
  {
    hide Safe, Size, Registered, SpecOf, ValidateMetric;
    SessionIsOk(w, s);
    var session := w.sessions[s];
    if session.MetricKept? {
      var payload := run.result.files[run.spec.metricPath];
      if ValidateMetric(payload, run.spec.expectation).Ok? { ValidationHolds(payload, run.spec.expectation); }
    }
  }

  /** So a run that is failed ends its call, and is recorded, with the code of its judgement, exactly if
      the call may still fail it. */
  lemma FailedRunIsRecorded(w: World, s: Id, run: Run, ids: RepairIds)
    requires Reachable(w) && s in w.sessions && Finalizes(w.sessions[s], run) && DemandOf(w.sessions[s]).FailWith?
    requires ids.task !in w.db.tasks && ids.attempt !in w.db.attempts && FreshEvent(w.db.outbox, ids.event)
    ensures var (v, token) := (Apply(w, RunFailStep(s, ids)), w.sessions[s].token);
      && s !in v.sessions
      && (if Indexed(w.db, token.attempt) && MayFail(w.db, token, w.now, run.spec.mode == RepairMode) then
            && token.attempt in v.db.attempts && v.db.attempts[token.attempt].status == AttemptStatus.Failed
            && v.db.attempts[token.attempt].failure.Some?
            && Judge(run.spec, run.result) == Fails(v.db.attempts[token.attempt].failure.value)
          else v.db == w.db)
  {
    hide Reachable, Safe, Apply, DemandOf, Judge, FailRun, RecordAll, FreshEvent, MayFail;
    ReachableSafe(w);
    DemandIsJudged(w, s, run);
    RunFailApplies(w, s, ids);
    var token, code := w.sessions[s].token, DemandOf(w.sessions[s]).code;
    var repairMode := run.spec.mode == RepairMode;
    RunFailsIff(w.db, w.now, token, code, repairMode, ids);
    if FailRun(w.db, w.now, token, code, repairMode, ids).Ok? {
      RunFailsWith(w.db, w.now, token, code, repairMode, ids);
    }
  }

  lemma RegisteredSize(w: World, key: Key, artifact: ArtifactRef)
    requires Safe(w) && Registered(w.db, key, artifact)
    ensures artifact.size == Size(artifact.sha.preimage)
  {
    hide Safe, Size, Delivered;
    SafeEffects(w);
    assert ArtifactSettled(w.db.operations, w.db.artifacts, w.blobs, w.db.keys[key]);
  }

  /** What an artifact is filed as depends on what was put: text for a log, JSON for a metric, a diff for a
      patch and an archive for a bundle. */
  lemma ArtifactsAreFiled(w: World, o: Id)
    requires Reachable(w) && o in w.db.artifacts
    ensures o in w.db.operations && w.db.operations[o].kind == CasPut
    ensures var (slot, kept) := (w.db.operations[o].key.slot, w.db.artifacts[o]);
      && (slot.LogSlot? ==> kept.kind == ExecutionLog && kept.artifact.media == PlainText)
      && (slot.MetricSlot? ==> kept.kind == ArtifactKind.Metric && kept.artifact.media == JsonDocument)
      && (slot.PatchSlot? ==> kept.kind == Patch && kept.artifact.media == UnifiedDiff)
      && (slot.BundleSlot? ==> kept.kind == Bundle && kept.artifact.media == ZipArchive)
  {
    hide Reachable, Safe;
    ReachableSafe(w);
    SafeEffects(w);
    assert ArtifactSettled(w.db.operations, w.db.artifacts, w.blobs, o);
    hide BlobHeld;
  }

  /** The artifacts behind every claim, of every mission that was ever verified, fit the budgets of its
      spec. */
  lemma EvidenceFitsBudgets(w: World, c: Id)
    requires Reachable(w) && c in w.db.claims
    ensures w.db.claims[c].mission in w.db.missions && c in w.db.evidence && |w.db.evidence[c]| == 2
    ensures var (spec, links) := (w.db.missions[w.db.claims[c].mission].spec, w.db.evidence[c]);
      && links[0].kind == MetricArtifact && links[1].kind == LogArtifact
      && links[1].artifact.size <= spec.maxLogBytes
      && links[1].artifact.size + links[0].artifact.size <= spec.maxArtifactBytes
  {
    hide Reachable, Safe, Registered, Size, Completions, BundleGrounded, InRange;
    ReachableSafe(w);
    SafeGrounded(w);
    assert ClaimGrounded(w.db, c);
    var a, links := w.db.claims[c].attempt, w.db.evidence[c];
    assert MetricGrounded(w.db, a);
    RegisteredSize(w, Key(a, MetricSlot), links[0].artifact);
    RegisteredSize(w, Key(a, LogSlot), links[1].artifact);
  }
}
