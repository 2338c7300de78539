/** When each transaction is accepted and what it grants, in terms of the rows that a caller sees.
    A transaction passes through the checks of several functions; what is left of them is stated here
    once, for all tables. */
module Acceptance {
  import opened Basics
  import opened Content
  import opened JsonPointer
  import opened Lifecycle
  import opened Tables
  import opened Transactions
  import opened Changes

  // ---------------------------------------------------------------- leases

  /** The token is that of the current claim of a running attempt, up to date, and not expired. */
  predicate HoldsLease(db: Db, token: Token, now: Time) {
    && token.attempt in db.attempts
    && (var row := db.attempts[token.attempt];
        && row.status == AttemptStatus.Running && row.owner == Some(token.owner)
        && row.epoch == token.epoch && row.version == token.version
        && row.expires.Some? && now < row.expires.value)
  }

  /** The lease check passes exactly then; otherwise it says first that the token is out of date, then
      that the attempt does not run, and only then that the lease is lost. */
  lemma LeaseCheckIff(db: Db, token: Token, now: Time)
    requires token.attempt in db.attempts
    ensures var (row, r) := (db.attempts[token.attempt], db.attempts[token.attempt].CheckLease(token, now));
      && (r.Ok? <==> HoldsLease(db, token, now)) && (LeaseHeld(db, token, now) <==> HoldsLease(db, token, now))
      && (r == Err(VersionConflict) <==> row.version != token.version)
      && (r == Err(InvalidTransition) <==> row.version == token.version && row.status != AttemptStatus.Running)
      && (r == Err(LeaseLost) <==>
            && row.version == token.version && row.status == AttemptStatus.Running
            && !HoldsLease(db, token, now))
  {}

  /** A worker that may have died is no obstacle: a running attempt can be claimed again from the moment
      its lease expires, and not before. */
  lemma ClaimIsAcceptedIff(db: Db, cfg: Config, now: Time, a: Id, owner: Id)
    requires Indexed(db, a)
    ensures var (row, r) := (db.attempts[a], ClaimAttempt(db, cfg, now, a, owner));
      && (r.Ok? <==>
            && (row.status == AttemptStatus.Pending || row.status == AttemptStatus.Retryable
                || (row.status == AttemptStatus.Running && row.expires.Some? && row.expires.value <= now))
            && db.tasks[TaskOf(db, a)].status in {TaskStatus.Pending, TaskStatus.Running, TaskStatus.Retryable})
      && (r == Err(LeaseLost) <==>
            row.status == AttemptStatus.Running && (row.expires.None? || now < row.expires.value))
  {}

  /** The claim opens the next epoch for its owner: the token that it hands out holds the lease for
      exactly the lease time, and no token from before holds it at any time. */
  lemma ClaimGrants(db: Db, cfg: Config, now: Time, a: Id, owner: Id, t: Time, before: Token)
    requires ClaimAttempt(db, cfg, now, a, owner).Ok?
    requires before.attempt == a && before.epoch <= db.attempts[a].epoch
    ensures var (after, token) := ClaimAttempt(db, cfg, now, a, owner).value;
      && token == Token(a, owner, db.attempts[a].epoch + 1, db.attempts[a].version + 1)
      && (HoldsLease(after, token, t) <==> t < now + cfg.lease) && !HoldsLease(after, before, t)
      && after.attempts[a].heartbeat == Some(now) && after.attempts[a].failure == None
      && Indexed(after, a) && after.tasks[TaskOf(after, a)].status == TaskStatus.Running
      && after.missions[MissionOf(after, a)].status ==
           (if db.missions[MissionOf(db, a)].status == MissionStatus.Ready then MissionStatus.Running
            else db.missions[MissionOf(db, a)].status)
  {}

  /** A heartbeat needs the lease, and holds it for exactly the lease time from then on, under a new
      token; the old token is out of date. */
  lemma RenewalGrants(db: Db, cfg: Config, now: Time, token: Token, t: Time)
    ensures RenewLease(db, cfg, now, token).Ok? <==> HoldsLease(db, token, now)
    ensures RenewLease(db, cfg, now, token).Ok? ==>
      var (after, renewed) := RenewLease(db, cfg, now, token).value;
      && renewed == token.(version := token.version + 1)
      && (HoldsLease(after, renewed, t) <==> t < now + cfg.lease) && !HoldsLease(after, token, t)
      && after.attempts[token.attempt].heartbeat == Some(now)
  {}

  // ---------------------------------------------------------------- preparing effects

  /** The mission of the attempt is not being cancelled, and the attempt is worked on under the token. */
  predicate MayWork(db: Db, token: Token, now: Time) {
    && Indexed(db, token.attempt) && HoldsLease(db, token, now)
    && db.missions[MissionOf(db, token.attempt)].status != MissionStatus.Cancelling
  }

  /** The slot is free, or taken in this epoch by the same effect. */
  predicate SlotFree(db: Db, key: Key, kind: OperationType, input: Digest, epoch: nat) {
    key in db.keys && db.keys[key] in db.operations ==>
      var o := db.operations[db.keys[key]];
      o.kind == kind && o.input == input && o.epoch == epoch
  }

  /** The effect of the slot has succeeded. */
  predicate Taken(db: Db, key: Key) {
    key in db.keys && db.keys[key] in db.operations && db.operations[db.keys[key]].status == OperationStatus.Succeeded
  }

  lemma WorktreeIsPreparedIff(db: Db, now: Time, token: Token, id: Id)
    requires Indexed(db, token.attempt)
    ensures var (r, spec) := (PrepareWorktree(db, now, token, id), db.missions[MissionOf(db, token.attempt)].spec);
      && (r.Ok? <==>
            && MayWork(db, token, now)
            && SlotFree(db, Key(token.attempt, BaselineWorktree), WorktreeCreate, WorktreeInput(spec), token.epoch))
      && (r == Err(CancellationRequested) <==>
            db.missions[MissionOf(db, token.attempt)].status == MissionStatus.Cancelling)
  {
    hide WorktreeInput;
  }

  /** A sandbox run needs an offline spec, and an operation that did not fail. */
  lemma SandboxIsPreparedIff(db: Db, now: Time, token: Token, path: string, id: Id)
    requires Indexed(db, token.attempt)
    ensures var (r, key) := (PrepareSandbox(db, now, token, path, id), Key(token.attempt, Sandbox));
      var spec := db.missions[MissionOf(db, token.attempt)].spec;
      r.Ok? <==>
        && MayWork(db, token, now) && spec.offline
        && SlotFree(db, key, SandboxRun, SandboxInput(spec, path), token.epoch)
        && (key in db.keys && db.keys[key] in db.operations ==>
              db.operations[db.keys[key]].status in
                {OperationStatus.Prepared, OperationStatus.Executing, OperationStatus.Succeeded})
  {
    hide SandboxInput;
  }

  /** It leaves an executing operation, or says that the one that is there had succeeded. */
  lemma SandboxIsPrepared(db: Db, now: Time, token: Token, path: string, newId: Id)
    requires PrepareSandbox(db, now, token, path, newId).Ok?
    ensures var ((after, id, done), key) := (PrepareSandbox(db, now, token, path, newId).value,
                                             Key(token.attempt, Sandbox));
      && id == (if OperationFor(db, key).Some? then db.keys[key] else newId)
      && id in after.operations && (done <==> Taken(db, key)) && (done ==> after == db)
      && after.operations[id].status == (if done then OperationStatus.Succeeded else OperationStatus.Executing)
  {
    hide SandboxInput, Load, Attempt.CheckLease, NewOperation;
    var key := Key(token.attempt, Sandbox);
    if Taken(db, key) {
      assert PrepareSandbox(db, now, token, path, newId).value == (db, db.keys[key], true);
    }
  }

  /** The persister starts over as often as it likes within an epoch; once its operation succeeded, it
      is given the registration. */
  lemma PutIsPreparedIff(db: Db, now: Time, token: Token, put: Put, id: Id)
    requires Indexed(db, token.attempt)
    requires forall o :: o in db.operations ==> db.operations[o].attempt == db.operations[o].key.attempt
    requires forall k :: k in db.keys && db.keys[k] in db.operations ==> db.operations[db.keys[k]].key == k
    ensures var (r, key) := (PreparePut(db, now, token, put, id), Key(token.attempt, put.slot));
      && (r.Ok? <==>
            && MayWork(db, token, now) && SlotFree(db, key, CasPut, Sha256(put.payload), token.epoch)
            && (Taken(db, key) ==> db.keys[key] in db.artifacts))
      && (r.Ok? && OperationFor(db, key).Some? ==>
            && r.value.0 == db
            && r.value.1 == if OperationFor(db, key).value.status == OperationStatus.Succeeded
                            then Some(db.artifacts[db.keys[key]]) else None)
  {
    hide Put.Ref, Put.Kind;
  }

  lemma CandidateIsPreparedIff(db: Db, now: Time, token: Token, diff: string, id: Id)
    ensures var (r, key) := (PrepareCandidate(db, now, token, diff, id), Key(token.attempt, CandidateSlot));
      && (r.Ok? <==>
            HoldsLease(db, token, now) && SlotFree(db, key, CandidateCommit, Sha256(Utf8(diff)), token.epoch))
      && (r.Ok? && OperationFor(db, key).Some? ==> r.value == (db, db.keys[key]))
  {}

  // ---------------------------------------------------------------- finishing effects

  /** The operation of the slot can take this result: it is open and has none, or has this one. */
  predicate Accepts(db: Db, key: Key, result: EffectRef) {
    && key in db.keys && db.keys[key] in db.operations
    && (var o := db.operations[db.keys[key]];
        && o.status in {OperationStatus.Prepared, OperationStatus.Executing, OperationStatus.Succeeded}
        && (o.result == None || o.result == Some(result)))
  }

  /** A worktree that was created before is not compared again. */
  lemma WorktreeIsFinishedIff(db: Db, now: Time, token: Token, path: string)
    ensures var (r, key) := (FinishWorktree(db, now, token, path), Key(token.attempt, BaselineWorktree));
      r.Ok? <==> HoldsLease(db, token, now) && (Taken(db, key) || Accepts(db, key, External(path)))
  {}

  lemma WorktreeIsFinished(db: Db, now: Time, token: Token, path: string)
    requires FinishWorktree(db, now, token, path).Ok?
    ensures var (after, key) := (FinishWorktree(db, now, token, path).value, Key(token.attempt, BaselineWorktree));
      && Taken(after, key) && (Taken(db, key) ==> after == db)
      && (!Taken(db, key) ==> after.operations[db.keys[key]].result == Some(External(path)))
  {
    hide Attempt.CheckLease;
  }

  /** The result must be that of this operation, and the first one stays. */
  lemma SandboxIsFinishedIff(db: Db, now: Time, token: Token, result: SandboxResult)
    ensures var (r, key) := (FinishSandbox(db, now, token, result), Key(token.attempt, Sandbox));
      && (r.Ok? <==>
            HoldsLease(db, token, now) && Accepts(db, key, External(result.execution))
            && result.operation == db.keys[key])
      && (r.Ok? ==> Taken(r.value, key) && (Taken(db, key) ==> r.value == db)
                    && (!Taken(db, key) ==>
                          r.value.operations[db.keys[key]].result == Some(External(result.execution))))
  {}

  lemma CandidateIsFinishedIff(db: Db, now: Time, token: Token, commit: string)
    ensures var (r, key) := (FinishCandidate(db, now, token, commit), Key(token.attempt, CandidateSlot));
      && (r.Ok? <==> HoldsLease(db, token, now) && Accepts(db, key, External(commit)))
      && (r.Ok? ==> Taken(r.value, key) && (Taken(db, key) ==> r.value.operations == db.operations)
                    && (!Taken(db, key) ==> r.value.operations[db.keys[key]].result == Some(External(commit))))
  {}

  lemma PutIsFinishedIff(db: Db, now: Time, token: Token, put: Put)
    requires Indexed(db, token.attempt)
    ensures var (r, key) := (FinishPut(db, now, token, put), Key(token.attempt, put.slot));
      && (r.Ok? <==>
            && MayWork(db, token, now) && Accepts(db, key, CasUri(Sha256(put.payload)))
            && (db.keys[key] in db.artifacts ==>
                  db.artifacts[db.keys[key]] ==
                  Registration(put.Ref(), put.Kind(), token.attempt, db.keys[key], now)))
  {
    hide Size, Put.Kind;
  }

  // ---------------------------------------------------------------- the end of a run

  /** The run of this attempt can be failed: the lease is held, the task is not finished, and the mission
      can fail with it, unless it is a repair mission whose baseline failed. */
  predicate MayFail(db: Db, token: Token, now: Time, repairMode: bool)
    requires Indexed(db, token.attempt)
  {
    && HoldsLease(db, token, now)
    && db.tasks[TaskOf(db, token.attempt)].status in {TaskStatus.Pending, TaskStatus.Running, TaskStatus.Retryable}
    && ((repairMode && db.tasks[TaskOf(db, token.attempt)].kind == BaselineReproduction)
        || db.missions[MissionOf(db, token.attempt)].status in
             {MissionStatus.Ready, MissionStatus.Running, MissionStatus.WaitingApproval, MissionStatus.Verifying,
              MissionStatus.Cancelling})
  }

  lemma RunFailsIff(db: Db, now: Time, token: Token, code: FailureCode, repairMode: bool, ids: RepairIds)
    ensures FailRun(db, now, token, code, repairMode, ids).Ok? <==>
      Indexed(db, token.attempt) && MayFail(db, token, now, repairMode)
  {
    hide ScheduleRepair;
  }

  /** What it leaves: the failed attempt with its code and no lease, the failed task, and the mission
      failed or, for the baseline of a repair mission, as it was. */
  lemma RunFailsWith(db: Db, now: Time, token: Token, code: FailureCode, repairMode: bool, ids: RepairIds)
    requires FailRun(db, now, token, code, repairMode, ids).Ok?
    requires ids.task !in db.tasks && ids.attempt !in db.attempts
    ensures var (after, a) := (FailRun(db, now, token, code, repairMode, ids).value, token.attempt);
      && Indexed(after, a) && after.attempts[a].status == AttemptStatus.Failed
      && after.attempts[a].failure == Some(code) && after.attempts[a].expires == Some(now)
      && after.tasks[TaskOf(after, a)].status == TaskStatus.Failed
      && after.missions[MissionOf(after, a)].status ==
           (if repairMode && db.tasks[TaskOf(db, a)].kind == BaselineReproduction
            then db.missions[MissionOf(db, a)].status else MissionStatus.Failed)
  {
    if repairMode && db.tasks[TaskOf(db, token.attempt)].kind == BaselineReproduction {
      BaselineFailsWith(db, now, token, code, ids);
    } else {
      hide ScheduleRepair;
    }
  }

  lemma BaselineFailsWith(db: Db, now: Time, token: Token, code: FailureCode, ids: RepairIds)
    requires FailRun(db, now, token, code, true, ids).Ok?
    requires db.tasks[TaskOf(db, token.attempt)].kind == BaselineReproduction
    requires ids.task !in db.tasks && ids.attempt !in db.attempts
    ensures var (after, a) := (FailRun(db, now, token, code, true, ids).value, token.attempt);
      && Indexed(after, a) && after.attempts[a].status == AttemptStatus.Failed
      && after.attempts[a].failure == Some(code) && after.attempts[a].expires == Some(now)
      && after.tasks[TaskOf(after, a)].status == TaskStatus.Failed
      && after.missions == db.missions && MissionOf(after, a) == MissionOf(db, a)
  {
    hide ScheduleRepair, FailRun;
    FailBaseline(db, now, token, code, ids);
    var failed := db.(
      attempts := db.attempts[token.attempt := db.attempts[token.attempt].Fail(token, now, false, code).value],
      tasks := db.tasks[TaskOf(db, token.attempt) := db.tasks[TaskOf(db, token.attempt)].Fail().value]);
    SchedulingKeepsRows(failed, now, MissionOf(db, token.attempt), ids, token.attempt, TaskOf(db, token.attempt));
  }

  lemma SchedulingKeepsRows(db: Db, now: Time, mission: Id, ids: RepairIds, a: Id, t: Id)
    requires ids.task !in db.tasks && ids.attempt !in db.attempts && a in db.attempts && t in db.tasks
    ensures var after := ScheduleRepair(db, now, mission, ids);
      && a in after.attempts && after.attempts[a] == db.attempts[a]
      && t in after.tasks && after.tasks[t] == db.tasks[t] && after.missions == db.missions
  {
    hide HasRepairTask, NewAttempt;
    if HasRepairTask(db.tasks, mission) {
      assert ScheduleRepair(db, now, mission, ids) == db;
    }
  }

  /** Registering needs the lease and a complete record, in whatever state the mission is; a second
      registration of the same attempt changes nothing. */
  lemma ResultIsRegisteredIff(db: Db, now: Time, token: Token, e: Evidence, metric: Id, claim: Id)
    requires Indexed(db, token.attempt)
    ensures var (r, mission) := (RegisterResult(db, now, token, e, metric, claim), MissionOf(db, token.attempt));
      && (token.attempt !in db.metrics ==>
            (r.Ok? <==> HoldsLease(db, token, now) && |e.commit| == 40 && |e.dataset| == 64 && e.environment != ""
                        && db.missions[mission].spec.runArgv != []))
      && (token.attempt in db.metrics ==>
            r == if exists c <- db.claims :: db.claims[c].mission == mission && db.claims[c].status == Verified
                 then Ok(db) else Err(NotFound))
  {
    if token.attempt in db.metrics {
      assert HasVerifiedClaim(db, MissionOf(db, token.attempt)) <==>
             exists c <- db.claims ::
               db.claims[c].mission == MissionOf(db, token.attempt) && db.claims[c].status == Verified;
    }
    hide HasVerifiedClaim;
  }

  /** A mission completes while it verifies, its task runs, the lease is held and a bundle operation is
      there, unless another bundle was recorded. */
  lemma MissionIsCompletedIff(db: Db, now: Time, token: Token, artifact: ArtifactRef)
    requires Indexed(db, token.attempt)
    ensures var (r, key) := (CompleteMission(db, now, token, artifact), Key(token.attempt, BundleSlot));
      var (task, mission) := (TaskOf(db, token.attempt), MissionOf(db, token.attempt));
      r.Ok? <==>
        && HoldsLease(db, token, now) && db.missions[mission].status == MissionStatus.Verifying
        && db.tasks[task].status == TaskStatus.Running && key in db.keys && db.keys[key] in db.operations
        && (mission in db.bundles ==>
              db.bundles[mission] == Registration(artifact, Bundle, token.attempt, db.keys[key], now))
  {}

  predicate Linked(db: Db, c: Id, kind: EvidenceType) {
    c in db.evidence && exists link <- db.evidence[c] :: link.kind == kind
  }

  /** The gate opens, whatever else is in the tables, only for the holder of the lease of a verifying mission
      with a metric, all of whose claims are verified and have a metric link, and one of them a log link. */
  lemma GateOpensIff(db: Db, now: Time, token: Token)
    requires Indexed(db, token.attempt)
    ensures var (r, m) := (CollectFacts(db, now, token), MissionOf(db, token.attempt));
      && (r.Ok? <==>
            && HoldsLease(db, token, now) && db.missions[m].status == MissionStatus.Verifying
            && token.attempt in db.metrics
            && (forall c <- db.claims ::
                  db.claims[c].mission == m ==> db.claims[c].status == Verified && Linked(db, c, MetricArtifact))
            && (exists c <- db.claims :: db.claims[c].mission == m && Linked(db, c, LogArtifact)))
      && (r.Ok? ==> r.value == db.metrics[token.attempt])
  {
    LeaseCheckIff(db, token, now);
    hide HoldsLease, Attempt.CheckLease;
    var m := MissionOf(db, token.attempt);
    forall c <- db.claims
      ensures Linked(db, c, MetricArtifact) <==> HasLink(EvidenceOf(db, c), MetricArtifact)
      ensures Linked(db, c, LogArtifact) <==> HasLink(EvidenceOf(db, c), LogArtifact)
    {}
    hide Linked, HasLink;
    assert forall c :: c in ClaimsOf(db.claims, m) <==> c in db.claims && db.claims[c].mission == m;
    if c :| c in db.claims && db.claims[c].mission == m && Linked(db, c, LogArtifact) {
      assert c in ClaimsOf(db.claims, m);
    }
  }

  /** The observer is answered, whatever else is in the tables, only about a completed mission that came from
      a proposal, with a bundle, a metric of the attempt of the bundle, and no claim but verified ones. */
  lemma ObserverIsAnsweredIff(db: Db, m: Id)
    ensures GetVerifiedResult(db, m).Ok? <==>
      && m in db.missions && db.missions[m].status == MissionStatus.Completed && db.missions[m].proposal.Some?
      && m in db.bundles && db.bundles[m].attempt in db.metrics
      && (exists c <- db.claims :: db.claims[c].mission == m)
      && (forall c <- db.claims :: db.claims[c].mission == m ==> db.claims[c].status == Verified)
  {
    assert forall c :: c in ClaimsOf(db.claims, m) <==> c in db.claims && db.claims[c].mission == m;
    if c :| c in db.claims && db.claims[c].mission == m { assert c in ClaimsOf(db.claims, m); }
  }

  // ---------------------------------------------------------------- approvals

  /** Approval can be asked for by the holder of a running repair attempt of a running mission. */
  lemma ApprovalIsAskedIff(db: Db, cfg: Config, now: Time, token: Token, patch: ArtifactRef, id: Id)
    requires Indexed(db, token.attempt)
    ensures var (task, mission) := (db.tasks[TaskOf(db, token.attempt)], db.missions[MissionOf(db, token.attempt)]);
      && (ValidateProposal(db, now, token).Ok? <==>
            HoldsLease(db, token, now) && task.kind == RepairCandidate && mission.status == MissionStatus.Running)
      && (RequestApproval(db, cfg, now, token, patch, id).Ok? <==>
            && HoldsLease(db, token, now) && task.kind == RepairCandidate && task.status == TaskStatus.Running
            && mission.status == MissionStatus.Running)
  {}

  /** A pending approval is decided strictly before it expires. Granting resumes a waiting mission;
      rejecting fails a task that is not finished and a mission that is not over. */
  lemma DecisionIsAcceptedIff(db: Db, now: Time, p: Id, decider: Id, child: Id, event: Id)
    requires p in db.approvals && db.approvals[p].mission in db.missions
    requires db.approvals[p].task in db.tasks && db.approvals[p].attempt in db.attempts
    ensures var (row, mission) := (db.approvals[p], db.missions[db.approvals[p].mission]);
      && (ResolveApproval(db, now, p, true, decider, child, event).Ok? <==>
            && row.status == ApprovalStatus.Pending && now < row.expiresAt
            && mission.status in {MissionStatus.Ready, MissionStatus.WaitingApproval})
      && (ResolveApproval(db, now, p, false, decider, child, event).Ok? <==>
            && row.status == ApprovalStatus.Pending && now < row.expiresAt
            && db.tasks[row.task].status in {TaskStatus.Pending, TaskStatus.Running, TaskStatus.Retryable}
            && mission.status in {MissionStatus.Ready, MissionStatus.Running, MissionStatus.WaitingApproval,
                                  MissionStatus.Verifying, MissionStatus.Cancelling})
  {}

  /** What a decision leaves: who decided and when; the mission runs again, or task and mission failed. */
  lemma DecisionLeaves(db: Db, now: Time, p: Id, approved: bool, decider: Id, child: Id, event: Id)
    requires ResolveApproval(db, now, p, approved, decider, child, event).Ok?
    ensures var (row, after) := (db.approvals[p],
                                 ResolveApproval(db, now, p, approved, decider, child, event).value);
      && p in after.approvals && row.mission in after.missions && row.task in after.tasks
      && after.approvals[p].decidedAt == Some(now) && after.approvals[p].decidedBy == Some(decider)
      && after.approvals[p].status == (if approved then ApprovalStatus.Approved else ApprovalStatus.Rejected)
      && after.missions[row.mission].status == (if approved then MissionStatus.Running else MissionStatus.Failed)
      && (!approved ==> after.tasks[row.task].status == TaskStatus.Failed)
      && (approved ==>
            && child in after.attempts && after.attempts[child].parent == Some(row.attempt)
            && after.attempts[child].number == db.attempts[row.attempt].number + 1
            && after.attempts[child].task == row.task && after.attempts[child].status == AttemptStatus.Pending)
  {}

  /** What an approval authorizes: it was granted for this task and for a commit, the attempt resumes the one
      that asked, and the bytes that it names are there, have the approved digest and are a unified diff. */
  lemma ApprovalAuthorizesIff(db: Db, blobs: map<Digest, Bytes>, now: Time, token: Token, p: Id, diff: string)
    requires Indexed(db, token.attempt) && p in db.approvals
    ensures var (r, row) := (LoadRepairContext(db, blobs, now, token, p), db.approvals[p]);
      var (task, mission) := (TaskOf(db, token.attempt), MissionOf(db, token.attempt));
      r.Ok? && r.value.diff == diff <==>
        && HoldsLease(db, token, now) && db.tasks[task].kind == RepairCandidate
        && db.missions[mission].spec.mode == RepairMode
        && row.status == ApprovalStatus.Approved && row.scope == CandidateCommit && row.actionType == CandidateCommit
        && row.task == task && row.mission == mission && db.attempts[token.attempt].parent == Some(row.attempt)
        && row.actionHash == Sha256(Utf8(diff)) && IsUnifiedDiff(diff)
        && row.patch.Some? && row.patch.value.sha == row.actionHash
        && ReadVerified(blobs, row.patch.value) == Ok(Utf8(diff))
  {
    LeaseCheckIff(db, token, now);
    hide HoldsLease, Attempt.CheckLease, IsUnifiedDiff;
    var row := db.approvals[p];
    if row.patch.Some? && ReadVerified(blobs, row.patch.value).Ok? {
      VerifiedReadIff(blobs, row.patch.value, ReadVerified(blobs, row.patch.value).value);
    }
    hide ReadVerified;
  }

  // ---------------------------------------------------------------- cancellation

  lemma CancellationIsAskedIff(db: Db, now: Time, m: Id)
    requires m in db.missions
    ensures RequestCancellation(db, now, m).Ok? <==>
      db.missions[m].status in {MissionStatus.Ready, MissionStatus.Running, MissionStatus.WaitingApproval,
                                MissionStatus.Verifying}
  {}

  /** Stopping needs a cancelling mission and the lease, and confirming an unfinished task besides. */
  lemma CancellationIsConfirmedIff(db: Db, now: Time, token: Token)
    requires Indexed(db, token.attempt)
    ensures var (task, mission) := (db.tasks[TaskOf(db, token.attempt)], db.missions[MissionOf(db, token.attempt)]);
      && (AssertCancelling(db, now, token).Ok? <==>
            HoldsLease(db, token, now) && mission.status == MissionStatus.Cancelling)
      && (CancelAttempt(db, now, token).Ok? <==>
            && HoldsLease(db, token, now) && mission.status == MissionStatus.Cancelling
            && task.status in {TaskStatus.Pending, TaskStatus.Running, TaskStatus.Retryable})
  {}

  // ---------------------------------------------------------------- bytes and diffs

  /** A read is answered with the bytes of the reference or not at all. */
  lemma VerifiedReadIff(blobs: map<Digest, Bytes>, artifact: ArtifactRef, payload: Bytes)
    ensures ReadVerified(blobs, artifact) == Ok(payload) <==>
      && artifact.sha in blobs && blobs[artifact.sha] == payload && artifact.sha.preimage == payload
      && artifact.size == Size(payload)
  {
    hide Size;
  }

  lemma HoldsIff(s: string, part: string)
    ensures Holds(s, part) <==> exists before, after :: s == before + part + after
  {
    if Holds(s, part) {
      var i :| 0 <= i <= |s| && StartsWith(s[i..], part);
      assert s[i..] == part + s[i + |part|..];
      assert s == s[..i] + part + s[i + |part|..];
    }
    if before, after :| s == before + part + after {
      assert s[|before|..] == part + after;
      assert StartsWith(s[|before|..], part);
    }
  }

  /** A unified diff, as far as it is looked at: the header of git, and somewhere in it the two file
      lines and a hunk. */
  lemma UnifiedDiffIff(value: string)
    ensures IsUnifiedDiff(value) <==>
      && (exists after :: value == "diff --git " + after)
      && (exists before, after :: value == before + "\n--- " + after)
      && (exists before, after :: value == before + "\n+++ " + after)
      && (exists before, after :: value == before + "\n@@ " + after)
  {
    HoldsIff(value, "\n--- ");
    HoldsIff(value, "\n+++ ");
    HoldsIff(value, "\n@@ ");
    hide Holds;
    if StartsWith(value, "diff --git ") { assert value == "diff --git " + value[|"diff --git "|..]; }
  }

  // ---------------------------------------------------------------- inputs

  /** Two specs ask for the same worktree exactly when they name the same commit of the same repository. */
  lemma WorktreeInputIff(x: Spec, y: Spec)
    requires '\n' !in x.repository && '\n' !in y.repository
    ensures WorktreeInput(x) == WorktreeInput(y) <==> x.repository == y.repository && x.commit == y.commit
  {
    FirstLine(x.repository, x.commit, y.repository, y.commit);
  }

  lemma NoEarlierLine(a: string, b: string, c: string, d: string)
    requires '\n' !in c && a + "\n" + b == c + "\n" + d
    ensures |a| >= |c|
  {
    var s := a + "\n" + b;
    assert s[|a|] == '\n';
    forall i | 0 <= i < |c| ensures s[i] != '\n' {
      assert s[i] == c[i];
    }
  }

  lemma FirstLine(a: string, b: string, c: string, d: string)
    requires '\n' !in a && '\n' !in c
    ensures a + "\n" + b == c + "\n" + d <==> a == c && b == d
  {
    var s, t := a + "\n" + b, c + "\n" + d;
    if s == t {
      assert |a| == |c| by { NoEarlierLine(a, b, c, d); NoEarlierLine(c, d, a, b); }
      assert a == s[..|a|] == t[..|c|] == c;
      assert b == s[|a| + 1..] == t[|c| + 1..] == d;
    }
  }

  /** What `run` hands to the sandbox; no arguments and one empty argument look alike. */
  function Arguments(spec: Spec): seq<string> {
    if spec.runArgv == [] then [""] else spec.runArgv
  }

  /** Two sandbox runs have the same input exactly when the spec, the path and the arguments agree. */
  lemma SandboxInputIff(x: Spec, path: string, y: Spec, other: string)
    requires '\n' !in x.digest && '\n' !in y.digest && '\n' !in path && '\n' !in other
    requires forall argument <- x.runArgv + y.runArgv :: '\0' !in argument
    ensures SandboxInput(x, path) == SandboxInput(y, other) <==>
      x.digest == y.digest && path == other && Arguments(x) == Arguments(y)
  {
    var s, t := Join(Arguments(x), '\0'), Join(Arguments(y), '\0');
    assert SandboxInput(x, path) == Sha256(Utf8(x.digest + "\n" + (path + "\n" + s))) by {
      Lines(x.digest, path, s);
    }
    assert SandboxInput(y, other) == Sha256(Utf8(y.digest + "\n" + (other + "\n" + t))) by {
      Lines(y.digest, other, t);
    }
    FirstLine(x.digest, path + "\n" + s, y.digest, other + "\n" + t);
    FirstLine(path, s, other, t);
    SplitJoin(Arguments(x), '\0');
    SplitJoin(Arguments(y), '\0');
  }

  lemma Lines(a: string, b: string, c: string)
    ensures a + "\n" + b + "\n" + c == a + "\n" + (b + "\n" + c)
  {}
}
