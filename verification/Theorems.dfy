/** What holds of every run: any steps, in any interleaving, with any crashes. */
module Theorems {
  import opened Basics
  import opened Content
  import opened JsonPointer
  import opened Lifecycle
  import opened Tables
  import opened Transactions
  import opened Evolution
  import opened Changes
  import opened Completion
  import opened Ledger
  import opened EvidenceGate
  import opened Approvals
  import opened Routing
  import opened Leases
  import opened Recovery
  import opened Cancellation
  import opened Invariant
  import opened Runtime
  import opened Sessions
  import opened Safety
  import opened Effects
  import opened Steps
  import opened History

  // ---------------------------------------------------------------- runs

  ghost predicate Reachable(w: World) {
    exists cfg: Config, start: Time :: cfg.Valid() && Runs(Begin(cfg, start), w)
  }

  lemma BeginSafe(cfg: Config, start: Time)
    requires cfg.Valid()
    ensures Safe(Begin(cfg, start))
  {
    var w := Begin(cfg, start);
    SafeIff(w);
    assert DbWorkSound(EmptyDb) && RecordsSound(EmptyDb);
    assert EffectsSound(EmptyDb, map[], {}, {}, cfg.staleAfter, start);
    hide DbWorkSound, RecordsSound, EffectsSound;
    assert SessionsOk(w) && LeasesOk(w.leases, w.db.attempts, w.now);
  }

  lemma {:induction false} RunSafe(w: World, steps: seq<Step>)
    requires Safe(w)
    ensures Safe(RunFrom(w, steps)) && RunFrom(w, steps).cfg == w.cfg && RunFrom(w, steps).now >= w.now
    decreases |steps|
  {
    if steps != [] {
      StepGood(w, steps[0]);
      StepForward(w, Apply(w, steps[0]));
      hide Safe, Good, Apply;
      RunSafe(Apply(w, steps[0]), steps[1..]);
    }
  }

  lemma StepForward(w: World, v: World)
    requires Good(w, v)
    ensures Safe(v) && v.cfg == w.cfg && w.now <= v.now && Evolves(w.db, v.db, w.now) && Disciplined(w.db, v.db, w.now)
    ensures Extends(w.proposals, v.proposals)
  {
    hide Safe, Evolves, Disciplined, Extends;
    AdvancesIff(w, v);
  }

  lemma ReachableSafe(w: World)
    requires Reachable(w)
    ensures Safe(w)
  {
    hide Safe, Runs, RunFrom;
    var cfg: Config, start: Time :| cfg.Valid() && Runs(Begin(cfg, start), w);
    BeginSafe(cfg, start);
    var steps := StepsOf(Begin(cfg, start), w);
    RunSafe(Begin(cfg, start), steps);
  }

  lemma {:induction false} StepsMoveForward(w: World, steps: seq<Step>)
    requires Safe(w)
    ensures Safe(RunFrom(w, steps)) && Later(w.db, RunFrom(w, steps).db)
    decreases |steps|
  {
    hide Safe, Good, Apply, Evolves, Disciplined, Extends, Later;
    if steps == [] {
      NowIsLater(w.db);
    } else {
      var next := Apply(w, steps[0]);
      StepGood(w, steps[0]);
      StepForward(w, next);
      EvolvesLater(w.db, next.db, w.now);
      StepsMoveForward(next, steps[1..]);
      LaterThrough(w.db, next.db, RunFrom(w, steps).db);
    }
  }

  /** Everything a run commits after a reachable state only moves its tables forward: finished
      rows, recorded evidence and registered artifacts are final. */
  lemma RunsOnlyMoveForward(w: World, v: World)
    requires Safe(w) && Runs(w, v)
    ensures Safe(v) && Later(w.db, v.db)
  {
    hide Safe, Runs, RunFrom, Later;
    var steps := StepsOf(w, v);
    StepsMoveForward(w, steps);
  }

  // ---------------------------------------------------------------- the evidence gate

  lemma SafeGrounded(w: World)
    requires Safe(w)
    ensures Grounded(w.db)
    ensures Completions(w.db.missions, w.db.tasks, w.db.attempts, w.db.bundles)
  {
    SafeWork(w);
    hide Safe, EffectsSound, Keyed, Grounded, ApprovalsSound, CandidatesAuthorized, Completions, TaskShape, Coupled;
    hide AllChildrenCounted, ParentsLinked;
  }

  /** What the evidence gate promises about one mission. */
  ghost predicate GateHolds(w: World, m: Id) {
    var db := w.db;
    && m in db.missions && m in db.bundles
    && (var bundle := db.bundles[m];
        && OwnedBy(db.tasks, db.attempts, bundle.attempt, m)
        && bundle.attempt in db.metrics
        && db.metrics[bundle.attempt].expectation == db.missions[m].spec.expectation
        && InRange(db.metrics[bundle.attempt].value, db.missions[m].spec.expectation)
        && ReadsAsMeasured(w, bundle.attempt)
        && ReadVerified(w.blobs, bundle.artifact).Ok?)
    && ClaimsOf(db.claims, m) != {}
    && forall c <- ClaimsOf(db.claims, m) :: ClaimBacked(w, c)
  }

  /** The bytes that are read back for the metric of this attempt hold its recorded value. */
  ghost predicate ReadsAsMeasured(w: World, a: Id)
    requires a in w.db.metrics
  {
    var metric := w.db.metrics[a];
    && ReadVerified(w.blobs, metric.artifact).Ok?
    && ValidateMetric(ReadVerified(w.blobs, metric.artifact).value, metric.expectation) ==
       Ok(Validation(metric.value, true, metric.expectation))
  }

  /** A verified claim with a metric link and a log link, whose bytes can be read back. */
  ghost predicate ClaimBacked(w: World, c: Id) {
    && c in w.db.claims && w.db.claims[c].status == Verified && c in w.db.evidence
    && HasLink(w.db.evidence[c], MetricArtifact) && HasLink(w.db.evidence[c], LogArtifact)
    && forall link <- w.db.evidence[c] :: ReadVerified(w.blobs, link.artifact).Ok?
  }

  lemma RegisteredReads(w: World, key: Key, artifact: ArtifactRef)
    requires Safe(w) && Registered(w.db, key, artifact)
    ensures ReadVerified(w.blobs, artifact).Ok?
  {
    hide Safe, Registered, ReadVerified, Settled, Delivered;
    SafeEffects(w);
    RegisteredIsReadable(w.db, w.blobs, key, artifact);
  }

  lemma ClaimIsBacked(w: World, c: Id)
    requires Safe(w) && c in w.db.claims
    ensures ClaimBacked(w, c)
  {
    hide Safe, Registered, ReadVerified, OwnedBy, MetricGrounded, BundleGrounded, Completions;
    SafeGrounded(w);
    assert ClaimGrounded(w.db, c);
    var a := w.db.claims[c].attempt;
    MetricReads(w, a);
    var links := w.db.evidence[c];
    RegisteredReads(w, Key(a, LogSlot), links[1].artifact);
    assert links[0] in links && links[1] in links;
    assert links == [links[0], links[1]];
  }

  lemma MetricReads(w: World, a: Id)
    requires Safe(w) && a in w.db.metrics
    ensures ReadVerified(w.blobs, w.db.metrics[a].artifact).Ok?
  {
    hide Safe, Registered, ReadVerified, ClaimGrounded, BundleGrounded, Completions, InRange;
    SafeGrounded(w);
    assert MetricGrounded(w.db, a);
    RegisteredReads(w, Key(a, MetricSlot), w.db.metrics[a].artifact);
  }

  lemma BundleOfCompleted(w: World, m: Id)
    requires Safe(w) && m in w.db.missions && w.db.missions[m].status == MissionStatus.Completed
    ensures m in w.db.bundles && BundleGrounded(w.db, m)
  {
    hide Safe, MetricGrounded, ClaimGrounded, BundleGrounded, TaskSettled, AttemptSettled, BundleSettled, RowsLinked;
    SafeGrounded(w);
    assert MissionSettled(w.db.missions, w.db.bundles, m);
  }

  /** Every completed mission passed the gate, although the transaction that completes it does not
      look at metrics or claims. */
  lemma CompletedPassedTheGate(w: World, m: Id)
    requires Reachable(w) && m in w.db.missions && w.db.missions[m].status == MissionStatus.Completed
    ensures GateHolds(w, m)
  {
    hide Reachable, Safe, Registered, ReadVerified, ClaimBacked, InRange, ReadsAsMeasured, MeasuredIn;
    ReachableSafe(w);
    BundleOfCompleted(w, m);
    var bundle := w.db.bundles[m];
    var c :| ClaimFor(w.db, c, MissionOf(w.db, bundle.attempt));
    assert c in ClaimsOf(w.db.claims, m);
    forall c | c in ClaimsOf(w.db.claims, m) ensures ClaimBacked(w, c) {
      ClaimIsBacked(w, c);
    }
    MetricReadsAsMeasured(w, bundle.attempt);
    MetricMeets(w, bundle.attempt);
    RegisteredReads(w, Key(bundle.attempt, BundleSlot), bundle.artifact);
  }

  lemma MetricMeets(w: World, a: Id)
    requires Safe(w) && a in w.db.metrics
    ensures Indexed(w.db, a) && w.db.metrics[a].expectation == w.db.missions[MissionOf(w.db, a)].spec.expectation
    ensures InRange(w.db.metrics[a].value, w.db.metrics[a].expectation)
    ensures MeasuredIn(w.db.metrics[a].artifact, w.db.metrics[a].value, w.db.metrics[a].expectation)
  {
    hide Safe, Registered, ClaimGrounded, BundleGrounded, Completions, InRange, MeasuredIn;
    SafeGrounded(w);
    assert MetricGrounded(w.db, a);
  }

  lemma MetricReadsAsMeasured(w: World, a: Id)
    requires Safe(w) && a in w.db.metrics
    ensures ReadsAsMeasured(w, a)
  {
    hide Safe, InRange, Size, ValidateMetric, MetricGrounded;
    MetricReads(w, a);
    MetricMeets(w, a);
  }

  /** The observer of the gate never refuses a completed mission that came from a proposal, and
      refuses every other one. */
  lemma VerifiedResultExactlyWhenCompleted(w: World, m: Id)
    requires Reachable(w)
    ensures GetVerifiedResult(w.db, m).Ok? <==>
              m in w.db.missions && w.db.missions[m].status == MissionStatus.Completed
                  && w.db.missions[m].proposal.Some?
  {
    if m in w.db.missions && w.db.missions[m].status == MissionStatus.Completed {
      CompletedPassedTheGate(w, m);
      hide Reachable, ReadVerified, InRange, HasLink, OwnedBy;
      forall c | c in ClaimsOf(w.db.claims, m) ensures w.db.claims[c].status == Verified {
        assert ClaimBacked(w, c);
      }
    }
  }

  lemma ResultIsRecords(db: Db, m: Id)
    requires GetVerifiedResult(db, m).Ok?
    ensures m in db.missions && Over(db.missions[m].status) && db.missions[m].status == MissionStatus.Completed
    ensures m in db.bundles && db.bundles[m].attempt in db.metrics && db.missions[m].proposal.Some?
    ensures GetVerifiedResult(db, m).value ==
      VerifiedResult(db.missions[m].proposal.value, m, db.missions[m].spec.digest, db.metrics[db.bundles[m].attempt],
                     db.bundles[m].artifact.sha, db.bundles[m].createdAt)
  {}

  /** ... and its answer is the same in every later state. */
  lemma VerifiedResultStands(w: World, m: Id, v: World)
    requires Reachable(w) && Runs(w, v) && GetVerifiedResult(w.db, m).Ok?
    ensures GetVerifiedResult(v.db, m) == GetVerifiedResult(w.db, m)
  {
    hide Reachable, Safe, GetVerifiedResult;
    ReachableSafe(w);
    RunsOnlyMoveForward(w, v);
    ReachableLater(w, v);
    ResultIsRecords(w.db, m);
    CompletedStays(w.db, v.db, m);
    VerifiedResultExactlyWhenCompleted(v, m);
    ResultIsRecords(v.db, m);
  }

  lemma CompletedStays(db: Db, after: Db, m: Id)
    requires Later(db, after) && m in db.missions && db.missions[m].status == MissionStatus.Completed
    requires m in db.bundles && db.bundles[m].attempt in db.metrics
    ensures m in after.missions && after.missions[m] == db.missions[m]
    ensures m in after.bundles && after.bundles[m] == db.bundles[m]
    ensures db.bundles[m].attempt in after.metrics
    ensures after.metrics[db.bundles[m].attempt] == db.metrics[db.bundles[m].attempt]
  {
    hide TasksLater, AttemptsLater, OperationsLater, ApprovalsLater;
  }

  lemma ReachableLater(w: World, v: World)
    requires Reachable(w) && Runs(w, v)
    ensures Reachable(v)
  {
    hide Runs;
    var cfg: Config, start: Time :| cfg.Valid() && Runs(Begin(cfg, start), w);
    RunsThrough(Begin(cfg, start), w, v);
  }

  // ---------------------------------------------------------------- approved bytes only

  lemma SafeHanded(w: World)
    requires Safe(w)
    ensures HandedOk(w.db, w.handed)
  {
    assert PartHolds(HandOvers, w);
  }

  /** Approval `p` was asked for exactly this diff, was granted strictly before it expired, and
      authorizes the operation's attempt. */
  predicate ApprovedDiff(w: World, p: Id, a: Id, diff: string) {
    && p in w.db.approvals && p in w.proposals && w.proposals[p] == diff
    && Authorizes(w.db, p, a, Sha256(Utf8(diff)))
    && w.db.approvals[p].decidedAt.Some? && w.db.approvals[p].decidedAt.value < w.db.approvals[p].expiresAt
  }

  lemma AuthorizedIsApproved(w: World, p: Id, a: Id, diff: string)
    requires Safe(w) && Authorizes(w.db, p, a, Sha256(Utf8(diff)))
    ensures ApprovedDiff(w, p, a, diff)
  {
    hide Safe, Registered, IsUnifiedDiff;
    SafeApprovals(w);
    SafeProposals(w);
    hide CandidatesAuthorized, Indexed;
    assert ApprovalSound(w.db, p) && ProposalSound(w.db.approvals, w.proposals, w.cfg.approvalTtl, p);
  }

  lemma CandidateIsAuthorized(w: World, o: Id)
    requires Safe(w) && o in w.db.operations && w.db.operations[o].kind == CandidateCommit
    ensures exists p :: Authorizes(w.db, p, w.db.operations[o].attempt, w.db.operations[o].input)
  {
    hide Safe, ApprovalsSound, Authorizes;
    SafeApprovals(w);
    assert CandidateAuthorized(w.db, o);
  }

  /** Whatever was handed to git for a candidate commit, in any run, is byte for byte a diff that
      approval was asked and granted for, and its limits are those of the mission's spec. */
  lemma OnlyApprovedBytesReachGit(w: World, h: Handed)
    requires Reachable(w) && h in w.handed
    ensures h.operation in w.db.operations && w.db.operations[h.operation].kind == CandidateCommit
    ensures exists p :: ApprovedDiff(w, p, w.db.operations[h.operation].attempt, h.context.diff)
    ensures ContextOf(w.db, w.db.operations[h.operation].attempt, h.context)
  {
    hide Reachable, Safe, Authorizes, ApprovedDiff, ContextOf;
    ReachableSafe(w);
    SafeHanded(w);
    assert HandedSound(w.db, h);
    CandidateIsAuthorized(w, h.operation);
    var p :| Authorizes(w.db, p, w.db.operations[h.operation].attempt, w.db.operations[h.operation].input);
    AuthorizedIsApproved(w, p, w.db.operations[h.operation].attempt, h.context.diff);
  }

  /** Every candidate operation, committed or not, has such an approval. */
  lemma CandidatesAreApproved(w: World, o: Id)
    requires Reachable(w) && o in w.db.operations && w.db.operations[o].kind == CandidateCommit
    ensures exists p ::
      && Authorizes(w.db, p, w.db.operations[o].attempt, w.db.operations[o].input) && p in w.proposals
      && w.db.operations[o].input == Sha256(Utf8(w.proposals[p]))
  {
    hide Reachable, Safe, Registered, IsUnifiedDiff;
    ReachableSafe(w);
    CandidateIsAuthorized(w, o);
    SafeProposals(w);
    var p :| Authorizes(w.db, p, w.db.operations[o].attempt, w.db.operations[o].input);
    assert ProposalSound(w.db.approvals, w.proposals, w.cfg.approvalTtl, p);
  }

  // ---------------------------------------------------------------- epoch-fenced success

  /** An operation turns SUCCEEDED only in a step where its attempt holds the live lease of exactly
      the epoch it was prepared in. */
  lemma SuccessIsFenced(w: World, step: Step, o: Id)
    requires Reachable(w) && o in Apply(w, step).db.operations
    requires Apply(w, step).db.operations[o].status == OperationStatus.Succeeded
    requires o in w.db.operations ==> w.db.operations[o].status != OperationStatus.Succeeded
    ensures o in w.db.operations && w.db.operations[o].attempt in w.db.attempts
    ensures var row := w.db.attempts[w.db.operations[o].attempt];
      Live(row, w.now) && row.epoch == w.db.operations[o].epoch
  {
    hide Reachable, Safe, Good, Apply, Evolves, CancellationRespected, Extends;
    ReachableSafe(w);
    StepGood(w, step);
    StepForward(w, Apply(w, step));
    assert SuccessFenced(w.db, Apply(w, step).db, w.now, o);
  }

  /** SUCCEEDED and the result it was given never change afterwards. */
  lemma SuccessIsFinal(w: World, v: World, o: Id)
    requires Reachable(w) && Runs(w, v)
    requires o in w.db.operations && w.db.operations[o].status == OperationStatus.Succeeded
    ensures o in v.db.operations && v.db.operations[o] == w.db.operations[o]
  {
    hide Reachable, Safe, Runs;
    ReachableSafe(w);
    RunsOnlyMoveForward(w, v);
    hide MissionsLater, TasksLater, AttemptsLater, ApprovalsLater, WriteOnce;
  }

  // ---------------------------------------------------------------- exactly-once completion

  function SucceededAttempts(db: Db, m: Id): set<Id> {
    set a | a in db.attempts && OwnedBy(db.tasks, db.attempts, a, m) && db.attempts[a].status == AttemptStatus.Succeeded
  }

  function SucceededTasks(db: Db, m: Id): set<Id> {
    set t | t in db.tasks && db.tasks[t].mission == m && db.tasks[t].status == TaskStatus.Succeeded
  }

  function TasksOf(db: Db, m: Id, kind: TaskType): set<Id> {
    set t | t in db.tasks && db.tasks[t].mission == m && db.tasks[t].kind == kind
  }

  lemma SafeCompletions(w: World)
    requires Safe(w)
    ensures Completions(w.db.missions, w.db.tasks, w.db.attempts, w.db.bundles)
    ensures TaskShape(w.db.missions, w.db.tasks)
  {
    SafeWork(w);
    hide Safe, RecordsSound, EffectsSound, Completions, TaskShape, Coupled, AllChildrenCounted, ParentsLinked;
  }

  lemma SucceededAttemptsAre(w: World, m: Id)
    requires Safe(w) && m in w.db.missions
    ensures SucceededAttempts(w.db, m) == if m in w.db.bundles then {w.db.bundles[m].attempt} else {}
  {
    hide Safe, TaskShape, MissionSettled, TaskSettled, RowsLinked;
    SafeCompletions(w);
    forall a | a in SucceededAttempts(w.db, m) ensures m in w.db.bundles && a == w.db.bundles[m].attempt {
      assert AttemptSettled(w.db.tasks, w.db.attempts, w.db.bundles, a);
    }
    if m in w.db.bundles {
      var a := w.db.bundles[m].attempt;
      assert BundleSettled(w.db.tasks, w.db.attempts, w.db.bundles, m);
      assert AttemptSettled(w.db.tasks, w.db.attempts, w.db.bundles, a);
      assert a in SucceededAttempts(w.db, m);
    }
  }

  lemma SucceededTasksAre(w: World, m: Id)
    requires Safe(w) && m in w.db.missions
    ensures m in w.db.bundles ==> w.db.bundles[m].attempt in w.db.attempts
    ensures SucceededTasks(w.db, m) == if m in w.db.bundles then {w.db.attempts[w.db.bundles[m].attempt].task} else {}
  {
    hide Safe, TaskShape, MissionSettled, AttemptSettled, RowsLinked;
    SafeCompletions(w);
    if m in w.db.bundles {
      assert BundleSettled(w.db.tasks, w.db.attempts, w.db.bundles, m);
      var t := w.db.attempts[w.db.bundles[m].attempt].task;
      assert TaskSettled(w.db.tasks, w.db.attempts, w.db.bundles, t);
      assert t in SucceededTasks(w.db, m);
    }
    forall t | t in SucceededTasks(w.db, m)
      ensures m in w.db.bundles && t == w.db.attempts[w.db.bundles[m].attempt].task
    {
      assert TaskSettled(w.db.tasks, w.db.attempts, w.db.bundles, t);
    }
  }

  /** A mission is completed exactly when it has a bundle, exactly when one attempt of it has
      succeeded, exactly when one task of it has succeeded; otherwise none has. */
  lemma CompletionHappensOnce(w: World, m: Id)
    requires Reachable(w) && m in w.db.missions
    ensures w.db.missions[m].status == MissionStatus.Completed <==> m in w.db.bundles
    ensures |SucceededAttempts(w.db, m)| == if m in w.db.bundles then 1 else 0
    ensures |SucceededTasks(w.db, m)| == if m in w.db.bundles then 1 else 0
  {
    hide Reachable, Safe, TaskShape, TaskSettled, AttemptSettled, BundleSettled, RowsLinked, SucceededAttempts;
    hide SucceededTasks;
    ReachableSafe(w);
    SafeCompletions(w);
    assert MissionSettled(w.db.missions, w.db.bundles, m);
    SucceededAttemptsAre(w, m);
    SucceededTasksAre(w, m);
  }

  /** One baseline task, and at most one repair task, which exists only beside a failed baseline. */
  lemma OneTaskOfEachKind(w: World, m: Id)
    requires Reachable(w) && m in w.db.missions
    ensures |TasksOf(w.db, m, BaselineReproduction)| == 1
    ensures |TasksOf(w.db, m, RepairCandidate)| <= 1
    ensures TasksOf(w.db, m, RepairCandidate) != {} ==>
              forall t <- TasksOf(w.db, m, BaselineReproduction) :: w.db.tasks[t].status == TaskStatus.Failed
  {
    hide Reachable, Safe, Completions;
    ReachableSafe(w);
    SafeCompletions(w);
    var b: Id :| IsBaselineOf(w.db.tasks, b, m);
    forall t | t in TasksOf(w.db, m, BaselineReproduction) ensures t == b {
      assert !Rivals(w.db.tasks, t, b);
    }
    assert TasksOf(w.db, m, BaselineReproduction) == {b};
    if r :| r in TasksOf(w.db, m, RepairCandidate) {
      forall t | t in TasksOf(w.db, m, RepairCandidate) ensures t == r {
        assert !Rivals(w.db.tasks, t, r);
      }
      assert TasksOf(w.db, m, RepairCandidate) == {r};
      assert RepairAfterFailure(w.db.tasks, r, b);
    }
  }

  // ---------------------------------------------------------------- approvals

  function PendingOf(approvals: map<Id, Approval>, m: Id): set<Id> {
    set p | p in approvals && PendingFor(approvals, p, m)
  }

  lemma SafeCoupled(w: World)
    requires Safe(w)
    ensures Coupled(w.db.missions, w.db.approvals) && AllChildrenCounted(w.db.attempts, w.db.approvals)
  {
    SafeWork(w);
    hide Safe, RecordsSound, EffectsSound, Completions, TaskShape, Coupled, AllChildrenCounted, ParentsLinked;
  }

  lemma PendingAtMostOne(missions: map<Id, Mission>, approvals: map<Id, Approval>, m: Id)
    requires Coupled(missions, approvals)
    ensures |PendingOf(approvals, m)| <= 1
  {
    if p :| p in PendingOf(approvals, m) {
      forall q | q in PendingOf(approvals, m) ensures q == p {
        assert AtMostOne(approvals, p, q);
      }
      assert PendingOf(approvals, m) == {p};
    }
  }

  /** At most one pending approval a mission, exactly one while it waits, none while it is ready,
      running, verifying or completed; as many attempts resume from a parent as approvals were
      granted, and as many from each parent as it was granted. */
  lemma ApprovalsAreCoupled(w: World, m: Id, a: Id)
    requires Reachable(w) && m in w.db.missions
    ensures |PendingOf(w.db.approvals, m)| <= 1
    ensures w.db.missions[m].status == MissionStatus.WaitingApproval ==> |PendingOf(w.db.approvals, m)| == 1
    ensures !Paused(w.db.missions[m].status) ==> PendingOf(w.db.approvals, m) == {}
    ensures |Resumed(w.db.attempts)| == |Granted(w.db.approvals)|
    ensures |Children(w.db.attempts, a)| == |Grants(w.db.approvals, a)|
  {
    hide Reachable, Safe;
    ReachableSafe(w);
    SafeCoupled(w);
    assert ChildrenCounted(w.db.attempts, w.db.approvals, a);
    PendingAtMostOne(w.db.missions, w.db.approvals, m);
    if w.db.missions[m].status == MissionStatus.WaitingApproval {
      var p :| PendingFor(w.db.approvals, p, m);
      assert p in PendingOf(w.db.approvals, m);
    }
    if p: Id :| p in PendingOf(w.db.approvals, m) {
      assert PendingPauses(w.db.missions, w.db.approvals, p);
    }
  }

  /** A granted approval was decided strictly before it expired, and no approval is ever stored
      as expired. */
  lemma GrantedBeforeExpiry(w: World, p: Id)
    requires Reachable(w) && p in w.db.approvals
    ensures w.db.approvals[p].status != ApprovalStatus.Expired
    ensures w.db.approvals[p].status == ApprovalStatus.Approved ==>
              w.db.approvals[p].decidedAt.Some? && w.db.approvals[p].decidedAt.value < w.db.approvals[p].expiresAt
  {
    hide Reachable, Safe, CandidatesAuthorized, Registered, Indexed;
    ReachableSafe(w);
    SafeApprovals(w);
    assert ApprovalSound(w.db, p);
  }

  // ---------------------------------------------------------------- leases

  lemma SafeLease(w: World, a: Id)
    requires Safe(w) && a in w.db.attempts
    ensures a in w.leases && LeaseLog(w.leases[a], w.db.attempts[a], w.now)
  {
    hide LeaseLog;
    assert PartHolds(LeaseHistory, w);
  }

  /** The epoch of an attempt counts its leases and never exceeds its version; no two of its
      leases hold at the same time. */
  lemma LeasesNeverOverlap(w: World, a: Id, i: nat, j: nat, t: Time)
    requires Reachable(w) && a in w.db.attempts
    ensures a in w.leases && |w.leases[a]| == w.db.attempts[a].epoch <= w.db.attempts[a].version
    ensures i < |w.leases[a]| && j < |w.leases[a]| && i != j ==>
              !(w.leases[a][i].from <= t < w.leases[a][i].until && w.leases[a][j].from <= t < w.leases[a][j].until)
  {
    hide Reachable, Safe;
    ReachableSafe(w);
    SafeLease(w, a);
    if i < |w.leases[a]| && j < |w.leases[a]| && i != j && w.leases[a][i].from <= t < w.leases[a][i].until {
      LeasesDisjoint(w.leases[a], w.db.attempts[a], w.now, i, j, t);
    }
  }

  lemma EpochOverAfterStep(w: World, step: Step, a: Id, epoch: nat)
    requires Safe(w) && a in w.db.attempts && EpochOver(w.db.attempts[a], epoch, w.now)
    ensures var v := Apply(w, step);
      Safe(v) && a in v.db.attempts && EpochOver(v.db.attempts[a], epoch, v.now)
  {
    hide Safe, Good, Apply, Evolves, Disciplined, Extends, AttemptMoves;
    StepGood(w, step);
    StepForward(w, Apply(w, step));
    AttemptMoved(w.db, Apply(w, step).db, w.now, a);
    EpochStaysOver(w.db.attempts[a], Apply(w, step).db.attempts[a], epoch, w.now, w.now);
  }

  lemma {:induction false} EpochOverForGood(w: World, steps: seq<Step>, a: Id, epoch: nat)
    requires Safe(w) && a in w.db.attempts && EpochOver(w.db.attempts[a], epoch, w.now)
    ensures var v := RunFrom(w, steps); a in v.db.attempts && EpochOver(v.db.attempts[a], epoch, v.now)
    decreases |steps|
  {
    hide Safe, Apply, EpochOver;
    if steps != [] {
      EpochOverAfterStep(w, steps[0], a, epoch);
      EpochOverForGood(Apply(w, steps[0]), steps[1..], a, epoch);
    }
  }

  /** Once an epoch is superseded, finished or expired, no token of it, for any owner and any
      version, ever passes the lease check again. */
  lemma DeadEpochStaysDead(w: World, v: World, a: Id, epoch: nat, owner: Id, version: nat)
    requires Reachable(w) && Runs(w, v) && a in w.db.attempts && EpochOver(w.db.attempts[a], epoch, w.now)
    ensures a in v.db.attempts && v.db.attempts[a].CheckLease(Token(a, owner, epoch, version), v.now).Err?
  {
    hide Reachable, Safe, Runs, RunFrom;
    ReachableSafe(w);
    var steps := StepsOf(w, v);
    EpochOverForGood(w, steps, a, epoch);
  }

  // ---------------------------------------------------------------- the two lanes

  lemma SafeDelivered(w: World)
    requires Safe(w)
    ensures Delivered(w.db, w.sent)
  {
    SafeEffects(w);
    hide Safe, Delivered, Settled;
  }

  /** Every attempt has an event that is still to be published, or was put on its own lane at least
      once; nothing of it was ever put on the other lane. */
  lemma NoWorkIsLostOrMisrouted(w: World, a: Id)
    requires Reachable(w) && a in w.db.attempts
    ensures exists e <- w.db.outbox ::
      e.attempt == a && (e.id !in w.db.published || Delivery(e.topic, a) in w.sent)
    ensures forall e <- w.db.outbox :: e.attempt == a ==> Routed(w.db, e.topic, a)
    ensures forall d <- w.sent :: d.attempt == a ==> Routed(w.db, d.lane, a)
  {
    hide Reachable, Safe, Routed, EventIdsDistinct;
    ReachableSafe(w);
    SafeDelivered(w);
    var e: OutboxEvent :| EventFor(e, w.db.outbox, a);
  }

  // ---------------------------------------------------------------- the ledger and the blobs

  lemma SafeSettled(w: World)
    requires Safe(w)
    ensures Settled(w.db.operations, w.db.artifacts, w.blobs) && Keyed(w.db.operations, w.db.keys, w.db.attempts)
  {
    SafeEffects(w);
    SafeKeys(w);
    hide Safe, Delivered, Settled, Keyed;
  }

  /** A blob operation has succeeded exactly when its artifact is registered; the registration has
      the digest it was prepared with and the address that is its result, and the bytes are there. */
  lemma LedgerAgreesWithBlobs(w: World, o: Id)
    requires Reachable(w) && o in w.db.operations && w.db.operations[o].kind == CasPut
    ensures w.db.operations[o].status == OperationStatus.Succeeded <==> o in w.db.artifacts
    ensures o in w.db.artifacts ==>
      var (row, kept) := (w.db.operations[o], w.db.artifacts[o]);
      && kept.operation == o && kept.attempt == row.attempt
      && kept.artifact.sha == row.input && row.result == Some(CasUri(row.input))
      && ReadVerified(w.blobs, kept.artifact) == Ok(row.input.preimage)
  {
    hide Reachable, Safe, Keyed;
    ReachableSafe(w);
    SafeSettled(w);
    assert PutSettled(w.db.operations, w.db.artifacts, o);
    if o in w.db.artifacts {
      assert ArtifactSettled(w.db.operations, w.db.artifacts, w.blobs, o);
    }
  }

  /** The bundle recorded for a mission is the artifact that its bundle operation registered. */
  lemma BundleIsItsRegistration(w: World, m: Id)
    requires Reachable(w) && m in w.db.bundles
    ensures w.db.bundles[m].operation in w.db.artifacts
    ensures w.db.artifacts[w.db.bundles[m].operation].artifact == w.db.bundles[m].artifact
    ensures w.db.bundles[m].operation in w.db.operations
    ensures w.db.operations[w.db.bundles[m].operation].key == Key(w.db.bundles[m].attempt, BundleSlot)
  {
    hide Reachable, Safe, ClaimGrounded, MetricGrounded, Completions, GateOpen, Settled, OperationsKinded;
    hide OperationsOwned;
    ReachableSafe(w);
    SafeGrounded(w);
    SafeSettled(w);
    assert BundleGrounded(w.db, m);
  }

  /** A registered artifact is never replaced, and stays readable. */
  lemma ArtifactsAreWriteOnce(w: World, v: World, o: Id)
    requires Reachable(w) && Runs(w, v) && o in w.db.artifacts
    ensures o in v.db.artifacts && v.db.artifacts[o] == w.db.artifacts[o]
      && ReadVerified(v.blobs, v.db.artifacts[o].artifact).Ok?
  {
    hide Reachable, Safe, Runs, Keyed;
    ReachableSafe(w);
    RunsOnlyMoveForward(w, v);
    hide MissionsLater, TasksLater, AttemptsLater, OperationsLater, ApprovalsLater;
    SafeSettled(v);
    assert ArtifactSettled(v.db.operations, v.db.artifacts, v.blobs, o);
  }

  // ---------------------------------------------------------------- cancellation

  /** After cancellation was asked for, no run brings the mission back: it stays as it is, or ends
      cancelled or failed. */
  lemma CancellationWins(w: World, v: World, m: Id)
    requires Reachable(w) && Runs(w, v) && m in w.db.missions && w.db.missions[m].status == MissionStatus.Cancelling
    ensures m in v.db.missions
    ensures v.db.missions[m].status in
              {MissionStatus.Cancelling, MissionStatus.Cancelled, MissionStatus.Failed}
  {
    hide Reachable, Safe, Runs;
    ReachableSafe(w);
    RunsOnlyMoveForward(w, v);
    hide TasksLater, AttemptsLater, OperationsLater, ApprovalsLater, WriteOnce;
  }

  /** Operation `o`, if it is new and belongs to mission `m`, is a candidate commit; artifact `o`,
      if it is new, does not belong to `m`. */
  predicate NothingStarted(db: Db, after: Db, m: Id, o: Id) {
    && (o in after.operations && o !in db.operations && after.operations[o].kind != CandidateCommit ==>
          !OwnedBy(after.tasks, after.attempts, after.operations[o].attempt, m))
    && (o in after.artifacts && o !in db.artifacts ==>
          !OwnedBy(after.tasks, after.attempts, after.artifacts[o].attempt, m))
  }

  lemma OwnerIsIndexed(db: Db, after: Db, now: Time, a: Id, m: Id)
    requires Evolves(db, after, now) && MayStart(db, a) && OwnedBy(after.tasks, after.attempts, a, m)
    ensures m in db.missions && db.missions[m].status != MissionStatus.Cancelling
  {
    hide Evolves;
    IndexStays(db, after, now, a);
  }

  lemma CancellingStepStartsNothing(w: World, step: Step, m: Id, o: Id)
    requires Safe(w) && m in w.db.missions && w.db.missions[m].status == MissionStatus.Cancelling
    ensures NothingStarted(w.db, Apply(w, step).db, m, o)
  {
    hide Safe, Good, Apply, Evolves, Fenced, Extends, MayStart, OwnedBy;
    StepGood(w, step);
    var db, after := w.db, Apply(w, step).db;
    StepForward(w, Apply(w, step));
    if o in after.operations && o !in db.operations && after.operations[o].kind != CandidateCommit
       && OwnedBy(after.tasks, after.attempts, after.operations[o].attempt, m)
    {
      OwnerIsIndexed(db, after, w.now, after.operations[o].attempt, m);
    }
    if o in after.artifacts && o !in db.artifacts
        && OwnedBy(after.tasks, after.attempts, after.artifacts[o].attempt, m) {
      OwnerIsIndexed(db, after, w.now, after.artifacts[o].attempt, m);
    }
  }

  lemma OwnedBefore(w: World, after: Db, a: Id, m: Id)
    requires Safe(w) && Later(w.db, after) && a in w.db.attempts && OwnedBy(after.tasks, after.attempts, a, m)
    ensures OwnedBy(w.db.tasks, w.db.attempts, a, m)
  {
    hide Safe, MissionsLater, OperationsLater, ApprovalsLater, WriteOnce;
    SafeRows(w);
  }

  lemma OwnersExist(w: World, o: Id)
    requires Safe(w)
    ensures o in w.db.operations ==> w.db.operations[o].attempt in w.db.attempts
    ensures o in w.db.artifacts ==> o in w.db.operations && w.db.artifacts[o].attempt == w.db.operations[o].attempt
  {
    hide Safe, KeyIndex, OperationsKinded;
    SafeSettled(w);
    if o in w.db.artifacts { assert ArtifactSettled(w.db.operations, w.db.artifacts, w.blobs, o); }
  }

  lemma NothingStartedThrough(w: World, next: World, v: World, m: Id, o: Id)
    requires Safe(next) && Later(w.db, next.db) && Later(next.db, v.db)
    requires NothingStarted(w.db, next.db, m, o) && NothingStarted(next.db, v.db, m, o)
    ensures NothingStarted(w.db, v.db, m, o)
  {
    OwnersExist(next, o);
    var after := v.db;
    if o in next.db.operations && OwnedBy(after.tasks, after.attempts, next.db.operations[o].attempt, m) {
      hide Safe, Later;
      OwnedBefore(next, after, next.db.operations[o].attempt, m);
    }
    RowsStay(next.db, after, o);
    hide Safe, Later, OwnedBy;
  }

  lemma RowsStay(db: Db, after: Db, o: Id)
    requires Later(db, after)
    ensures o in db.operations ==> o in after.operations && SameIdentity(db.operations[o], after.operations[o])
    ensures o in db.artifacts ==> o in after.artifacts && after.artifacts[o] == db.artifacts[o]
  {
    hide MissionsLater, TasksLater, AttemptsLater, ApprovalsLater;
  }

  lemma StillCancelling(db: Db, next: Db, after: Db, m: Id)
    requires Later(db, next) && Later(next, after)
    requires m in db.missions && db.missions[m].status == MissionStatus.Cancelling
    requires m in after.missions && after.missions[m].status == MissionStatus.Cancelling
    ensures m in next.missions && next.missions[m].status == MissionStatus.Cancelling
  {
    hide TasksLater, AttemptsLater, OperationsLater, ApprovalsLater, WriteOnce;
  }

  lemma {:induction false} CancellingRunStartsNothing(w: World, steps: seq<Step>, m: Id, o: Id)
    requires Safe(w)
    requires m in w.db.missions && w.db.missions[m].status == MissionStatus.Cancelling
    requires var v := RunFrom(w, steps);
      m in v.db.missions && v.db.missions[m].status == MissionStatus.Cancelling
    ensures NothingStarted(w.db, RunFrom(w, steps).db, m, o)
    decreases |steps|
  {
    hide Safe, Good, Apply, Evolves, Disciplined, Extends, Later, NothingStarted;
    if steps == [] {
      StartsNothingNow(w.db, m, o);
    } else {
      var next, v := Apply(w, steps[0]), RunFrom(w, steps);
      StepGood(w, steps[0]);
      StepForward(w, next);
      EvolvesLater(w.db, next.db, w.now);
      StepsMoveForward(next, steps[1..]);
      StillCancelling(w.db, next.db, v.db, m);
      CancellingStepStartsNothing(w, steps[0], m, o);
      CancellingRunStartsNothing(next, steps[1..], m, o);
      NothingStartedThrough(w, next, v, m, o);
    }
  }

  lemma StartsNothingNow(db: Db, m: Id, o: Id)
    ensures NothingStarted(db, db, m, o)
  {}

  /** While a mission is being cancelled, no worktree, sandbox or blob operation is added for it
      and no artifact of it is registered, however long that takes. */
  lemma NothingStartsWhileCancelling(w: World, v: World, m: Id, o: Id)
    requires Reachable(w) && Runs(w, v)
    requires m in w.db.missions && w.db.missions[m].status == MissionStatus.Cancelling
    requires m in v.db.missions && v.db.missions[m].status == MissionStatus.Cancelling
    ensures NothingStarted(w.db, v.db, m, o)
  {
    hide Reachable, Safe, Runs, RunFrom, NothingStarted;
    ReachableSafe(w);
    var steps := StepsOf(w, v);
    CancellingRunStartsNothing(w, steps, m, o);
  }

  /** A cancelled mission has an attempt that is cancelled with its task, and whose sandbox accepted
      a stop while that attempt held its lease. */
  lemma CancelledWasStopped(w: World, m: Id)
    requires Reachable(w) && m in w.db.missions && w.db.missions[m].status == MissionStatus.Cancelled
    ensures exists s :: StoppedBy(w.db, w.stops, s, m)
  {
    hide Reachable, Safe, StoppedBy;
    ReachableSafe(w);
    SafeOutside(w);
  }

  // ---------------------------------------------------------------- recovery

  lemma SafePaced(w: World)
    requires Safe(w)
    ensures w.cfg.staleAfter > 0 && AllPaced(w.db, w.cfg.staleAfter, w.now)
  {
    SafeParts(w);
    SafeWork(w);
    hide Safe, DbWorkSound, RecordsSound, Settled, Delivered, CancelledSound, AllPaced;
  }

  /** k recovery requests for one operation take at least k stale intervals from its creation. */
  lemma RecoveriesAreSpaced(w: World, o: Id)
    requires Reachable(w) && o in w.db.operations
    ensures Requests(w.db.audits, o) * w.cfg.staleAfter <= w.now - w.db.operations[o].createdAt
  {
    hide Reachable, Safe, Requests;
    ReachableSafe(w);
    SafePaced(w);
    assert OperationPaced(w.db, o, w.cfg.staleAfter, w.now);
  }

  /** Whatever happens to an operation, recovery requests included, its key, attempt, type, input,
      epoch, target and creation time stay. */
  lemma OperationsKeepTheirIdentity(w: World, v: World, o: Id)
    requires Reachable(w) && Runs(w, v) && o in w.db.operations
    ensures o in v.db.operations
    ensures SameIdentity(w.db.operations[o], v.db.operations[o])
  {
    hide Reachable, Safe, Runs;
    ReachableSafe(w);
    RunsOnlyMoveForward(w, v);
    hide MissionsLater, TasksLater, AttemptsLater, ApprovalsLater, WriteOnce;
  }
}
