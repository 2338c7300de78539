/** Whole calls of the use cases: each `execute` as the code runs it, transaction by transaction and
    effect by effect, while the rest of the system does anything in between. */
module Calls {
  import opened Basics
  import opened Content
  import opened JsonPointer
  import opened Lifecycle
  import opened Tables
  import opened Transactions
  import opened Evolution
  import opened Changes
  import opened Completion
  import opened Ledger
  import opened Routing
  import opened Cancellation
  import opened Runtime
  import opened Safety
  import opened Effects
  import opened Steps
  import History
  import opened Theorems
  import opened Candidates
  import opened Outbox
  import G = GitWorktree

  // ---------------------------------------------------------------- one call among others

  /** The call that a step belongs to. */
  function CallOf(step: Step): Option<Id> {
    match step
    case Crash(s) => Some(s)
    case WorktreeBeginStep(s, _, _) => Some(s)
    case WorktreeFinishStep(s, _) => Some(s)
    case SandboxBeginStep(s, _, _, _) => Some(s)
    case SandboxFinishStep(s, _, _) => Some(s)
    case PutPrepareStep(s, _) => Some(s)
    case BlobWriteStep(s) => Some(s)
    case PutFinishStep(s) => Some(s)
    case FinalizeBeginStep(s, _, _, _) => Some(s)
    case RunFailStep(s, _) => Some(s)
    case ResultRegisterStep(s, _, _) => Some(s)
    case CompletionBeginStep(s, _) => Some(s)
    case FactsCollectStep(s) => Some(s)
    case BundleBuildStep(s, _) => Some(s)
    case MissionCompleteStep(s) => Some(s)
    case ProposalBeginStep(s, _, _) => Some(s)
    case ApprovalAskStep(s, _) => Some(s)
    case CandidateBeginStep(s, _, _) => Some(s)
    case CandidatePrepareStep(s, _) => Some(s)
    case CandidateCommitStep(s, _) => Some(s)
    case CandidateFinishStep(s) => Some(s)
    case CancelBeginStep(s, _) => Some(s)
    case SandboxStopStep(s) => Some(s)
    case MissionCancelStep(s) => Some(s)
    case PublishBeginStep(s, _) => Some(s)
    case EventPublishStep(s) => Some(s)
    case EventMarkStep(s) => Some(s)
    case _ => None
  }

  /** Steps of anything but call `s`. */
  predicate Foreign(steps: seq<Step>, s: Id) {
    forall step <- steps :: CallOf(step) != Some(s)
  }

  predicate SameSession(w: World, v: World, s: Id) {
    (s in w.sessions <==> s in v.sessions) && (s in w.sessions ==> v.sessions[s] == w.sessions[s])
  }

  lemma BasicLeavesOthers(w: World, step: Step, s: Id)
    requires CallOf(step) != Some(s) && Basic(step)
    ensures SameSession(w, ApplyBasic(w, step), s)
  {
    hide CreateMission, ClaimAttempt, RenewLease, RequestCancellation, ResolveApproval, ReconcileStale, PrepareWorktree;
    hide FinishWorktree, PrepareSandbox, FinishSandbox, RecordAll, FreshEvent;
  }

  lemma PutLeavesOthers(w: World, step: Step, s: Id)
    requires CallOf(step) != Some(s) && (step.PutPrepareStep? || step.BlobWriteStep? || step.PutFinishStep?)
    ensures SameSession(w, ApplyEvidential(w, step), s)
  {
    hide PreparePut, FinishPut, DemandOf, Kept, RecordAll, Put.Media, Put.Ref;
  }

  lemma RunLeavesOthers(w: World, step: Step, s: Id)
    requires CallOf(step) != Some(s) && (step.FinalizeBeginStep? || step.RunFailStep? || step.ResultRegisterStep?)
    ensures SameSession(w, ApplyEvidential(w, step), s)
  {
    hide LoadSpec, FailRun, RegisterResult, DemandOf, RunSpec, RecordAll, FreshEvent;
  }

  lemma EvidentialLeavesOthers(w: World, step: Step, s: Id)
    requires CallOf(step) != Some(s) && Evidential(step)
    ensures SameSession(w, ApplyEvidential(w, step), s)
  {
    hide AlreadyCompleted, CollectFacts, CompleteMission, RecordAll;
    hide PutPrepare, BlobWrite, PutFinish, FinalizeBegin, RunFail, ResultRegister;
    if step.PutPrepareStep? || step.BlobWriteStep? || step.PutFinishStep? {
      PutLeavesOthers(w, step, s);
    } else if step.FinalizeBeginStep? || step.RunFailStep? || step.ResultRegisterStep? {
      RunLeavesOthers(w, step, s);
    }
  }

  lemma CancelLeavesOthers(w: World, step: Step, s: Id)
    requires CallOf(step) != Some(s) && (step.CancelBeginStep? || step.SandboxStopStep? || step.MissionCancelStep?)
    ensures SameSession(w, ApplyOther(w, step), s)
  {
    hide AssertCancelling, CancelAttempt, RecordAll, Attempt.CheckLease;
  }

  lemma PublishLeavesOthers(w: World, step: Step, s: Id)
    requires CallOf(step) != Some(s) && (step.PublishBeginStep? || step.EventPublishStep? || step.EventMarkStep?)
    ensures SameSession(w, ApplyOther(w, step), s)
  {
    hide FetchUnpublished, MarkPublished, RecordAll;
  }

  lemma CandidateLeavesOthers(w: World, step: Step, s: Id)
    requires CallOf(step) != Some(s)
    requires step.CandidateBeginStep? || step.CandidatePrepareStep? || step.CandidateCommitStep?
        || step.CandidateFinishStep?
    ensures SameSession(w, ApplyOther(w, step), s)
  {
    hide LoadRepairContext, PrepareCandidate, FinishCandidate, RecordAll;
  }

  lemma OtherLeavesOthers(w: World, step: Step, s: Id)
    requires CallOf(step) != Some(s) && !Basic(step) && !Evidential(step)
    ensures SameSession(w, ApplyOther(w, step), s)
  {
    hide ValidateProposal, RequestApproval, RecordAll, IsUnifiedDiff, CandidateBegin, CandidatePrepare, CommitCandidate;
    hide CandidateFinish, CancelBegin, SandboxStop, MissionCancel, PublishBegin, EventPublish, EventMark;
    if step.CancelBeginStep? || step.SandboxStopStep? || step.MissionCancelStep? {
      CancelLeavesOthers(w, step, s);
    } else if step.PublishBeginStep? || step.EventPublishStep? || step.EventMarkStep? {
      PublishLeavesOthers(w, step, s);
    } else if step.CandidateBeginStep? || step.CandidatePrepareStep? || step.CandidateCommitStep?
        || step.CandidateFinishStep? {
      CandidateLeavesOthers(w, step, s);
    }
  }

  /** A step of one call leaves every other call where it is. */
  lemma StepLeavesOthers(w: World, step: Step, s: Id)
    requires CallOf(step) != Some(s)
    ensures SameSession(w, Apply(w, step), s)
  {
    hide CallOf, ApplyBasic, ApplyEvidential, ApplyOther, SameSession, Basic, Evidential;
    if Basic(step) {
      BasicLeavesOthers(w, step, s);
    } else if Evidential(step) {
      EvidentialLeavesOthers(w, step, s);
    } else {
      OtherLeavesOthers(w, step, s);
    }
  }

  lemma {:induction false} OthersLeave(w: World, steps: seq<Step>, s: Id)
    requires Foreign(steps, s)
    ensures SameSession(w, RunFrom(w, steps), s)
    decreases |steps|
  {
    hide Apply, CallOf;
    if steps != [] {
      assert steps[0] in steps;
      StepLeavesOthers(w, steps[0], s);
      OthersLeave(Apply(w, steps[0]), steps[1..], s);
    }
  }

  ghost predicate AllForeign(others: nat -> seq<Step>, s: Id) {
    forall n: nat :: Foreign(others(n), s)
  }

  lemma FreshIds(w: World)
    ensures exists id: Id :: id !in w.db.operations
    ensures exists id: Id :: id !in w.db.approvals
    ensures exists id: Id :: id !in w.db.claims && id !in w.db.evidence
    ensures exists ids: RepairIds :: FreshRepair(w.db, ids)
  {
    FreshExists(w.db.operations.Keys);
    FreshExists(w.db.approvals.Keys);
    FreshExists(w.db.claims.Keys + w.db.evidence.Keys);
    FreshExists(w.db.tasks.Keys);
    FreshExists(w.db.attempts.Keys);
    FreshExists(set e | e in w.db.outbox :: e.id);
    var task: Id :| task !in w.db.tasks.Keys;
    var attempt: Id :| attempt !in w.db.attempts.Keys;
    var event: Id :| event !in set e | e in w.db.outbox :: e.id;
    assert FreshRepair(w.db, RepairIds(task, attempt, event));
  }

  predicate FreshRepair(db: Db, ids: RepairIds) {
    ids.task !in db.tasks && ids.attempt !in db.attempts && FreshEvent(db.outbox, ids.event)
  }

  // ---------------------------------------------------------------- the artifact persister

  lemma PutPrepareSession(w: World, s: Id, newId: Id)
    requires s in w.sessions && DemandOf(w.sessions[s]).Persist? && newId !in w.db.operations
    requires !w.sessions[s].Publishing? && !w.sessions[s].EventSent?
    ensures var v := PutPrepare(w, s, newId);
      var (token, demand) := (w.sessions[s].token, DemandOf(w.sessions[s]));
      var r := PreparePut(w.db, w.now, token, demand.put, newId);
      if s !in v.sessions then Refuses(w, s, PutPrepareStep(s, newId))
      else
        || v.sessions[s] == Persisting(token, demand.put, demand.follow)
        || (r.Ok? && r.value.1.Some? && v.sessions[s] == Kept(token, demand.follow,
              ArtifactRef(r.value.1.value.artifact.sha, r.value.1.value.artifact.size, demand.put.Media())))
  {
    hide DemandOf, Kept, RecordAll, PreparePut, Put.Media;
  }

  /** What the prepare transaction leaves of the call: nothing after an exception, a put in progress,
      or the artifact that was there already, which is the one it would register now. */
  lemma PutPrepared(w: World, s: Id, newId: Id)
    requires Safe(w) && s in w.sessions && DemandOf(w.sessions[s]).Persist? && newId !in w.db.operations
    requires !w.sessions[s].Publishing? && !w.sessions[s].EventSent?
    ensures var v := PutPrepare(w, s, newId);
      var (token, demand) := (w.sessions[s].token, DemandOf(w.sessions[s]));
      if s !in v.sessions then Refuses(w, s, PutPrepareStep(s, newId))
      else
        || v.sessions[s] == Persisting(token, demand.put, demand.follow)
        || v.sessions[s] == Kept(token, demand.follow, demand.put.Ref())
  {
    hide Safe, DemandOf, Kept, KeyIndex, OperationsKinded, Settled, Delivered, Apply, PreparePut;
    SafeKeys(w);
    SafeEffects(w);
    PutPrepareSession(w, s, newId);
    var token, put := w.sessions[s].token, DemandOf(w.sessions[s]).put;
    var r := PreparePut(w.db, w.now, token, put, newId);
    if r.Ok? && r.value.1.Some? {
      FoundPutIsThePut(w.db, w.blobs, w.now, token, put, newId);
    }
  }

  lemma FoundPutIsThePut(db: Db, blobs: map<Digest, Bytes>, now: Time, token: Token, put: Put, newId: Id)
    requires Settled(db.operations, db.artifacts, blobs) && KeyIndex(db.operations, db.keys)
    requires PreparePut(db, now, token, put, newId).Ok? && PreparePut(db, now, token, put, newId).value.1.Some?
    ensures var found := PreparePut(db, now, token, put, newId).value.1.value.artifact;
      ArtifactRef(found.sha, found.size, put.Media()) == put.Ref()
  {
    FoundPut(db, now, token, put, newId);
    hide PreparePut, Size;
    assert ArtifactSettled(db.operations, db.artifacts, blobs, db.keys[Key(token.attempt, put.slot)]);
  }

  /** What a caller learns about a candidate: no paths when the operation had succeeded before. */
  datatype RepairCandidateView = RepairCandidateView(commit: EffectRef, paths: seq<string>, lines: nat)

  /** The view is that of the one candidate commit of the repository, which is made of an approved diff. */
  ghost predicate MadeIn(repo: G.CandidateRepository, w: World, view: RepairCandidateView)
    reads repo`commits
  {
    exists c :: repo.Candidates() == {c} && MadeOfApproved(repo, w, c) && Names(repo, c, view)
  }

  predicate Names(repo: G.CandidateRepository, c: Id, view: RepairCandidateView)
    reads repo`commits
  {
    && c in repo.commits && repo.pinned in repo.commits
    && view.commit == External(PrintDecimal(c)) && view.paths == repo.ViewOf(c).paths
  }

  /** The attempt is there, and the repository is that of its mission. */
  predicate OnSpec(repo: G.CandidateRepository, db: Db, a: Id) {
    Indexed(db, a) && RepositoryOf(repo, db.missions[MissionOf(db, a)].spec)
  }

  /** The operation in this slot has no other result. */
  predicate SlotNames(db: Db, a: Id, slot: Slot, name: EffectRef) {
    && OperationFor(db, Key(a, slot)).Some?
    && (OperationFor(db, Key(a, slot)).value.result.Some? ==> OperationFor(db, Key(a, slot)).value.result.value == name)
  }

  /** The operation in this slot has succeeded with this result. */
  predicate SlotHolds(db: Db, a: Id, slot: Slot, name: EffectRef) {
    SlotSucceeded(db, a, slot) && OperationFor(db, Key(a, slot)).value.result == Some(name)
  }

  lemma SlotStaysSucceeded(w: World, v: World, a: Id, slot: Slot)
    requires Safe(w) && Runs(w, v) && SlotSucceeded(w.db, a, slot)
    ensures SlotSucceeded(v.db, a, slot)
    ensures OperationFor(v.db, Key(a, slot)) == OperationFor(w.db, Key(a, slot))
  {
    hide Safe, Runs;
    RunsOnlyMoveForward(w, v);
    hide History.MissionsLater, History.TasksLater, History.AttemptsLater, History.ApprovalsLater;
  }

  lemma SucceededRow(db: Db, a: Id)
    requires SlotSucceeded(db, a, CandidateSlot)
    ensures var key := Key(a, CandidateSlot); key in db.keys && db.keys[key] in db.operations
  {}

  lemma AnswerIsNamed(repo: G.CandidateRepository, operation: Id, answer: G.CandidateCommit, view: RepairCandidateView)
    requires repo.Valid() && repo.Answers(operation, answer)
    requires view == RepairCandidateView(External(PrintDecimal(answer.commit)), answer.paths, answer.lines)
    ensures answer.commit in repo.Candidates() && Names(repo, answer.commit, view)
  {
    hide G.CandidateRepository.CandidateOk, PrintDecimal;
  }

  lemma NamedIsMade(repo: G.CandidateRepository, w: World, c: Id, view: RepairCandidateView)
    requires Safe(w) && repo.Valid() && Tracks(repo, w.db) && c in repo.Candidates() && Names(repo, c, view)
    ensures MadeIn(repo, w, view)
  {
    hide Safe, MadeOfApproved, Names, Tracks, G.CandidateRepository.CandidateOk;
    CommitsAreApproved(repo, w, c);
    OnlyMember(repo.Candidates(), c);
  }

  lemma OnlyMember(s: set<Id>, c: Id)
    requires c in s && |s| <= 1
    ensures s == {c}
  {
    if x :| x in s && x != c { G.TwoMembers(s, x, c); }
  }

  lemma OnSpecLater(repo: G.CandidateRepository, w: World, v: World, a: Id)
    requires Safe(w) && Runs(w, v) && OnSpec(repo, w.db, a)
    ensures OnSpec(repo, v.db, a)
  {
    hide Safe, Runs, RepositoryOf;
    RunsOnlyMoveForward(w, v);
    hide History.OperationsLater, History.ApprovalsLater, Evolution.WriteOnce;
  }

  // ---------------------------------------------------------------- why a call raises

  /** In this state, the transaction that is this step of the call is refused, or the call judges its run
      and raises. */
  predicate Refuses(u: World, s: Id, step: Step) {
    CallOf(step) == Some(s) &&
    match step
    case WorktreeBeginStep(_, token, id) => PrepareWorktree(u.db, u.now, token, id).Err?
    case WorktreeFinishStep(_, path) =>
      s in u.sessions && u.sessions[s].WorktreePrepared? && FinishWorktree(u.db, u.now, u.sessions[s].token, path).Err?
    case SandboxBeginStep(_, token, path, id) => PrepareSandbox(u.db, u.now, token, path, id).Err?
    case SandboxFinishStep(_, version, result) =>
      && s in u.sessions && u.sessions[s].SandboxPrepared?
      && FinishSandbox(u.db, u.now, u.sessions[s].token.(version := version), result).Err?
    case PutPrepareStep(_, id) =>
      && s in u.sessions && DemandOf(u.sessions[s]).Persist? && !u.sessions[s].Publishing? && !u.sessions[s].EventSent?
      && PreparePut(u.db, u.now, u.sessions[s].token, DemandOf(u.sessions[s]).put, id).Err?
    case PutFinishStep(_) =>
      s in u.sessions && u.sessions[s].BlobWritten?
      && FinishPut(u.db, u.now, u.sessions[s].token, u.sessions[s].put).Err?
    case FinalizeBeginStep(_, token, _, _) => LoadSpec(u.db, token.attempt).Err?
    case RunFailStep(_, _) => s in u.sessions && DemandOf(u.sessions[s]).FailWith?
    case Crash(_) => s in u.sessions && u.sessions[s].MetricKept? && DemandOf(u.sessions[s]).Raise?
    case ResultRegisterStep(_, metric, claim) =>
      && s in u.sessions && u.sessions[s].MetricKept? && DemandOf(u.sessions[s]).RegisterNow?
      && RegisterResult(u.db, u.now, u.sessions[s].token, DemandOf(u.sessions[s]).evidence, metric, claim).Err?
    case CompletionBeginStep(_, token) => AlreadyCompleted(u.db, token.attempt).Err?
    case FactsCollectStep(_) =>
      s in u.sessions && u.sessions[s].CompletionChecked? && CollectFacts(u.db, u.now, u.sessions[s].token).Err?
    case MissionCompleteStep(_) =>
      && s in u.sessions && u.sessions[s].BundleKept?
      && CompleteMission(u.db, u.now, u.sessions[s].token, u.sessions[s].bundle).Err?
    case ProposalBeginStep(_, token, diff) => !IsUnifiedDiff(diff) || ValidateProposal(u.db, u.now, token).Err?
    case ApprovalAskStep(_, p) =>
      && s in u.sessions && u.sessions[s].PatchKept?
      && Transactions.RequestApproval(u.db, u.cfg, u.now, u.sessions[s].token, u.sessions[s].patch, p).Err?
    case CancelBeginStep(_, token) => AssertCancelling(u.db, u.now, token).Err?
    case MissionCancelStep(_) =>
      s in u.sessions && u.sessions[s].StopAccepted? && CancelAttempt(u.db, u.now, u.sessions[s].token).Err?
    case _ => false
  }

  /** The call was refused somewhere on the way. */
  ghost predicate RefusedSince(begin: World, s: Id) {
    exists u: World, step: Step :: Runs(begin, u) && Refuses(u, s, step)
  }

  /** Nobody could claim the attempt when the worker asked for it. */
  ghost predicate ClaimRefused(begin: World, attempt: Id, owner: Id) {
    exists u: World :: Runs(begin, u) && ClaimAttempt(u.db, u.cfg, u.now, attempt, owner).Err?
  }

  lemma RefusedThrough(begin: World, middle: World, s: Id)
    requires Runs(begin, middle) && RefusedSince(middle, s)
    ensures RefusedSince(begin, s)
  {
    hide Runs, Refuses;
    var u: World, step: Step :| Runs(middle, u) && Refuses(u, s, step);
    RunsThrough(begin, middle, u);
  }

  lemma ClaimIsRefused(begin: World, before: World, others: seq<Step>, attempt: Id, owner: Id)
    requires Runs(begin, before)
    requires var u := RunFrom(before, others); ClaimAttempt(u.db, u.cfg, u.now, attempt, owner).Err?
    ensures ClaimRefused(begin, attempt, owner)
  {
    hide Runs, RunFrom, ClaimAttempt;
    RunsOn(begin, before, others);
  }

  lemma RefusedHere(begin: World, u: World, s: Id, step: Step)
    requires Runs(begin, u) && Refuses(u, s, step)
    ensures RefusedSince(begin, s)
  {
    hide Runs, Refuses;
  }

  class Service {
    var world: World

    constructor (cfg: Config, now: Time)
      requires cfg.Valid()
      ensures world == Begin(cfg, now) && Safe(world)
    {
      BeginSafe(cfg, now);
      world := Begin(cfg, now);
    }

    /** The rest of the system runs for a while. */
    method Interleave(s: Id, others: seq<Step>, ghost begin: World)
      requires Safe(world) && Foreign(others, s) && Runs(begin, world)
      modifies this
      ensures world == RunFrom(old(world), others) && Safe(world) && Runs(begin, world)
      ensures SameSession(old(world), world, s)
    {
      hide Safe, Runs, Apply, Foreign, RunFrom;
      RunSafe(world, others);
      OthersLeave(world, others, s);
      RunsOn(begin, world, others);
      world := RunFrom(world, others);
    }

    /** One step of this call. */
    method Take(step: Step, ghost begin: World)
      requires Safe(world) && Runs(begin, world)
      modifies this
      ensures world == Apply(old(world), step) && Safe(world) && Runs(begin, world)
    {
      hide Safe, Runs, Apply, RunFrom;
      RunSafe(world, [step]);
      OneStep(world, step);
      RunsOn(begin, world, [step]);
      world := Apply(world, step);
    }

    /** `PersistArtifact.execute`. */
    method Persist(s: Id, others: nat -> seq<Step>, ghost begin: World) returns (r: Result<ArtifactRef>)
      requires Safe(world) && Runs(begin, world) && AllForeign(others, s)
      requires s in world.sessions && DemandOf(world.sessions[s]).Persist?
      requires !world.sessions[s].Publishing? && !world.sessions[s].EventSent?
      modifies this
      ensures Safe(world) && Runs(begin, world)
      ensures r.Err? ==> s !in world.sessions && RefusedSince(begin, s)
      ensures r.Ok? ==> s in world.sessions
      ensures var (token, demand) := (old(world.sessions[s].token), DemandOf(old(world.sessions[s])));
        r.Ok? ==> r.value == demand.put.Ref() && world.sessions[s] == Kept(token, demand.follow, r.value)
    {
      hide Safe, Runs, Apply, RunFrom, DemandOf, Kept, Foreign, Put.Ref, Refuses, RefusedSince;
      hide PutPrepare, BlobWrite, PutFinish;
      var token, demand := world.sessions[s].token, DemandOf(world.sessions[s]);
      Interleave(s, others(0), begin);
      FreshIds(world);
      var newId: Id :| newId !in world.db.operations;
      PutPrepared(world, s, newId);
      PutPrepareApplies(world, s, newId);
      ghost var u := world;
      Take(PutPrepareStep(s, newId), begin);
      if s !in world.sessions {
        RefusedHere(begin, u, s, PutPrepareStep(s, newId));
        return Err(Refused);
      }
      if world.sessions[s] == Persisting(token, demand.put, demand.follow) {
        Interleave(s, others(1), begin);
        BlobIsWritten(world, s);
        BlobWriteApplies(world, s);
        Take(BlobWriteStep(s), begin);
        Interleave(s, others(2), begin);
        PutIsFinished(world, s);
        PutFinishApplies(world, s);
        u := world;
        Take(PutFinishStep(s), begin);
        if s !in world.sessions {
          RefusedHere(begin, u, s, PutFinishStep(s));
          return Err(Refused);
        }
      }
      return Ok(demand.put.Ref());
    }

    /** `FinalizeBaselineExecution._fail`. */
    method Fail(s: Id, others: seq<Step>, ghost begin: World)
      requires Safe(world) && Runs(begin, world) && Foreign(others, s)
      requires s in world.sessions && DemandOf(world.sessions[s]).FailWith? && RunSpec(world.sessions[s]).Some?
      modifies this
      ensures Safe(world) && Runs(begin, world) && s !in world.sessions && RefusedSince(begin, s)
    {
      hide Safe, Runs, Apply, RunFrom, DemandOf, RunSpec, Foreign, FreshRepair, Refuses, RefusedSince;
      hide RunFail;
      Interleave(s, others, begin);
      FreshIds(world);
      var ids: RepairIds :| FreshRepair(world.db, ids);
      RunIsFailed(world, s, ids);
      RunFailApplies(world, s, ids);
      RefusedHere(begin, world, s, RunFailStep(s, ids));
      Take(RunFailStep(s, ids), begin);
    }

    /** `FinalizeBaselineExecution.execute`: every exit but the last raises. When it returns normally
        the metric of the attempt is registered. */
    method Finalize(s: Id, token: Token, result: SandboxResult, commit: string, others: nat -> seq<Step>)
      returns (r: Result<()>)
      requires Safe(world) && s !in world.sessions && AllForeign(others, s)
      modifies this
      ensures Safe(world) && Runs(old(world), world) && s !in world.sessions
      ensures if r.Ok? then token.attempt in world.db.metrics else RefusedSince(old(world), s)
    {
      hide Safe, Runs, Apply, RunFrom, Foreign, Size, ValidateMetric, Refuses, RefusedSince;
      hide FinalizeBegin;
      ghost var begin := world;
      RunsNowhere(world);
      Interleave(s, others(0), begin);
      RunIsLoaded(world, s, token, result, commit);
      FinalizeBeginApplies(world, s, token, result, commit);
      ghost var u := world;
      Take(FinalizeBeginStep(s, token, result, commit), begin);
      if s !in world.sessions {
        RefusedHere(begin, u, s, FinalizeBeginStep(s, token, result, commit));
        return Err(NotFound);
      }
      var run := world.sessions[s].run;
      if Size(result.log) > run.spec.maxLogBytes {
        Fail(s, others(1), begin);
        return Err(Refused);
      }
      var log := Persist(s, (n: nat) => others(n + 2), begin);
      if log.Err? { return Err(log.error); }
      r := FinalizeMetric(s, token, run, log.value, (n: nat) => others(n + 5), begin);
    }

    /** The second half of the same method, from the exit code on. */
    method FinalizeMetric(s: Id, token: Token, run: Run, log: ArtifactRef, others: nat -> seq<Step>, ghost begin: World)
      returns (r: Result<()>)
      requires Safe(world) && Runs(begin, world) && AllForeign(others, s)
      requires s in world.sessions && world.sessions[s] == LogKept(token, run, log)
      modifies this
      ensures Safe(world) && Runs(begin, world) && s !in world.sessions
      ensures if r.Ok? then token.attempt in world.db.metrics else RefusedSince(begin, s)
    {
      hide Safe, Runs, Apply, RunFrom, Foreign, Size, ValidateMetric, Refuses, RefusedSince;
      if run.result.exitCode != 0 {
        Fail(s, others(0), begin);
        return Err(Refused);
      }
      if run.spec.metricPath !in run.result.files {
        Fail(s, others(0), begin);
        return Err(Refused);
      }
      var payload := run.result.files[run.spec.metricPath];
      if Size(run.result.log) + Size(payload) > run.spec.maxArtifactBytes {
        Fail(s, others(0), begin);
        return Err(Refused);
      }
      var metric := Persist(s, (n: nat) => others(n + 1), begin);
      if metric.Err? { return Err(metric.error); }
      var validation := ValidateMetric(payload, run.spec.expectation);
      if validation.Err? {
        RunIsUnreadable(world, s);
        RefusedHere(begin, world, s, Crash(s));
        CrashApplies(world, s);
        Take(Crash(s), begin);
        return Err(MetricExtraction);
      }
      if !validation.value.passed {
        Fail(s, others(4), begin);
        return Err(Refused);
      }
      r := Register(s, others(4), begin);
    }

    /** `FinalizeBaselineExecution._register_verified_result`. */
    method Register(s: Id, others: seq<Step>, ghost begin: World) returns (r: Result<()>)
      requires Safe(world) && Runs(begin, world) && Foreign(others, s)
      requires s in world.sessions && world.sessions[s].MetricKept? && DemandOf(world.sessions[s]).RegisterNow?
      modifies this
      ensures Safe(world) && Runs(begin, world) && s !in world.sessions
      ensures if r.Ok? then old(world.sessions[s]).token.attempt in world.db.metrics else RefusedSince(begin, s)
    {
      hide Safe, Runs, Apply, RunFrom, DemandOf, Foreign, RegisterResult, Refuses, RefusedSince;
      hide ResultRegister;
      Interleave(s, others, begin);
      FreshIds(world);
      var claim: Id :| claim !in world.db.claims && claim !in world.db.evidence;
      var registered := RegisterResult(world.db, world.now, world.sessions[s].token,
                                       DemandOf(world.sessions[s]).evidence, claim, claim);
      ResultIsRegistered(world, s, claim, claim);
      ResultRegisterApplies(world, s, claim, claim);
      if registered.Err? { RefusedHere(begin, world, s, ResultRegisterStep(s, claim, claim)); }
      Take(ResultRegisterStep(s, claim, claim), begin);
      return if registered.Ok? then Ok(()) else Err(registered.error);
    }

    /** `CompleteReproductionMission.execute`: it returns the bundle of the mission, which is the one that is
        recorded already for a mission that was completed before. */
    method Complete(s: Id, token: Token, payload: Bytes, others: nat -> seq<Step>) returns (r: Result<ArtifactRef>)
      requires Safe(world) && s !in world.sessions && AllForeign(others, s)
      modifies this
      ensures Safe(world) && Runs(old(world), world) && s !in world.sessions
      ensures if r.Ok? then Bundled(world.db, token.attempt, r.value) else RefusedSince(old(world), s)
      ensures forall known: ArtifactRef :: old(Bundled(world.db, token.attempt, known)) ==> r == Ok(known)
    {
      hide Safe, Runs, Apply, RunFrom, Foreign, Size, AlreadyCompleted, Refuses, RefusedSince, Bundled;
      hide CompletionBegin, FactsCollect, BuildBundle;
      ghost var begin := world;
      RunsNowhere(world);
      Interleave(s, others(0), begin);
      SafeRows(world);
      var completed := AlreadyCompleted(world.db, token.attempt);
      CompletionIsChecked(world, s, token);
      forall known: ArtifactRef | Bundled(begin.db, token.attempt, known)
        ensures completed.Ok? && completed.value.Some? && completed.value.value.artifact == known
      {
        BundleIsAnswered(begin, world, token.attempt, known);
      }
      if completed.Err? {
        RefusedHere(begin, world, s, CompletionBeginStep(s, token));
        return Err(completed.error);
      }
      if completed.value.Some? { return Ok(completed.value.value.artifact); }
      CompletionBeginApplies(world, s, token);
      Take(CompletionBeginStep(s, token), begin);
      Interleave(s, others(1), begin);
      FactsAreCollected(world, s);
      FactsCollectApplies(world, s);
      ghost var u := world;
      Take(FactsCollectStep(s), begin);
      if s !in world.sessions {
        RefusedHere(begin, u, s, FactsCollectStep(s));
        return Err(Refused);
      }
      BundleIsBuilt(world, s, payload);
      BundleBuildApplies(world, s, payload);
      Take(BundleBuildStep(s, payload), begin);
      r := RegisterBundle(s, (n: nat) => others(n + 2), begin);
    }

    /** The bundle is persisted, and then the mission completes in a transaction of its own. */
    method RegisterBundle(s: Id, others: nat -> seq<Step>, ghost begin: World) returns (r: Result<ArtifactRef>)
      requires Safe(world) && Runs(begin, world) && AllForeign(others, s)
      requires s in world.sessions && world.sessions[s].BundleBuilt?
      modifies this
      ensures Safe(world) && Runs(begin, world) && s !in world.sessions
      ensures var a := old(world.sessions[s].token.attempt);
        if r.Ok? then Bundled(world.db, a, r.value) else RefusedSince(begin, s)
    {
      hide Safe, Runs, Apply, RunFrom, Foreign, Size, CompleteMission, Indexed, Refuses, RefusedSince, Bundled;
      hide MissionComplete;
      var token := world.sessions[s].token;
      var bundle := Persist(s, (n: nat) => others(n), begin);
      if bundle.Err? { return Err(bundle.error); }
      Interleave(s, others(3), begin);
      var done := CompleteMission(world.db, world.now, token, bundle.value);
      MissionIsCompleted(world, s);
      MissionCompleteApplies(world, s);
      if done.Err? { RefusedHere(begin, world, s, MissionCompleteStep(s)); }
      Take(MissionCompleteStep(s), begin);
      return if done.Ok? then Ok(bundle.value) else Err(done.error);
    }

    /** `EnsureBaselineWorkspace.execute`; `path` is where the worktree turned out to be. */
    method EnsureWorkspace(s: Id, token: Token, path: string, others: nat -> seq<Step>) returns (r: Result<()>)
      requires Safe(world) && s !in world.sessions && AllForeign(others, s)
      modifies this
      ensures Safe(world) && Runs(old(world), world) && s !in world.sessions
      ensures if r.Ok? then SlotSucceeded(world.db, token.attempt, BaselineWorktree) else RefusedSince(old(world), s)
    {
      hide Safe, Runs, Apply, RunFrom, Foreign, PrepareWorktree, FinishWorktree, SlotSucceeded, Refuses, RefusedSince;
      hide WorktreeBegin, WorktreeFinish;
      ghost var begin := world;
      RunsNowhere(world);
      Interleave(s, others(0), begin);
      FreshIds(world);
      var newId: Id :| newId !in world.db.operations;
      var prepared := PrepareWorktree(world.db, world.now, token, newId);
      WorktreeIsPrepared(world, s, token, newId);
      WorktreeBeginApplies(world, s, token, newId);
      if prepared.Err? { RefusedHere(begin, world, s, WorktreeBeginStep(s, token, newId)); }
      Take(WorktreeBeginStep(s, token, newId), begin);
      if prepared.Err? { return Err(prepared.error); }
      Interleave(s, others(1), begin);
      var done := FinishWorktree(world.db, world.now, token, path);
      WorktreeIsFinished(world, s, path);
      WorktreeFinishApplies(world, s, path);
      if done.Err? { RefusedHere(begin, world, s, WorktreeFinishStep(s, path)); }
      Take(WorktreeFinishStep(s, path), begin);
      return if done.Ok? then Ok(()) else Err(done.error);
    }

    /** `RunBaselineAttempt.execute`; the heartbeats of its monitor are steps of the others, and
        `version` is what they left. `completed` is what the broker kept, for an operation that had
        succeeded before. */
    method RunSandbox(s: Id, token: Token, path: string, version: nat, result: SandboxResult,
                      completed: Option<SandboxResult>, others: nat -> seq<Step>)
      returns (r: Result<SandboxResult>)
      requires Safe(world) && s !in world.sessions && AllForeign(others, s)
      modifies this
      ensures Safe(world) && Runs(old(world), world) && s !in world.sessions
      ensures r.Ok? ==> SlotSucceeded(world.db, token.attempt, Sandbox)
      ensures r.Ok? ==> r.value == result || completed == Some(r.value)
      ensures r.Err? ==> RefusedSince(old(world), s) || completed.None?
    {
      hide Safe, Runs, Apply, RunFrom, Foreign, PrepareSandbox, FinishSandbox, SlotSucceeded, Refuses, RefusedSince;
      hide SandboxBegin, SandboxFinish;
      ghost var begin := world;
      RunsNowhere(world);
      Interleave(s, others(0), begin);
      FreshIds(world);
      var newId: Id :| newId !in world.db.operations;
      var prepared := PrepareSandbox(world.db, world.now, token, path, newId);
      SandboxIsPrepared(world, s, token, path, newId);
      SandboxBeginApplies(world, s, token, path, newId);
      if prepared.Err? { RefusedHere(begin, world, s, SandboxBeginStep(s, token, path, newId)); }
      Take(SandboxBeginStep(s, token, path, newId), begin);
      if prepared.Err? { return Err(prepared.error); }
      if prepared.value.2 {
        return if completed.Some? then Ok(completed.value) else Err(OperationConflict);
      }
      Interleave(s, others(1), begin);
      var done := FinishSandbox(world.db, world.now, token.(version := version), result);
      SandboxIsFinished(world, s, version, result);
      SandboxFinishApplies(world, s, version, result);
      if done.Err? { RefusedHere(begin, world, s, SandboxFinishStep(s, version, result)); }
      Take(SandboxFinishStep(s, version, result), begin);
      return if done.Ok? then Ok(result) else Err(done.error);
    }

    /** `RequestRepairApproval.execute`: the approval that it stores is for this diff. */
    method RequestApproval(s: Id, token: Token, diff: string, others: nat -> seq<Step>) returns (r: Result<Id>)
      requires Safe(world) && s !in world.sessions && AllForeign(others, s)
      modifies this
      ensures Safe(world) && Runs(old(world), world) && s !in world.sessions
      ensures if r.Ok? then
                r.value in world.db.approvals && r.value in world.proposals && world.proposals[r.value] == diff
              else RefusedSince(old(world), s)
    {
      hide Safe, Runs, Apply, RunFrom, Foreign, IsUnifiedDiff, Transactions.RequestApproval, Size, Refuses;
      hide RefusedSince;
      hide ProposalBegin, ApprovalAsk;
      ghost var begin := world;
      RunsNowhere(world);
      if !IsUnifiedDiff(diff) {
        NoProposal(world, s, token, diff);
        RefusedHere(begin, world, s, ProposalBeginStep(s, token, diff));
        return Err(Refused);
      }
      Interleave(s, others(0), begin);
      ProposalIsChecked(world, s, token, diff);
      ProposalBeginApplies(world, s, token, diff);
      ghost var u := world;
      Take(ProposalBeginStep(s, token, diff), begin);
      if s !in world.sessions {
        RefusedHere(begin, u, s, ProposalBeginStep(s, token, diff));
        return Err(Refused);
      }
      var patch := Persist(s, (n: nat) => others(n + 1), begin);
      if patch.Err? { return Err(patch.error); }
      Interleave(s, others(4), begin);
      FreshIds(world);
      var approval: Id :| approval !in world.db.approvals;
      var asked := Transactions.RequestApproval(world.db, world.cfg, world.now, token, patch.value, approval);
      ApprovalIsAsked(world, s, approval);
      ApprovalAskApplies(world, s, approval);
      if asked.Err? { RefusedHere(begin, world, s, ApprovalAskStep(s, approval)); }
      Take(ApprovalAskStep(s, approval), begin);
      return if asked.Ok? then Ok(approval) else Err(asked.error);
    }

    /** `PrepareRepairCandidate.execute` on the candidate worktree of the mission: the worktree is
        recovered first, also for an operation that had succeeded before, which is answered with the result
        that is recorded and not committed again. When it returns normally, the candidate operation of the
        attempt has succeeded. The commit of this call is the one candidate commit of the repository, made
        of an approved diff, and the only result that the operation has. Whatever becomes of the call, all
        commits stay those of candidate operations. */
    method PrepareCandidate(s: Id, token: Token, approval: Id, repo: G.CandidateRepository, others: nat -> seq<Step>)
      returns (r: Result<RepairCandidateView>)
      requires Safe(world) && s !in world.sessions && AllForeign(others, s)
      requires repo.Valid() && Tracks(repo, world.db)
      modifies this, repo
      ensures Safe(world) && Runs(old(world), world) && s !in world.sessions
      ensures repo.Valid() && Tracks(repo, world.db)
      ensures old(OnSpec(repo, world.db, token.attempt)) ==> OnSpec(repo, world.db, token.attempt)
      ensures r.Ok? ==> SlotSucceeded(world.db, token.attempt, CandidateSlot)
      ensures r.Ok? && r.value.paths != [] ==>
        MadeIn(repo, world, r.value) && SlotNames(world.db, token.attempt, CandidateSlot, r.value.commit)
      ensures forall known: EffectRef :: old(SlotHolds(world.db, token.attempt, CandidateSlot, known)) ==>
        repo.commits == old(repo.commits) && (r.Ok? ==> r.value == RepairCandidateView(known, [], 0))
    {
      hide Safe, Runs, Apply, RunFrom, Foreign, SlotSucceeded, SlotNames, MadeIn, OnSpec, Tracks, OperationFor;
      hide G.CandidateRepository.Valid;
      ghost var begin := world;
      var found;
      found, r := FindCandidate(s, token, approval, repo, others(0), others(1), begin);
      if !found.Some? {
        if SlotSucceeded(begin.db, token.attempt, CandidateSlot) {
          SlotStaysSucceeded(begin, world, token.attempt, CandidateSlot);
        }
        if old(OnSpec(repo, world.db, token.attempt)) { OnSpecLater(repo, begin, world, token.attempt); }
        return;
      }
      Interleave(s, others(2), begin);
      TracksFrom(repo, found.value, others(2));
      r := CommitAndRecord(s, repo, others(3), begin);
      if old(OnSpec(repo, world.db, token.attempt)) { OnSpecLater(repo, begin, world, token.attempt); }
    }

    /** Up to the commit: `Some` world when there is something to commit. */
    method FindCandidate(s: Id, token: Token, approval: Id, repo: G.CandidateRepository, first: seq<Step>,
                         second: seq<Step>, ghost begin: World)
      returns (found: Option<World>, r: Result<RepairCandidateView>)
      requires Safe(world) && s !in world.sessions && Foreign(first, s) && Foreign(second, s) && world == begin
      requires repo.Valid() && Tracks(repo, world.db)
      modifies this, repo
      ensures Safe(world) && Runs(begin, world) && repo.Valid() && Tracks(repo, world.db)
      ensures found.Some? ==>
        && found.value == world && s in world.sessions && world.sessions[s].CandidatePrepared?
        && world.sessions[s].token == token
      ensures repo.commits == old(repo.commits)
      ensures SlotSucceeded(begin.db, token.attempt, CandidateSlot) ==> found.None?
      ensures found.None? ==> s !in world.sessions
      ensures found.None? && r.Ok? ==>
        && r.value == RepairCandidateView(r.value.commit, [], 0)
        && SlotHolds(world.db, token.attempt, CandidateSlot, r.value.commit)
    {
      hide Safe, Runs, Apply, RunFrom, Foreign, Transactions.PrepareCandidate, SlotSucceeded, CandidatePrepare;
      hide G.CandidateRepository.Valid, CommitTracked;
      RunsNowhere(world);
      found, r := None, Err(OperationConflict);
      LoadContext(s, token, approval, first, begin);
      if s !in world.sessions { KeepsTracking(repo, begin, world); return; }
      Interleave(s, second, begin);
      FreshIds(world);
      var newId: Id :| newId !in world.db.operations;
      var diff := world.sessions[s].context.diff;
      var prepared := Transactions.PrepareCandidate(world.db, world.now, token, diff, newId);
      SafeKeys(world);
      if SlotSucceeded(begin.db, token.attempt, CandidateSlot) {
        SlotStaysSucceeded(begin, world, token.attempt, CandidateSlot);
      }
      CandidateIsPrepared(world, s, newId);
      CandidatePrepareApplies(world, s, newId);
      Take(CandidatePrepareStep(s, newId), begin);
      KeepsTracking(repo, begin, world);
      if prepared.Err? { r := Err(prepared.error); return; }
      var recovered := repo.RecoverCandidate(prepared.value.1);
      if s !in world.sessions {
        SucceededRow(world.db, token.attempt);
        var recorded := world.db.operations[world.db.keys[Key(token.attempt, CandidateSlot)]].result;
        if recovered.Returned? && recorded.Some? { r := Ok(RepairCandidateView(recorded.value, [], 0)); }
      } else if !recovered.Returned? {
        Abandon(s, begin);
        KeepsTracking(repo, begin, world);
      } else {
        found := Some(world);
      }
    }

    /** `_load_context`. */
    method LoadContext(s: Id, token: Token, approval: Id, others: seq<Step>, ghost begin: World)
      requires Safe(world) && Runs(begin, world) && s !in world.sessions && Foreign(others, s)
      modifies this
      ensures Safe(world) && Runs(begin, world)
      ensures s in world.sessions ==> world.sessions[s].ContextLoaded? && world.sessions[s].token == token
    {
      hide Safe, Runs, Apply, RunFrom, Foreign, LoadRepairContext, CandidateBegin;
      Interleave(s, others, begin);
      ContextIsLoaded(world, s, token, approval);
      CandidateBeginApplies(world, s, token, approval);
      Take(CandidateBeginStep(s, token, approval), begin);
    }

    method Abandon(s: Id, ghost begin: World)
      requires Safe(world) && Runs(begin, world)
      modifies this
      ensures Safe(world) && Runs(begin, world) && s !in world.sessions
    {
      hide Safe, Runs, Apply;
      CallIsOver(world, s);
      CrashApplies(world, s);
      Take(Crash(s), begin);
    }

    /** `git` commits; the one commit that may be new is that of the session's operation. */
    method HandOver(s: Id, repo: G.CandidateRepository) returns (answer: G.Answer<G.CandidateCommit>)
      requires Safe(world) && repo.Valid() && Tracks(repo, world.db)
      requires s in world.sessions && world.sessions[s].CandidatePrepared?
      modifies repo
      ensures repo.Valid() && Tracks(repo, world.db)
      ensures answer.Returned? ==> repo.Answers(world.sessions[s].operation, answer.value)
    {
      hide Safe, G.CandidateRepository.Answers, G.CandidateRepository.CandidateOk;
      var session := world.sessions[s];
      PreparedIsTracked(world, s);
      answer := repo.CommitCandidate(G.Request(session.context.diff, session.operation));
      forall c | c in repo.Candidates() ensures CommitTracked(repo.commits[c], world.db) {
        if c in old(repo.commits) { assert c in old(repo.Candidates()); }
      }
    }

    /** The commit, and the transaction that records it. */
    method CommitAndRecord(s: Id, repo: G.CandidateRepository, others: seq<Step>, ghost begin: World)
      returns (r: Result<RepairCandidateView>)
      requires Safe(world) && Runs(begin, world) && Foreign(others, s) && repo.Valid() && Tracks(repo, world.db)
      requires s in world.sessions && world.sessions[s].CandidatePrepared?
      modifies this, repo
      ensures Safe(world) && Runs(begin, world) && s !in world.sessions && repo.Valid() && Tracks(repo, world.db)
      ensures var a := old(world.sessions[s].token.attempt);
        r.Ok? ==> SlotSucceeded(world.db, a, CandidateSlot) && MadeIn(repo, world, r.value)
                  && SlotNames(world.db, a, CandidateSlot, r.value.commit)
    {
      hide Safe, Runs, Apply, RunFrom, Foreign, FinishCandidate, SlotSucceeded, SlotNames, MadeIn, Tracks;
      hide CommitCandidate, CandidateFinish, Names, PrintDecimal;
      hide G.CandidateRepository.Valid, G.CandidateRepository.Answers;
      var session := world.sessions[s];
      var answer := HandOver(s, repo);
      ghost var handed := world;
      RunsNowhere(handed);
      var commit := if answer.Returned? then PrintDecimal(answer.value.commit) else "";
      CandidateIsHanded(world, s, commit);
      CandidateCommitApplies(world, s, commit);
      Take(CandidateCommitStep(s, commit), handed);
      if !answer.Returned? {
        Abandon(s, handed);
        KeepsTracking(repo, handed, world);
        RunsThrough(begin, handed, world);
        return Err(Refused);
      }
      var view := RepairCandidateView(External(commit), answer.value.paths, answer.value.lines);
      AnswerIsNamed(repo, session.operation, answer.value, view);
      Interleave(s, others, handed);
      var done := FinishCandidate(world.db, world.now, session.token, commit);
      CandidateIsFinished(world, s);
      CandidateFinishApplies(world, s);
      Take(CandidateFinishStep(s), handed);
      KeepsTracking(repo, handed, world);
      RunsThrough(begin, handed, world);
      NamedIsMade(repo, world, answer.value.commit, view);
      return if done.Ok? then Ok(view) else Err(done.error);
    }

    /** `CancelBaselineAttempt.execute`: check, stop the sandbox, cancel. */
    method Cancel(s: Id, token: Token, others: nat -> seq<Step>) returns (r: Result<()>)
      requires Safe(world) && s !in world.sessions && AllForeign(others, s)
      modifies this
      ensures Safe(world) && Runs(old(world), world) && s !in world.sessions
      ensures r.Ok? ==> Indexed(world.db, token.attempt) &&
                        world.db.missions[MissionOf(world.db, token.attempt)].status == MissionStatus.Cancelled
      ensures r.Err? ==> RefusedSince(old(world), s)
    {
      hide Safe, Runs, Apply, RunFrom, Foreign, AssertCancelling, CancelAttempt, Indexed, Refuses, RefusedSince;
      hide CancelBegin, SandboxStop, MissionCancel;
      ghost var begin := world;
      RunsNowhere(world);
      Interleave(s, others(0), begin);
      CancelIsChecked(world, s, token);
      CancelBeginApplies(world, s, token);
      ghost var u := world;
      Take(CancelBeginStep(s, token), begin);
      if s !in world.sessions {
        RefusedHere(begin, u, s, CancelBeginStep(s, token));
        return Err(CancellationRequested);
      }
      Interleave(s, others(1), begin);
      SandboxIsStopped(world, s);
      SandboxStopApplies(world, s);
      Take(SandboxStopStep(s), begin);
      Interleave(s, others(2), begin);
      var done := CancelAttempt(world.db, world.now, token);
      MissionIsCancelled(world, s);
      MissionCancelApplies(world, s);
      if done.Err? { RefusedHere(begin, world, s, MissionCancelStep(s)); }
      Take(MissionCancelStep(s), begin);
      return if done.Ok? then Ok(()) else Err(done.error);
    }

    /** One round of the publisher: it never fails. What was announced before stays announced. */
    method PublishOne(s: Id, first: seq<Step>, second: seq<Step>, ghost begin: World, ghost done: seq<OutboxEvent>)
      requires Safe(world) && Runs(begin, world) && Foreign(first, s) && Foreign(second, s)
      requires s in world.sessions && world.sessions[s].Publishing? && world.sessions[s].events != []
      requires AllAnnounced(world, done)
      modifies this
      ensures Safe(world) && Runs(begin, world)
      ensures var events := old(world.sessions[s]).events;
        && s in world.sessions && world.sessions[s] == Publishing(events[1..])
        && AllAnnounced(world, done + [events[0]])
    {
      hide Safe, Runs, Apply, RunFrom, Foreign, MarkPublished, AllAnnounced;
      hide EventPublish, EventMark;
      ghost var e := world.sessions[s].events[0];
      AllAnnouncedStay(world, first, done);
      Interleave(s, first, begin);
      EventIsPublished(world, s);
      AllAnnouncedStep(world, EventPublishStep(s), done);
      EventPublishApplies(world, s);
      Take(EventPublishStep(s), begin);
      SentStays(world, second, Delivery(e.topic, e.attempt));
      AllAnnouncedStay(world, second, done);
      Interleave(s, second, begin);
      MarkSucceeds(world, s);
      EventIsMarked(world, s);
      AllAnnouncedStep(world, EventMarkStep(s), done);
      EventMarkApplies(world, s);
      Take(EventMarkStep(s), begin);
      OneMoreAnnounced(world, done, e);
    }

    /** `PublishPendingOutbox.execute`: publish, then mark, one event after the other. It returns normally
        for every positive limit, and has then put on its lane and marked all that it fetched. */
    method Publish(s: Id, limit: int, others: nat -> seq<Step>)
      returns (r: Result<seq<OutboxEvent>>, ghost fetched: World)
      requires Safe(world) && s !in world.sessions && AllForeign(others, s)
      modifies this
      ensures Safe(world) && Runs(old(world), world) && s !in world.sessions
      ensures fetched == RunFrom(old(world), others(0)) && (r.Ok? <==> limit > 0)
      ensures r.Ok? ==>
        r == FetchUnpublished(fetched.db, limit) && Completes(PublisherCall(fetched, world), limit)
    {
      hide Safe, Runs, Apply, RunFrom, Foreign, FetchUnpublished, AllAnnounced;
      hide PublishBegin, EventPublish;
      ghost var begin := world;
      RunsNowhere(world);
      Interleave(s, others(0), begin);
      fetched := world;
      RunsNowhere(fetched);
      r := FetchUnpublished(world.db, limit);
      NoLimit(world.db, limit);
      EventsAreFetched(world, s, limit);
      PublishBeginApplies(world, s, limit);
      Take(PublishBeginStep(s, limit), fetched);
      RunsThrough(begin, fetched, world);
      if r.Err? { return; }
      var events := r.value;
      NoneAnnounced(world);
      var i: nat := 0;
      while i < |events|
        invariant i <= |events| && Safe(world) && Runs(fetched, world)
        invariant s in world.sessions && world.sessions[s] == Publishing(events[i..])
        invariant AllAnnounced(world, events[..i])
      {
        assert events[i..][1..] == events[i + 1..] && events[..i] + [events[i..][0]] == events[..i + 1];
        PublishOne(s, others(2 * i + 1), others(2 * i + 2), fetched, events[..i]);
        i := i + 1;
      }
      assert events[i..] == [] && events[..i] == events;
      EventsAreDone(world, s);
      AllAnnouncedStep(world, EventPublishStep(s), events);
      EventPublishApplies(world, s);
      Take(EventPublishStep(s), fetched);
      RunsThrough(begin, fetched, world);
    }

    /** `GetBaselineOutcome.execute` and `ClaimBaselineAttempt.execute`, as both workers begin. */
    method Outcome(s: Id, attempt: Id, others: seq<Step>, ghost begin: World) returns (done: bool)
      requires Safe(world) && Runs(begin, world) && Foreign(others, s)
      modifies this
      ensures Safe(world) && Runs(begin, world) && SameSession(old(world), world, s)
      ensures world == RunFrom(old(world), others) && (done <==> HasOutcome(world.db, attempt))
    {
      hide Safe, Runs, Apply, RunFrom, Foreign;
      Interleave(s, others, begin);
      SafeRows(world);
      done := HasOutcome(world.db, attempt);
    }

    method ClaimLease(s: Id, attempt: Id, owner: Id, others: seq<Step>, ghost begin: World) returns (r: Result<Token>)
      requires Safe(world) && Runs(begin, world) && Foreign(others, s)
      modifies this
      ensures Safe(world) && Runs(begin, world) && SameSession(old(world), world, s)
      ensures var u := RunFrom(old(world), others); r.Ok? <==> ClaimAttempt(u.db, u.cfg, u.now, attempt, owner).Ok?
      ensures r.Ok? ==> r.value.attempt == attempt && r.value.owner == owner
      ensures r.Ok? ==> attempt in world.db.attempts && world.db.attempts[attempt].CheckLease(r.value, world.now).Ok?
    {
      hide Safe, Runs, Apply, RunFrom, Foreign;
      hide Runtime.ClaimLease;
      Interleave(s, others, begin);
      var claimed := ClaimAttempt(world.db, world.cfg, world.now, attempt, owner);
      SafeParts(world);
      LeaseIsClaimed(world, s, attempt, owner);
      ClaimApplies(world, attempt, owner);
      Take(ClaimStep(attempt, owner), begin);
      return if claimed.Ok? then Ok(claimed.value.1) else Err(claimed.error);
    }

    /** `BaselineWorker.process`. `path`, `result`, `completed` and `commit` are what the workspace, the
        sandbox, the broker and git answer; `version` is where the heartbeats of the monitor left the
        lease. When it returns normally, the mission of the attempt has its bundle; when it raises, its
        claim was refused or a call of it was. */
    method ProcessBaseline(s: Id, attempt: Id, owner: Id, path: string, version: nat, result: SandboxResult,
                           completed: Option<SandboxResult>, commit: string, payload: Bytes,
                           others: nat -> seq<Step>) returns (r: Result<()>)
      requires Safe(world) && s !in world.sessions && AllForeign(others, s)
      modifies this
      ensures Safe(world) && Runs(old(world), world) && s !in world.sessions
      ensures r.Ok? ==> Indexed(world.db, attempt) && MissionOf(world.db, attempt) in world.db.bundles
      ensures r.Err? ==> RefusedSince(old(world), s) || ClaimRefused(old(world), attempt, owner) || completed.None?
    {
      hide Safe, Runs, Apply, RunFrom, Foreign, SlotSucceeded, RefusedSince, ClaimRefused, ClaimAttempt;
      ghost var begin := world;
      RunsNowhere(world);
      var done := Outcome(s, attempt, others(0), begin);
      if done { return Ok(()); }
      ghost var before := world;
      var claimed := ClaimLease(s, attempt, owner, others(1), begin);
      if claimed.Err? {
        ClaimIsRefused(begin, before, others(1), attempt, owner);
        return Err(claimed.error);
      }
      before := world;
      r := EnsureWorkspace(s, claimed.value, path, (n: nat) => others(n + 2));
      if r.Err? { RefusedThrough(begin, before, s); }
      RunsThrough(begin, before, world);
      if r.Err? { return; }
      before := world;
      var run := RunSandbox(s, claimed.value, path, version, result, completed, (n: nat) => others(n + 4));
      if RefusedSince(before, s) { RefusedThrough(begin, before, s); }
      RunsThrough(begin, before, world);
      if run.Err? { return Err(run.error); }
      r := FinishProcess(s, claimed.value.(version := version), run.value, commit, payload,
                         (n: nat) => others(n + 6), begin);
    }

    /** `RepairWorker.process` of an approved attempt: the candidate instead of the baseline worktree. */
    method ProcessRepair(s: Id, attempt: Id, owner: Id, approval: Id, repo: G.CandidateRepository, path: string,
                         result: SandboxResult, completed: Option<SandboxResult>, payload: Bytes,
                         others: nat -> seq<Step>) returns (r: Result<()>)
      requires Safe(world) && s !in world.sessions && AllForeign(others, s)
      requires repo.Valid() && Tracks(repo, world.db)
      modifies this, repo
      ensures Safe(world) && Runs(old(world), world) && s !in world.sessions
      ensures repo.Valid() && Tracks(repo, world.db) && forall c <- repo.Candidates() :: MadeOfApproved(repo, world, c)
      ensures old(OnSpec(repo, world.db, attempt)) ==> OnSpec(repo, world.db, attempt)
      ensures r.Ok? ==> Indexed(world.db, attempt) && MissionOf(world.db, attempt) in world.db.bundles
    {
      hide Safe, Runs, Apply, RunFrom, Foreign, Tracks, MadeOfApproved, OnSpec, Indexed, G.CandidateRepository.Valid;
      ghost var begin := world;
      r := Repair(s, attempt, owner, approval, repo, path, result, completed, payload, others, begin);
      if old(OnSpec(repo, world.db, attempt)) { OnSpecLater(repo, begin, world, attempt); }
      forall c | c in repo.Candidates() ensures MadeOfApproved(repo, world, c) {
        CommitsAreApproved(repo, world, c);
      }
    }

    method Repair(s: Id, attempt: Id, owner: Id, approval: Id, repo: G.CandidateRepository, path: string,
                  result: SandboxResult, completed: Option<SandboxResult>, payload: Bytes, others: nat -> seq<Step>,
                  ghost begin: World)
      returns (r: Result<()>)
      requires Safe(world) && s !in world.sessions && AllForeign(others, s) && begin == world
      requires repo.Valid() && Tracks(repo, world.db)
      modifies this, repo
      ensures Safe(world) && Runs(begin, world) && s !in world.sessions && repo.Valid() && Tracks(repo, world.db)
      ensures r.Ok? ==> Indexed(world.db, attempt) && MissionOf(world.db, attempt) in world.db.bundles
    {
      hide Safe, Runs, Apply, RunFrom, Foreign, SlotSucceeded, Tracks, OnSpec, MadeIn, SlotNames;
      hide G.CandidateRepository.Valid;
      RunsNowhere(world);
      var done := Outcome(s, attempt, others(0), begin);
      KeepsTracking(repo, begin, world);
      if done { return Ok(()); }
      var claimed := ClaimLease(s, attempt, owner, others(1), begin);
      KeepsTracking(repo, begin, world);
      if claimed.Err? { return Err(claimed.error); }
      ghost var before := world;
      var candidate := PrepareCandidate(s, claimed.value, approval, repo, (n: nat) => others(n + 2));
      RunsThrough(begin, before, world);
      if candidate.Err? { return Err(candidate.error); }
      before := world;
      var version := claimed.value.version;
      var run := RunSandbox(s, claimed.value, path, version, result, completed, (n: nat) => others(n + 6));
      KeepsTracking(repo, before, world);
      RunsThrough(begin, before, world);
      if run.Err? { return Err(run.error); }
      var commit := if candidate.value.commit.External? then candidate.value.commit.name else "";
      before := world;
      RunsNowhere(before);
      r := FinishProcess(s, claimed.value, run.value, commit, payload, (n: nat) => others(n + 8), before);
      KeepsTracking(repo, before, world);
      RunsThrough(begin, before, world);
    }

    /** Both workers end alike: finalize the run, complete the mission. */
    method FinishProcess(s: Id, token: Token, result: SandboxResult, commit: string, payload: Bytes,
                         others: nat -> seq<Step>,
                         ghost begin: World) returns (r: Result<()>)
      requires Safe(world) && Runs(begin, world) && s !in world.sessions && AllForeign(others, s)
      modifies this
      ensures Safe(world) && Runs(begin, world) && s !in world.sessions
      ensures if r.Ok? then Indexed(world.db, token.attempt) && MissionOf(world.db, token.attempt) in world.db.bundles
              else RefusedSince(begin, s)
    {
      hide Safe, Runs, Apply, RunFrom, Foreign, Indexed, RefusedSince;
      ghost var before := world;
      r := Finalize(s, token, result, commit, others);
      if r.Err? { RefusedThrough(begin, before, s); }
      RunsThrough(begin, before, world);
      if r.Err? { return; }
      before := world;
      var bundle := Complete(s, token, payload, (n: nat) => others(n + 10));
      if bundle.Err? { RefusedThrough(begin, before, s); }
      RunsThrough(begin, before, world);
      r := if bundle.Ok? then Ok(()) else Err(bundle.error);
    }
  }

  /** The mission of the attempt is completed and has its bundle. */
  predicate HasOutcome(db: Db, a: Id) {
    && Indexed(db, a) && db.missions[MissionOf(db, a)].status == MissionStatus.Completed
    && MissionOf(db, a) in db.bundles
  }

  /** What a claim hands out passes the lease check at once. */
  lemma LeaseIsClaimed(w: World, s: Id, attempt: Id, owner: Id)
    requires w.cfg.Valid()
    ensures var (v, r) := (ClaimLease(w, attempt, owner), ClaimAttempt(w.db, w.cfg, w.now, attempt, owner));
      && SameSession(w, v, s) && v.now == w.now
      && (r.Ok? ==> r.value.1.attempt == attempt && r.value.1.owner == owner && attempt in v.db.attempts
                    && v.db.attempts[attempt].CheckLease(r.value.1, v.now).Ok?)
  {
    hide RecordAll;
  }

  lemma NoneAnnounced(w: World)
    ensures AllAnnounced(w, [])
  {}

  lemma OneMoreAnnounced(w: World, done: seq<OutboxEvent>, e: OutboxEvent)
    requires AllAnnounced(w, done) && Announced(w, e)
    ensures AllAnnounced(w, done + [e])
  {}

  lemma StepKeepsAnnounced(w: World, step: Step)
    requires Safe(w)
    ensures w.sent <= Apply(w, step).sent && Extends(w.db.published, Apply(w, step).db.published)
  {
    hide Safe, Apply, Disciplined, MissionsMove, TasksMove, AttemptsMove, OperationsMove, ApprovalsMove, Extends;
    StepGood(w, step);
    assert AdvancesIn(Aspect.Tables, w, Apply(w, step)) && AdvancesIn(Outside, w, Apply(w, step));
  }

  lemma AllAnnouncedStep(w: World, step: Step, events: seq<OutboxEvent>)
    requires Safe(w) && AllAnnounced(w, events)
    ensures AllAnnounced(Apply(w, step), events)
  {
    hide Safe, Apply;
    StepKeepsAnnounced(w, step);
  }

  lemma {:induction false} AllAnnouncedStay(w: World, steps: seq<Step>, events: seq<OutboxEvent>)
    requires Safe(w) && AllAnnounced(w, events)
    ensures AllAnnounced(RunFrom(w, steps), events)
    decreases |steps|
  {
    hide Safe, Apply, AllAnnounced, Good;
    if steps != [] {
      AllAnnouncedStep(w, steps[0], events);
      StepGood(w, steps[0]);
      StepForward(w, Apply(w, steps[0]));
      AllAnnouncedStay(Apply(w, steps[0]), steps[1..], events);
    }
  }

  lemma {:induction false} SentStays(w: World, steps: seq<Step>, d: Delivery)
    requires Safe(w) && d in w.sent
    ensures d in RunFrom(w, steps).sent
    decreases |steps|
  {
    hide Safe, Apply, Good;
    if steps != [] {
      StepKeepsAnnounced(w, steps[0]);
      StepGood(w, steps[0]);
      StepForward(w, Apply(w, steps[0]));
      SentStays(Apply(w, steps[0]), steps[1..], d);
    }
  }

  /** The operation of this slot of the attempt has succeeded. */
  predicate SlotSucceeded(db: Db, a: Id, slot: Slot) {
    OperationFor(db, Key(a, slot)).Some? && OperationFor(db, Key(a, slot)).value.status == OperationStatus.Succeeded
  }

  // ---------------------------------------------------------------- what single steps do to their call

  lemma CallIsOver(w: World, s: Id)
    ensures s !in End(w, s).sessions
  {}

  lemma RunIsFailed(w: World, s: Id, ids: RepairIds)
    requires s in w.sessions && DemandOf(w.sessions[s]).FailWith? && RunSpec(w.sessions[s]).Some?
    requires FreshRepair(w.db, ids)
    ensures s !in RunFail(w, s, ids).sessions && Refuses(w, s, RunFailStep(s, ids))
  {
    hide FailRun, DemandOf, RecordAll, FreshEvent;
  }

  lemma RunIsLoaded(w: World, s: Id, token: Token, result: SandboxResult, commit: string)
    requires s !in w.sessions
    ensures var v := FinalizeBegin(w, s, token, result, commit);
      if s in v.sessions then
        v.sessions[s].RunLoaded? && v.sessions[s] == RunLoaded(token, Run(v.sessions[s].run.spec, result, commit))
      else Refuses(w, s, FinalizeBeginStep(s, token, result, commit))
  {}

  lemma RunIsUnreadable(w: World, s: Id)
    requires s in w.sessions && w.sessions[s].MetricKept? && DemandOf(w.sessions[s]).Raise?
    ensures s !in End(w, s).sessions && Refuses(w, s, Crash(s))
  {
    hide DemandOf;
  }

  lemma ResultIsRegistered(w: World, s: Id, metric: Id, claim: Id)
    requires s in w.sessions && w.sessions[s].MetricKept? && DemandOf(w.sessions[s]).RegisterNow?
    requires claim !in w.db.claims && claim !in w.db.evidence
    ensures var (v, token) := (ResultRegister(w, s, metric, claim), w.sessions[s].token);
      && s !in v.sessions
      && (if RegisterResult(w.db, w.now, token, DemandOf(w.sessions[s]).evidence, metric, claim).Ok? then
            token.attempt in v.db.metrics
          else Refuses(w, s, ResultRegisterStep(s, metric, claim)))
  {
    hide DemandOf, RecordAll, MetricRecord.Valid, Attempt.CheckLease, EvidenceOf, HasVerifiedClaim;
  }

  /** This is the bundle of the attempt's mission. */
  predicate Bundled(db: Db, a: Id, bundle: ArtifactRef) {
    Indexed(db, a) && MissionOf(db, a) in db.bundles && db.bundles[MissionOf(db, a)].artifact == bundle
  }

  /** A bundle that is recorded is what everybody is told from then on. */
  lemma BundleIsAnswered(w: World, v: World, a: Id, known: ArtifactRef)
    requires Safe(w) && Runs(w, v) && Bundled(w.db, a, known)
    ensures Bundled(v.db, a, known)
    ensures AlreadyCompleted(v.db, a).Ok? && AlreadyCompleted(v.db, a).value.Some?
    ensures AlreadyCompleted(v.db, a).value.value.artifact == known
  {
    hide Safe, Runs;
    RunsOnlyMoveForward(w, v);
    hide History.OperationsLater, History.ApprovalsLater;
  }

  lemma CompletionIsChecked(w: World, s: Id, token: Token)
    requires s !in w.sessions && RowsLinked(w.db.missions, w.db.tasks, w.db.attempts)
    ensures var (v, completed) := (CompletionBegin(w, s, token), AlreadyCompleted(w.db, token.attempt));
      && (completed.Ok? ==> Indexed(w.db, token.attempt))
      && (completed.Ok? && completed.value.Some? ==> Bundled(w.db, token.attempt, completed.value.value.artifact))
      && (completed == Ok(None) ==> s in v.sessions && v.sessions[s] == CompletionChecked(token))
      && (completed.Err? ==> Refuses(w, s, CompletionBeginStep(s, token)))
  {}

  lemma FactsAreCollected(w: World, s: Id)
    requires s in w.sessions && w.sessions[s].CompletionChecked?
    ensures var v := FactsCollect(w, s);
      if s in v.sessions then v.sessions[s] == FactsCollected(w.sessions[s].token)
      else Refuses(w, s, FactsCollectStep(s))
  {
    hide CollectFacts;
  }

  lemma BundleIsBuilt(w: World, s: Id, payload: Bytes)
    requires s in w.sessions && w.sessions[s].FactsCollected?
    ensures var v := BuildBundle(w, s, payload);
      s in v.sessions && v.sessions[s] == BundleBuilt(w.sessions[s].token, payload)
  {}

  lemma MissionIsCompleted(w: World, s: Id)
    requires s in w.sessions && w.sessions[s].BundleKept?
    ensures var (v, token) := (MissionComplete(w, s), w.sessions[s].token);
      && s !in v.sessions
      && (if CompleteMission(w.db, w.now, token, w.sessions[s].bundle).Ok? then
            Bundled(v.db, token.attempt, w.sessions[s].bundle)
          else Refuses(w, s, MissionCompleteStep(s)))
  {
    hide Attempt.CheckLease, RecordAll;
  }

  lemma BlobIsWritten(w: World, s: Id)
    requires s in w.sessions && w.sessions[s].Persisting?
    ensures var (v, session) := (BlobWrite(w, s), w.sessions[s]);
      s in v.sessions && v.sessions[s] == BlobWritten(session.token, session.put, session.follow)
  {}

  lemma PutIsFinished(w: World, s: Id)
    requires s in w.sessions && w.sessions[s].BlobWritten?
    ensures var (v, session) := (PutFinish(w, s), w.sessions[s]);
      if s in v.sessions then v.sessions[s] == Kept(session.token, session.follow, session.put.Ref())
      else Refuses(w, s, PutFinishStep(s))
  {
    hide FinishPut, Kept, RecordAll;
  }

  lemma WorktreeIsPrepared(w: World, s: Id, token: Token, newId: Id)
    requires s !in w.sessions && newId !in w.db.operations
    ensures var (v, r) := (WorktreeBegin(w, s, token, newId), PrepareWorktree(w.db, w.now, token, newId));
      if r.Ok? then s in v.sessions && v.sessions[s] == WorktreePrepared(token)
      else s !in v.sessions && Refuses(w, s, WorktreeBeginStep(s, token, newId))
  {
    hide PrepareWorktree, RecordAll;
  }

  lemma WorktreeIsFinished(w: World, s: Id, path: string)
    requires s in w.sessions && w.sessions[s].WorktreePrepared?
    ensures var (v, token) := (WorktreeFinish(w, s, path), w.sessions[s].token);
      && s !in v.sessions
      && (if FinishWorktree(w.db, w.now, token, path).Ok? then SlotSucceeded(v.db, token.attempt, BaselineWorktree)
          else Refuses(w, s, WorktreeFinishStep(s, path)))
  {
    hide RecordAll, Attempt.CheckLease;
  }

  lemma SandboxIsPrepared(w: World, s: Id, token: Token, path: string, newId: Id)
    requires s !in w.sessions && newId !in w.db.operations
    ensures var (v, r) := (SandboxBegin(w, s, token, path, newId), PrepareSandbox(w.db, w.now, token, path, newId));
      && (r.Ok? && !r.value.2 ==> s in v.sessions && v.sessions[s] == SandboxPrepared(token))
      && (r.Err? || r.value.2 ==> s !in v.sessions)
      && (r.Ok? && r.value.2 ==> SlotSucceeded(v.db, token.attempt, Sandbox))
      && (r.Err? ==> Refuses(w, s, SandboxBeginStep(s, token, path, newId)))
  {
    hide RecordAll, Attempt.CheckLease, SandboxInput;
  }

  lemma SandboxIsFinished(w: World, s: Id, version: nat, result: SandboxResult)
    requires s in w.sessions && w.sessions[s].SandboxPrepared?
    ensures var (v, token) := (SandboxFinish(w, s, version, result), w.sessions[s].token);
      && s !in v.sessions
      && (if FinishSandbox(w.db, w.now, token.(version := version), result).Ok? then
            SlotSucceeded(v.db, token.attempt, Sandbox)
          else Refuses(w, s, SandboxFinishStep(s, version, result)))
  {
    hide RecordAll, Attempt.CheckLease;
  }

  lemma NoProposal(w: World, s: Id, token: Token, diff: string)
    requires !IsUnifiedDiff(diff)
    ensures Refuses(w, s, ProposalBeginStep(s, token, diff))
  {
    hide IsUnifiedDiff;
  }

  lemma ProposalIsChecked(w: World, s: Id, token: Token, diff: string)
    requires s !in w.sessions
    ensures var v := ProposalBegin(w, s, token, diff);
      if s in v.sessions then v.sessions[s] == ProposalChecked(token, diff)
      else Refuses(w, s, ProposalBeginStep(s, token, diff))
  {
    hide ValidateProposal, IsUnifiedDiff;
  }

  lemma ApprovalIsAsked(w: World, s: Id, approval: Id)
    requires s in w.sessions && w.sessions[s].PatchKept? && approval !in w.db.approvals
    ensures var (v, session) := (ApprovalAsk(w, s, approval), w.sessions[s]);
      && s !in v.sessions
      && (if Transactions.RequestApproval(w.db, w.cfg, w.now, session.token, session.patch, approval).Ok? then
            approval in v.db.approvals && approval in v.proposals && v.proposals[approval] == session.diff
          else Refuses(w, s, ApprovalAskStep(s, approval)))
  {
    hide ValidateProposal, RecordAll, Attempt.Fail;
  }

  lemma ContextIsLoaded(w: World, s: Id, token: Token, approval: Id)
    requires s !in w.sessions
    ensures var v := CandidateBegin(w, s, token, approval);
      s in v.sessions ==> v.sessions[s].ContextLoaded? && v.sessions[s].token == token
  {
    hide LoadRepairContext;
  }

  lemma CandidateRow(db: Db, now: Time, token: Token, diff: string, newId: Id)
    requires KeyIndex(db.operations, db.keys) && Transactions.PrepareCandidate(db, now, token, diff, newId).Ok?
    ensures var (after, id) := Transactions.PrepareCandidate(db, now, token, diff, newId).value;
      id in after.operations && OperationFor(after, Key(token.attempt, CandidateSlot)) == Some(after.operations[id])
  {
    hide Attempt.CheckLease;
  }

  lemma CandidateIsFound(db: Db, now: Time, token: Token, diff: string, newId: Id)
    requires SlotSucceeded(db, token.attempt, CandidateSlot)
    requires Transactions.PrepareCandidate(db, now, token, diff, newId).Ok?
    ensures Transactions.PrepareCandidate(db, now, token, diff, newId).value.0 == db
    ensures var id := Transactions.PrepareCandidate(db, now, token, diff, newId).value.1;
      id in db.operations && db.operations[id].status == OperationStatus.Succeeded
  {}

  lemma CandidateIsPrepared(w: World, s: Id, newId: Id)
    requires s in w.sessions && w.sessions[s].ContextLoaded? && newId !in w.db.operations
    requires KeyIndex(w.db.operations, w.db.keys)
    ensures var (v, session) := (CandidatePrepare(w, s, newId), w.sessions[s]);
      var r := Transactions.PrepareCandidate(w.db, w.now, session.token, session.context.diff, newId);
      && (s in v.sessions ==> r.Ok? && v.sessions[s] == CandidatePrepared(session.token, session.context, r.value.1))
      && (r.Ok? && s !in v.sessions ==> SlotSucceeded(v.db, session.token.attempt, CandidateSlot))
      && (SlotSucceeded(w.db, session.token.attempt, CandidateSlot) ==> s !in v.sessions)
  {
    hide RecordAll, Transactions.PrepareCandidate, KeyIndex, OperationFor;
    var token, diff := w.sessions[s].token, w.sessions[s].context.diff;
    if Transactions.PrepareCandidate(w.db, w.now, token, diff, newId).Ok? {
      if SlotSucceeded(w.db, token.attempt, CandidateSlot) { CandidateIsFound(w.db, w.now, token, diff, newId); }
      CandidateRow(w.db, w.now, token, diff, newId);
    }
  }

  lemma CandidateIsHanded(w: World, s: Id, commit: string)
    requires s in w.sessions && w.sessions[s].CandidatePrepared?
    ensures var v := CommitCandidate(w, s, commit);
      s in v.sessions && v.sessions[s] == Session.CandidateCommitted(w.sessions[s].token, commit)
  {}

  lemma CandidateIsFinished(w: World, s: Id)
    requires s in w.sessions && w.sessions[s].CandidateCommitted?
    ensures var (v, session) := (CandidateFinish(w, s), w.sessions[s]);
      && s !in v.sessions
      && (FinishCandidate(w.db, w.now, session.token, session.commit).Ok? ==>
            && SlotSucceeded(v.db, session.token.attempt, CandidateSlot)
            && SlotNames(v.db, session.token.attempt, CandidateSlot, External(session.commit)))
  {
    hide RecordAll, Attempt.CheckLease;
  }

  lemma CancelIsChecked(w: World, s: Id, token: Token)
    requires s !in w.sessions
    ensures var v := CancelBegin(w, s, token);
      if s in v.sessions then v.sessions[s] == StopDue(token) else Refuses(w, s, CancelBeginStep(s, token))
  {
    hide AssertCancelling;
  }

  lemma SandboxIsStopped(w: World, s: Id)
    requires s in w.sessions && w.sessions[s].StopDue?
    ensures var v := SandboxStop(w, s);
      s in v.sessions && v.sessions[s].StopAccepted? && v.sessions[s].token == w.sessions[s].token
  {
    hide Attempt.CheckLease;
  }

  lemma MissionIsCancelled(w: World, s: Id)
    requires s in w.sessions && w.sessions[s].StopAccepted?
    ensures var (v, a) := (MissionCancel(w, s), w.sessions[s].token.attempt);
      && s !in v.sessions
      && (if CancelAttempt(w.db, w.now, w.sessions[s].token).Ok? then
            Indexed(v.db, a) && v.db.missions[MissionOf(v.db, a)].status == MissionStatus.Cancelled
          else Refuses(w, s, MissionCancelStep(s)))
  {
    hide Attempt.CheckLease, RecordAll;
  }

  lemma EventsAreFetched(w: World, s: Id, limit: int)
    requires s !in w.sessions
    ensures var (v, r) := (PublishBegin(w, s, limit), FetchUnpublished(w.db, limit));
      if r.Ok? then s in v.sessions && v.sessions[s] == Publishing(r.value) else s !in v.sessions
  {
    hide FetchUnpublished;
  }

  lemma EventIsPublished(w: World, s: Id)
    requires s in w.sessions && w.sessions[s].Publishing? && w.sessions[s].events != []
    ensures var (v, events) := (EventPublish(w, s), w.sessions[s].events);
      && s in v.sessions && v.sessions[s] == EventSent(events) && v.db == w.db
      && w.sent <= v.sent && Delivery(events[0].topic, events[0].attempt) in v.sent
  {}

  lemma EventsAreDone(w: World, s: Id)
    requires s in w.sessions && w.sessions[s] == Publishing([])
    ensures var v := EventPublish(w, s);
      s !in v.sessions && v.db == w.db && v.sent == w.sent
  {}

  /** The event of a publisher in progress is in the outbox, so it can be marked, again if need be. */
  lemma MarkSucceeds(w: World, s: Id)
    requires Safe(w) && s in w.sessions && w.sessions[s].EventSent? && w.sessions[s].events != []
    ensures MarkPublished(w.db, w.now, w.sessions[s].events[0].id).Ok?
  {
    hide Safe;
    SessionIsOk(w, s);
  }

  lemma EventIsMarked(w: World, s: Id)
    requires s in w.sessions && w.sessions[s].EventSent? && w.sessions[s].events != []
    ensures var (v, events) := (EventMark(w, s), w.sessions[s].events);
      && v.sent == w.sent && (forall k :: k in w.db.published ==> k in v.db.published)
      && (if MarkPublished(w.db, w.now, events[0].id).Ok? then
            s in v.sessions && v.sessions[s] == Publishing(events[1..]) && events[0].id in v.db.published
          else s !in v.sessions)
  {
    hide RecordAll;
  }
}
