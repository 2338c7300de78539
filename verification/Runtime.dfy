/** The running system: committed tables, the effects outside them, and the calls in progress.

    A call of a use case is a session. Its program counter says which transaction or external
    effect comes next and what it remembers from the ones before; sessions interleave freely, and
    any of them may crash between two steps. */
module Runtime {
  import opened Basics
  import opened Content
  import opened Lifecycle
  import opened Tables
  import opened Transactions
  import opened Evolution
  import opened Routing
  import opened Leases
  import opened Cancellation

  // ---------------------------------------------------------------- sessions

  /** What a sandbox run is finalized with. */
  datatype Run = Run(spec: Spec, result: SandboxResult, commit: string)

  /** What the caller of the artifact persister does with the artifact. */
  datatype Follow =
    | KeepLog(run: Run)
    | KeepMetric(run: Run, log: ArtifactRef)
    | KeepBundle
    | KeepPatch(diff: string)

  datatype Session =
    | WorktreePrepared(token: Token)
    | SandboxPrepared(token: Token)
    | RunLoaded(token: Token, run: Run)
    | LogKept(token: Token, run: Run, log: ArtifactRef)
    | MetricKept(token: Token, run: Run, log: ArtifactRef, metric: ArtifactRef)
    | Persisting(token: Token, put: Put, follow: Follow)
    | BlobWritten(token: Token, put: Put, follow: Follow)
    | CompletionChecked(token: Token)
    | FactsCollected(token: Token)
    | BundleBuilt(token: Token, payload: Bytes)
    | BundleKept(token: Token, bundle: ArtifactRef)
    | ProposalChecked(token: Token, diff: string)
    | PatchKept(token: Token, diff: string, patch: ArtifactRef)
    | ContextLoaded(token: Token, approval: Id, context: RepairContext)
    | CandidatePrepared(token: Token, context: RepairContext, operation: Id)
    | CandidateCommitted(token: Token, commit: string)
    | StopDue(token: Token)
    | StopAccepted(token: Token, stop: Stop)
    | Publishing(events: seq<OutboxEvent>)
    | EventSent(events: seq<OutboxEvent>)

  /** What a session wants to do next when that depends on what it has seen. */
  datatype Demand =
    | Persist(put: Put, follow: Follow)
    | FailWith(code: FailureCode)
    | RegisterNow(evidence: Evidence)
    | Raise

  /** The decisions of `FinalizeBaselineExecution.execute`, in its order: the log budget, the exit
      code, the metric file, the artifact budget, the metric itself. */
  function DemandOf(session: Session): Demand {
    match session
    case RunLoaded(_, run) =>
      if Size(run.result.log) > run.spec.maxLogBytes then FailWith(LogBudgetExceeded)
      else Persist(Put(LogSlot, run.result.log, At("execution.log")), KeepLog(run))
    case LogKept(_, run, log) =>
      if run.result.exitCode != 0 then FailWith(SandboxNonzeroExit)
      else if run.spec.metricPath !in run.result.files then FailWith(MetricArtifactMissing)
      else
        var payload := run.result.files[run.spec.metricPath];
        if Size(run.result.log) + Size(payload) > run.spec.maxArtifactBytes then FailWith(ArtifactBudgetExceeded)
        else Persist(Put(MetricSlot, payload, At(run.spec.metricPath)), KeepMetric(run, log))
    case MetricKept(_, run, log, metric) =>
      if run.spec.metricPath !in run.result.files then Raise
      else
        (match ValidateMetric(run.result.files[run.spec.metricPath], run.spec.expectation)
         case Err(_) => Raise
         case Ok(validation) =>
           if !validation.passed then FailWith(MetricExpectationFailed)
           else RegisterNow(Evidence(validation, metric, log, run.commit, run.result.environment, run.result.dataset)))
    case BundleBuilt(_, payload) => Persist(Put(BundleSlot, payload, At("bundle/research-bundle.zip")), KeepBundle)
    case ProposalChecked(_, diff) =>
      var patch := Sha256(Utf8(diff));
      Persist(Put(PatchSlot(patch), Utf8(diff), PatchFile(patch)), KeepPatch(diff))
    case _ => Raise
  }

  /** The session once its artifact is registered. */
  function Kept(token: Token, follow: Follow, artifact: ArtifactRef): Session {
    match follow
    case KeepLog(run) => LogKept(token, run, artifact)
    case KeepMetric(run, log) => MetricKept(token, run, log, artifact)
    case KeepBundle => BundleKept(token, artifact)
    case KeepPatch(diff) => PatchKept(token, diff, artifact)
  }

  // ---------------------------------------------------------------- the world

  /** A diff that was handed to git for a candidate operation, with the rest of the request. */
  datatype Handed = Handed(operation: Id, context: RepairContext)

  datatype World = World(
    cfg: Config,
    now: Time,
    db: Db,
    blobs: map<Digest, Bytes>,
    sessions: map<Id, Session>,
    sent: set<Delivery>,
    stops: set<Stop>,
    handed: set<Handed>,
    proposals: map<Id, string>,
    leases: map<Id, seq<Lease>>)

  function Begin(cfg: Config, now: Time): World {
    World(cfg, now, EmptyDb, map[], map[], {}, {}, {}, map[], map[])
  }

  /** The lease history of every attempt after a commit. */
  function RecordAll(leases: map<Id, seq<Lease>>, before: map<Id, Attempt>, after: map<Id, Attempt>, now: Time)
    : map<Id, seq<Lease>>
  {
    map a | a in after :: if a in leases && a in before then Recorded(leases[a], before[a], after[a], now) else []
  }

  function Commit(w: World, db: Db): World {
    w.(db := db, leases := RecordAll(w.leases, w.db.attempts, db.attempts, w.now))
  }

  function Go(w: World, s: Id, session: Session): World {
    w.(sessions := w.sessions[s := session])
  }

  function End(w: World, s: Id): World {
    w.(sessions := w.sessions - {s})
  }

  // ---------------------------------------------------------------- calls of one transaction

  function Create(w: World, mission: Id, task: Id, attempt: Id, event: Id, spec: Spec, proposal: Option<Id>): World {
    if mission in w.db.missions || task in w.db.tasks || attempt in w.db.attempts
       || !FreshEvent(w.db.outbox, event) then w
    else
      match CreateMission(w.db, w.now, mission, task, attempt, event, spec, proposal)
      case Err(_) => w
      case Ok(db) => Commit(w, db)
  }

  function ClaimLease(w: World, attempt: Id, owner: Id): World {
    match ClaimAttempt(w.db, w.cfg, w.now, attempt, owner)
    case Err(_) => w
    case Ok(claimed) => Commit(w, claimed.0)
  }

  function Renew(w: World, token: Token): World {
    match RenewLease(w.db, w.cfg, w.now, token)
    case Err(_) => w
    case Ok(renewed) => Commit(w, renewed.0)
  }

  function AskCancel(w: World, mission: Id): World {
    match RequestCancellation(w.db, w.now, mission)
    case Err(_) => w
    case Ok(db) => Commit(w, db)
  }

  function Decide(w: World, approval: Id, approved: bool, decider: Id, child: Id, event: Id): World {
    if child in w.db.attempts || !FreshEvent(w.db.outbox, event) then w
    else
      match ResolveApproval(w.db, w.now, approval, approved, decider, child, event)
      case Err(_) => w
      case Ok(db) => Commit(w, db)
  }

  function Reconcile(w: World, limit: int, event: Id): World {
    if exists e <- w.db.outbox :: e.id >= event then w
    else
      match ReconcileStale(w.db, w.cfg, w.now, limit, event)
      case Err(_) => w
      case Ok(db) => Commit(w, db)
  }

  // ---------------------------------------------------------------- the baseline worktree and the sandbox

  function WorktreeBegin(w: World, s: Id, token: Token, newId: Id): World {
    if s in w.sessions || newId in w.db.operations then w
    else
      match PrepareWorktree(w.db, w.now, token, newId)
      case Err(_) => w
      case Ok(db) => Go(Commit(w, db), s, WorktreePrepared(token))
  }

  function WorktreeFinish(w: World, s: Id, path: string): World {
    if s !in w.sessions || !w.sessions[s].WorktreePrepared? then w
    else
      match FinishWorktree(w.db, w.now, w.sessions[s].token, path)
      case Err(_) => End(w, s)
      case Ok(db) => End(Commit(w, db), s)
  }

  /** An operation that had already succeeded is answered from the broker's record. */
  function SandboxBegin(w: World, s: Id, token: Token, path: string, newId: Id): World {
    if s in w.sessions || newId in w.db.operations then w
    else
      match PrepareSandbox(w.db, w.now, token, path, newId)
      case Err(_) => w
      case Ok(prepared) =>
        if prepared.2 then Commit(w, prepared.0) else Go(Commit(w, prepared.0), s, SandboxPrepared(token))
  }

  /** The heartbeat thread may have moved the version meanwhile; the owner and the epoch stay. */
  function SandboxFinish(w: World, s: Id, version: nat, result: SandboxResult): World {
    if s !in w.sessions || !w.sessions[s].SandboxPrepared? then w
    else
      match FinishSandbox(w.db, w.now, w.sessions[s].token.(version := version), result)
      case Err(_) => End(w, s)
      case Ok(db) => End(Commit(w, db), s)
  }

  // ---------------------------------------------------------------- artifacts

  /** The prepare transaction of the persister, for whichever session wants to keep bytes. */
  function PutPrepare(w: World, s: Id, newId: Id): World {
    if s !in w.sessions || !DemandOf(w.sessions[s]).Persist? || newId in w.db.operations then w
    else
      var token, demand := w.sessions[s].token, DemandOf(w.sessions[s]);
      match PreparePut(w.db, w.now, token, demand.put, newId)
      case Err(_) => End(w, s)
      case Ok((db, None)) => Go(Commit(w, db), s, Persisting(token, demand.put, demand.follow))
      case Ok((db, Some(existing))) =>
        var artifact := ArtifactRef(existing.artifact.sha, existing.artifact.size, demand.put.Media());
        Go(Commit(w, db), s, Kept(token, demand.follow, artifact))
  }

  function BlobWrite(w: World, s: Id): World {
    if s !in w.sessions || !w.sessions[s].Persisting? then w
    else
      var session := w.sessions[s];
      Go(w.(blobs := w.blobs[Sha256(session.put.payload) := session.put.payload]), s,
         BlobWritten(session.token, session.put, session.follow))
  }

  function PutFinish(w: World, s: Id): World {
    if s !in w.sessions || !w.sessions[s].BlobWritten? then w
    else
      var session := w.sessions[s];
      match FinishPut(w.db, w.now, session.token, session.put)
      case Err(_) => End(w, s)
      case Ok(db) => Go(Commit(w, db), s, Kept(session.token, session.follow, session.put.Ref()))
  }

  // ---------------------------------------------------------------- finalizing a run

  function FinalizeBegin(w: World, s: Id, token: Token, result: SandboxResult, commit: string): World {
    if s in w.sessions then w
    else
      match LoadSpec(w.db, token.attempt)
      case Err(_) => w
      case Ok(spec) => Go(w, s, RunLoaded(token, Run(spec, result, commit)))
  }

  function RunSpec(session: Session): Option<Spec> {
    match session
    case RunLoaded(_, run) => Some(run.spec)
    case LogKept(_, run, _) => Some(run.spec)
    case MetricKept(_, run, _, _) => Some(run.spec)
    case _ => None
  }

  function RunFail(w: World, s: Id, ids: RepairIds): World {
    if s !in w.sessions || !DemandOf(w.sessions[s]).FailWith? || RunSpec(w.sessions[s]).None?
       || ids.task in w.db.tasks || ids.attempt in w.db.attempts || !FreshEvent(w.db.outbox, ids.event) then w
    else
      var repairMode := RunSpec(w.sessions[s]).value.mode == RepairMode;
      match FailRun(w.db, w.now, w.sessions[s].token, DemandOf(w.sessions[s]).code, repairMode, ids)
      case Err(_) => End(w, s)
      case Ok(db) => End(Commit(w, db), s)
  }

  function ResultRegister(w: World, s: Id, metric: Id, claim: Id): World {
    if s !in w.sessions || !w.sessions[s].MetricKept? || !DemandOf(w.sessions[s]).RegisterNow?
       || claim in w.db.claims || claim in w.db.evidence then w
    else
      match RegisterResult(w.db, w.now, w.sessions[s].token, DemandOf(w.sessions[s]).evidence, metric, claim)
      case Err(_) => End(w, s)
      case Ok(db) => End(Commit(w, db), s)
  }

  // ---------------------------------------------------------------- completing a mission

  function CompletionBegin(w: World, s: Id, token: Token): World {
    if s in w.sessions then w
    else
      match AlreadyCompleted(w.db, token.attempt)
      case Ok(None) => Go(w, s, CompletionChecked(token))
      case _ => w
  }

  function FactsCollect(w: World, s: Id): World {
    if s !in w.sessions || !w.sessions[s].CompletionChecked? then w
    else
      match CollectFacts(w.db, w.now, w.sessions[s].token)
      case Err(_) => End(w, s)
      case Ok(_) => Go(w, s, FactsCollected(w.sessions[s].token))
  }

  /** The source archive and the builder are outside the model: any payload may come back. */
  function BuildBundle(w: World, s: Id, payload: Bytes): World {
    if s !in w.sessions || !w.sessions[s].FactsCollected? then w
    else Go(w, s, BundleBuilt(w.sessions[s].token, payload))
  }

  function MissionComplete(w: World, s: Id): World {
    if s !in w.sessions || !w.sessions[s].BundleKept? then w
    else
      match CompleteMission(w.db, w.now, w.sessions[s].token, w.sessions[s].bundle)
      case Err(_) => End(w, s)
      case Ok(db) => End(Commit(w, db), s)
  }

  // ---------------------------------------------------------------- approvals and candidates

  function ProposalBegin(w: World, s: Id, token: Token, diff: string): World {
    if s in w.sessions || !IsUnifiedDiff(diff) then w
    else
      match ValidateProposal(w.db, w.now, token)
      case Err(_) => w
      case Ok(_) => Go(w, s, ProposalChecked(token, diff))
  }

  /** `proposals` remembers which diff each approval was asked for. */
  function ApprovalAsk(w: World, s: Id, approval: Id): World {
    if s !in w.sessions || !w.sessions[s].PatchKept? || approval in w.db.approvals then w
    else
      var session := w.sessions[s];
      match RequestApproval(w.db, w.cfg, w.now, session.token, session.patch, approval)
      case Err(_) => End(w, s)
      case Ok(db) => End(Commit(w.(proposals := w.proposals[approval := session.diff]), db), s)
  }

  function CandidateBegin(w: World, s: Id, token: Token, approval: Id): World {
    if s in w.sessions then w
    else
      match LoadRepairContext(w.db, w.blobs, w.now, token, approval)
      case Err(_) => w
      case Ok(context) => Go(w, s, ContextLoaded(token, approval, context))
  }

  /** An operation that had already succeeded is not committed again. */
  function CandidatePrepare(w: World, s: Id, newId: Id): World {
    if s !in w.sessions || !w.sessions[s].ContextLoaded? || newId in w.db.operations then w
    else
      var session := w.sessions[s];
      match PrepareCandidate(w.db, w.now, session.token, session.context.diff, newId)
      case Err(_) => End(w, s)
      case Ok(prepared) =>
        var (db, id) := prepared;
        if id in db.operations && db.operations[id].status == OperationStatus.Succeeded then End(Commit(w, db), s)
        else Go(Commit(w, db), s, CandidatePrepared(session.token, session.context, id))
  }

  function CommitCandidate(w: World, s: Id, commit: string): World {
    if s !in w.sessions || !w.sessions[s].CandidatePrepared? then w
    else
      var session := w.sessions[s];
      Go(w.(handed := w.handed + {Handed(session.operation, session.context)}), s,
         Session.CandidateCommitted(session.token, commit))
  }

  function CandidateFinish(w: World, s: Id): World {
    if s !in w.sessions || !w.sessions[s].CandidateCommitted? then w
    else
      match FinishCandidate(w.db, w.now, w.sessions[s].token, w.sessions[s].commit)
      case Err(_) => End(w, s)
      case Ok(db) => End(Commit(w, db), s)
  }

  // ---------------------------------------------------------------- cancellation

  function CancelBegin(w: World, s: Id, token: Token): World {
    if s in w.sessions then w
    else
      match AssertCancelling(w.db, w.now, token)
      case Err(_) => w
      case Ok(_) => Go(w, s, StopDue(token))
  }

  /** `live` of the stop is only remembered: the executor does not look at the lease. */
  function SandboxStop(w: World, s: Id): World {
    if s !in w.sessions || !w.sessions[s].StopDue? then w
    else
      var token := w.sessions[s].token;
      var live := token.attempt in w.db.attempts && w.db.attempts[token.attempt].CheckLease(token, w.now).Ok?;
      var stop := Stop(token, w.now, live);
      Go(w.(stops := w.stops + {stop}), s, StopAccepted(token, stop))
  }

  function MissionCancel(w: World, s: Id): World {
    if s !in w.sessions || !w.sessions[s].StopAccepted? then w
    else
      match CancelAttempt(w.db, w.now, w.sessions[s].token)
      case Err(_) => End(w, s)
      case Ok(db) => End(Commit(w, db), s)
  }

  // ---------------------------------------------------------------- the outbox publisher

  function PublishBegin(w: World, s: Id, limit: int): World {
    if s in w.sessions then w
    else
      match FetchUnpublished(w.db, limit)
      case Err(_) => w
      case Ok(events) => Go(w, s, Publishing(events))
  }

  function EventPublish(w: World, s: Id): World {
    if s !in w.sessions || !w.sessions[s].Publishing? then w
    else if w.sessions[s].events == [] then End(w, s)
    else
      var events := w.sessions[s].events;
      Go(w.(sent := w.sent + {Delivery(events[0].topic, events[0].attempt)}), s, EventSent(events))
  }

  function EventMark(w: World, s: Id): World {
    if s !in w.sessions || !w.sessions[s].EventSent? || w.sessions[s].events == [] then w
    else
      var events := w.sessions[s].events;
      match MarkPublished(w.db, w.now, events[0].id)
      case Err(_) => End(w, s)
      case Ok(db) => Go(Commit(w, db), s, Publishing(events[1..]))
  }

  // ---------------------------------------------------------------- one step, and a run

  datatype Step =
    | Tick(elapsed: nat)
    | Crash(s: Id)
    | CreateStep(mission: Id, task: Id, attempt: Id, event: Id, spec: Spec, proposal: Option<Id>)
    | ClaimStep(attempt: Id, owner: Id)
    | RenewStep(token: Token)
    | AskCancelStep(mission: Id)
    | ResolveStep(approval: Id, approved: bool, decider: Id, child: Id, event: Id)
    | ReconcileStep(limit: int, event: Id)
    | WorktreeBeginStep(s: Id, token: Token, newId: Id)
    | WorktreeFinishStep(s: Id, path: string)
    | SandboxBeginStep(s: Id, token: Token, path: string, newId: Id)
    | SandboxFinishStep(s: Id, version: nat, result: SandboxResult)
    | PutPrepareStep(s: Id, newId: Id)
    | BlobWriteStep(s: Id)
    | PutFinishStep(s: Id)
    | FinalizeBeginStep(s: Id, token: Token, result: SandboxResult, commit: string)
    | RunFailStep(s: Id, ids: RepairIds)
    | ResultRegisterStep(s: Id, metric: Id, claim: Id)
    | CompletionBeginStep(s: Id, token: Token)
    | FactsCollectStep(s: Id)
    | BundleBuildStep(s: Id, payload: Bytes)
    | MissionCompleteStep(s: Id)
    | ProposalBeginStep(s: Id, token: Token, diff: string)
    | ApprovalAskStep(s: Id, approval: Id)
    | CandidateBeginStep(s: Id, token: Token, approval: Id)
    | CandidatePrepareStep(s: Id, newId: Id)
    | CandidateCommitStep(s: Id, commit: string)
    | CandidateFinishStep(s: Id)
    | CancelBeginStep(s: Id, token: Token)
    | SandboxStopStep(s: Id)
    | MissionCancelStep(s: Id)
    | PublishBeginStep(s: Id, limit: int)
    | EventPublishStep(s: Id)
    | EventMarkStep(s: Id)

  /** The steps of the clock, the single transactions, and the worktree and sandbox calls. */
  predicate Basic(step: Step) {
    step.Tick? || step.Crash? || step.CreateStep? || step.ClaimStep? || step.RenewStep? || step.AskCancelStep?
    || step.ResolveStep? || step.ReconcileStep? || step.WorktreeBeginStep? || step.WorktreeFinishStep?
    || step.SandboxBeginStep? || step.SandboxFinishStep?
  }

  /** The steps that keep artifacts, register results and complete missions. */
  predicate Evidential(step: Step) {
    step.PutPrepareStep? || step.BlobWriteStep? || step.PutFinishStep? || step.FinalizeBeginStep? || step.RunFailStep?
    || step.ResultRegisterStep? || step.CompletionBeginStep? || step.FactsCollectStep? || step.BundleBuildStep?
    || step.MissionCompleteStep?
  }

  function ApplyBasic(w: World, step: Step): World {
    match step
    case Tick(elapsed) => w.(now := w.now + elapsed)
    case Crash(s) => End(w, s)
    case CreateStep(mission, task, attempt, event, spec, proposal) =>
      Create(w, mission, task, attempt, event, spec, proposal)
    case ClaimStep(attempt, owner) => ClaimLease(w, attempt, owner)
    case RenewStep(token) => Renew(w, token)
    case AskCancelStep(mission) => AskCancel(w, mission)
    case ResolveStep(approval, approved, decider, child, event) => Decide(w, approval, approved, decider, child, event)
    case ReconcileStep(limit, event) => Reconcile(w, limit, event)
    case WorktreeBeginStep(s, token, newId) => WorktreeBegin(w, s, token, newId)
    case WorktreeFinishStep(s, path) => WorktreeFinish(w, s, path)
    case SandboxBeginStep(s, token, path, newId) => SandboxBegin(w, s, token, path, newId)
    case SandboxFinishStep(s, version, result) => SandboxFinish(w, s, version, result)
    case _ => w
  }

  function ApplyEvidential(w: World, step: Step): World {
    match step
    case PutPrepareStep(s, newId) => PutPrepare(w, s, newId)
    case BlobWriteStep(s) => BlobWrite(w, s)
    case PutFinishStep(s) => PutFinish(w, s)
    case FinalizeBeginStep(s, token, result, commit) => FinalizeBegin(w, s, token, result, commit)
    case RunFailStep(s, ids) => RunFail(w, s, ids)
    case ResultRegisterStep(s, metric, claim) => ResultRegister(w, s, metric, claim)
    case CompletionBeginStep(s, token) => CompletionBegin(w, s, token)
    case FactsCollectStep(s) => FactsCollect(w, s)
    case BundleBuildStep(s, payload) => BuildBundle(w, s, payload)
    case MissionCompleteStep(s) => MissionComplete(w, s)
    case _ => w
  }

  function ApplyOther(w: World, step: Step): World {
    match step
    case ProposalBeginStep(s, token, diff) => ProposalBegin(w, s, token, diff)
    case ApprovalAskStep(s, approval) => ApprovalAsk(w, s, approval)
    case CandidateBeginStep(s, token, approval) => CandidateBegin(w, s, token, approval)
    case CandidatePrepareStep(s, newId) => CandidatePrepare(w, s, newId)
    case CandidateCommitStep(s, commit) => CommitCandidate(w, s, commit)
    case CandidateFinishStep(s) => CandidateFinish(w, s)
    case CancelBeginStep(s, token) => CancelBegin(w, s, token)
    case SandboxStopStep(s) => SandboxStop(w, s)
    case MissionCancelStep(s) => MissionCancel(w, s)
    case PublishBeginStep(s, limit) => PublishBegin(w, s, limit)
    case EventPublishStep(s) => EventPublish(w, s)
    case EventMarkStep(s) => EventMark(w, s)
    case _ => w
  }

  /** A step that is not enabled, or whose transaction raises, leaves the tables as they were. */
  function Apply(w: World, step: Step): World {
    if Basic(step) then ApplyBasic(w, step)
    else if Evidential(step) then ApplyEvidential(w, step)
    else ApplyOther(w, step)
  }

  function RunFrom(w: World, steps: seq<Step>): World
    decreases |steps|
  {
    if steps == [] then w else RunFrom(Apply(w, steps[0]), steps[1..])
  }

  lemma {:induction false} RunAppends(w: World, steps: seq<Step>, more: seq<Step>)
    ensures RunFrom(w, steps + more) == RunFrom(RunFrom(w, steps), more)
    decreases |steps|
  {
    hide Apply;
    if steps == [] {
      assert steps + more == more;
    } else {
      RunAppends(Apply(w, steps[0]), steps[1..], more);
      assert (steps + more)[0] == steps[0] && (steps + more)[1..] == steps[1..] + more;
    }
  }

  // ---------------------------------------------------------------- runs as a relation

  /** The worlds that a run goes through, one more than its steps. */
  datatype Trace = Trace(worlds: seq<World>, steps: seq<Step>)

  ghost predicate Linked(t: Trace, i: nat) {
    i < |t.steps| && i + 1 < |t.worlds| && t.worlds[i + 1] == Apply(t.worlds[i], t.steps[i])
  }

  ghost predicate Joins(t: Trace, w: World, v: World) {
    && |t.worlds| == |t.steps| + 1 && t.worlds[0] == w && t.worlds[|t.steps|] == v
    && forall i: nat :: i < |t.steps| ==> Linked(t, i)
  }

  /** Some steps lead from one world to the other: any calls, in any interleaving, with any crashes. */
  ghost predicate Runs(w: World, v: World) {
    exists t: Trace :: Joins(t, w, v)
  }

  lemma {:induction false} RunsFrom(w: World, steps: seq<Step>)
    ensures Runs(w, RunFrom(w, steps))
    decreases |steps|
  {
    hide Apply;
    if steps == [] {
      assert Joins(Trace([w], []), w, w);
    } else {
      var next, v := Apply(w, steps[0]), RunFrom(w, steps);
      RunsFrom(next, steps[1..]);
      var t: Trace :| Joins(t, next, v);
      FirstLinked(t, w, steps[0], v);
    }
  }

  lemma FirstLinked(t: Trace, w: World, step: Step, v: World)
    requires Joins(t, Apply(w, step), v)
    ensures Runs(w, v)
  {
    hide Apply;
    var longer := Trace([w] + t.worlds, [step] + t.steps);
    forall i: nat | i < |longer.steps| ensures Linked(longer, i) {
      if i > 0 { assert Linked(t, i - 1); }
    }
    assert Joins(longer, w, v);
  }

  lemma {:induction false} TraceRuns(t: Trace, w: World, v: World, i: nat)
    requires Joins(t, w, v) && i <= |t.steps|
    ensures RunFrom(t.worlds[i], t.steps[i..]) == v
    decreases |t.steps| - i
  {
    hide Apply;
    if i < |t.steps| {
      assert Linked(t, i);
      assert t.steps[i..][0] == t.steps[i] && t.steps[i..][1..] == t.steps[i + 1..];
      TraceRuns(t, w, v, i + 1);
    }
  }

  /** The steps of a run. */
  lemma StepsOf(w: World, v: World) returns (steps: seq<Step>)
    requires Runs(w, v)
    ensures v == RunFrom(w, steps)
  {
    hide RunFrom;
    var t: Trace :| Joins(t, w, v);
    TraceRuns(t, w, v, 0);
    steps := t.steps;
    assert t.steps[0..] == steps;
  }

  lemma RunsOn(w: World, v: World, steps: seq<Step>)
    requires Runs(w, v)
    ensures Runs(w, RunFrom(v, steps))
  {
    hide RunFrom, Runs;
    var before := StepsOf(w, v);
    RunAppends(w, before, steps);
    RunsFrom(w, before + steps);
  }

  lemma RunsThrough(w: World, mid: World, v: World)
    requires Runs(w, mid) && Runs(mid, v)
    ensures Runs(w, v)
  {
    hide RunFrom, Runs;
    var steps := StepsOf(mid, v);
    RunsOn(w, mid, steps);
  }

  lemma RunsNowhere(w: World)
    ensures Runs(w, w)
  {
    RunsFrom(w, []);
  }

  lemma OneStep(w: World, step: Step)
    ensures RunFrom(w, [step]) == Apply(w, step)
  {
    hide Apply;
    assert [step][1..] == [];
    assert RunFrom(Apply(w, step), []) == Apply(w, step);
  }

  // ---------------------------------------------------------------- each step is its function

  lemma CrashApplies(w: World, s: Id)
    ensures Apply(w, Crash(s)) == End(w, s)
  {
    hide End;
  }

  lemma CreateApplies(w: World, mission: Id, task: Id, attempt: Id, event: Id, spec: Spec, proposal: Option<Id>)
    ensures Apply(w, CreateStep(mission, task, attempt, event, spec, proposal)) ==
            Create(w, mission, task, attempt, event, spec, proposal)
  {
    hide Create;
  }

  lemma ClaimApplies(w: World, attempt: Id, owner: Id)
    ensures Apply(w, ClaimStep(attempt, owner)) == ClaimLease(w, attempt, owner)
  {
    hide ClaimLease;
  }

  lemma RenewApplies(w: World, token: Token)
    ensures Apply(w, RenewStep(token)) == Renew(w, token)
  {
    hide Renew;
  }

  lemma AskCancelApplies(w: World, mission: Id)
    ensures Apply(w, AskCancelStep(mission)) == AskCancel(w, mission)
  {
    hide AskCancel;
  }

  lemma ResolveApplies(w: World, approval: Id, approved: bool, decider: Id, child: Id, event: Id)
    ensures Apply(w, ResolveStep(approval, approved, decider, child, event)) ==
            Decide(w, approval, approved, decider, child, event)
  {
    hide Decide;
  }

  lemma ReconcileApplies(w: World, limit: int, event: Id)
    ensures Apply(w, ReconcileStep(limit, event)) == Reconcile(w, limit, event)
  {
    hide Reconcile;
  }

  lemma WorktreeBeginApplies(w: World, s: Id, token: Token, newId: Id)
    ensures Apply(w, WorktreeBeginStep(s, token, newId)) == WorktreeBegin(w, s, token, newId)
  {
    hide WorktreeBegin;
  }

  lemma WorktreeFinishApplies(w: World, s: Id, path: string)
    ensures Apply(w, WorktreeFinishStep(s, path)) == WorktreeFinish(w, s, path)
  {
    hide WorktreeFinish;
  }

  lemma SandboxBeginApplies(w: World, s: Id, token: Token, path: string, newId: Id)
    ensures Apply(w, SandboxBeginStep(s, token, path, newId)) == SandboxBegin(w, s, token, path, newId)
  {
    hide SandboxBegin;
  }

  lemma SandboxFinishApplies(w: World, s: Id, version: nat, result: SandboxResult)
    ensures Apply(w, SandboxFinishStep(s, version, result)) == SandboxFinish(w, s, version, result)
  {
    hide SandboxFinish;
  }

  lemma PutPrepareApplies(w: World, s: Id, newId: Id)
    ensures Apply(w, PutPrepareStep(s, newId)) == PutPrepare(w, s, newId)
  {
    hide PutPrepare;
  }

  lemma BlobWriteApplies(w: World, s: Id)
    ensures Apply(w, BlobWriteStep(s)) == BlobWrite(w, s)
  {
    hide BlobWrite;
  }

  lemma PutFinishApplies(w: World, s: Id)
    ensures Apply(w, PutFinishStep(s)) == PutFinish(w, s)
  {
    hide PutFinish;
  }

  lemma FinalizeBeginApplies(w: World, s: Id, token: Token, result: SandboxResult, commit: string)
    ensures Apply(w, FinalizeBeginStep(s, token, result, commit)) == FinalizeBegin(w, s, token, result, commit)
  {
    hide FinalizeBegin;
  }

  lemma RunFailApplies(w: World, s: Id, ids: RepairIds)
    ensures Apply(w, RunFailStep(s, ids)) == RunFail(w, s, ids)
  {
    hide RunFail;
  }

  lemma ResultRegisterApplies(w: World, s: Id, metric: Id, claim: Id)
    ensures Apply(w, ResultRegisterStep(s, metric, claim)) == ResultRegister(w, s, metric, claim)
  {
    hide ResultRegister;
  }

  lemma CompletionBeginApplies(w: World, s: Id, token: Token)
    ensures Apply(w, CompletionBeginStep(s, token)) == CompletionBegin(w, s, token)
  {
    hide CompletionBegin;
  }

  lemma FactsCollectApplies(w: World, s: Id)
    ensures Apply(w, FactsCollectStep(s)) == FactsCollect(w, s)
  {
    hide FactsCollect;
  }

  lemma BundleBuildApplies(w: World, s: Id, payload: Bytes)
    ensures Apply(w, BundleBuildStep(s, payload)) == BuildBundle(w, s, payload)
  {
    hide BuildBundle;
  }

  lemma MissionCompleteApplies(w: World, s: Id)
    ensures Apply(w, MissionCompleteStep(s)) == MissionComplete(w, s)
  {
    hide MissionComplete;
  }

  lemma ProposalBeginApplies(w: World, s: Id, token: Token, diff: string)
    ensures Apply(w, ProposalBeginStep(s, token, diff)) == ProposalBegin(w, s, token, diff)
  {
    hide ProposalBegin;
  }

  lemma ApprovalAskApplies(w: World, s: Id, approval: Id)
    ensures Apply(w, ApprovalAskStep(s, approval)) == ApprovalAsk(w, s, approval)
  {
    hide ApprovalAsk;
  }

  lemma CandidateBeginApplies(w: World, s: Id, token: Token, approval: Id)
    ensures Apply(w, CandidateBeginStep(s, token, approval)) == CandidateBegin(w, s, token, approval)
  {
    hide CandidateBegin;
  }

  lemma CandidatePrepareApplies(w: World, s: Id, newId: Id)
    ensures Apply(w, CandidatePrepareStep(s, newId)) == CandidatePrepare(w, s, newId)
  {
    hide CandidatePrepare;
  }

  lemma CandidateCommitApplies(w: World, s: Id, commit: string)
    ensures Apply(w, CandidateCommitStep(s, commit)) == CommitCandidate(w, s, commit)
  {
    hide CommitCandidate;
  }

  lemma CandidateFinishApplies(w: World, s: Id)
    ensures Apply(w, CandidateFinishStep(s)) == CandidateFinish(w, s)
  {
    hide CandidateFinish;
  }

  lemma CancelBeginApplies(w: World, s: Id, token: Token)
    ensures Apply(w, CancelBeginStep(s, token)) == CancelBegin(w, s, token)
  {
    hide CancelBegin;
  }

  lemma SandboxStopApplies(w: World, s: Id)
    ensures Apply(w, SandboxStopStep(s)) == SandboxStop(w, s)
  {
    hide SandboxStop;
  }

  lemma MissionCancelApplies(w: World, s: Id)
    ensures Apply(w, MissionCancelStep(s)) == MissionCancel(w, s)
  {
    hide MissionCancel;
  }

  lemma PublishBeginApplies(w: World, s: Id, limit: int)
    ensures Apply(w, PublishBeginStep(s, limit)) == PublishBegin(w, s, limit)
  {
    hide PublishBegin;
  }

  lemma EventPublishApplies(w: World, s: Id)
    ensures Apply(w, EventPublishStep(s)) == EventPublish(w, s)
  {
    hide EventPublish;
  }

  lemma EventMarkApplies(w: World, s: Id)
    ensures Apply(w, EventMarkStep(s)) == EventMark(w, s)
  {
    hide EventMark;
  }
}
