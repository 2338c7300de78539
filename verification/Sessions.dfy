/** What a call in progress may rely on between its steps, whatever the others do meanwhile. */
module Sessions {
  import opened Basics
  import opened Content
  import opened Lifecycle
  import opened Tables
  import opened Transactions
  import opened Evolution
  import opened Changes
  import opened Ledger
  import opened EvidenceGate
  import opened Approvals
  import opened Routing
  import opened Leases
  import opened Cancellation
  import opened Runtime

  /** The operation of this slot was prepared in the epoch of the token. */
  predicate InProgress(db: Db, token: Token, slot: Slot) {
    var key := Key(token.attempt, slot);
    && key in db.keys && db.keys[key] in db.operations
    && db.operations[db.keys[key]].key == key && db.operations[db.keys[key]].attempt == token.attempt
    && db.operations[db.keys[key]].epoch == token.epoch && db.operations[db.keys[key]].kind == KindOf(slot)
  }

  predicate InProgressFor(db: Db, token: Token, slot: Slot, input: Digest) {
    InProgress(db, token, slot) && db.operations[db.keys[Key(token.attempt, slot)]].input == input
  }

  predicate SpecOf(db: Db, a: Id, spec: Spec) {
    Indexed(db, a) && db.missions[MissionOf(db, a)].spec == spec
  }

  /** The digest of the metric file of the run. */
  predicate MetricOf(run: Run, sha: Digest) {
    run.spec.metricPath in run.result.files && sha == Sha256(run.result.files[run.spec.metricPath])
  }

  /** The log of the run, within its budget. */
  predicate LogWithin(run: Run, sha: Digest) {
    sha == Sha256(run.result.log) && Size(run.result.log) <= run.spec.maxLogBytes
  }

  /** The metric file of a run without error, within what the log leaves of the artifact budget. */
  predicate MetricWithin(run: Run, sha: Digest) {
    && run.result.exitCode == 0 && MetricOf(run, sha)
    && Size(run.result.log) + Size(run.result.files[run.spec.metricPath]) <= run.spec.maxArtifactBytes
  }

  ghost predicate FollowOk(db: Db, token: Token, put: Put, follow: Follow) {
    match follow
    case KeepLog(run) =>
      put.slot == LogSlot && SpecOf(db, token.attempt, run.spec) && LogWithin(run, Sha256(put.payload))
    case KeepMetric(run, log) =>
      && put.slot == MetricSlot && SpecOf(db, token.attempt, run.spec) && MetricWithin(run, Sha256(put.payload))
      && LogWithin(run, log.sha) && Registered(db, Key(token.attempt, LogSlot), log)
    case KeepBundle => put.slot == BundleSlot && GateOpen(db, token.attempt)
    case KeepPatch(diff) =>
      put.slot == PatchSlot(Sha256(Utf8(diff))) && put.payload == Utf8(diff) && IsUnifiedDiff(diff)
  }

  predicate ContextOf(db: Db, a: Id, context: RepairContext) {
    && Indexed(db, a) && context.mission == MissionOf(db, a)
    && (var spec := db.missions[MissionOf(db, a)].spec;
        && context.parentCommit == spec.commit && context.allowedPaths == spec.allowedPaths
        && context.maxFiles == spec.maxFiles && context.maxChangedLines == spec.maxChangedLines)
  }

  predicate TokenIssued(db: Db, token: Token) {
    token.attempt in db.attempts && Issued(db.attempts[token.attempt], token)
  }

  predicate TokenDead(db: Db, token: Token, now: Time) {
    TokenIssued(db, token) && db.attempts[token.attempt].CheckLease(token, now).Err?
  }

  predicate EventsCommitted(db: Db, events: seq<OutboxEvent>) {
    forall e <- events :: e in db.outbox
  }

  ghost predicate SessionOk(db: Db, blobs: map<Digest, Bytes>, sent: set<Delivery>, stops: set<Stop>, now: Time,
                            session: Session)
  {
    match session
    case WorktreePrepared(token) => InProgress(db, token, BaselineWorktree)
    case SandboxPrepared(token) => InProgress(db, token, Sandbox)
    case RunLoaded(token, run) => SpecOf(db, token.attempt, run.spec)
    case LogKept(token, run, log) =>
      SpecOf(db, token.attempt, run.spec) && LogWithin(run, log.sha) && Registered(db, Key(token.attempt, LogSlot), log)
    case MetricKept(token, run, log, metric) =>
      && SpecOf(db, token.attempt, run.spec) && LogWithin(run, log.sha) && MetricWithin(run, metric.sha)
      && Registered(db, Key(token.attempt, LogSlot), log) && Registered(db, Key(token.attempt, MetricSlot), metric)
    case Persisting(token, put, follow) =>
      InProgressFor(db, token, put.slot, Sha256(put.payload)) && FollowOk(db, token, put, follow)
    case BlobWritten(token, put, follow) =>
      && InProgressFor(db, token, put.slot, Sha256(put.payload)) && FollowOk(db, token, put, follow)
      && BlobHeld(blobs, put.Ref())
    case CompletionChecked(_) => true
    case FactsCollected(token) => GateOpen(db, token.attempt)
    case BundleBuilt(token, _) => GateOpen(db, token.attempt)
    case BundleKept(token, bundle) => GateOpen(db, token.attempt)
        && Registered(db, Key(token.attempt, BundleSlot), bundle)
    case ProposalChecked(_, diff) => IsUnifiedDiff(diff)
    case PatchKept(token, diff, patch) =>
      patch.sha == Sha256(Utf8(diff)) && Registered(db, Key(token.attempt, PatchSlot(patch.sha)), patch)
          && IsUnifiedDiff(diff)
    case ContextLoaded(token, approval, context) =>
      Authorizes(db, approval, token.attempt, Sha256(Utf8(context.diff))) && ContextOf(db, token.attempt, context)
    case CandidatePrepared(token, context, operation) =>
      && InProgressFor(db, token, CandidateSlot, Sha256(Utf8(context.diff))) && ContextOf(db, token.attempt, context)
      && operation == db.keys[Key(token.attempt, CandidateSlot)]
    case CandidateCommitted(token, _) => InProgress(db, token, CandidateSlot)
    case StopDue(token) => TokenIssued(db, token)
    case StopAccepted(token, stop) => stop in stops && stop.token == token && (stop.live || TokenDead(db, token, now))
    case Publishing(events) => EventsCommitted(db, events)
    case EventSent(events) =>
      EventsCommitted(db, events) && (events != [] ==> Delivery(events[0].topic, events[0].attempt) in sent)
  }

  // ---------------------------------------------------------------- stability

  lemma ProgressStays(db: Db, after: Db, now: Time, token: Token, slot: Slot)
    requires Evolves(db, after, now) && InProgress(db, token, slot)
    ensures InProgress(after, token, slot)
    ensures after.keys[Key(token.attempt, slot)] == db.keys[Key(token.attempt, slot)]
    ensures var key := Key(token.attempt, slot);
      after.operations[after.keys[key]].input == db.operations[db.keys[key]].input
  {
    hide MissionsMove, TasksMove, AttemptsMove, ApprovalsMove;
  }

  lemma ProgressForStays(db: Db, after: Db, now: Time, token: Token, slot: Slot, input: Digest)
    requires Evolves(db, after, now) && InProgressFor(db, token, slot, input)
    ensures InProgressFor(after, token, slot, input)
    ensures after.keys[Key(token.attempt, slot)] == db.keys[Key(token.attempt, slot)]
  {
    hide Evolves;
    ProgressStays(db, after, now, token, slot);
  }

  lemma SpecStays(db: Db, after: Db, now: Time, a: Id, spec: Spec)
    requires Evolves(db, after, now) && SpecOf(db, a, spec)
    ensures SpecOf(after, a, spec)
  {
    hide Evolves;
    IndexStays(db, after, now, a);
  }

  lemma ContextStays(db: Db, after: Db, now: Time, a: Id, context: RepairContext)
    requires Evolves(db, after, now) && ContextOf(db, a, context)
    ensures ContextOf(after, a, context)
  {
    hide Evolves;
    IndexStays(db, after, now, a);
  }

  lemma EvolvesWritesOnce(db: Db, after: Db, now: Time)
    requires Evolves(db, after, now)
    ensures WriteOnce(db, after)
  {}

  lemma FollowStays(db: Db, after: Db, now: Time, token: Token, put: Put, follow: Follow)
    requires Evolves(db, after, now) && FollowOk(db, token, put, follow)
    ensures FollowOk(after, token, put, follow)
  {
    hide Evolves, SpecOf, GateOpen, Registered, WriteOnce, IsUnifiedDiff;
    EvolvesWritesOnce(db, after, now);
    match follow
    case KeepLog(run) => SpecStays(db, after, now, token.attempt, run.spec);
    case KeepMetric(run, log) =>
      SpecStays(db, after, now, token.attempt, run.spec);
      RegisteredStays(db, after, Key(token.attempt, LogSlot), log);
    case KeepBundle => GateStaysOpen(db, after, now, token.attempt);
    case KeepPatch(diff) =>
  }

  lemma IssuedStays(db: Db, after: Db, now: Time, token: Token)
    requires Evolves(db, after, now) && TokenIssued(db, token)
    ensures TokenIssued(after, token)
  {
    hide MissionsMove, TasksMove, OperationsMove, ApprovalsMove, WriteOnce, Claims, Renews, Finishes;
  }

  lemma DeadStays(db: Db, after: Db, now: Time, token: Token)
    requires Evolves(db, after, now) && TokenDead(db, token, now)
    ensures TokenDead(after, token, now)
  {
    AttemptMoved(db, after, now, token.attempt);
    hide Evolves, AttemptMoves;
    DeadTokenStaysDead(db.attempts[token.attempt], after.attempts[token.attempt], token, now, now);
  }

  lemma AttemptMoved(db: Db, after: Db, now: Time, a: Id)
    requires Evolves(db, after, now) && a in db.attempts
    ensures a in after.attempts && AttemptMoves(db.attempts[a], after.attempts[a], now)
  {
    hide MissionsMove, TasksMove, OperationsMove, ApprovalsMove, WriteOnce;
  }

  lemma EventsStay(db: Db, after: Db, now: Time, events: seq<OutboxEvent>)
    requires Evolves(db, after, now) && EventsCommitted(db, events)
    ensures EventsCommitted(after, events)
  {
    hide MissionsMove, TasksMove, AttemptsMove, OperationsMove, ApprovalsMove;
  }

  predicate KeepsArtifacts(session: Session) {
    session.RunLoaded? || session.LogKept? || session.MetricKept? || session.Persisting? || session.BlobWritten?
    || session.FactsCollected? || session.BundleBuilt? || session.BundleKept? || session.PatchKept?
  }

  lemma ArtifactSessionStays(db: Db, after: Db, now: Time, blobs: map<Digest, Bytes>, sent: set<Delivery>,
                             stops: set<Stop>, session: Session)
    requires Evolves(db, after, now) && SessionOk(db, blobs, sent, stops, now, session) && KeepsArtifacts(session)
    ensures SessionOk(after, blobs, sent, stops, now, session)
  {
    hide Evolves, WriteOnce, InProgressFor, SpecOf, FollowOk, Registered, GateOpen, BlobHeld, IsUnifiedDiff, Size;
    EvolvesWritesOnce(db, after, now);
    var token := session.token;
    match session
    case RunLoaded(_, run) => SpecStays(db, after, now, token.attempt, run.spec);
    case LogKept(_, run, log) =>
      SpecStays(db, after, now, token.attempt, run.spec);
      RegisteredStays(db, after, Key(token.attempt, LogSlot), log);
    case MetricKept(_, run, log, metric) =>
      SpecStays(db, after, now, token.attempt, run.spec);
      RegisteredStays(db, after, Key(token.attempt, LogSlot), log);
      RegisteredStays(db, after, Key(token.attempt, MetricSlot), metric);
    case Persisting(_, put, follow) =>
      ProgressForStays(db, after, now, token, put.slot, Sha256(put.payload));
      FollowStays(db, after, now, token, put, follow);
    case BlobWritten(_, put, follow) =>
      ProgressForStays(db, after, now, token, put.slot, Sha256(put.payload));
      FollowStays(db, after, now, token, put, follow);
    case BundleKept(_, bundle) =>
      GateStaysOpen(db, after, now, token.attempt);
      RegisteredStays(db, after, Key(token.attempt, BundleSlot), bundle);
    case PatchKept(_, diff, patch) => RegisteredStays(db, after, Key(token.attempt, PatchSlot(patch.sha)), patch);
    case _ => GateStaysOpen(db, after, now, token.attempt);
  }

  lemma OtherSessionStays(db: Db, after: Db, now: Time, blobs: map<Digest, Bytes>, sent: set<Delivery>,
                          stops: set<Stop>, session: Session)
    requires Evolves(db, after, now) && SessionOk(db, blobs, sent, stops, now, session) && !KeepsArtifacts(session)
    ensures SessionOk(after, blobs, sent, stops, now, session)
  {
    hide Evolves, InProgress, InProgressFor, IsUnifiedDiff, Authorizes, ContextOf, TokenIssued, TokenDead;
    hide EventsCommitted;
    match session
    case WorktreePrepared(token) => ProgressStays(db, after, now, token, BaselineWorktree);
    case SandboxPrepared(token) => ProgressStays(db, after, now, token, Sandbox);
    case ContextLoaded(token, approval, context) =>
      AuthorizationStays(db, after, now, approval, token.attempt, Sha256(Utf8(context.diff)));
      ContextStays(db, after, now, token.attempt, context);
    case CandidatePrepared(token, context, _) =>
      ProgressForStays(db, after, now, token, CandidateSlot, Sha256(Utf8(context.diff)));
      ContextStays(db, after, now, token.attempt, context);
    case CandidateCommitted(token, _) => ProgressStays(db, after, now, token, CandidateSlot);
    case StopDue(token) => IssuedStays(db, after, now, token);
    case StopAccepted(token, stop) => if !stop.live { DeadStays(db, after, now, token); }
    case Publishing(events) => EventsStay(db, after, now, events);
    case EventSent(events) => EventsStay(db, after, now, events);
    case _ =>
  }

  /** Nothing that another transaction commits takes away what a session relies on. */
  lemma SessionStays(db: Db, after: Db, now: Time, blobs: map<Digest, Bytes>, sent: set<Delivery>, stops: set<Stop>,
                     session: Session)
    requires Evolves(db, after, now) && SessionOk(db, blobs, sent, stops, now, session)
    ensures SessionOk(after, blobs, sent, stops, now, session)
  {
    hide Evolves, SessionOk, KeepsArtifacts;
    if KeepsArtifacts(session) {
      ArtifactSessionStays(db, after, now, blobs, sent, stops, session);
    } else {
      OtherSessionStays(db, after, now, blobs, sent, stops, session);
    }
  }

  /** Neither do the effects outside the tables, nor the clock. */
  lemma SessionLater(db: Db, now: Time, later: Time, blobs: map<Digest, Bytes>, moreBlobs: map<Digest, Bytes>,
                     sent: set<Delivery>, moreSent: set<Delivery>, stops: set<Stop>, moreStops: set<Stop>,
                         session: Session)
    requires SessionOk(db, blobs, sent, stops, now, session) && now <= later
    requires Extends(blobs, moreBlobs) && sent <= moreSent && stops <= moreStops
    ensures SessionOk(db, moreBlobs, moreSent, moreStops, later, session)
  {
    hide InProgress, SpecOf, FollowOk, Registered, GateOpen, IsUnifiedDiff, Authorizes, ContextOf, EventsCommitted;
  }
}
