/** The evidence gate: what stands behind every claim, every metric and every bundle. */
module EvidenceGate {
  import opened Basics
  import opened Content
  import opened JsonPointer
  import opened Lifecycle
  import opened Tables
  import opened Transactions
  import opened Evolution
  import opened Changes
  import opened Completion
  import opened Ledger

  /** The log and the metric file are within the budgets of the spec. */
  predicate WithinBudgets(spec: Spec, log: Digest, metric: Digest) {
    && Size(log.preimage) <= spec.maxLogBytes
    && Size(log.preimage) + Size(metric.preimage) <= spec.maxArtifactBytes
  }

  /** A claim is verified, belongs to the mission of its attempt, states the metric of that
      attempt, and has exactly a metric link and a log link, both to registered artifacts within the
      budgets of its spec. */
  predicate ClaimGrounded(db: Db, c: Id)
    requires c in db.claims
  {
    var claim := db.claims[c];
    && claim.status == Verified && claim.attempt in db.metrics
    && OwnedBy(db.tasks, db.attempts, claim.attempt, claim.mission)
    && claim.value == db.metrics[claim.attempt].value
    && c in db.evidence && |db.evidence[c]| == 2
    && db.evidence[c][0] == EvidenceLink(c, MetricArtifact, db.metrics[claim.attempt].artifact)
    && db.evidence[c][1] == EvidenceLink(c, LogArtifact, db.evidence[c][1].artifact)
    && Registered(db, Key(claim.attempt, LogSlot), db.evidence[c][1].artifact)
    && Indexed(db, claim.attempt)
    && WithinBudgets(db.missions[claim.mission].spec, db.evidence[c][1].artifact.sha, db.evidence[c][0].artifact.sha)
  }

  /** A metric was measured against the frozen expectation of its mission, meets it, and comes
      from the registered metric artifact of its attempt. */
  predicate MetricGrounded(db: Db, a: Id)
    requires a in db.metrics
  {
    var metric := db.metrics[a];
    && Indexed(db, a) && metric.attempt == a && metric.Valid()
    && metric.expectation == db.missions[MissionOf(db, a)].spec.expectation
    && InRange(metric.value, metric.expectation)
    && Registered(db, Key(a, MetricSlot), metric.artifact)
    && MeasuredIn(metric.artifact, metric.value, metric.expectation)
  }

  /** The bytes of this artifact are a document in which the pointer finds this value, which passes. */
  predicate MeasuredIn(artifact: ArtifactRef, value: real, e: Expectation) {
    ValidateMetric(artifact.sha.preimage, e) == Ok(Validation(value, true, e))
  }

  predicate ClaimFor(db: Db, c: Id, m: Id) {
    c in db.claims && db.claims[c].mission == m
  }

  /** What the gate saw: a metric of this attempt and at least one claim of its mission. */
  ghost predicate GateOpen(db: Db, a: Id) {
    a in db.metrics && Indexed(db, a) && exists c :: ClaimFor(db, c, MissionOf(db, a))
  }

  /** A bundle belongs to an attempt of its mission for which the gate was open, and is the
      registered bundle artifact of that attempt. */
  ghost predicate BundleGrounded(db: Db, m: Id)
    requires m in db.bundles
  {
    var bundle := db.bundles[m];
    && OwnedBy(db.tasks, db.attempts, bundle.attempt, m) && GateOpen(db, bundle.attempt)
    && Registered(db, Key(bundle.attempt, BundleSlot), bundle.artifact)
    && db.keys[Key(bundle.attempt, BundleSlot)] == bundle.operation
  }

  ghost predicate Grounded(db: Db) {
    && (forall c :: c in db.claims ==> ClaimGrounded(db, c))
    && (forall a :: a in db.metrics ==> MetricGrounded(db, a))
    && (forall m :: m in db.bundles ==> BundleGrounded(db, m))
  }

  // ---------------------------------------------------------------- what is grounded stays grounded

  lemma IndexStays(db: Db, after: Db, now: Time, a: Id)
    requires Evolves(db, after, now) && Indexed(db, a)
    ensures Indexed(after, a) && TaskOf(after, a) == TaskOf(db, a) && MissionOf(after, a) == MissionOf(db, a)
    ensures after.missions[MissionOf(db, a)].spec == db.missions[MissionOf(db, a)].spec
  {
    hide OperationsMove, ApprovalsMove, WriteOnce;
  }

  lemma OwnerStays(db: Db, after: Db, now: Time, a: Id, m: Id)
    requires Evolves(db, after, now) && OwnedBy(db.tasks, db.attempts, a, m)
    ensures OwnedBy(after.tasks, after.attempts, a, m)
  {
    hide OperationsMove, ApprovalsMove, MissionsMove, WriteOnce;
  }

  lemma ClaimStays(db: Db, after: Db, now: Time, c: Id)
    requires Evolves(db, after, now) && c in db.claims && ClaimGrounded(db, c)
    ensures c in after.claims && ClaimGrounded(after, c)
  {
    hide OperationsMove, ApprovalsMove, MissionsMove, TasksMove, AttemptsMove, Registered, WithinBudgets;
    OwnerStays(db, after, now, db.claims[c].attempt, db.claims[c].mission);
    IndexStays(db, after, now, db.claims[c].attempt);
    RegisteredStays(db, after, Key(db.claims[c].attempt, LogSlot), db.evidence[c][1].artifact);
  }

  lemma MetricStays(db: Db, after: Db, now: Time, a: Id)
    requires Evolves(db, after, now) && a in db.metrics && MetricGrounded(db, a)
    ensures a in after.metrics && MetricGrounded(after, a)
  {
    hide OperationsMove, ApprovalsMove, MissionsMove, TasksMove, AttemptsMove, Indexed, Registered;
    IndexStays(db, after, now, a);
    RegisteredStays(db, after, Key(a, MetricSlot), db.metrics[a].artifact);
  }

  lemma GateStaysOpen(db: Db, after: Db, now: Time, a: Id)
    requires Evolves(db, after, now) && GateOpen(db, a)
    ensures GateOpen(after, a)
  {
    hide OperationsMove, ApprovalsMove, MissionsMove, TasksMove, AttemptsMove, Indexed;
    IndexStays(db, after, now, a);
    var c :| ClaimFor(db, c, MissionOf(db, a));
    assert ClaimFor(after, c, MissionOf(after, a));
  }

  lemma BundleStays(db: Db, after: Db, now: Time, m: Id)
    requires Evolves(db, after, now) && m in db.bundles && BundleGrounded(db, m)
    ensures m in after.bundles && BundleGrounded(after, m)
  {
    hide OperationsMove, ApprovalsMove, MissionsMove, TasksMove, AttemptsMove, OwnedBy, GateOpen, Registered;
    OwnerStays(db, after, now, db.bundles[m].attempt, m);
    GateStaysOpen(db, after, now, db.bundles[m].attempt);
    RegisteredStays(db, after, Key(db.bundles[m].attempt, BundleSlot), db.bundles[m].artifact);
    BundleOperationStays(db, after, now, m);
  }

  lemma BundleOperationStays(db: Db, after: Db, now: Time, m: Id)
    requires Evolves(db, after, now) && m in db.bundles && BundleGrounded(db, m)
    ensures Key(db.bundles[m].attempt, BundleSlot) in after.keys
    ensures after.keys[Key(db.bundles[m].attempt, BundleSlot)] == db.bundles[m].operation
  {
    hide OperationsMove, ApprovalsMove, MissionsMove, TasksMove, AttemptsMove, OwnedBy, GateOpen;
  }

  lemma GroundedStays(db: Db, after: Db, now: Time)
    requires Grounded(db) && Evolves(db, after, now)
    ensures forall c :: c in db.claims ==> c in after.claims && ClaimGrounded(after, c)
    ensures forall a :: a in db.metrics ==> a in after.metrics && MetricGrounded(after, a)
    ensures forall m :: m in db.bundles ==> m in after.bundles && BundleGrounded(after, m)
  {
    hide Evolves, ClaimGrounded, MetricGrounded, BundleGrounded;
    forall c | c in db.claims ensures c in after.claims && ClaimGrounded(after, c) {
      ClaimStays(db, after, now, c);
    }
    forall a | a in db.metrics ensures a in after.metrics && MetricGrounded(after, a) {
      MetricStays(db, after, now, a);
    }
    forall m | m in db.bundles ensures m in after.bundles && BundleGrounded(after, m) {
      BundleStays(db, after, now, m);
    }
  }

  /** A transaction that adds no claim, metric or bundle keeps the gate invariant. */
  lemma GroundedKept(db: Db, after: Db, now: Time)
    requires Grounded(db) && Evolves(db, after, now) && SameEvidence(db, after) && after.bundles == db.bundles
    ensures Grounded(after)
  {
    hide Evolves, ClaimGrounded, MetricGrounded, BundleGrounded;
    GroundedStays(db, after, now);
  }

  // ---------------------------------------------------------------- the two transactions that add evidence

  /** The worker registered the metric and the log, and the metric passed, before this call. */
  predicate Proven(db: Db, token: Token, e: Evidence) {
    && Indexed(db, token.attempt)
    && e.validation.passed && InRange(e.validation.value, e.validation.expectation)
    && e.validation.expectation == db.missions[MissionOf(db, token.attempt)].spec.expectation
    && Registered(db, Key(token.attempt, MetricSlot), e.metric)
    && MeasuredIn(e.metric, e.validation.value, e.validation.expectation)
    && Registered(db, Key(token.attempt, LogSlot), e.log)
    && WithinBudgets(db.missions[MissionOf(db, token.attempt)].spec, e.log.sha, e.metric.sha)
  }

  lemma NewMetricGrounded(db: Db, after: Db, now: Time, token: Token, e: Evidence, metric: Id, claim: Id)
    requires RegistersResult(db, after, now, token, e, metric, claim) && Proven(db, token, e)
    ensures MetricGrounded(after, token.attempt) && ClaimGrounded(after, claim)
  {}

  lemma RegistersResultGrounded(db: Db, after: Db, now: Time, token: Token, e: Evidence, metric: Id, claim: Id)
    requires RegistersResult(db, after, now, token, e, metric, claim) && Proven(db, token, e)
    requires Grounded(db) && Evolves(db, after, now)
    ensures Grounded(after)
  {
    hide Evolves, ClaimGrounded, MetricGrounded, BundleGrounded, Proven;
    GroundedStays(db, after, now);
    NewMetricGrounded(db, after, now, token, e, metric, claim);
  }

  lemma NewBundleGrounded(db: Db, after: Db, now: Time, token: Token, artifact: ArtifactRef)
    requires FinishesMission(db, after, now, token, artifact) && Evolves(db, after, now)
    requires GateOpen(db, token.attempt) && Registered(db, Key(token.attempt, BundleSlot), artifact)
    ensures MissionOf(db, token.attempt) in after.bundles && BundleGrounded(after, MissionOf(db, token.attempt))
  {
    hide GateOpen, MissionsMove, TasksMove, AttemptsMove, OperationsMove, ApprovalsMove;
    GateStaysOpen(db, after, now, token.attempt);
  }

  lemma FinishesMissionGrounded(db: Db, after: Db, now: Time, token: Token, artifact: ArtifactRef)
    requires FinishesMission(db, after, now, token, artifact)
    requires Grounded(db) && Evolves(db, after, now)
    requires GateOpen(db, token.attempt) && Registered(db, Key(token.attempt, BundleSlot), artifact)
    ensures Grounded(after)
  {
    hide Evolves, ClaimGrounded, MetricGrounded, BundleGrounded, GateOpen, Registered;
    GroundedStays(db, after, now);
    NewBundleGrounded(db, after, now, token, artifact);
  }
}
