/** The durable tables that one unit of work reads and writes, as one value. */
module Tables {
  import opened Basics
  import opened Content
  import opened JsonPointer
  import opened Lifecycle

  datatype Registration = Registration(
    artifact: ArtifactRef, kind: ArtifactKind, attempt: Id, operation: Id, createdAt: Time)

  datatype MetricRecord = MetricRecord(
    id: Id, attempt: Id, artifact: ArtifactRef, expectation: Expectation, value: real,
    commit: string, command: seq<string>, environment: string, dataset: string)
  {
    /** The checks of the record's constructor; its value is finite by type. */
    predicate Valid() {
      |commit| == 40 && |dataset| == 64 && command != [] && environment != ""
    }
  }

  datatype ClaimStatus = Candidate | Verified | Conflicted | Unsupported

  datatype Claim = Claim(mission: Id, attempt: Id, status: ClaimStatus, value: real, unit: string, createdAt: Time)

  datatype EvidenceType = MetricArtifact | LogArtifact | EnvironmentManifest | DatasetManifest

  datatype EvidenceLink = EvidenceLink(claim: Id, kind: EvidenceType, artifact: ArtifactRef)

  datatype Topic = BaselineReady | RepairReady

  datatype OutboxEvent = OutboxEvent(id: Id, topic: Topic, attempt: Id, occurredAt: Time)

  datatype AuditKind =
    | MissionCreated | AttemptClaimed | CancellationAsked | ApprovalRejected | ApprovalApproved
    | RecoveryRequested | MetricVerified | RepairScheduled | MissionCompleted | ApprovalRequested
    | CandidateCommitted | MissionCancelled

  /** An audit row: the aggregate it is about, what happened, and when. */
  datatype Audit = Audit(subject: Id, kind: AuditKind, at: Time)

  datatype Db = Db(
    missions: map<Id, Mission>,
    tasks: map<Id, Task>,
    attempts: map<Id, Attempt>,
    operations: map<Id, Operation>,
    keys: map<Key, Id>,
    artifacts: map<Id, Registration>,
    metrics: map<Id, MetricRecord>,
    claims: map<Id, Claim>,
    evidence: map<Id, seq<EvidenceLink>>,
    bundles: map<Id, Registration>,
    approvals: map<Id, Approval>,
    audits: seq<Audit>,
    outbox: seq<OutboxEvent>,
    published: map<Id, Time>)

  const EmptyDb := Db(map[], map[], map[], map[], map[], map[], map[], map[], map[], map[], map[], [], [], map[])

  function TopicOf(kind: TaskType): Topic {
    match kind case BaselineReproduction => BaselineReady case RepairCandidate => RepairReady
  }

  function ClaimsOf(claims: map<Id, Claim>, mission: Id): set<Id> {
    set c | c in claims && claims[c].mission == mission
  }

  function EvidenceOf(db: Db, claim: Id): seq<EvidenceLink> {
    if claim in db.evidence then db.evidence[claim] else []
  }

  function Unpublished(outbox: seq<OutboxEvent>, published: map<Id, Time>): (events: seq<OutboxEvent>)
    ensures forall e <- events :: e in outbox && e.id !in published
  {
    if outbox == [] then []
    else (if outbox[0].id in published then [] else [outbox[0]]) + Unpublished(outbox[1..], published)
  }

  function Prefix<T>(s: seq<T>, limit: nat): seq<T> {
    if |s| <= limit then s else s[..limit]
  }

  // ---------------------------------------------------------------- stale operations

  predicate IsStale(o: Operation, before: Time) {
    o.status in {OperationStatus.Prepared, OperationStatus.Executing} && o.updatedAt <= before
  }

  /** The sort key of the stale query: time of the last update, then operation id. */
  predicate Older(ops: map<Id, Operation>, a: Id, b: Id)
    requires a in ops && b in ops
  {
    ops[a].updatedAt < ops[b].updatedAt || (ops[a].updatedAt == ops[b].updatedAt && a < b)
  }

  /** `a` was updated before `b`, or at the same time and has the smaller id. */
  predicate Precedes(ops: map<Id, Operation>, a: Id, b: Id) {
    && a in ops && b in ops && a != b
    && ops[a].updatedAt <= ops[b].updatedAt && (ops[a].updatedAt == ops[b].updatedAt ==> a < b)
  }

  function StaleIds(ops: map<Id, Operation>, before: Time): set<Id> {
    set o | o in ops && IsStale(ops[o], before)
  }

  lemma {:induction false} OldestExists(ops: map<Id, Operation>, candidates: set<Id>)
    requires candidates != {} && candidates <= ops.Keys
    ensures exists first :: first in candidates && BeforeAll(ops, first, candidates)
    decreases |candidates|
  {
    var x :| x in candidates;
    if candidates == {x} {
      assert BeforeAll(ops, x, candidates);
    } else {
      var rest := candidates - {x};
      OldestExists(ops, rest);
      var y :| y in rest && BeforeAll(ops, y, rest);
      var first := if Older(ops, x, y) then x else y;
      forall o | o in candidates && o != first ensures Older(ops, first, o) {
        assert o == x || o == y || (o in rest && Older(ops, y, o));
      }
      assert BeforeAll(ops, first, candidates);
    }
  }

  predicate BeforeAll(ops: map<Id, Operation>, first: Id, candidates: set<Id>)
    requires first in ops && candidates <= ops.Keys
  {
    forall o :: o in candidates && o != first ==> Older(ops, first, o)
  }

  /** The oldest of a set of operations; the sort key makes it unique. */
  function Oldest(ops: map<Id, Operation>, candidates: set<Id>): (first: Id)
    requires candidates != {} && candidates <= ops.Keys
    ensures first in candidates && BeforeAll(ops, first, candidates)
  {
    OldestExists(ops, candidates);
    var first :| first in candidates && BeforeAll(ops, first, candidates);
    first
  }

  /** `sorted(...)[:limit]`: the `limit` oldest candidates, oldest first. */
  function OldestFirst(ops: map<Id, Operation>, candidates: set<Id>, limit: nat): (ids: seq<Id>)
    requires candidates <= ops.Keys
    ensures forall i :: 0 <= i < |ids| ==> ids[i] in candidates
    ensures forall i, j :: 0 <= i < j < |ids| ==> ids[i] != ids[j] && Precedes(ops, ids[i], ids[j])
    ensures forall i, o :: 0 <= i < |ids| && o in candidates && o !in ids ==> Precedes(ops, ids[i], o)
    ensures |ids| == if |candidates| <= limit then |candidates| else limit
    decreases limit
  {
    if limit == 0 || candidates == {} then []
    else
      var first := Oldest(ops, candidates);
      [first] + OldestFirst(ops, candidates - {first}, limit - 1)
  }
}
