/** How approvals, missions, child attempts and candidate commits depend on each other. */
module Approvals {
  import opened Basics
  import opened Content
  import opened Lifecycle
  import opened Tables
  import opened Transactions
  import opened Evolution
  import opened Changes
  import opened Ledger
  import opened EvidenceGate

  // ---------------------------------------------------------------- one approval

  /** An approval names the repair task and mission of the attempt that asked, authorizes a
      candidate commit, and its patch is the registered artifact with the approved digest. An
      approved one was decided strictly before it expired. */
  predicate ApprovalSound(db: Db, p: Id)
    requires p in db.approvals
  {
    var row := db.approvals[p];
    && Indexed(db, row.attempt) && TaskOf(db, row.attempt) == row.task && MissionOf(db, row.attempt) == row.mission
    && db.tasks[row.task].kind == RepairCandidate
    && row.actionType == CandidateCommit && row.scope == CandidateCommit
    && row.patch.Some? && row.patch.value.sha == row.actionHash
    && Registered(db, Key(row.attempt, PatchSlot(row.actionHash)), row.patch.value)
    && row.status != ApprovalStatus.Expired
    && (row.status == ApprovalStatus.Approved ==> row.decidedAt.Some? && row.decidedAt.value < row.expiresAt)
  }

  ghost predicate ApprovalsSound(db: Db) {
    forall p :: p in db.approvals ==> ApprovalSound(db, p)
  }

  lemma ApprovalStaysSound(db: Db, after: Db, now: Time, p: Id)
    requires Evolves(db, after, now) && p in db.approvals && ApprovalSound(db, p)
    ensures p in after.approvals && ApprovalSound(after, p)
  {
    hide MissionsMove, AttemptsMove, OperationsMove, Registered;
    IndexStays(db, after, now, db.approvals[p].attempt);
    RegisteredStays(db, after, Key(db.approvals[p].attempt, PatchSlot(db.approvals[p].actionHash)),
                    db.approvals[p].patch.value);
  }

  lemma ApprovalsSoundKept(db: Db, after: Db, now: Time)
    requires ApprovalsSound(db) && Evolves(db, after, now) && after.approvals.Keys == db.approvals.Keys
    ensures ApprovalsSound(after)
  {
    hide Evolves, ApprovalSound;
    forall p | p in after.approvals ensures ApprovalSound(after, p) {
      ApprovalStaysSound(db, after, now, p);
    }
  }

  lemma NewApprovalSound(db: Db, after: Db, cfg: Config, now: Time, token: Token, patch: ArtifactRef, approval: Id)
    requires AsksApproval(db, after, cfg, now, token, patch, approval)
    requires Registered(db, Key(token.attempt, PatchSlot(patch.sha)), patch)
    ensures approval in after.approvals && ApprovalSound(after, approval)
  {}

  lemma AsksApprovalSound(db: Db, after: Db, cfg: Config, now: Time, token: Token, patch: ArtifactRef, approval: Id)
    requires AsksApproval(db, after, cfg, now, token, patch, approval)
    requires ApprovalsSound(db) && Evolves(db, after, now)
    requires Registered(db, Key(token.attempt, PatchSlot(patch.sha)), patch)
    ensures ApprovalsSound(after)
  {
    NewApprovalSound(db, after, cfg, now, token, patch, approval);
    hide Evolves, ApprovalSound;
    forall p | p in after.approvals ensures ApprovalSound(after, p) {
      if p != approval { ApprovalStaysSound(db, after, now, p); }
    }
  }

  // ---------------------------------------------------------------- missions and pending approvals

  /** The statuses in which a mission may have an undecided approval. */
  predicate Paused(status: MissionStatus) {
    status in {MissionStatus.WaitingApproval, MissionStatus.Failed, MissionStatus.Cancelling, MissionStatus.Cancelled}
  }

  predicate PendingFor(approvals: map<Id, Approval>, p: Id, m: Id) {
    p in approvals && approvals[p].status == ApprovalStatus.Pending && approvals[p].mission == m
  }

  predicate AtMostOne(approvals: map<Id, Approval>, p: Id, q: Id)
    requires p in approvals && q in approvals
  {
    PendingFor(approvals, p, approvals[q].mission) && PendingFor(approvals, q, approvals[q].mission) ==> p == q
  }

  predicate PendingPauses(missions: map<Id, Mission>, approvals: map<Id, Approval>, p: Id)
    requires p in approvals
  {
    approvals[p].mission in missions
    && (approvals[p].status == ApprovalStatus.Pending ==> Paused(missions[approvals[p].mission].status))
  }

  /** At most one pending approval a mission; exactly one while it waits; none while it is
      ready, running, verifying or completed. */
  ghost predicate Coupled(missions: map<Id, Mission>, approvals: map<Id, Approval>) {
    && (forall p, q :: p in approvals && q in approvals ==> AtMostOne(approvals, p, q))
    && (forall p :: p in approvals ==> PendingPauses(missions, approvals, p))
    && (forall m :: m in missions && missions[m].status == MissionStatus.WaitingApproval ==>
          exists p :: PendingFor(approvals, p, m))
  }

  /** No mission starts to wait, and none resumes. */
  ghost predicate PausesKept(missions: map<Id, Mission>, after: map<Id, Mission>) {
    && (forall m :: m in after && after[m].status == MissionStatus.WaitingApproval ==>
          m in missions && missions[m].status == MissionStatus.WaitingApproval)
    && (forall m :: m in missions ==> m in after && (Paused(missions[m].status) ==> Paused(after[m].status)))
  }

  lemma CoupledKept(missions: map<Id, Mission>, after: map<Id, Mission>, approvals: map<Id, Approval>)
    requires Coupled(missions, approvals) && PausesKept(missions, after)
    ensures Coupled(after, approvals)
  {
    forall p | p in approvals ensures PendingPauses(after, approvals, p) {
      assert PendingPauses(missions, approvals, p);
    }
  }

  /** One mission moved, and not into or out of a wait. */
  lemma MissionKeepsPauses(missions: map<Id, Mission>, m: Id, y: Mission)
    requires m in missions && MissionMoves(missions[m], y)
    requires y.status == missions[m].status || y.status == MissionStatus.Failed || y.status == MissionStatus.Cancelling
             || y.status == MissionStatus.Cancelled || y.status == MissionStatus.Completed
             || y.status == MissionStatus.Verifying || missions[m].status == MissionStatus.Ready
    ensures PausesKept(missions, missions[m := y])
  {}

  lemma AsksApprovalCoupled(db: Db, after: Db, cfg: Config, now: Time, token: Token, patch: ArtifactRef, approval: Id)
    requires AsksApproval(db, after, cfg, now, token, patch, approval) && Coupled(db.missions, db.approvals)
    ensures Coupled(after.missions, after.approvals)
  {
    var mission := MissionOf(db, token.attempt);
    forall p, q | p in after.approvals && q in after.approvals ensures AtMostOne(after.approvals, p, q) {
      if p in db.approvals { assert PendingPauses(db.missions, db.approvals, p); }
      if q in db.approvals { assert PendingPauses(db.missions, db.approvals, q); }
      if p in db.approvals && q in db.approvals { assert AtMostOne(db.approvals, p, q); }
    }
    forall p | p in after.approvals ensures PendingPauses(after.missions, after.approvals, p) {
      if p in db.approvals { assert PendingPauses(db.missions, db.approvals, p); }
    }
    forall m | m in after.missions && after.missions[m].status == MissionStatus.WaitingApproval
      ensures exists p :: PendingFor(after.approvals, p, m)
    {
      if m == mission {
        assert PendingFor(after.approvals, approval, m);
      } else {
        var p :| PendingFor(db.approvals, p, m);
        assert PendingFor(after.approvals, p, m);
      }
    }
  }

  /** Deciding an approval: the decided one was the only pending one of its mission. */
  lemma DecidedCoupled(db: Db, after: Db, approval: Id)
    requires Coupled(db.missions, db.approvals)
    requires approval in db.approvals && approval in after.approvals
    requires db.approvals[approval].status == ApprovalStatus.Pending
    requires after.approvals == db.approvals[approval := after.approvals[approval]]
    requires after.approvals[approval].mission == db.approvals[approval].mission
    requires after.approvals[approval].status != ApprovalStatus.Pending
    requires db.approvals[approval].mission in after.missions
    requires after.missions ==
        db.missions[db.approvals[approval].mission := after.missions[db.approvals[approval].mission]]
    requires after.missions[db.approvals[approval].mission].status != MissionStatus.WaitingApproval
    ensures Coupled(after.missions, after.approvals)
  {
    var mission := db.approvals[approval].mission;
    forall p, q | p in after.approvals && q in after.approvals ensures AtMostOne(after.approvals, p, q) {
      assert AtMostOne(db.approvals, p, q);
    }
    forall p | p in after.approvals ensures PendingPauses(after.missions, after.approvals, p) {
      assert PendingPauses(db.missions, db.approvals, p) && AtMostOne(db.approvals, p, approval);
    }
    forall m | m in after.missions && after.missions[m].status == MissionStatus.WaitingApproval
      ensures exists p :: PendingFor(after.approvals, p, m)
    {
      var p :| PendingFor(db.approvals, p, m);
      assert PendingFor(after.approvals, p, m);
    }
  }

  lemma GrantsApprovalCoupled(db: Db, after: Db, now: Time, approval: Id, decider: Id, child: Id, event: Id)
    requires GrantsApproval(db, after, now, approval, decider, child, event) && Coupled(db.missions, db.approvals)
    ensures Coupled(after.missions, after.approvals)
  {
    hide Coupled;
    DecidedCoupled(db, after, approval);
  }

  lemma DeniesApprovalCoupled(db: Db, after: Db, now: Time, approval: Id, decider: Id)
    requires DeniesApproval(db, after, now, approval, decider) && Coupled(db.missions, db.approvals)
    ensures Coupled(after.missions, after.approvals)
  {
    hide Coupled;
    DecidedCoupled(db, after, approval);
  }

  // ---------------------------------------------------------------- children of approved attempts

  function Children(attempts: map<Id, Attempt>, a: Id): set<Id> {
    set c | c in attempts && attempts[c].parent == Some(a)
  }

  function Grants(approvals: map<Id, Approval>, a: Id): set<Id> {
    set p | p in approvals && approvals[p].attempt == a && approvals[p].status == ApprovalStatus.Approved
  }

  /** As many attempts resume from `a` as approvals that `a` asked for were granted. */
  predicate ChildrenCounted(attempts: map<Id, Attempt>, approvals: map<Id, Approval>, a: Id) {
    |Children(attempts, a)| == |Grants(approvals, a)|
  }

  function Resumed(attempts: map<Id, Attempt>): set<Id> {
    set c | c in attempts && attempts[c].parent.Some?
  }

  function Granted(approvals: map<Id, Approval>): set<Id> {
    set p | p in approvals && approvals[p].status == ApprovalStatus.Approved
  }

  /** ... and as many attempts resume from any parent as approvals were granted at all. */
  ghost predicate AllChildrenCounted(attempts: map<Id, Attempt>, approvals: map<Id, Approval>) {
    (forall a: Id :: ChildrenCounted(attempts, approvals, a)) && |Resumed(attempts)| == |Granted(approvals)|
  }

  /** A child runs the task of its parent. */
  ghost predicate ParentsLinked(attempts: map<Id, Attempt>) {
    forall c :: c in attempts && attempts[c].parent.Some? ==>
      attempts[c].parent.value in attempts && attempts[attempts[c].parent.value].task == attempts[c].task
  }

  ghost predicate NoGrant(db: Db, after: Db) {
    && (forall c :: c in after.attempts && c !in db.attempts ==> after.attempts[c].parent == None)
    && (forall p :: p in after.approvals && after.approvals[p].status == ApprovalStatus.Approved ==>
          p in db.approvals && db.approvals[p].status == ApprovalStatus.Approved)
  }

  lemma FamilyStays(db: Db, after: Db, now: Time, a: Id)
    requires AttemptsMove(db.attempts, after.attempts, now) && ApprovalsMove(db.approvals, after.approvals, now)
    requires NoGrant(db, after)
    ensures Children(after.attempts, a) == Children(db.attempts, a)
    ensures Grants(after.approvals, a) == Grants(db.approvals, a)
  {}

  lemma ChildrenKept(db: Db, after: Db, now: Time)
    requires AllChildrenCounted(db.attempts, db.approvals) && ParentsLinked(db.attempts)
    requires AttemptsMove(db.attempts, after.attempts, now) && ApprovalsMove(db.approvals, after.approvals, now)
    requires NoGrant(db, after)
    ensures AllChildrenCounted(after.attempts, after.approvals) && ParentsLinked(after.attempts)
  {
    forall a: Id ensures ChildrenCounted(after.attempts, after.approvals, a) {
      FamilyStays(db, after, now, a);
      assert ChildrenCounted(db.attempts, db.approvals, a);
    }
    FamiliesStay(db, after, now);
  }

  lemma FamiliesStay(db: Db, after: Db, now: Time)
    requires AttemptsMove(db.attempts, after.attempts, now) && ApprovalsMove(db.approvals, after.approvals, now)
    requires NoGrant(db, after)
    ensures Resumed(after.attempts) == Resumed(db.attempts)
    ensures Granted(after.approvals) == Granted(db.approvals)
  {}

  lemma GrantedFamily(db: Db, after: Db, now: Time, approval: Id, decider: Id, child: Id, event: Id, a: Id)
    requires GrantsApproval(db, after, now, approval, decider, child, event)
    requires ChildrenCounted(db.attempts, db.approvals, a)
    ensures ChildrenCounted(after.attempts, after.approvals, a)
  {
    NewChild(db.attempts, child, after.attempts[child], a);
    NewGrant(db.approvals, approval, after.approvals[approval], a);
  }

  lemma NewChild(attempts: map<Id, Attempt>, child: Id, row: Attempt, a: Id)
    requires child !in attempts
    ensures |Children(attempts[child := row], a)| == |Children(attempts, a)| + if row.parent == Some(a) then 1 else 0
  {
    assert Children(attempts[child := row], a) == Children(attempts, a) + if row.parent == Some(a) then {child} else {};
  }

  lemma NewGrant(approvals: map<Id, Approval>, p: Id, row: Approval, a: Id)
    requires p in approvals && approvals[p].status == ApprovalStatus.Pending
    requires row.status == ApprovalStatus.Approved && row.attempt == approvals[p].attempt
    ensures |Grants(approvals[p := row], a)| == |Grants(approvals, a)| + if row.attempt == a then 1 else 0
  {
    assert Grants(approvals[p := row], a) == Grants(approvals, a) + if row.attempt == a then {p} else {};
  }

  lemma GrantsApprovalParents(db: Db, after: Db, now: Time, approval: Id, decider: Id, child: Id, event: Id)
    requires GrantsApproval(db, after, now, approval, decider, child, event)
    requires ParentsLinked(db.attempts) && ApprovalSound(db, approval)
    ensures ParentsLinked(after.attempts)
  {}

  lemma GrantsApprovalChildren(db: Db, after: Db, now: Time, approval: Id, decider: Id, child: Id, event: Id)
    requires GrantsApproval(db, after, now, approval, decider, child, event)
    requires AllChildrenCounted(db.attempts, db.approvals)
    ensures AllChildrenCounted(after.attempts, after.approvals)
  {
    hide ChildrenCounted;
    forall a: Id ensures ChildrenCounted(after.attempts, after.approvals, a) {
      assert ChildrenCounted(db.attempts, db.approvals, a);
      GrantedFamily(db, after, now, approval, decider, child, event, a);
    }
    GrantedFamilies(db, after, now, approval, decider, child, event);
  }

  lemma GrantedFamilies(db: Db, after: Db, now: Time, approval: Id, decider: Id, child: Id, event: Id)
    requires GrantsApproval(db, after, now, approval, decider, child, event)
    ensures |Resumed(after.attempts)| == |Resumed(db.attempts)| + 1
    ensures |Granted(after.approvals)| == |Granted(db.approvals)| + 1
  {
    assert Resumed(after.attempts) == Resumed(db.attempts) + {child};
    assert Granted(after.approvals) == Granted(db.approvals) + {approval};
  }

  // ---------------------------------------------------------------- candidate commits

  /** Approval `p` authorizes a candidate commit of `input` by attempt `a`: it is approved, `a`
      resumes from the attempt that asked, and the approved digest is the input. */
  predicate Authorizes(db: Db, p: Id, a: Id, input: Digest) {
    && p in db.approvals && db.approvals[p].status == ApprovalStatus.Approved
    && Indexed(db, a)
    && db.attempts[a].parent == Some(db.approvals[p].attempt)
    && db.approvals[p].task == TaskOf(db, a) && db.approvals[p].mission == MissionOf(db, a)
    && db.approvals[p].actionHash == input
  }

  ghost predicate CandidateAuthorized(db: Db, o: Id)
    requires o in db.operations
  {
    db.operations[o].kind == CandidateCommit ==>
        exists p :: Authorizes(db, p, db.operations[o].attempt, db.operations[o].input)
  }

  ghost predicate CandidatesAuthorized(db: Db) {
    forall o :: o in db.operations ==> CandidateAuthorized(db, o)
  }

  lemma AuthorizationStays(db: Db, after: Db, now: Time, p: Id, a: Id, input: Digest)
    requires Evolves(db, after, now) && Authorizes(db, p, a, input)
    ensures Authorizes(after, p, a, input)
  {
    hide MissionsMove, TasksMove, OperationsMove, WriteOnce;
    IndexStays(db, after, now, a);
  }

  lemma CandidateStaysAuthorized(db: Db, after: Db, now: Time, o: Id)
    requires Evolves(db, after, now) && o in db.operations && o in after.operations && CandidateAuthorized(db, o)
    requires SameIdentity(db.operations[o], after.operations[o])
    ensures CandidateAuthorized(after, o)
  {
    hide Evolves, Authorizes;
    if after.operations[o].kind == CandidateCommit {
      var p :| Authorizes(db, p, db.operations[o].attempt, db.operations[o].input);
      AuthorizationStays(db, after, now, p, db.operations[o].attempt, db.operations[o].input);
    }
  }

  lemma IdentitiesStay(db: Db, after: Db, now: Time)
    requires Evolves(db, after, now)
    ensures forall o :: o in db.operations ==>
      o in after.operations && SameIdentity(db.operations[o], after.operations[o])
  {
    hide MissionsMove, TasksMove, AttemptsMove, ApprovalsMove, WriteOnce;
  }

  lemma CandidatesKept(db: Db, after: Db, now: Time)
    requires CandidatesAuthorized(db) && Evolves(db, after, now) && after.operations.Keys == db.operations.Keys
    ensures CandidatesAuthorized(after)
  {
    hide Evolves, SameIdentity, CandidateAuthorized;
    IdentitiesStay(db, after, now);
    forall o | o in after.operations ensures CandidateAuthorized(after, o) {
      CandidateStaysAuthorized(db, after, now, o);
    }
  }

  lemma AddsOperationAuthorized(db: Db, after: Db, now: Time, token: Token, id: Id, o: Operation)
    requires AddsOperation(db, after, now, token, id, o)
    requires CandidatesAuthorized(db) && Evolves(db, after, now)
    requires o.kind == CandidateCommit ==> exists p :: Authorizes(db, p, o.attempt, o.input)
    ensures CandidatesAuthorized(after)
  {
    hide Evolves, SameIdentity, Authorizes;
    IdentitiesStay(db, after, now);
    forall x | x in after.operations ensures CandidateAuthorized(after, x) {
      if x != id {
        CandidateStaysAuthorized(db, after, now, x);
      } else if o.kind == CandidateCommit {
        var p :| Authorizes(db, p, o.attempt, o.input);
        AuthorizationStays(db, after, now, p, o.attempt, o.input);
      }
    }
  }
}
