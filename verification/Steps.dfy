/** Every step of the running system keeps its invariant. */
module Steps {
  import opened Basics
  import opened Content
  import opened JsonPointer
  import opened Lifecycle
  import opened Tables
  import opened Transactions
  import opened Evolution
  import opened Changes
  import opened Completion
  import opened Ledger
  import opened EvidenceGate
  import opened Approvals
  import opened Routing
  import opened Leases
  import opened Recovery
  import opened Cancellation
  import opened Invariant
  import opened Runtime
  import opened Sessions
  import opened Safety
  import opened Effects

  // ---------------------------------------------------------------- what a safe world says about its tables

  lemma SafeKeys(w: World)
    requires Safe(w)
    ensures KeyIndex(w.db.operations, w.db.keys) && OperationsKinded(w.db.operations)
    ensures Keyed(w.db.operations, w.db.keys, w.db.attempts)
  {
    assert PartHolds(TablesAndEffects, w);
    SoundIff(w.db, w.blobs, w.sent, w.stops, w.cfg.staleAfter, w.now);
    hide WorkSound, EffectsSound, Grounded, ApprovalsSound;
    hide CandidatesAuthorized, KeyIndex, OperationsKinded, OperationsOwned;
  }

  lemma SafeWork(w: World)
    requires Safe(w)
    ensures DbWorkSound(w.db) && RecordsSound(w.db)
    ensures EffectsSound(w.db, w.blobs, w.sent, w.stops, w.cfg.staleAfter, w.now)
  {
    hide DbWorkSound, RecordsSound, EffectsSound;
    assert PartHolds(TablesAndEffects, w);
    SoundIff(w.db, w.blobs, w.sent, w.stops, w.cfg.staleAfter, w.now);
  }

  lemma SafeRows(w: World)
    requires Safe(w)
    ensures RowsLinked(w.db.missions, w.db.tasks, w.db.attempts)
  {
    SafeWork(w);
    hide Safe, RecordsSound, EffectsSound, RowsLinked, TaskShape, Coupled, AllChildrenCounted, ParentsLinked;
    hide MissionSettled, BundleSettled, TaskSettled, AttemptSettled;
  }

  lemma SafeApprovals(w: World)
    requires Safe(w)
    ensures ApprovalsSound(w.db) && CandidatesAuthorized(w.db)
  {
    SafeWork(w);
    hide Safe, DbWorkSound, EffectsSound, Keyed, Grounded, ApprovalsSound, CandidatesAuthorized;
  }

  lemma SafeEffects(w: World)
    requires Safe(w)
    ensures Settled(w.db.operations, w.db.artifacts, w.blobs) && Delivered(w.db, w.sent)
  {
    SafeWork(w);
    hide Safe, DbWorkSound, RecordsSound, Settled, Delivered, CancelledSound, AllPaced;
  }

  // ---------------------------------------------------------------- calls of one transaction

  lemma SessionsLater(w: World, v: World)
    requires SessionsOk(w) && w.now <= v.now && v.db == w.db && v.sessions == w.sessions
    requires Extends(w.blobs, v.blobs) && w.sent <= v.sent && w.stops <= v.stops
    ensures SessionsOk(v)
  {
    hide SessionOk, Extends;
    forall s | s in v.sessions ensures SessionOk(v.db, v.blobs, v.sent, v.stops, v.now, v.sessions[s]) {
      SessionLater(w.db, w.now, v.now, w.blobs, v.blobs, w.sent, v.sent, w.stops, v.stops, w.sessions[s]);
    }
  }

  lemma LeasesLater(leases: map<Id, seq<Lease>>, attempts: map<Id, Attempt>, now: Time, later: Time)
    requires LeasesOk(leases, attempts, now) && now <= later
    ensures LeasesOk(leases, attempts, later)
  {
    hide LeaseLog;
    forall a | a in attempts ensures LeaseLog(leases[a], attempts[a], later) {
      LeaseLogLater(leases[a], attempts[a], now, later);
    }
  }

  lemma TickGood(w: World, elapsed: nat)
    requires Safe(w)
    ensures Good(w, w.(now := w.now + elapsed))
  {
    hide DbWorkSound, RecordsSound, Settled, Delivered, CancelledSound, AllPaced, BlobsNamed, HandedOk, ProposalsOk;
    hide Evolves, Disciplined, SessionsOk, LeasesOk, Extends, Safe, Advances, Sound;
    var v := w.(now := w.now + elapsed);
    SafeIff(w);
    SafeIff(v);
    SoundIff(w.db, w.blobs, w.sent, w.stops, w.cfg.staleAfter, w.now);
    SoundIff(v.db, v.blobs, v.sent, v.stops, v.cfg.staleAfter, v.now);
    AdvancesIff(w, v);
    Unmoved(w.db, w.now);
    SameLedgerDisciplined(w.db, w.db, w.now);
    PacedLater(w.db, w.cfg.staleAfter, w.now, v.now);
    ExtendsItself(w.blobs);
    ExtendsItself(w.proposals);
    SessionsLater(w, v);
    LeasesLater(w.leases, w.db.attempts, w.now, v.now);
  }

  lemma CreateGood(w: World, mission: Id, task: Id, attempt: Id, event: Id, spec: Spec, proposal: Option<Id>)
    requires Safe(w)
    ensures Good(w, Create(w, mission, task, attempt, event, spec, proposal))
  {
    hide Safe, Good, CreateMission, Opens, Commit, FreshEvent;
    StaysGood(w);
    if mission !in w.db.missions && task !in w.db.tasks && attempt !in w.db.attempts && FreshEvent(w.db.outbox, event) {
      var r := CreateMission(w.db, w.now, mission, task, attempt, event, spec, proposal);
      if r.Ok? {
        CreateChange(w.db, w.now, mission, task, attempt, event, spec, proposal);
        OpensGood(w, r.value, mission, task, attempt, event);
      }
    }
  }

  lemma ClaimGood(w: World, attempt: Id, owner: Id)
    requires Safe(w)
    ensures Good(w, ClaimLease(w, attempt, owner))
  {
    hide Safe, Good, ClaimAttempt, TakesLease, Commit;
    StaysGood(w);
    SafeParts(w);
    var r := ClaimAttempt(w.db, w.cfg, w.now, attempt, owner);
    if r.Ok? {
      ClaimChange(w.db, w.cfg, w.now, attempt, owner);
      TakesLeaseGood(w, r.value.0, attempt, owner, w.now + w.cfg.lease);
    }
  }

  lemma RenewGood(w: World, token: Token)
    requires Safe(w)
    ensures Good(w, Renew(w, token))
  {
    hide Safe, Good, RenewLease, RenewsLease, Commit;
    StaysGood(w);
    SafeParts(w);
    var r := RenewLease(w.db, w.cfg, w.now, token);
    if r.Ok? {
      RenewChange(w.db, w.cfg, w.now, token);
      RenewsLeaseGood(w, r.value.0, token, w.now + w.cfg.lease);
    }
  }

  lemma AskCancelGood(w: World, mission: Id)
    requires Safe(w)
    ensures Good(w, AskCancel(w, mission))
  {
    hide Safe, Good, RequestCancellation, AsksCancellation, Commit;
    StaysGood(w);
    var r := RequestCancellation(w.db, w.now, mission);
    if r.Ok? {
      RequestCancellationChange(w.db, w.now, mission);
      AsksCancellationGood(w, r.value, mission);
    }
  }

  lemma DecideGood(w: World, approval: Id, approved: bool, decider: Id, child: Id, event: Id)
    requires Safe(w)
    ensures Good(w, Decide(w, approval, approved, decider, child, event))
  {
    hide Safe, Good, ResolveApproval, GrantsApproval, DeniesApproval, Commit, FreshEvent;
    StaysGood(w);
    if child !in w.db.attempts && FreshEvent(w.db.outbox, event) {
      var r := ResolveApproval(w.db, w.now, approval, approved, decider, child, event);
      if r.Ok? {
        if approved {
          ApproveChange(w.db, w.now, approval, decider, child, event);
          GrantsApprovalGood(w, r.value, approval, decider, child, event);
        } else {
          RejectChange(w.db, w.now, approval, decider, child, event);
          DeniesApprovalGood(w, r.value, approval, decider);
        }
      }
    }
  }

  lemma OperationsIndexed(w: World)
    requires Safe(w)
    ensures forall o :: o in w.db.operations ==> Indexed(w.db, w.db.operations[o].attempt)
  {
    SafeKeys(w);
    SafeRows(w);
    hide Safe, KeyIndex, OperationsKinded;
  }

  lemma ReconcileGood(w: World, limit: int, event: Id)
    requires Safe(w)
    ensures Good(w, Reconcile(w, limit, event))
  {
    hide Safe, Good, RecoversOperations, Commit, Recover, Indexed, IsStale, Distinct;
    StaysGood(w);
    var r := ReconcileStale(w.db, w.cfg, w.now, limit, event);
    if (forall e <- w.db.outbox :: e.id < event) && r.Ok? {
      OperationsIndexed(w);
      ReconcileChange(w.db, w.cfg, w.now, limit, event);
      StalePicks(w.db.operations, w.now - w.cfg.staleAfter, limit);
      RecoversOperationsGood(w, r.value,
        OldestFirst(w.db.operations, StaleIds(w.db.operations, w.now - w.cfg.staleAfter), limit), event);
    }
  }

  // ---------------------------------------------------------------- preparing and finishing operations

  lemma PreparesGood(w: World, after: Db, token: Token, slot: Slot, id: Id)
    requires Safe(w) && Prepares(w.db, after, w.now, token, Key(token.attempt, slot), id)
    requires InProgress(after, token, slot)
    requires slot == CandidateSlot && OperationFor(w.db, Key(token.attempt, slot)).None? ==>
               exists p :: Authorizes(w.db, p, token.attempt, after.operations[id].input)
    ensures Good(w, Commit(w, after))
  {
    if OperationFor(w.db, Key(token.attempt, slot)).None? {
      assert after.operations[id].kind == KindOf(slot) && after.operations[id].attempt == token.attempt by {
        hide Safe, InProgress, Authorizes;
      }
      hide Safe, Good, AddsOperation, Commit, InProgress, Authorizes;
      AddsOperationGood(w, after, token, id, after.operations[id]);
    } else if after == w.db {
      hide Safe, Good, Commit, AdvancesOperation, InProgress;
      CommitNothing(w);
    } else {
      AdvancedEpoch(w.db, after, w.now, token, slot);
      hide Safe, Good, AdvancesOperation, Commit, InProgress, Authorizes;
      AdvancesOperationGood(w, after, token, w.db.keys[Key(token.attempt, slot)]);
    }
  }

  lemma AdvancedEpoch(db: Db, after: Db, now: Time, token: Token, slot: Slot)
    requires Key(token.attempt, slot) in db.keys
    requires AdvancesOperation(db, after, now, token, db.keys[Key(token.attempt, slot)])
    requires InProgress(after, token, slot)
    ensures db.operations[db.keys[Key(token.attempt, slot)]].epoch == token.epoch
    ensures db.operations[db.keys[Key(token.attempt, slot)]].attempt == token.attempt
  {}

  lemma AdoptedInProgress(db: Db, token: Token, slot: Slot, input: Digest)
    requires KeyIndex(db.operations, db.keys) && OperationsKinded(db.operations)
    requires var found := Adopt(db, Key(token.attempt, slot), KindOf(slot), input, token.epoch);
      found.Ok? && found.value.Some?
    ensures InProgressFor(db, token, slot, input)
  {}

  lemma AddedInProgress(db: Db, token: Token, slot: Slot, id: Id, o: Operation)
    requires o.key == Key(token.attempt, slot) && o.attempt == token.attempt && o.epoch == token.epoch
    requires o.kind == KindOf(slot)
    ensures InProgressFor(AddOperation(db, id, o), token, slot, o.input)
  {}

  lemma WorktreePreparedAfter(db: Db, now: Time, token: Token, newId: Id)
    requires KeyIndex(db.operations, db.keys) && OperationsKinded(db.operations) && newId !in db.operations
    requires PrepareWorktree(db, now, token, newId).Ok?
    ensures InProgress(PrepareWorktree(db, now, token, newId).value, token, BaselineWorktree)
  {
    hide WorktreeInput, KeyIndex, OperationsKinded, Adopt, AddOperation, InProgress, Attempt.CheckLease;
    var input := WorktreeInput(Load(db, token.attempt).value.mission.spec);
    var key := Key(token.attempt, BaselineWorktree);
    if Adopt(db, key, WorktreeCreate, input, token.epoch).value.Some? {
      AdoptedInProgress(db, token, BaselineWorktree, input);
    } else {
      AddedInProgress(db, token, BaselineWorktree, newId,
                      NewOperation(key, WorktreeCreate, input, token.epoch, BaselineTree, now));
    }
  }

  lemma WorktreeBeginGood(w: World, s: Id, token: Token, newId: Id)
    requires Safe(w)
    ensures Good(w, WorktreeBegin(w, s, token, newId))
  {
    hide Safe, Good, PrepareWorktree, Prepares, InProgress, Commit, KeyIndex, OperationsKinded;
    StaysGood(w);
    var r := PrepareWorktree(w.db, w.now, token, newId);
    if s !in w.sessions && newId !in w.db.operations && r.Ok? {
      SafeKeys(w);
      PrepareWorktreeChange(w.db, w.now, token, newId);
      WorktreePreparedAfter(w.db, w.now, token, newId);
      PreparesGood(w, r.value, token, BaselineWorktree, newId);
      CommitFields(w, r.value);
      GoGood(w, Commit(w, r.value), s, WorktreePrepared(token));
    }
  }

  lemma CommitFields(w: World, db: Db)
    ensures var v := Commit(w, db);
      v.db == db && v.blobs == w.blobs && v.sent == w.sent && v.stops == w.stops && v.now == w.now
          && v.sessions == w.sessions
  {}

  /** Finishing an operation, for a token of the epoch that the operation was prepared in. */
  lemma FinishesGood(w: World, after: Db, token: Token, later: Token, slot: Slot)
    requires Safe(w) && InProgress(w.db, token, slot) && later.attempt == token.attempt && later.epoch == token.epoch
    requires after == w.db || AdvancesOperation(w.db, after, w.now, later, w.db.keys[Key(token.attempt, slot)])
    ensures Good(w, Commit(w, after))
  {
    if after == w.db {
      hide Safe, Good, Commit, AdvancesOperation, InProgress;
      CommitNothing(w);
    } else {
      hide Safe, Good, AdvancesOperation, Commit;
      AdvancesOperationGood(w, after, later, w.db.keys[Key(token.attempt, slot)]);
    }
  }

  lemma WorktreeFinishGood(w: World, s: Id, path: string)
    requires Safe(w)
    ensures Good(w, WorktreeFinish(w, s, path))
  {
    hide Safe, Good, FinishWorktree, AdvancesOperation, InProgress, Commit, KeyIndex, OperationsKinded;
    StaysGood(w);
    EndGood(w, w, s);
    if s in w.sessions && w.sessions[s].WorktreePrepared? {
      var token := w.sessions[s].token;
      SessionIsOk(w, s);
      SafeKeys(w);
      var r := FinishWorktree(w.db, w.now, token, path);
      if r.Ok? {
        FinishWorktreeChange(w.db, w.now, token, path);
        FinishesGood(w, r.value, token, token, BaselineWorktree);
        EndGood(w, Commit(w, r.value), s);
      }
    }
  }

  lemma BegunInProgress(db: Db, now: Time, token: Token, slot: Slot)
    requires InProgress(db, token, slot)
    requires db.operations[db.keys[Key(token.attempt, slot)]].Begin(now).Ok?
    ensures var id := db.keys[Key(token.attempt, slot)];
      InProgress(db.(operations := db.operations[id := db.operations[id].Begin(now).value]), token, slot)
  {}

  lemma SandboxPreparedAfter(db: Db, now: Time, token: Token, path: string, newId: Id)
    requires KeyIndex(db.operations, db.keys) && OperationsKinded(db.operations) && newId !in db.operations
    requires PrepareSandbox(db, now, token, path, newId).Ok?
    ensures InProgress(PrepareSandbox(db, now, token, path, newId).value.0, token, Sandbox)
  {
    hide SandboxInput, KeyIndex, OperationsKinded, AddOperation, Attempt.CheckLease;
    var input := SandboxInput(Load(db, token.attempt).value.mission.spec, path);
    var key := Key(token.attempt, Sandbox);
    if OperationFor(db, key).Some? {
      AdoptedInProgress(db, token, Sandbox, input);
      hide InProgress;
      if OperationFor(db, key).value.status != OperationStatus.Succeeded {
        BegunInProgress(db, now, token, Sandbox);
      }
    } else {
      hide InProgress;
      AddedInProgress(db, token, Sandbox, newId,
                      NewOperation(key, SandboxRun, input, token.epoch, At(path), now).Begin(now).value);
    }
  }

  lemma SandboxBeginGood(w: World, s: Id, token: Token, path: string, newId: Id)
    requires Safe(w)
    ensures Good(w, SandboxBegin(w, s, token, path, newId))
  {
    hide Safe, Good, PrepareSandbox, Prepares, InProgress, Commit, KeyIndex, OperationsKinded;
    StaysGood(w);
    var r := PrepareSandbox(w.db, w.now, token, path, newId);
    if s !in w.sessions && newId !in w.db.operations && r.Ok? {
      SafeKeys(w);
      PrepareSandboxChange(w.db, w.now, token, path, newId);
      SandboxPreparedAfter(w.db, w.now, token, path, newId);
      PreparesGood(w, r.value.0, token, Sandbox, newId);
      CommitFields(w, r.value.0);
      GoGood(w, Commit(w, r.value.0), s, SandboxPrepared(token));
    }
  }

  lemma SandboxFinishGood(w: World, s: Id, version: nat, result: SandboxResult)
    requires Safe(w)
    ensures Good(w, SandboxFinish(w, s, version, result))
  {
    hide Safe, Good, FinishSandbox, AdvancesOperation, InProgress, Commit, KeyIndex, OperationsKinded;
    StaysGood(w);
    EndGood(w, w, s);
    if s in w.sessions && w.sessions[s].SandboxPrepared? {
      var token := w.sessions[s].token;
      var later := token.(version := version);
      SessionIsOk(w, s);
      SafeKeys(w);
      var r := FinishSandbox(w.db, w.now, later, result);
      if r.Ok? {
        FinishSandboxChange(w.db, w.now, later, result);
        FinishesGood(w, r.value, token, later, Sandbox);
        EndGood(w, Commit(w, r.value), s);
      }
    }
  }

  // ---------------------------------------------------------------- effects outside the tables

  lemma OutsideGood(w: World, v: World)
    requires Safe(w) && v == w.(blobs := v.blobs, sent := v.sent, stops := v.stops, handed := v.handed)
    requires Extends(w.blobs, v.blobs) && w.sent <= v.sent && w.stops <= v.stops && w.handed <= v.handed
    requires Settled(v.db.operations, v.db.artifacts, v.blobs) && BlobsNamed(v.blobs)
    requires Delivered(v.db, v.sent) && CancelledSound(v.db, v.stops) && HandedOk(v.db, v.handed)
    ensures Good(w, v)
  {
    hide DbWorkSound, RecordsSound, Settled, Delivered, CancelledSound, AllPaced, BlobsNamed, HandedOk, ProposalsOk;
    hide LeasesOk, Evolves, Disciplined, SessionsOk, Extends, Safe, Advances, Sound;
    SafeIff(w);
    SafeIff(v);
    SoundIff(w.db, w.blobs, w.sent, w.stops, w.cfg.staleAfter, w.now);
    SoundIff(v.db, v.blobs, v.sent, v.stops, v.cfg.staleAfter, v.now);
    AdvancesIff(w, v);
    Unmoved(w.db, w.now);
    SameLedgerDisciplined(w.db, w.db, w.now);
    ExtendsItself(w.proposals);
    SessionsLater(w, v);
  }

  lemma SafeOutside(w: World)
    requires Safe(w)
    ensures BlobsNamed(w.blobs) && HandedOk(w.db, w.handed) && CancelledSound(w.db, w.stops)
  {
    SafeWork(w);
    assert PartHolds(BlobNames, w) && PartHolds(HandOvers, w);
    hide Safe, DbWorkSound, RecordsSound, Settled, Delivered, CancelledSound, AllPaced, BlobsNamed, HandedOk;
  }

  lemma GoodEvolves(w: World, v: World)
    requires Good(w, v)
    ensures Evolves(w.db, v.db, w.now)
  {
    hide Safe, Evolves;
    assert AdvancesIn(Aspect.Tables, w, v);
  }

  // ---------------------------------------------------------------- artifacts

  /** What the persister is asked to keep fits what the session will do with it. */
  lemma DemandFollows(db: Db, blobs: map<Digest, Bytes>, sent: set<Delivery>, stops: set<Stop>, now: Time,
                      session: Session)
    requires SessionOk(db, blobs, sent, stops, now, session) && DemandOf(session).Persist?
    ensures !session.Publishing? && !session.EventSent?
    ensures FollowOk(db, session.token, DemandOf(session).put, DemandOf(session).follow)
    ensures KindOf(DemandOf(session).put.slot) == CasPut
  {
    hide SpecOf, Registered, GateOpen, IsUnifiedDiff, ExtractAndValidate, Size;
  }

  lemma KeptOk(w: World, token: Token, put: Put, follow: Follow, artifact: ArtifactRef)
    requires FollowOk(w.db, token, put, follow) && artifact.sha == Sha256(put.payload)
    requires Registered(w.db, Key(token.attempt, put.slot), artifact)
    ensures SessionOk(w.db, w.blobs, w.sent, w.stops, w.now, Kept(token, follow, artifact))
  {
    hide SpecOf, Registered, GateOpen, IsUnifiedDiff;
  }

  lemma PutPreparedAfter(db: Db, now: Time, token: Token, put: Put, newId: Id)
    requires KeyIndex(db.operations, db.keys) && OperationsKinded(db.operations) && newId !in db.operations
    requires KindOf(put.slot) == CasPut && PreparePut(db, now, token, put, newId).Ok?
    ensures InProgressFor(PreparePut(db, now, token, put, newId).value.0, token, put.slot, Sha256(put.payload))
  {
    hide KeyIndex, OperationsKinded, AddOperation, InProgressFor, Attempt.CheckLease;
    var key := Key(token.attempt, put.slot);
    if OperationFor(db, key).Some? {
      AdoptedInProgress(db, token, put.slot, Sha256(put.payload));
    } else {
      AddedInProgress(db, token, put.slot, newId,
                      NewOperation(key, CasPut, Sha256(put.payload), token.epoch, put.target, now));
    }
  }

  lemma FoundPut(db: Db, now: Time, token: Token, put: Put, newId: Id)
    requires PreparePut(db, now, token, put, newId).Ok? && PreparePut(db, now, token, put, newId).value.1.Some?
    ensures var key := Key(token.attempt, put.slot);
      && PreparePut(db, now, token, put, newId).value.0 == db
      && OperationFor(db, key).Some? && OperationFor(db, key).value.input == Sha256(put.payload)
      && db.keys[key] in db.artifacts
      && PreparePut(db, now, token, put, newId).value.1 == Some(db.artifacts[db.keys[key]])
  {
    hide Attempt.CheckLease, AddOperation;
  }

  /** An artifact that was already registered is the one that would be registered now. */
  lemma FoundPutIsRegistered(db: Db, blobs: map<Digest, Bytes>, now: Time, token: Token, put: Put, newId: Id)
    requires Settled(db.operations, db.artifacts, blobs) && KeyIndex(db.operations, db.keys)
    requires PreparePut(db, now, token, put, newId).Ok? && PreparePut(db, now, token, put, newId).value.1.Some?
    ensures var found := PreparePut(db, now, token, put, newId).value.1.value;
      var artifact := ArtifactRef(found.artifact.sha, found.artifact.size, put.Media());
      artifact.sha == Sha256(put.payload) && Registered(db, Key(token.attempt, put.slot), artifact)
  {
    FoundPut(db, now, token, put, newId);
    hide PreparePut;
    var id := db.keys[Key(token.attempt, put.slot)];
    assert ArtifactSettled(db.operations, db.artifacts, blobs, id);
  }

  lemma PutPrepareFound(w: World, s: Id, newId: Id, token: Token, put: Put, follow: Follow)
    requires Safe(w) && FollowOk(w.db, token, put, follow)
    requires PreparePut(w.db, w.now, token, put, newId).Ok? && PreparePut(w.db, w.now, token, put, newId).value.1.Some?
    ensures var (db, found) := PreparePut(w.db, w.now, token, put, newId).value;
      Good(w, Go(Commit(w, db), s,
                 Kept(token, follow, ArtifactRef(found.value.artifact.sha, found.value.artifact.size, put.Media()))))
  {
    SafeKeys(w);
    SafeEffects(w);
    hide Safe, Good, Commit, FollowOk, Registered, Settled, Delivered, KeyIndex, SessionOk, Kept;
    FoundPut(w.db, w.now, token, put, newId);
    FoundPutIsRegistered(w.db, w.blobs, w.now, token, put, newId);
    hide PreparePut;
    CommitNothing(w);
    CommitFields(w, w.db);
    var found := PreparePut(w.db, w.now, token, put, newId).value.1.value.artifact;
    var artifact := ArtifactRef(found.sha, found.size, put.Media());
    KeptOk(Commit(w, w.db), token, put, follow, artifact);
    GoGood(w, Commit(w, w.db), s, Kept(token, follow, artifact));
  }

  lemma PutPrepareNew(w: World, s: Id, newId: Id, token: Token, put: Put, follow: Follow)
    requires Safe(w) && FollowOk(w.db, token, put, follow) && KindOf(put.slot) == CasPut && newId !in w.db.operations
    requires PreparePut(w.db, w.now, token, put, newId).Ok?
    ensures Good(w, Go(Commit(w, PreparePut(w.db, w.now, token, put, newId).value.0), s,
                       Persisting(token, put, follow)))
  {
    hide Safe, Good, Commit, FollowOk, PreparePut, KeyIndex, OperationsKinded, Prepares, InProgress, Evolves;
    SafeKeys(w);
    var after := PreparePut(w.db, w.now, token, put, newId).value.0;
    PreparePutChange(w.db, w.now, token, put, newId);
    PutPreparedAfter(w.db, w.now, token, put, newId);
    PreparesGood(w, after, token, put.slot, newId);
    CommitFields(w, after);
    GoodEvolves(w, Commit(w, after));
    FollowStays(w.db, after, w.now, token, put, follow);
    GoGood(w, Commit(w, after), s, Persisting(token, put, follow));
  }

  lemma PutPrepareGood(w: World, s: Id, newId: Id)
    requires Safe(w)
    ensures Good(w, PutPrepare(w, s, newId))
  {
    hide Safe, Good, Commit, Go, End, FollowOk, PreparePut, DemandOf, SessionOk, Kept;
    StaysGood(w);
    EndGood(w, w, s);
    if s in w.sessions && DemandOf(w.sessions[s]).Persist? && newId !in w.db.operations {
      SessionIsOk(w, s);
      DemandFollows(w.db, w.blobs, w.sent, w.stops, w.now, w.sessions[s]);
      var token, demand := w.sessions[s].token, DemandOf(w.sessions[s]);
      var r := PreparePut(w.db, w.now, token, demand.put, newId);
      if r.Ok? {
        PutPrepareNew(w, s, newId, token, demand.put, demand.follow);
        if r.value.1.Some? {
          PutPrepareFound(w, s, newId, token, demand.put, demand.follow);
        }
      }
    }
  }

  lemma BlobWriteGood(w: World, s: Id)
    requires Safe(w)
    ensures Good(w, BlobWrite(w, s))
  {
    hide Safe, Good, FollowOk, Settled, BlobsNamed, Delivered, CancelledSound, HandedOk, Extends, Size;
    StaysGood(w);
    if s in w.sessions && w.sessions[s].Persisting? {
      var session := w.sessions[s];
      SessionIsOk(w, s);
      SafeEffects(w);
      SafeOutside(w);
      SettledWithMoreBlobs(w.db, w.blobs, session.put.payload);
      var v := w.(blobs := w.blobs[Sha256(session.put.payload) := session.put.payload]);
      OutsideGood(w, v);
      GoGood(w, v, s, BlobWritten(session.token, session.put, session.follow));
    }
  }

  lemma FinishedPutIsRegistered(db: Db, after: Db, now: Time, token: Token, put: Put)
    requires Key(token.attempt, put.slot) in db.keys
    requires FinishesPut(db, after, now, token, put, db.keys[Key(token.attempt, put.slot)])
    ensures Registered(after, Key(token.attempt, put.slot), put.Ref())
  {}

  lemma PutFinishGood(w: World, s: Id)
    requires Safe(w)
    ensures Good(w, PutFinish(w, s))
  {
    hide Safe, Good, Commit, FollowOk, FinishPut, FinishesPut, KeyIndex, OperationsKinded, BlobHeld, Evolves;
    hide Registered;
    hide Kept, Size;
    StaysGood(w);
    EndGood(w, w, s);
    if s in w.sessions && w.sessions[s].BlobWritten? {
      var session := w.sessions[s];
      var token, put := session.token, session.put;
      SessionIsOk(w, s);
      PutFromKept(w, session);
      SafeKeys(w);
      var r := FinishPut(w.db, w.now, token, put);
      if r.Ok? {
        FinishPutChange(w.db, w.now, token, put);
        FinishesPutGood(w, r.value, token, put, w.db.keys[Key(token.attempt, put.slot)]);
        CommitFields(w, r.value);
        GoodEvolves(w, Commit(w, r.value));
        FollowStays(w.db, r.value, w.now, token, put, session.follow);
        FinishedPutIsRegistered(w.db, r.value, w.now, token, put);
        KeptOk(Commit(w, r.value), token, put, session.follow, put.Ref());
        GoGood(w, Commit(w, r.value), s, Kept(token, session.follow, put.Ref()));
      }
    }
  }

  lemma PutFromKept(w: World, session: Session)
    requires session.BlobWritten? && FollowOk(w.db, session.token, session.put, session.follow)
    ensures KindOf(session.put.slot) == CasPut
  {
    hide SpecOf, Registered, GateOpen, IsUnifiedDiff;
  }

  // ---------------------------------------------------------------- finalizing a run

  lemma FinalizeBeginGood(w: World, s: Id, token: Token, result: SandboxResult, commit: string)
    requires Safe(w)
    ensures Good(w, FinalizeBegin(w, s, token, result, commit))
  {
    hide Safe, Good;
    StaysGood(w);
    var r := LoadSpec(w.db, token.attempt);
    if s !in w.sessions && r.Ok? {
      GoGood(w, w, s, RunLoaded(token, Run(r.value, result, commit)));
    }
  }

  lemma RunFailGood(w: World, s: Id, ids: RepairIds)
    requires Safe(w)
    ensures Good(w, RunFail(w, s, ids))
  {
    hide Safe, Good, Commit, End, FailRun, FailsRun, SchedulesRepair, DemandOf, RunSpec, FreshEvent, Indexed;
    StaysGood(w);
    EndGood(w, w, s);
    if s in w.sessions && DemandOf(w.sessions[s]).FailWith? && RunSpec(w.sessions[s]).Some?
       && ids.task !in w.db.tasks && ids.attempt !in w.db.attempts && FreshEvent(w.db.outbox, ids.event)
    {
      RunHasToken(w.sessions[s]);
      var token, code := w.sessions[s].token, DemandOf(w.sessions[s]).code;
      var repairMode := RunSpec(w.sessions[s]).value.mode == RepairMode;
      var r := FailRun(w.db, w.now, token, code, repairMode, ids);
      if r.Ok? {
        FailRunIndexed(w.db, w.now, token, code, repairMode, ids);
        if repairMode && w.db.tasks[TaskOf(w.db, token.attempt)].kind == BaselineReproduction {
          ScheduleRepairChange(w.db, w.now, token, code, ids);
          SchedulesRepairGood(w, r.value, token, code, ids);
        } else {
          FailRunChange(w.db, w.now, token, code, repairMode, ids);
          FailsRunGood(w, r.value, token, code);
        }
        EndGood(w, Commit(w, r.value), s);
      }
    }
  }

  lemma RunHasToken(session: Session)
    requires RunSpec(session).Some?
    ensures session.RunLoaded? || session.LogKept? || session.MetricKept?
  {}

  lemma FailRunIndexed(db: Db, now: Time, token: Token, code: FailureCode, repairMode: bool, ids: RepairIds)
    requires FailRun(db, now, token, code, repairMode, ids).Ok?
    ensures Indexed(db, token.attempt) && TaskOf(db, token.attempt) in db.tasks
  {
    hide ScheduleRepair, Attempt.Fail, Task.Fail, Mission.Fail;
  }

  /** What a session registers was measured, passed, and is backed by registered artifacts. */
  lemma DemandProven(db: Db, blobs: map<Digest, Bytes>, sent: set<Delivery>, stops: set<Stop>, now: Time,
                     session: Session)
    requires SessionOk(db, blobs, sent, stops, now, session) && session.MetricKept? && DemandOf(session).RegisterNow?
    ensures Proven(db, session.token, DemandOf(session).evidence)
  {
    hide Registered, Size, ValidationMeets, ValidateMetric;
    ValidationHolds(session.run.result.files[session.run.spec.metricPath], session.run.spec.expectation);
  }

  lemma ValidationHolds(payload: Bytes, e: Expectation)
    requires ValidateMetric(payload, e).Ok?
    ensures ValidationMeets(ValidateMetric(payload, e).value, e)
  {}

  /** A validation reports the verdict on the expectation that it was asked about. */
  predicate ValidationMeets(v: Validation, e: Expectation) {
    v.expectation == e && (v.passed <==> InRange(v.value, e))
  }

  lemma ResultRegisterGood(w: World, s: Id, metric: Id, claim: Id)
    requires Safe(w)
    ensures Good(w, ResultRegister(w, s, metric, claim))
  {
    hide Safe, Good, Commit, End, RegisterResult, RegistersResult, DemandOf, Proven, SessionOk;
    StaysGood(w);
    EndGood(w, w, s);
    if s in w.sessions && w.sessions[s].MetricKept? && DemandOf(w.sessions[s]).RegisterNow?
       && claim !in w.db.claims && claim !in w.db.evidence
    {
      var token, e := w.sessions[s].token, DemandOf(w.sessions[s]).evidence;
      SessionIsOk(w, s);
      DemandProven(w.db, w.blobs, w.sent, w.stops, w.now, w.sessions[s]);
      var r := RegisterResult(w.db, w.now, token, e, metric, claim);
      if r.Ok? {
        if token.attempt in w.db.metrics {
          RegisteredBefore(w.db, w.now, token, e, metric, claim);
          CommitNothing(w);
        } else {
          RegisterChange(w.db, w.now, token, e, metric, claim);
          RegistersResultGood(w, r.value, token, e, metric, claim);
        }
        EndGood(w, Commit(w, r.value), s);
      }
    }
  }

  lemma RegisteredBefore(db: Db, now: Time, token: Token, e: Evidence, metric: Id, claim: Id)
    requires token.attempt in db.metrics && RegisterResult(db, now, token, e, metric, claim).Ok?
    ensures RegisterResult(db, now, token, e, metric, claim).value == db
  {}

  // ---------------------------------------------------------------- completing a mission

  lemma CompletionBeginGood(w: World, s: Id, token: Token)
    requires Safe(w)
    ensures Good(w, CompletionBegin(w, s, token))
  {
    hide Safe, Good;
    StaysGood(w);
    GoGood(w, w, s, CompletionChecked(token));
  }

  /** The checks of the collecting transaction open the gate. */
  lemma FactsOpenGate(db: Db, now: Time, token: Token)
    requires CollectFacts(db, now, token).Ok?
    ensures GateOpen(db, token.attempt)
  {
    hide Attempt.CheckLease, HasLink;
    var claims := ClaimsOf(db.claims, MissionOf(db, token.attempt));
    var c :| c in claims;
    assert ClaimFor(db, c, MissionOf(db, token.attempt));
  }

  lemma FactsCollectGood(w: World, s: Id)
    requires Safe(w)
    ensures Good(w, FactsCollect(w, s))
  {
    hide Safe, Good, End, CollectFacts, GateOpen;
    StaysGood(w);
    EndGood(w, w, s);
    if s in w.sessions && w.sessions[s].CompletionChecked? {
      var token := w.sessions[s].token;
      if CollectFacts(w.db, w.now, token).Ok? {
        FactsOpenGate(w.db, w.now, token);
        GoGood(w, w, s, FactsCollected(token));
      }
    }
  }

  lemma BundleBuildGood(w: World, s: Id, payload: Bytes)
    requires Safe(w)
    ensures Good(w, BuildBundle(w, s, payload))
  {
    hide Safe, Good, GateOpen;
    StaysGood(w);
    if s in w.sessions && w.sessions[s].FactsCollected? {
      SessionIsOk(w, s);
      GoGood(w, w, s, BundleBuilt(w.sessions[s].token, payload));
    }
  }

  lemma MissionCompleteGood(w: World, s: Id)
    requires Safe(w)
    ensures Good(w, MissionComplete(w, s))
  {
    hide Safe, Good, Commit, End, CompleteMission, FinishesMission, GateOpen, Registered;
    StaysGood(w);
    EndGood(w, w, s);
    if s in w.sessions && w.sessions[s].BundleKept? {
      var token, bundle := w.sessions[s].token, w.sessions[s].bundle;
      SessionIsOk(w, s);
      var r := CompleteMission(w.db, w.now, token, bundle);
      if r.Ok? {
        CompleteChange(w.db, w.now, token, bundle);
        FinishesMissionGood(w, r.value, token, bundle);
        EndGood(w, Commit(w, r.value), s);
      }
    }
  }

  // ---------------------------------------------------------------- approvals and candidates

  lemma ProposalBeginGood(w: World, s: Id, token: Token, diff: string)
    requires Safe(w)
    ensures Good(w, ProposalBegin(w, s, token, diff))
  {
    hide Safe, Good, ValidateProposal, IsUnifiedDiff;
    StaysGood(w);
    if s !in w.sessions && IsUnifiedDiff(diff) {
      GoGood(w, w, s, ProposalChecked(token, diff));
    }
  }

  lemma ApprovalAskGood(w: World, s: Id, approval: Id)
    requires Safe(w)
    ensures Good(w, ApprovalAsk(w, s, approval))
  {
    hide Safe, Good, Commit, End, RequestApproval, AsksApproval, Registered, IsUnifiedDiff, Sound;
    StaysGood(w);
    EndGood(w, w, s);
    if s in w.sessions && w.sessions[s].PatchKept? && approval !in w.db.approvals {
      var session := w.sessions[s];
      SessionIsOk(w, s);
      SafeParts(w);
      var r := RequestApproval(w.db, w.cfg, w.now, session.token, session.patch, approval);
      if r.Ok? {
        RequestApprovalChange(w.db, w.cfg, w.now, session.token, session.patch, approval);
        AsksApprovalGood(w, r.value, session.token, session.patch, approval, session.diff);
        EndGood(w, Commit(w.(proposals := w.proposals[approval := session.diff]), r.value), s);
      }
    }
  }

  /** The loading transaction checks the approval, its link to the attempt, and the bytes. */
  lemma ContextAuthorized(db: Db, blobs: map<Digest, Bytes>, now: Time, token: Token, approval: Id)
    requires LoadRepairContext(db, blobs, now, token, approval).Ok?
    ensures var context := LoadRepairContext(db, blobs, now, token, approval).value;
      && Authorizes(db, approval, token.attempt, Sha256(Utf8(context.diff)))
      && ContextOf(db, token.attempt, context) && IsUnifiedDiff(context.diff)
  {
    hide Attempt.CheckLease, Size, IsUnifiedDiff;
  }

  lemma CandidateBeginGood(w: World, s: Id, token: Token, approval: Id)
    requires Safe(w)
    ensures Good(w, CandidateBegin(w, s, token, approval))
  {
    hide Safe, Good, LoadRepairContext, Authorizes, ContextOf, IsUnifiedDiff;
    StaysGood(w);
    var r := LoadRepairContext(w.db, w.blobs, w.now, token, approval);
    if s !in w.sessions && r.Ok? {
      ContextAuthorized(w.db, w.blobs, w.now, token, approval);
      GoGood(w, w, s, ContextLoaded(token, approval, r.value));
    }
  }

  lemma CandidatePreparedAfter(db: Db, now: Time, token: Token, diff: string, newId: Id)
    requires KeyIndex(db.operations, db.keys) && OperationsKinded(db.operations) && newId !in db.operations
    requires PrepareCandidate(db, now, token, diff, newId).Ok?
    ensures var (after, id) := PrepareCandidate(db, now, token, diff, newId).value;
      InProgressFor(after, token, CandidateSlot, Sha256(Utf8(diff)))
          && id == after.keys[Key(token.attempt, CandidateSlot)]
  {
    hide KeyIndex, OperationsKinded, Attempt.CheckLease;
    var key, input := Key(token.attempt, CandidateSlot), Sha256(Utf8(diff));
    if OperationFor(db, key).Some? {
      AdoptedInProgress(db, token, CandidateSlot, input);
    } else {
      AddedInProgress(db, token, CandidateSlot, newId,
                      NewOperation(key, CandidateCommit, input, token.epoch, CandidateTree, now));
    }
  }

  lemma CandidatePrepareGood(w: World, s: Id, newId: Id)
    requires Safe(w)
    ensures Good(w, CandidatePrepare(w, s, newId))
  {
    hide Safe, Good, Commit, End, PrepareCandidate, KeyIndex, OperationsKinded, Prepares, ContextOf;
    hide Authorizes, Evolves;
    StaysGood(w);
    EndGood(w, w, s);
    if s in w.sessions && w.sessions[s].ContextLoaded? && newId !in w.db.operations {
      var token, context := w.sessions[s].token, w.sessions[s].context;
      SessionIsOk(w, s);
      SafeKeys(w);
      var r := PrepareCandidate(w.db, w.now, token, context.diff, newId);
      if r.Ok? {
        var (after, id) := r.value;
        PrepareCandidateChange(w.db, w.now, token, context.diff, newId);
        CandidatePreparedAfter(w.db, w.now, token, context.diff, newId);
        CandidateInput(w.db, after, w.now, token, newId);
        assert Authorizes(w.db, w.sessions[s].approval, token.attempt, Sha256(Utf8(context.diff)));
        PreparesGood(w, after, token, CandidateSlot, newId);
        CommitFields(w, after);
        GoodEvolves(w, Commit(w, after));
        ContextStays(w.db, after, w.now, token.attempt, context);
        EndGood(w, Commit(w, after), s);
        GoGood(w, Commit(w, after), s, CandidatePrepared(token, context, id));
      }
    }
  }

  lemma CandidateInput(db: Db, after: Db, now: Time, token: Token, newId: Id)
    requires Prepares(db, after, now, token, Key(token.attempt, CandidateSlot), newId)
    requires InProgress(after, token, CandidateSlot) && KeyIndex(db.operations, db.keys)
    ensures OperationFor(db, Key(token.attempt, CandidateSlot)).None? ==>
              newId in after.operations && after.keys[Key(token.attempt, CandidateSlot)] == newId
  {}

  lemma CandidateCommitGood(w: World, s: Id, commit: string)
    requires Safe(w)
    ensures Good(w, CommitCandidate(w, s, commit))
  {
    hide Safe, Good, Settled, BlobsNamed, Delivered, CancelledSound, ContextOf, Extends;
    StaysGood(w);
    if s in w.sessions && w.sessions[s].CandidatePrepared? {
      var session := w.sessions[s];
      SessionIsOk(w, s);
      SafeEffects(w);
      SafeOutside(w);
      var h := Handed(session.operation, session.context);
      assert HandedSound(w.db, h);
      var v := w.(handed := w.handed + {h});
      assert Extends(w.blobs, v.blobs) by { ExtendsItself(w.blobs); }
      OutsideGood(w, v);
      GoGood(w, v, s, Session.CandidateCommitted(session.token, commit));
    }
  }

  lemma CandidateFinishGood(w: World, s: Id)
    requires Safe(w)
    ensures Good(w, CandidateFinish(w, s))
  {
    hide Safe, Good, FinishCandidate, AdvancesOperation, InProgress, Commit, KeyIndex, OperationsKinded;
    StaysGood(w);
    EndGood(w, w, s);
    if s in w.sessions && w.sessions[s].CandidateCommitted? {
      var token, commit := w.sessions[s].token, w.sessions[s].commit;
      SessionIsOk(w, s);
      SafeKeys(w);
      var r := FinishCandidate(w.db, w.now, token, commit);
      if r.Ok? {
        FinishCandidateChange(w.db, w.now, token, commit);
        FinishesGood(w, r.value, token, token, CandidateSlot);
        EndGood(w, Commit(w, r.value), s);
      }
    }
  }

  // ---------------------------------------------------------------- cancellation

  lemma CancelBeginGood(w: World, s: Id, token: Token)
    requires Safe(w)
    ensures Good(w, CancelBegin(w, s, token))
  {
    hide Safe, Good;
    StaysGood(w);
    if s !in w.sessions && AssertCancelling(w.db, w.now, token).Ok? {
      GoGood(w, w, s, StopDue(token));
    }
  }

  lemma SandboxStopGood(w: World, s: Id)
    requires Safe(w)
    ensures Good(w, SandboxStop(w, s))
  {
    hide Safe, Good, Settled, BlobsNamed, Delivered, CancelledSound, HandedOk, Extends;
    StaysGood(w);
    if s in w.sessions && w.sessions[s].StopDue? {
      var token := w.sessions[s].token;
      SessionIsOk(w, s);
      SafeEffects(w);
      SafeOutside(w);
      var live := token.attempt in w.db.attempts && w.db.attempts[token.attempt].CheckLease(token, w.now).Ok?;
      var stop := Stop(token, w.now, live);
      var v := w.(stops := w.stops + {stop});
      ExtendsItself(w.blobs);
      MoreStops(w.db, w.stops, stop);
      OutsideGood(w, v);
      GoGood(w, v, s, StopAccepted(token, stop));
    }
  }

  lemma MissionCancelGood(w: World, s: Id)
    requires Safe(w)
    ensures Good(w, MissionCancel(w, s))
  {
    hide Safe, Good, Commit, End, CancelAttempt, CancelsAttempt;
    StaysGood(w);
    EndGood(w, w, s);
    if s in w.sessions && w.sessions[s].StopAccepted? {
      var token, stop := w.sessions[s].token, w.sessions[s].stop;
      SessionIsOk(w, s);
      var r := CancelAttempt(w.db, w.now, token);
      if r.Ok? {
        CancelChange(w.db, w.now, token);
        CancelledUnderLease(w.db, r.value, w.now, token);
        CancelsAttemptGood(w, r.value, token, stop);
        EndGood(w, Commit(w, r.value), s);
      }
    }
  }

  lemma CancelledUnderLease(db: Db, after: Db, now: Time, token: Token)
    requires CancelsAttempt(db, after, now, token)
    ensures !TokenDead(db, token, now)
  {}

  // ---------------------------------------------------------------- the outbox publisher

  lemma FetchedAreCommitted(db: Db, limit: int)
    requires FetchUnpublished(db, limit).Ok?
    ensures EventsCommitted(db, FetchUnpublished(db, limit).value)
  {
    var all := Unpublished(db.outbox, db.published);
    forall e | e in Prefix(all, limit) ensures e in db.outbox {
      assert e in all;
    }
  }

  lemma PublishBeginGood(w: World, s: Id, limit: int)
    requires Safe(w)
    ensures Good(w, PublishBegin(w, s, limit))
  {
    hide Safe, Good, FetchUnpublished, EventsCommitted;
    StaysGood(w);
    var r := FetchUnpublished(w.db, limit);
    if s !in w.sessions && r.Ok? {
      FetchedAreCommitted(w.db, limit);
      GoGood(w, w, s, Publishing(r.value));
    }
  }

  lemma EventPublishGood(w: World, s: Id)
    requires Safe(w)
    ensures Good(w, EventPublish(w, s))
  {
    hide Safe, Good, Settled, BlobsNamed, Delivered, CancelledSound, HandedOk, Extends, End;
    StaysGood(w);
    EndGood(w, w, s);
    if s in w.sessions && w.sessions[s].Publishing? && w.sessions[s].events != [] {
      var events := w.sessions[s].events;
      SessionIsOk(w, s);
      SafeEffects(w);
      SafeOutside(w);
      var v := w.(sent := w.sent + {Delivery(events[0].topic, events[0].attempt)});
      ExtendsItself(w.blobs);
      SendsEvent(w.db, w.sent, events[0]);
      OutsideGood(w, v);
      GoGood(w, v, s, EventSent(events));
    }
  }

  lemma EventMarkGood(w: World, s: Id)
    requires Safe(w)
    ensures Good(w, EventMark(w, s))
  {
    hide Safe, Good, Commit, End, MarkPublished, MarksEvent;
    StaysGood(w);
    EndGood(w, w, s);
    if s in w.sessions && w.sessions[s].EventSent? && w.sessions[s].events != [] {
      var events := w.sessions[s].events;
      SessionIsOk(w, s);
      var r := MarkPublished(w.db, w.now, events[0].id);
      if r.Ok? {
        MarkPublishedChange(w.db, w.now, events[0].id);
        assert events[0] in w.db.outbox;
        MarksEventGood(w, r.value, events[0].id);
        CommitFields(w, r.value);
        RestCommitted(w, r.value, events);
        GoGood(w, Commit(w, r.value), s, Publishing(events[1..]));
      }
    }
  }

  lemma RestCommitted(w: World, after: Db, events: seq<OutboxEvent>)
    requires Good(w, Commit(w, after)) && EventsCommitted(w.db, events) && events != []
    ensures EventsCommitted(after, events[1..])
  {
    hide Safe, Good, EventsCommitted, Evolves;
    GoodEvolves(w, Commit(w, after));
    CommitFields(w, after);
    EventsStay(w.db, after, w.now, events);
    FewerCommitted(after, events);
  }

  lemma FewerCommitted(db: Db, events: seq<OutboxEvent>)
    requires EventsCommitted(db, events) && events != []
    ensures EventsCommitted(db, events[1..])
  {}

  // ---------------------------------------------------------------- one step, and a run

  lemma BasicGood(w: World, step: Step)
    requires Safe(w) && Basic(step)
    ensures Good(w, Apply(w, step))
  {
    hide Safe, Good, Create, ClaimLease, Renew, AskCancel, Decide, Reconcile, WorktreeBegin, WorktreeFinish;
    hide SandboxBegin;
    hide SandboxFinish, End;
    match step
    case Tick(elapsed) => TickGood(w, elapsed);
    case Crash(s) => StaysGood(w); EndGood(w, w, s);
    case CreateStep(mission, task, attempt, event, spec, proposal) =>
      CreateGood(w, mission, task, attempt, event, spec, proposal);
    case ClaimStep(attempt, owner) => ClaimGood(w, attempt, owner);
    case RenewStep(token) => RenewGood(w, token);
    case AskCancelStep(mission) => AskCancelGood(w, mission);
    case ResolveStep(approval, approved, decider, child, event) =>
      DecideGood(w, approval, approved, decider, child, event);
    case ReconcileStep(limit, event) => ReconcileGood(w, limit, event);
    case WorktreeBeginStep(s, token, newId) => WorktreeBeginGood(w, s, token, newId);
    case WorktreeFinishStep(s, path) => WorktreeFinishGood(w, s, path);
    case SandboxBeginStep(s, token, path, newId) => SandboxBeginGood(w, s, token, path, newId);
    case SandboxFinishStep(s, version, result) => SandboxFinishGood(w, s, version, result);
  }

  lemma EvidentialGood(w: World, step: Step)
    requires Safe(w) && Evidential(step)
    ensures Good(w, Apply(w, step))
  {
    hide Safe, Good, PutPrepare, BlobWrite, PutFinish, FinalizeBegin, RunFail, ResultRegister, CompletionBegin;
    hide FactsCollect, BuildBundle, MissionComplete, End;
    match step
    case PutPrepareStep(s, newId) => PutPrepareGood(w, s, newId);
    case BlobWriteStep(s) => BlobWriteGood(w, s);
    case PutFinishStep(s) => PutFinishGood(w, s);
    case FinalizeBeginStep(s, token, result, commit) => FinalizeBeginGood(w, s, token, result, commit);
    case RunFailStep(s, ids) => RunFailGood(w, s, ids);
    case ResultRegisterStep(s, metric, claim) => ResultRegisterGood(w, s, metric, claim);
    case CompletionBeginStep(s, token) => CompletionBeginGood(w, s, token);
    case FactsCollectStep(s) => FactsCollectGood(w, s);
    case BundleBuildStep(s, payload) => BundleBuildGood(w, s, payload);
    case MissionCompleteStep(s) => MissionCompleteGood(w, s);
  }

  lemma OtherGood(w: World, step: Step)
    requires Safe(w) && !Basic(step) && !Evidential(step)
    ensures Good(w, Apply(w, step))
  {
    hide Safe, Good, ProposalBegin, ApprovalAsk, CandidateBegin, CandidatePrepare, CommitCandidate, CandidateFinish;
    hide CancelBegin, SandboxStop, MissionCancel, PublishBegin, EventPublish, EventMark, End;
    match step
    case ProposalBeginStep(s, token, diff) => ProposalBeginGood(w, s, token, diff);
    case ApprovalAskStep(s, approval) => ApprovalAskGood(w, s, approval);
    case CandidateBeginStep(s, token, approval) => CandidateBeginGood(w, s, token, approval);
    case CandidatePrepareStep(s, newId) => CandidatePrepareGood(w, s, newId);
    case CandidateCommitStep(s, commit) => CandidateCommitGood(w, s, commit);
    case CandidateFinishStep(s) => CandidateFinishGood(w, s);
    case CancelBeginStep(s, token) => CancelBeginGood(w, s, token);
    case SandboxStopStep(s) => SandboxStopGood(w, s);
    case MissionCancelStep(s) => MissionCancelGood(w, s);
    case PublishBeginStep(s, limit) => PublishBeginGood(w, s, limit);
    case EventPublishStep(s) => EventPublishGood(w, s);
    case EventMarkStep(s) => EventMarkGood(w, s);
  }

  /** Every step of the system keeps its invariant and only moves it forward. */
  lemma StepGood(w: World, step: Step)
    requires Safe(w)
    ensures Good(w, Apply(w, step))
  {
    hide Safe, Good, Apply, Basic, Evidential;
    if Basic(step) {
      BasicGood(w, step);
    } else if Evidential(step) {
      EvidentialGood(w, step);
    } else {
      OtherGood(w, step);
    }
  }
}
