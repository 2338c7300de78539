/** Every effect, committed in a safe world, leads to a safe world. */
module Effects {
  import opened Basics
  import opened Content
  import opened Lifecycle
  import opened Tables
  import opened Transactions
  import opened Evolution
  import opened Changes
  import opened Moves
  import opened Completion
  import opened Ledger
  import opened EvidenceGate
  import opened Approvals
  import opened Routing
  import opened Cancellation
  import opened Invariant
  import opened Runtime
  import opened Safety

  lemma SafeParts(w: World)
    requires Safe(w)
    ensures w.cfg.Valid() && w.cfg.staleAfter > 0
    ensures Sound(w.db, w.blobs, w.sent, w.stops, w.cfg.staleAfter, w.now)
  {
    hide Sound;
    assert PartHolds(Durations, w) && PartHolds(TablesAndEffects, w);
  }

  lemma OpensGood(w: World, after: Db, mission: Id, task: Id, attempt: Id, event: Id)
    requires Safe(w) && Opens(w.db, after, w.now, mission, task, attempt, event)
    ensures Good(w, Commit(w, after))
  {
    assert after.approvals == w.db.approvals && SameLedger(w.db, after);
    hide Safe, Sound, Opens, Evolves, Disciplined, Good, Commit;
    SafeParts(w);
    OpensKeeps(w.db, after, w.now, w.blobs, w.sent, w.stops, w.cfg.staleAfter, mission, task, attempt, event);
    SameLedgerDisciplined(w.db, after, w.now);
    CommitGood(w, after);
  }

  lemma MovesGood(w: World, after: Db)
    requires Safe(w) && Evolves(w.db, after, w.now) && OnlyMoves(w.db, after) && NoCancellation(w.db, after)
    ensures Good(w, Commit(w, after))
  {
    assert after.approvals == w.db.approvals && SameLedger(w.db, after) by {
      hide NoneFinishes, NewRowsLinked, PausesKept, Safe, Evolves, NoCancellation;
    }
    hide Safe, Sound, OnlyMoves, Evolves, Disciplined, Good, Commit, NoCancellation;
    SafeParts(w);
    MovesSound(w.db, after, w.now, w.blobs, w.sent, w.stops, w.cfg.staleAfter);
    SameLedgerDisciplined(w.db, after, w.now);
    CommitGood(w, after);
  }

  lemma TakesLeaseGood(w: World, after: Db, a: Id, owner: Id, until: Time)
    requires Safe(w) && TakesLease(w.db, after, w.now, a, owner, until)
    ensures Good(w, Commit(w, after))
  {
    hide Safe, TakesLease, Evolves, OnlyMoves, NoCancellation, Good, Commit;
    TakesLeaseEvolves(w.db, after, w.now, a, owner, until);
    TakesLeaseMoves(w.db, after, w.now, a, owner, until);
    MovesGood(w, after);
  }

  lemma RenewsLeaseGood(w: World, after: Db, token: Token, until: Time)
    requires Safe(w) && RenewsLease(w.db, after, w.now, token, until)
    ensures Good(w, Commit(w, after))
  {
    hide Safe, RenewsLease, Evolves, OnlyMoves, NoCancellation, Good, Commit;
    RenewsLeaseEvolves(w.db, after, w.now, token, until);
    RenewsLeaseMoves(w.db, after, w.now, token, until);
    MovesGood(w, after);
  }

  lemma AsksCancellationGood(w: World, after: Db, mission: Id)
    requires Safe(w) && AsksCancellation(w.db, after, w.now, mission)
    ensures Good(w, Commit(w, after))
  {
    hide Safe, AsksCancellation, Evolves, OnlyMoves, NoCancellation, Good, Commit;
    AsksCancellationEvolves(w.db, after, w.now, mission);
    AsksCancellationMoves(w.db, after, w.now, mission);
    MovesGood(w, after);
  }

  lemma FailsRunGood(w: World, after: Db, token: Token, code: FailureCode)
    requires Safe(w) && FailsRun(w.db, after, w.now, token, code)
    ensures Good(w, Commit(w, after))
  {
    hide Safe, FailsRun, Evolves, OnlyMoves, NoCancellation, Good, Commit;
    FailsRunEvolves(w.db, after, w.now, token, code);
    FailsRunMoves(w.db, after, w.now, token, code);
    MovesGood(w, after);
  }

  lemma SchedulesRepairGood(w: World, after: Db, token: Token, code: FailureCode, ids: RepairIds)
    requires Safe(w) && SchedulesRepair(w.db, after, w.now, token, code, ids)
    ensures Good(w, Commit(w, after))
  {
    hide Safe, Sound, SchedulesRepair, Evolves, Disciplined, Good, Commit, NoGrant, NoCancellation, LogsQuietly;
    SafeParts(w);
    SchedulesRepairEffects(w.db, after, w.now, token, code, ids);
    SchedulesRepairKeeps(w.db, after, w.now, w.blobs, w.sent, w.stops, w.cfg.staleAfter, token, code, ids);
    SameLedgerDisciplined(w.db, after, w.now);
    CommitGood(w, after);
  }

  lemma CancelsAttemptGood(w: World, after: Db, token: Token, s: Stop)
    requires Safe(w) && CancelsAttempt(w.db, after, w.now, token)
    requires s in w.stops && s.live && s.token == token
    ensures Good(w, Commit(w, after))
  {
    assert after.approvals == w.db.approvals && SameLedger(w.db, after);
    hide Safe, Sound, CancelsAttempt, Evolves, Disciplined, Good, Commit;
    SafeParts(w);
    CancelsAttemptKeeps(w.db, after, w.now, w.blobs, w.sent, w.stops, w.cfg.staleAfter, token, s);
    SameLedgerDisciplined(w.db, after, w.now);
    CommitGood(w, after);
  }

  lemma AddsOperationGood(w: World, after: Db, token: Token, id: Id, o: Operation)
    requires Safe(w) && AddsOperation(w.db, after, w.now, token, id, o)
    requires o.kind == CandidateCommit ==> exists p :: Authorizes(w.db, p, o.attempt, o.input)
    ensures Good(w, Commit(w, after))
  {
    AddsOperationFrame(w.db, after, w.now, token, id, o);
    hide Safe, Sound, AddsOperation, Evolves, Disciplined, Good, Commit, Authorizes, NoCancellation, LogsQuietly;
    SafeParts(w);
    AddsOperationKeeps(w.db, after, w.now, w.blobs, w.sent, w.stops, w.cfg.staleAfter, token, id, o);
    AddsOperationDisciplined(w.db, after, w.now, token, id, o);
    CommitGood(w, after);
  }

  lemma AdvancesOperationGood(w: World, after: Db, token: Token, id: Id)
    requires Safe(w) && AdvancesOperation(w.db, after, w.now, token, id)
    requires w.db.operations[id].attempt == token.attempt && w.db.operations[id].epoch == token.epoch
    ensures Good(w, Commit(w, after))
  {
    hide Safe, Sound, AdvancesOperation, Evolves, Disciplined, Good, Commit, NoCancellation, LogsQuietly;
    SafeParts(w);
    AdvancesOperationFrame(w.db, after, w.now, token, id);
    AdvancesOperationKeeps(w.db, after, w.now, w.blobs, w.sent, w.stops, w.cfg.staleAfter, token, id);
    AdvancesOperationDisciplined(w.db, after, w.now, token, id);
    CommitGood(w, after);
  }

  lemma FinishesPutGood(w: World, after: Db, token: Token, put: Put, id: Id)
    requires Safe(w) && FinishesPut(w.db, after, w.now, token, put, id)
    requires w.db.operations[id].kind == CasPut && w.db.operations[id].attempt == token.attempt
    requires w.db.operations[id].epoch == token.epoch
    requires w.db.operations[id].input == Sha256(put.payload) && BlobHeld(w.blobs, put.Ref())
    ensures Good(w, Commit(w, after))
  {
    FinishesPutFrame(w.db, after, w.now, token, put, id);
    hide Safe, Sound, FinishesPut, Evolves, Disciplined, Good, Commit, NoCancellation, LogsQuietly, BlobHeld;
    SafeParts(w);
    FinishesPutKeeps(w.db, after, w.now, w.blobs, w.sent, w.stops, w.cfg.staleAfter, token, put, id);
    FinishesPutDisciplined(w.db, after, w.now, token, put, id);
    CommitGood(w, after);
  }

  lemma RecoversOperationsGood(w: World, after: Db, ids: seq<Id>, event: Id)
    requires Safe(w) && RecoversOperations(w.db, after, w.now, ids, event) && Distinct(ids)
    requires forall i <- ids :: i in w.db.operations && IsStale(w.db.operations[i], w.now - w.cfg.staleAfter)
    ensures Good(w, Commit(w, after))
  {
    hide Safe, Sound, RecoversOperations, Evolves, Disciplined, Good, Commit, IsStale, Distinct;
    SafeParts(w);
    RecoversFrame(w.db, after, w.now, ids, event);
    RecoversOperationsKeeps(w.db, after, w.now, w.blobs, w.sent, w.stops, w.cfg.staleAfter, ids, event);
    RecoversOperationsDisciplined(w.db, after, w.now, ids, event);
    CommitGood(w, after);
  }

  lemma MarksEventGood(w: World, after: Db, event: Id)
    requires Safe(w) && MarksEvent(w.db, after, w.now, event)
    requires exists e <- w.db.outbox :: e.id == event && Delivery(e.topic, e.attempt) in w.sent
    ensures Good(w, Commit(w, after))
  {
    hide Safe, Sound, MarksEvent, Evolves, Disciplined, Good, Commit, NoCancellation, LogsQuietly;
    SafeParts(w);
    MarksEventFrame(w.db, after, w.now, event);
    MarksEventKeeps(w.db, after, w.now, w.blobs, w.sent, w.stops, w.cfg.staleAfter, event);
    SameLedgerDisciplined(w.db, after, w.now);
    CommitGood(w, after);
  }

  lemma RegistersResultGood(w: World, after: Db, token: Token, e: Evidence, metric: Id, claim: Id)
    requires Safe(w) && RegistersResult(w.db, after, w.now, token, e, metric, claim) && Proven(w.db, token, e)
    ensures Good(w, Commit(w, after))
  {
    hide Safe, Sound, RegistersResult, Evolves, Disciplined, Good, Commit, NoCancellation, LogsQuietly, PausesKept;
    hide Proven;
    SafeParts(w);
    RegistersResultFrame(w.db, after, w.now, token, e, metric, claim);
    RegistersResultKeeps(w.db, after, w.now, w.blobs, w.sent, w.stops, w.cfg.staleAfter, token, e, metric, claim);
    SameLedgerDisciplined(w.db, after, w.now);
    CommitGood(w, after);
  }

  lemma FinishesMissionGood(w: World, after: Db, token: Token, artifact: ArtifactRef)
    requires Safe(w) && FinishesMission(w.db, after, w.now, token, artifact)
    requires GateOpen(w.db, token.attempt) && Registered(w.db, Key(token.attempt, BundleSlot), artifact)
    ensures Good(w, Commit(w, after))
  {
    hide Safe, Sound, FinishesMission, Evolves, Disciplined, Good, Commit, NoCancellation, LogsQuietly, PausesKept;
    hide GateOpen, Registered;
    SafeParts(w);
    FinishesMissionFrame(w.db, after, w.now, token, artifact);
    FinishesMissionKeeps(w.db, after, w.now, w.blobs, w.sent, w.stops, w.cfg.staleAfter, token, artifact);
    SameLedgerDisciplined(w.db, after, w.now);
    CommitGood(w, after);
  }

  lemma NewProposalOk(w: World, after: Db, token: Token, patch: ArtifactRef, approval: Id, diff: string)
    requires AsksApproval(w.db, after, w.cfg, w.now, token, patch, approval)
    requires ProposalsOk(w.db.approvals, w.proposals, w.cfg.approvalTtl)
    requires patch.sha == Sha256(Utf8(diff)) && IsUnifiedDiff(diff)
    ensures ProposalsOk(after.approvals, w.proposals[approval := diff], w.cfg.approvalTtl)
    ensures Extends(w.proposals, w.proposals[approval := diff])
  {
    hide IsUnifiedDiff;
    var more := w.proposals[approval := diff];
    forall p | p in after.approvals ensures ProposalSound(after.approvals, more, w.cfg.approvalTtl, p) {
      if p != approval { assert ProposalSound(w.db.approvals, w.proposals, w.cfg.approvalTtl, p); }
    }
  }

  lemma SafeProposals(w: World)
    requires Safe(w)
    ensures ProposalsOk(w.db.approvals, w.proposals, w.cfg.approvalTtl)
  {
    assert PartHolds(Proposals, w);
  }

  lemma AsksApprovalGood(w: World, after: Db, token: Token, patch: ArtifactRef, approval: Id, diff: string)
    requires Safe(w) && AsksApproval(w.db, after, w.cfg, w.now, token, patch, approval)
    requires Registered(w.db, Key(token.attempt, PatchSlot(patch.sha)), patch)
    requires patch.sha == Sha256(Utf8(diff)) && IsUnifiedDiff(diff)
    ensures Good(w, Commit(w.(proposals := w.proposals[approval := diff]), after))
  {
    hide Safe, Sound, AsksApproval, Evolves, Disciplined, Good, Commit, NoCancellation, LogsQuietly, NoGrant;
    hide Registered, IsUnifiedDiff, ProposalsOk, Extends;
    SafeParts(w);
    SafeProposals(w);
    AsksApprovalFrame(w.db, after, w.cfg, w.now, token, patch, approval);
    AsksApprovalKeeps(w.db, after, w.cfg, w.now, w.blobs, w.sent, w.stops, w.cfg.staleAfter, token, patch, approval);
    SameLedgerDisciplined(w.db, after, w.now);
    NewProposalOk(w, after, token, patch, approval, diff);
    CommitGoodWith(w, w.proposals[approval := diff], after);
  }

  lemma GrantsApprovalGood(w: World, after: Db, approval: Id, decider: Id, child: Id, event: Id)
    requires Safe(w) && GrantsApproval(w.db, after, w.now, approval, decider, child, event)
    ensures Good(w, Commit(w, after))
  {
    hide Safe, Sound, GrantsApproval, Evolves, Disciplined, Good, Commit, NoCancellation, LogsQuietly;
    SafeParts(w);
    GrantsApprovalFrame(w.db, after, w.now, approval, decider, child, event);
    GrantsApprovalKeeps(w.db, after, w.now, w.blobs, w.sent, w.stops, w.cfg.staleAfter, approval, decider, child,
                        event);
    SameLedgerDisciplined(w.db, after, w.now);
    CommitGood(w, after);
  }

  lemma DeniesApprovalGood(w: World, after: Db, approval: Id, decider: Id)
    requires Safe(w) && DeniesApproval(w.db, after, w.now, approval, decider)
    ensures Good(w, Commit(w, after))
  {
    hide Safe, Sound, DeniesApproval, Evolves, Disciplined, Good, Commit, NoCancellation, LogsQuietly, NoGrant;
    SafeParts(w);
    DeniesApprovalFrame(w.db, after, w.now, approval, decider);
    DeniesApprovalKeeps(w.db, after, w.now, w.blobs, w.sent, w.stops, w.cfg.staleAfter, approval, decider);
    SameLedgerDisciplined(w.db, after, w.now);
    CommitGood(w, after);
  }
}
