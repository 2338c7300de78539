/** The invariant of the durable state: every transaction keeps it. */
module Invariant {
  import opened Basics
  import opened Content
  import opened Lifecycle
  import opened Tables
  import opened Transactions
  import opened Evolution
  import opened Changes
  import opened Moves
  import opened Completion
  import opened Ledger
  import opened EvidenceGate
  import opened Approvals
  import opened Routing
  import opened Recovery
  import opened Cancellation

  /** Missions, tasks, attempts, bundles and approvals fit together. */
  ghost predicate WorkSound(missions: map<Id, Mission>, tasks: map<Id, Task>, attempts: map<Id, Attempt>,
                            bundles: map<Id, Registration>, approvals: map<Id, Approval>)
  {
    && Completions(missions, tasks, attempts, bundles)
    && TaskShape(missions, tasks)
    && Coupled(missions, approvals)
    && AllChildrenCounted(attempts, approvals)
    && ParentsLinked(attempts)
  }

  ghost predicate DbWorkSound(db: Db) {
    WorkSound(db.missions, db.tasks, db.attempts, db.bundles, db.approvals)
  }

  /** The records that point at work point at the right work. */
  ghost predicate RecordsSound(db: Db) {
    && Keyed(db.operations, db.keys, db.attempts)
    && Grounded(db)
    && ApprovalsSound(db)
    && CandidatesAuthorized(db)
  }

  /** What the tables and the effects outside them say about each other: the blobs, the two
      lanes, the accepted sandbox stops and the clock. */
  ghost predicate EffectsSound(db: Db, blobs: map<Digest, Bytes>, sent: set<Delivery>, stops: set<Stop>,
                               staleAfter: Time, now: Time)
  {
    && Settled(db.operations, db.artifacts, blobs)
    && Delivered(db, sent)
    && CancelledSound(db, stops)
    && AllPaced(db, staleAfter, now)
  }

  ghost predicate Sound(db: Db, blobs: map<Digest, Bytes>, sent: set<Delivery>, stops: set<Stop>,
                        staleAfter: Time, now: Time)
  {
    forall area: Area :: SoundIn(area, db, blobs, sent, stops, staleAfter, now)
  }

  /** The invariant of the tables has three areas; a proof names the one it looks at. */
  datatype Area = WorkArea | RecordsArea | EffectsArea

  ghost predicate SoundIn(area: Area, db: Db, blobs: map<Digest, Bytes>, sent: set<Delivery>, stops: set<Stop>,
                          staleAfter: Time, now: Time)
  {
    match area
    case WorkArea => DbWorkSound(db)
    case RecordsArea => RecordsSound(db)
    case EffectsArea => EffectsSound(db, blobs, sent, stops, staleAfter, now)
  }

  lemma SoundIff(db: Db, blobs: map<Digest, Bytes>, sent: set<Delivery>, stops: set<Stop>, staleAfter: Time, now: Time)
    ensures Sound(db, blobs, sent, stops, staleAfter, now) <==>
            DbWorkSound(db) && RecordsSound(db) && EffectsSound(db, blobs, sent, stops, staleAfter, now)
  {
    hide DbWorkSound, RecordsSound, EffectsSound;
    if Sound(db, blobs, sent, stops, staleAfter, now) {
      assert SoundIn(WorkArea, db, blobs, sent, stops, staleAfter, now);
      assert SoundIn(RecordsArea, db, blobs, sent, stops, staleAfter, now);
      assert SoundIn(EffectsArea, db, blobs, sent, stops, staleAfter, now);
    }
  }

  // ---------------------------------------------------------------- what most transactions leave alone

  lemma NoGrantWithSameApprovals(db: Db, after: Db)
    requires after.approvals == db.approvals && after.attempts.Keys == db.attempts.Keys
    ensures NoGrant(db, after)
  {}

  lemma WorkKept(db: Db, after: Db, now: Time)
    requires DbWorkSound(db) && Evolves(db, after, now)
    requires NoneFinishes(db, after) && NewRowsLinked(db, after) && PausesKept(db.missions, after.missions)
    requires after.bundles == db.bundles && after.approvals == db.approvals
    requires after.missions.Keys == db.missions.Keys && after.tasks.Keys == db.tasks.Keys
    requires after.attempts.Keys == db.attempts.Keys
    ensures DbWorkSound(after)
  {
    hide MissionsMove, TasksMove, AttemptsMove, OperationsMove, ApprovalsMove, WriteOnce, NoneFinishes, NewRowsLinked;
    hide PausesKept, Completions, TaskShape, Coupled, AllChildrenCounted, ParentsLinked, NoGrant;
    CompletionsKept(db, after, now);
    TaskShapeKept(db, after);
    CoupledKept(db.missions, after.missions, db.approvals);
    NoGrantWithSameApprovals(db, after);
    ChildrenKept(db, after, now);
  }

  lemma RecordsKept(db: Db, after: Db, now: Time)
    requires RecordsSound(db) && Evolves(db, after, now)
    requires after.keys == db.keys && after.operations.Keys == db.operations.Keys
    requires SameEvidence(db, after) && after.bundles == db.bundles && after.approvals.Keys == db.approvals.Keys
    ensures RecordsSound(after)
  {
    EvolvesParts(db, after, now);
    hide Evolves, AttemptsMove, OperationsMove, Keyed, Grounded, ApprovalsSound, CandidatesAuthorized, SameEvidence;
    KeyedKept(db, after, now);
    GroundedKept(db, after, now);
    ApprovalsSoundKept(db, after, now);
    CandidatesKept(db, after, now);
  }

  lemma EvolvesParts(db: Db, after: Db, now: Time)
    requires Evolves(db, after, now)
    ensures AttemptsMove(db.attempts, after.attempts, now) && OperationsMove(db.operations, after.operations, now)
  {}

  ghost predicate NoCancellation(db: Db, after: Db) {
    forall m :: !NewlyCancelled(db, after, m)
  }

  lemma CancellationsKept(db: Db, after: Db, now: Time, stops: set<Stop>)
    requires CancelledSound(db, stops) && Evolves(db, after, now) && NoCancellation(db, after)
    ensures CancelledSound(after, stops)
  {
    hide Evolves, CancelledSound, NewlyCancelled;
    CancelledKept(db, after, now, stops);
  }

  /** A transaction logs nothing, or one row that asks for no recovery. */
  predicate LogsQuietly(db: Db, after: Db) {
    after.audits == db.audits
    || (|after.audits| == |db.audits| + 1 && after.audits[..|db.audits|] == db.audits
        && after.audits[|db.audits|].kind != RecoveryRequested)
  }

  lemma PacedQuietly(db: Db, after: Db, staleAfter: Time, now: Time)
    requires AllPaced(db, staleAfter, now) && staleAfter > 0
    requires OperationsMove(db.operations, after.operations, now) && LogsQuietly(db, after)
    ensures AllPaced(after, staleAfter, now)
  {
    hide AllPaced, OperationsMove;
    if after.audits == db.audits {
      PacedKept(db, after, staleAfter, now);
    } else {
      var last := after.audits[|db.audits|];
      assert after.audits == db.audits + [last];
      PacedLogged(db, after, staleAfter, now, last);
    }
  }

  lemma EffectsKept(db: Db, after: Db, now: Time, blobs: map<Digest, Bytes>, sent: set<Delivery>, stops: set<Stop>,
                    staleAfter: Time)
    requires EffectsSound(db, blobs, sent, stops, staleAfter, now) && Evolves(db, after, now) && staleAfter > 0
    requires SameLedger(db, after) && SameOutbox(db, after) && after.attempts.Keys == db.attempts.Keys
    requires NoCancellation(db, after) && LogsQuietly(db, after)
    ensures EffectsSound(after, blobs, sent, stops, staleAfter, now)
  {
    EvolvesParts(db, after, now);
    hide Evolves, OperationsMove, Settled, Delivered, CancelledSound, AllPaced, NoCancellation, LogsQuietly;
    DeliveredKept(db, after, now, sent);
    CancellationsKept(db, after, now, stops);
    PacedQuietly(db, after, staleAfter, now);
  }

  // ---------------------------------------------------------------- transactions that only move rows

  ghost predicate OnlyMoves(db: Db, after: Db) {
    && NoneFinishes(db, after) && NewRowsLinked(db, after) && PausesKept(db.missions, after.missions)
    && after.missions.Keys == db.missions.Keys && after.tasks.Keys == db.tasks.Keys
    && after.attempts.Keys == db.attempts.Keys
    && SameLedger(db, after) && SameEvidence(db, after) && SameOutbox(db, after)
    && after.bundles == db.bundles && after.approvals == db.approvals && LogsQuietly(db, after)
  }

  lemma MovesSound(db: Db, after: Db, now: Time, blobs: map<Digest, Bytes>, sent: set<Delivery>, stops: set<Stop>,
                   staleAfter: Time)
    requires Sound(db, blobs, sent, stops, staleAfter, now) && staleAfter > 0
    requires Evolves(db, after, now) && OnlyMoves(db, after) && NoCancellation(db, after)
    ensures Sound(after, blobs, sent, stops, staleAfter, now)
  {
    SoundIff(db, blobs, sent, stops, staleAfter, now);
    SoundIff(after, blobs, sent, stops, staleAfter, now);
    hide Evolves, DbWorkSound, RecordsSound, EffectsSound, NoneFinishes, NewRowsLinked, PausesKept, NoCancellation;
    hide LogsQuietly;
    WorkKept(db, after, now);
    RecordsKept(db, after, now);
    EffectsKept(db, after, now, blobs, sent, stops, staleAfter);
  }

  lemma TakesLeaseFrame(db: Db, after: Db, now: Time, a: Id, owner: Id, until: Time)
    requires TakesLease(db, after, now, a, owner, until)
    ensures OnlyWorkMoves(db, after) && LogsQuietly(db, after) && PausesKept(db.missions, after.missions)
  {
    hide Attempt.Claim, Task.Start, PausesKept;
    MissionKeepsPauses(db.missions, MissionOf(db, a), after.missions[MissionOf(db, a)]);
  }

  lemma TakesLeaseCancelsNone(db: Db, after: Db, now: Time, a: Id, owner: Id, until: Time)
    requires TakesLease(db, after, now, a, owner, until)
    ensures NoCancellation(db, after)
  {
    hide Attempt.Claim, Task.Start;
  }

  lemma TakesLeaseMoves(db: Db, after: Db, now: Time, a: Id, owner: Id, until: Time)
    requires TakesLease(db, after, now, a, owner, until)
    ensures OnlyMoves(db, after) && NoCancellation(db, after)
  {
    hide TakesLease, NoneFinishes, NewRowsLinked, NoCancellation, LogsQuietly, PausesKept;
    TakesLeaseQuiet(db, after, now, a, owner, until);
    TakesLeaseFrame(db, after, now, a, owner, until);
    TakesLeaseCancelsNone(db, after, now, a, owner, until);
  }

  lemma RenewsLeaseMoves(db: Db, after: Db, now: Time, token: Token, until: Time)
    requires RenewsLease(db, after, now, token, until)
    ensures OnlyMoves(db, after) && NoCancellation(db, after)
  {
    RenewsLeaseQuiet(db, after, now, token, until);
    hide NoneFinishes, NewRowsLinked;
  }

  lemma AsksCancellationMoves(db: Db, after: Db, now: Time, mission: Id)
    requires AsksCancellation(db, after, now, mission)
    ensures OnlyMoves(db, after) && NoCancellation(db, after)
  {
    AsksCancellationQuiet(db, after, now, mission);
    hide NoneFinishes, NewRowsLinked;
    MissionKeepsPauses(db.missions, mission, after.missions[mission]);
  }

  /** What the transactions that end an attempt leave alone. */
  predicate OnlyWorkMoves(db: Db, after: Db) {
    && after.missions.Keys == db.missions.Keys && after.tasks.Keys == db.tasks.Keys
    && after.attempts.Keys == db.attempts.Keys
    && SameLedger(db, after) && SameEvidence(db, after) && SameOutbox(db, after)
    && after.bundles == db.bundles && after.approvals == db.approvals
  }

  lemma EndKeepsPauses(missions: map<Id, Mission>, m: Id, y: Mission)
    requires m in missions && (missions[m].Fail() == Ok(y) || missions[m].ConfirmCancel() == Ok(y))
    ensures PausesKept(missions, missions[m := y])
  {
    hide PausesKept;
    MissionKeepsPauses(missions, m, y);
  }

  lemma FailsRunFrame(db: Db, after: Db, now: Time, token: Token, code: FailureCode)
    requires FailsRun(db, after, now, token, code)
    ensures OnlyWorkMoves(db, after) && LogsQuietly(db, after) && PausesKept(db.missions, after.missions)
  {
    hide Attempt.Fail, Task.Fail, Mission.Fail, PausesKept;
    EndKeepsPauses(db.missions, MissionOf(db, token.attempt), after.missions[MissionOf(db, token.attempt)]);
  }

  lemma FailsRunMoves(db: Db, after: Db, now: Time, token: Token, code: FailureCode)
    requires FailsRun(db, after, now, token, code)
    ensures OnlyMoves(db, after) && NoCancellation(db, after)
  {
    hide FailsRun, NoneFinishes, NewRowsLinked, NoCancellation, LogsQuietly, PausesKept;
    FailsRunQuiet(db, after, now, token, code);
    FailsRunFrame(db, after, now, token, code);
    FailsRunCancelsNone(db, after, now, token, code);
  }

  lemma FailsRunCancelsNone(db: Db, after: Db, now: Time, token: Token, code: FailureCode)
    requires FailsRun(db, after, now, token, code)
    ensures NoCancellation(db, after)
  {
    hide Attempt.Fail, Task.Fail;
  }

  lemma CancelsAttemptFrame(db: Db, after: Db, now: Time, token: Token)
    requires CancelsAttempt(db, after, now, token)
    ensures OnlyWorkMoves(db, after) && LogsQuietly(db, after) && PausesKept(db.missions, after.missions)
  {
    hide Attempt.Cancel, Task.Cancel, Mission.ConfirmCancel, PausesKept;
    EndKeepsPauses(db.missions, MissionOf(db, token.attempt), after.missions[MissionOf(db, token.attempt)]);
  }

  lemma CancelsAttemptMoves(db: Db, after: Db, now: Time, token: Token)
    requires CancelsAttempt(db, after, now, token)
    ensures OnlyMoves(db, after)
  {
    hide CancelsAttempt, NoneFinishes, NewRowsLinked, LogsQuietly, PausesKept;
    CancelsAttemptQuiet(db, after, now, token);
    CancelsAttemptFrame(db, after, now, token);
  }

  /** The cancelling transaction, after the sandbox stop was accepted under the same token. */
  lemma CancelsAttemptKeeps(db: Db, after: Db, now: Time, blobs: map<Digest, Bytes>, sent: set<Delivery>,
                            stops: set<Stop>,
                            staleAfter: Time, token: Token, s: Stop)
    requires CancelsAttempt(db, after, now, token) && s in stops && s.live && s.token == token
    requires Sound(db, blobs, sent, stops, staleAfter, now) && staleAfter > 0
    ensures Evolves(db, after, now) && Sound(after, blobs, sent, stops, staleAfter, now)
  {
    SoundIff(db, blobs, sent, stops, staleAfter, now);
    SoundIff(after, blobs, sent, stops, staleAfter, now);
    hide Evolves, CancelsAttempt, DbWorkSound, RecordsSound, NoneFinishes, NewRowsLinked, PausesKept, CancelledSound;
    hide LogsQuietly, Settled, Delivered, AllPaced, OperationsMove, AttemptsMove;
    CancelsAttemptEvolves(db, after, now, token);
    CancelsAttemptMoves(db, after, now, token);
    WorkKept(db, after, now);
    RecordsKept(db, after, now);
    EvolvesParts(db, after, now);
    DeliveredKept(db, after, now, sent);
    CancelsAttemptSound(db, after, now, token, stops, s);
    PacedQuietly(db, after, staleAfter, now);
  }

  // ---------------------------------------------------------------- transactions that add work

  lemma OpensEffects(db: Db, after: Db, now: Time, mission: Id, task: Id, attempt: Id, event: Id)
    requires Opens(db, after, now, mission, task, attempt, event)
    ensures NoGrant(db, after) && PausesKept(db.missions, after.missions)
    ensures NoCancellation(db, after) && LogsQuietly(db, after)
  {}

  lemma OpensWork(db: Db, after: Db, now: Time, mission: Id, task: Id, attempt: Id, event: Id)
    requires Opens(db, after, now, mission, task, attempt, event)
    requires DbWorkSound(db) && Evolves(db, after, now)
    ensures DbWorkSound(after)
  {
    OpensQuiet(db, after, now, mission, task, attempt, event);
    OpensEffects(db, after, now, mission, task, attempt, event);
    hide MissionsMove, TasksMove, AttemptsMove, OperationsMove, ApprovalsMove, WriteOnce, NoneFinishes, NewRowsLinked;
    hide PausesKept, TaskShape, Coupled, AllChildrenCounted, ParentsLinked, NoGrant;
    CompletionsKept(db, after, now);
    OpensTaskShape(db, after, now, mission, task, attempt, event);
    CoupledKept(db.missions, after.missions, db.approvals);
    ChildrenKept(db, after, now);
  }

  lemma OpensKeeps(db: Db, after: Db, now: Time, blobs: map<Digest, Bytes>, sent: set<Delivery>, stops: set<Stop>,
                   staleAfter: Time, mission: Id, task: Id, attempt: Id, event: Id)
    requires Opens(db, after, now, mission, task, attempt, event)
    requires Sound(db, blobs, sent, stops, staleAfter, now) && staleAfter > 0
    ensures Evolves(db, after, now) && Sound(after, blobs, sent, stops, staleAfter, now)
  {
    SoundIff(db, blobs, sent, stops, staleAfter, now);
    SoundIff(after, blobs, sent, stops, staleAfter, now);
    OpensEvolves(db, after, now, mission, task, attempt, event);
    OpensEffects(db, after, now, mission, task, attempt, event);
    hide Evolves, DbWorkSound, RecordsSound, Settled, Delivered, CancelledSound, AllPaced, PausesKept, NoGrant;
    hide LogsQuietly, NoCancellation, OperationsMove, AttemptsMove;
    OpensWork(db, after, now, mission, task, attempt, event);
    RecordsKept(db, after, now);
    OpensDelivered(db, after, now, sent, mission, task, attempt, event);
    CancellationsKept(db, after, now, stops);
    EvolvesParts(db, after, now);
    PacedQuietly(db, after, staleAfter, now);
  }

  lemma SchedulesRepairEffects(db: Db, after: Db, now: Time, token: Token, code: FailureCode, ids: RepairIds)
    requires SchedulesRepair(db, after, now, token, code, ids)
    ensures NoGrant(db, after) && NoCancellation(db, after) && LogsQuietly(db, after)
    ensures SameLedger(db, after) && SameEvidence(db, after)
    ensures after.missions == db.missions && after.bundles == db.bundles && after.approvals == db.approvals
  {
    hide HasRepairTask;
  }

  lemma SchedulesRepairWork(db: Db, after: Db, now: Time, token: Token, code: FailureCode, ids: RepairIds)
    requires SchedulesRepair(db, after, now, token, code, ids)
    requires DbWorkSound(db) && Evolves(db, after, now)
    ensures DbWorkSound(after)
  {
    SchedulesRepairQuiet(db, after, now, token, code, ids);
    SchedulesRepairEffects(db, after, now, token, code, ids);
    hide SchedulesRepair, MissionsMove, TasksMove, AttemptsMove, OperationsMove, ApprovalsMove, WriteOnce, NoneFinishes;
    hide NewRowsLinked, Completions, TaskShape, AllChildrenCounted, ParentsLinked, NoGrant;
    CompletionsKept(db, after, now);
    SchedulesRepairTaskShape(db, after, now, token, code, ids);
    ChildrenKept(db, after, now);
  }

  lemma SchedulesRepairKeeps(db: Db, after: Db, now: Time, blobs: map<Digest, Bytes>, sent: set<Delivery>,
                             stops: set<Stop>,
                             staleAfter: Time, token: Token, code: FailureCode, ids: RepairIds)
    requires SchedulesRepair(db, after, now, token, code, ids)
    requires Sound(db, blobs, sent, stops, staleAfter, now) && staleAfter > 0
    ensures Evolves(db, after, now) && Sound(after, blobs, sent, stops, staleAfter, now)
  {
    SoundIff(db, blobs, sent, stops, staleAfter, now);
    SoundIff(after, blobs, sent, stops, staleAfter, now);
    SchedulesRepairEvolves(db, after, now, token, code, ids);
    SchedulesRepairEffects(db, after, now, token, code, ids);
    hide SchedulesRepair, Evolves, DbWorkSound, RecordsSound, Settled, Delivered, CancelledSound, AllPaced, NoGrant;
    hide LogsQuietly, NoCancellation, OperationsMove, AttemptsMove;
    SchedulesRepairWork(db, after, now, token, code, ids);
    RecordsKept(db, after, now);
    SchedulesRepairDelivered(db, after, now, sent, token, code, ids);
    CancellationsKept(db, after, now, stops);
    EvolvesParts(db, after, now);
    PacedQuietly(db, after, staleAfter, now);
  }

  // ---------------------------------------------------------------- transactions of the ledger

  /** Missions, tasks, attempts, bundles and approvals are untouched. */
  predicate WorkUntouched(db: Db, after: Db) {
    SameWork(db, after) && after.bundles == db.bundles && after.approvals == db.approvals
  }

  lemma WorkCarried(db: Db, after: Db)
    requires DbWorkSound(db) && WorkUntouched(db, after)
    ensures DbWorkSound(after)
  {
    hide WorkSound;
  }

  lemma AddsOperationFrame(db: Db, after: Db, now: Time, token: Token, id: Id, o: Operation)
    requires AddsOperation(db, after, now, token, id, o)
    ensures WorkUntouched(db, after) && NoCancellation(db, after) && LogsQuietly(db, after)
    ensures SameEvidence(db, after) && SameOutbox(db, after) && after.artifacts == db.artifacts
  {}

  lemma AdvancesOperationFrame(db: Db, after: Db, now: Time, token: Token, id: Id)
    requires AdvancesOperation(db, after, now, token, id)
    ensures WorkUntouched(db, after) && NoCancellation(db, after) && LogsQuietly(db, after)
    ensures SameEvidence(db, after) && SameOutbox(db, after)
    ensures after.keys == db.keys && after.operations.Keys == db.operations.Keys
  {
    hide OperationMoves;
  }

  lemma FinishesPutFrame(db: Db, after: Db, now: Time, token: Token, put: Put, id: Id)
    requires FinishesPut(db, after, now, token, put, id)
    ensures WorkUntouched(db, after) && NoCancellation(db, after) && LogsQuietly(db, after)
    ensures SameEvidence(db, after) && SameOutbox(db, after)
    ensures after.keys == db.keys && after.operations.Keys == db.operations.Keys
  {
    hide Operation.Succeed;
  }

  lemma MarksEventFrame(db: Db, after: Db, now: Time, event: Id)
    requires MarksEvent(db, after, now, event)
    ensures WorkUntouched(db, after) && NoCancellation(db, after) && LogsQuietly(db, after)
    ensures SameEvidence(db, after) && SameLedger(db, after)
  {}

  lemma AddsOperationRecords(db: Db, after: Db, now: Time, token: Token, id: Id, o: Operation)
    requires AddsOperation(db, after, now, token, id, o)
    requires RecordsSound(db) && Evolves(db, after, now)
    requires o.kind == CandidateCommit ==> exists p :: Authorizes(db, p, o.attempt, o.input)
    ensures RecordsSound(after)
  {
    hide Evolves, Keyed, Grounded, ApprovalsSound, CandidatesAuthorized, Authorizes;
    AddsOperationKeyed(db, after, now, token, id, o);
    GroundedKept(db, after, now);
    ApprovalsSoundKept(db, after, now);
    AddsOperationAuthorized(db, after, now, token, id, o);
  }

  lemma AddsOperationKeeps(db: Db, after: Db, now: Time, blobs: map<Digest, Bytes>, sent: set<Delivery>,
                           stops: set<Stop>,
                           staleAfter: Time, token: Token, id: Id, o: Operation)
    requires AddsOperation(db, after, now, token, id, o)
    requires o.kind == CandidateCommit ==> exists p :: Authorizes(db, p, o.attempt, o.input)
    requires Sound(db, blobs, sent, stops, staleAfter, now) && staleAfter > 0
    ensures Evolves(db, after, now) && Sound(after, blobs, sent, stops, staleAfter, now)
  {
    SoundIff(db, blobs, sent, stops, staleAfter, now);
    SoundIff(after, blobs, sent, stops, staleAfter, now);
    AddsOperationEvolves(db, after, now, token, id, o);
    AddsOperationFrame(db, after, now, token, id, o);
    WorkCarried(db, after);
    hide AddsOperation, Evolves, DbWorkSound, LogsQuietly, NoCancellation, RecordsSound, Settled, Delivered;
    hide CancelledSound, AllPaced, OperationsMove, AttemptsMove;
    hide Authorizes;
    AddsOperationRecords(db, after, now, token, id, o);
    AddsOperationSettled(db, after, now, token, id, o, blobs);
    DeliveredKept(db, after, now, sent);
    CancellationsKept(db, after, now, stops);
    EvolvesParts(db, after, now);
    PacedQuietly(db, after, staleAfter, now);
  }

  lemma AdvancesOperationKeeps(db: Db, after: Db, now: Time, blobs: map<Digest, Bytes>, sent: set<Delivery>,
                               stops: set<Stop>,
                               staleAfter: Time, token: Token, id: Id)
    requires AdvancesOperation(db, after, now, token, id)
    requires Sound(db, blobs, sent, stops, staleAfter, now) && staleAfter > 0
    ensures Evolves(db, after, now) && Sound(after, blobs, sent, stops, staleAfter, now)
  {
    SoundIff(db, blobs, sent, stops, staleAfter, now);
    SoundIff(after, blobs, sent, stops, staleAfter, now);
    AdvancesOperationEvolves(db, after, now, token, id);
    AdvancesOperationFrame(db, after, now, token, id);
    WorkCarried(db, after);
    hide AdvancesOperation, Evolves, DbWorkSound, LogsQuietly, NoCancellation, RecordsSound, Settled, Delivered;
    hide CancelledSound, AllPaced, OperationsMove, AttemptsMove;
    RecordsKept(db, after, now);
    AdvancesOperationSettled(db, after, now, token, id, blobs);
    DeliveredKept(db, after, now, sent);
    CancellationsKept(db, after, now, stops);
    EvolvesParts(db, after, now);
    PacedQuietly(db, after, staleAfter, now);
  }

  lemma FinishesPutKeeps(db: Db, after: Db, now: Time, blobs: map<Digest, Bytes>, sent: set<Delivery>, stops: set<Stop>,
                         staleAfter: Time, token: Token, put: Put, id: Id)
    requires FinishesPut(db, after, now, token, put, id)
    requires db.operations[id].kind == CasPut && db.operations[id].attempt == token.attempt
    requires db.operations[id].input == Sha256(put.payload) && BlobHeld(blobs, put.Ref())
    requires Sound(db, blobs, sent, stops, staleAfter, now) && staleAfter > 0
    ensures Evolves(db, after, now) && Sound(after, blobs, sent, stops, staleAfter, now)
  {
    SoundIff(db, blobs, sent, stops, staleAfter, now);
    SoundIff(after, blobs, sent, stops, staleAfter, now);
    FinishesPutEvolves(db, after, now, token, put, id);
    FinishesPutFrame(db, after, now, token, put, id);
    WorkCarried(db, after);
    hide FinishesPut, Evolves, DbWorkSound, LogsQuietly, NoCancellation, RecordsSound, Settled, Delivered;
    hide CancelledSound, AllPaced, OperationsMove, AttemptsMove;
    hide BlobHeld;
    RecordsKept(db, after, now);
    FinishesPutSettled(db, after, now, token, put, id, blobs);
    DeliveredKept(db, after, now, sent);
    CancellationsKept(db, after, now, stops);
    EvolvesParts(db, after, now);
    PacedQuietly(db, after, staleAfter, now);
  }

  lemma RecoversOperationsKeeps(db: Db, after: Db, now: Time, blobs: map<Digest, Bytes>, sent: set<Delivery>,
                                stops: set<Stop>,
                                staleAfter: Time, ids: seq<Id>, event: Id)
    requires RecoversOperations(db, after, now, ids, event) && Distinct(ids)
    requires forall i <- ids :: i in db.operations && IsStale(db.operations[i], now - staleAfter)
    requires Sound(db, blobs, sent, stops, staleAfter, now) && staleAfter > 0
    ensures Evolves(db, after, now) && Sound(after, blobs, sent, stops, staleAfter, now)
  {
    SoundIff(db, blobs, sent, stops, staleAfter, now);
    SoundIff(after, blobs, sent, stops, staleAfter, now);
    RecoversOperationsEvolves(db, after, now, ids, event);
    RecoversFrame(db, after, now, ids, event);
    hide RecoversOperations, Evolves, RecordsSound, Settled, Delivered, CancelledSound, AllPaced, WorkSound, IsStale;
    hide Distinct;
    RecordsKept(db, after, now);
    RecoversOperationsSettled(db, after, now, ids, event, blobs);
    RecoversOperationsDelivered(db, after, now, sent, ids, event);
    CancellationsKept(db, after, now, stops);
    RecoversOperationsPaced(db, after, staleAfter, now, ids, event);
  }

  lemma RecoversFrame(db: Db, after: Db, now: Time, ids: seq<Id>, event: Id)
    requires RecoversOperations(db, after, now, ids, event)
    ensures after.operations.Keys == db.operations.Keys
    ensures after == db.(operations := after.operations, audits := after.audits, outbox := after.outbox)
  {}

  lemma MarksEventKeeps(db: Db, after: Db, now: Time, blobs: map<Digest, Bytes>, sent: set<Delivery>, stops: set<Stop>,
                        staleAfter: Time, event: Id)
    requires MarksEvent(db, after, now, event)
    requires exists e <- db.outbox :: e.id == event && Delivery(e.topic, e.attempt) in sent
    requires Sound(db, blobs, sent, stops, staleAfter, now) && staleAfter > 0
    ensures Evolves(db, after, now) && Sound(after, blobs, sent, stops, staleAfter, now)
  {
    SoundIff(db, blobs, sent, stops, staleAfter, now);
    SoundIff(after, blobs, sent, stops, staleAfter, now);
    MarksEventEvolves(db, after, now, event);
    MarksEventFrame(db, after, now, event);
    WorkCarried(db, after);
    hide MarksEvent, Evolves, DbWorkSound, LogsQuietly, NoCancellation, RecordsSound, Settled, Delivered;
    hide CancelledSound, AllPaced, OperationsMove, AttemptsMove;
    RecordsKept(db, after, now);
    MarksEventDelivered(db, after, now, sent, event);
    CancellationsKept(db, after, now, stops);
    EvolvesParts(db, after, now);
    PacedQuietly(db, after, staleAfter, now);
  }

  // ---------------------------------------------------------------- transactions of the evidence gate

  lemma RegistersResultFrame(db: Db, after: Db, now: Time, token: Token, e: Evidence, metric: Id, claim: Id)
    requires RegistersResult(db, after, now, token, e, metric, claim)
    ensures PausesKept(db.missions, after.missions) && NoCancellation(db, after) && LogsQuietly(db, after)
    ensures after.missions.Keys == db.missions.Keys && after.tasks == db.tasks && after.attempts == db.attempts
    ensures SameLedger(db, after) && SameOutbox(db, after)
    ensures after.bundles == db.bundles && after.approvals == db.approvals
  {
    MissionKeepsPauses(db.missions, MissionOf(db, token.attempt), after.missions[MissionOf(db, token.attempt)]);
  }

  lemma RegistersResultRecords(db: Db, after: Db, now: Time, token: Token, e: Evidence, metric: Id, claim: Id)
    requires RegistersResult(db, after, now, token, e, metric, claim) && Proven(db, token, e)
    requires RecordsSound(db) && Evolves(db, after, now)
    ensures RecordsSound(after)
  {
    RegistersResultFrame(db, after, now, token, e, metric, claim);
    EvolvesParts(db, after, now);
    hide RegistersResult, Evolves, Keyed, Grounded, ApprovalsSound, CandidatesAuthorized, Proven, AttemptsMove;
    hide OperationsMove;
    KeyedKept(db, after, now);
    RegistersResultGrounded(db, after, now, token, e, metric, claim);
    ApprovalsSoundKept(db, after, now);
    CandidatesKept(db, after, now);
  }

  lemma RegistersResultKeeps(db: Db, after: Db, now: Time, blobs: map<Digest, Bytes>, sent: set<Delivery>,
                             stops: set<Stop>,
                             staleAfter: Time, token: Token, e: Evidence, metric: Id, claim: Id)
    requires RegistersResult(db, after, now, token, e, metric, claim) && Proven(db, token, e)
    requires Sound(db, blobs, sent, stops, staleAfter, now) && staleAfter > 0
    ensures Evolves(db, after, now) && Sound(after, blobs, sent, stops, staleAfter, now)
  {
    SoundIff(db, blobs, sent, stops, staleAfter, now);
    SoundIff(after, blobs, sent, stops, staleAfter, now);
    RegistersResultEvolves(db, after, now, token, e, metric, claim);
    RegistersResultQuiet(db, after, now, token, e, metric, claim);
    RegistersResultFrame(db, after, now, token, e, metric, claim);
    hide RegistersResult, Evolves, DbWorkSound, RecordsSound, EffectsSound, NoneFinishes, NewRowsLinked, PausesKept;
    hide NoCancellation, LogsQuietly, Proven;
    WorkKept(db, after, now);
    RegistersResultRecords(db, after, now, token, e, metric, claim);
    EffectsKept(db, after, now, blobs, sent, stops, staleAfter);
  }

  lemma FinishesMissionFrame(db: Db, after: Db, now: Time, token: Token, artifact: ArtifactRef)
    requires FinishesMission(db, after, now, token, artifact)
    ensures PausesKept(db.missions, after.missions) && NoCancellation(db, after) && LogsQuietly(db, after)
    ensures after.missions.Keys == db.missions.Keys && after.tasks.Keys == db.tasks.Keys
    ensures after.attempts.Keys == db.attempts.Keys
    ensures SameLedger(db, after) && SameEvidence(db, after) && SameOutbox(db, after) && after.approvals == db.approvals
  {
    MissionKeepsPauses(db.missions, MissionOf(db, token.attempt), after.missions[MissionOf(db, token.attempt)]);
  }

  lemma FinishesMissionWork(db: Db, after: Db, now: Time, token: Token, artifact: ArtifactRef)
    requires FinishesMission(db, after, now, token, artifact)
    requires DbWorkSound(db) && Evolves(db, after, now)
    ensures DbWorkSound(after)
  {
    FinishesMissionFrame(db, after, now, token, artifact);
    hide FinishesMission, MissionsMove, TasksMove, AttemptsMove, OperationsMove, ApprovalsMove, WriteOnce;
    hide PausesKept, Completions, TaskShape, Coupled, AllChildrenCounted, ParentsLinked, NoGrant;
    FinishesMissionCompletions(db, after, now, token, artifact);
    TaskShapeKept(db, after);
    CoupledKept(db.missions, after.missions, db.approvals);
    NoGrantWithSameApprovals(db, after);
    ChildrenKept(db, after, now);
  }

  lemma FinishesMissionRecords(db: Db, after: Db, now: Time, token: Token, artifact: ArtifactRef)
    requires FinishesMission(db, after, now, token, artifact)
    requires GateOpen(db, token.attempt) && Registered(db, Key(token.attempt, BundleSlot), artifact)
    requires RecordsSound(db) && Evolves(db, after, now)
    ensures RecordsSound(after)
  {
    FinishesMissionFrame(db, after, now, token, artifact);
    EvolvesParts(db, after, now);
    hide FinishesMission, Evolves, Keyed, Grounded, ApprovalsSound, CandidatesAuthorized, GateOpen, Registered;
    hide AttemptsMove, OperationsMove;
    KeyedKept(db, after, now);
    FinishesMissionGrounded(db, after, now, token, artifact);
    ApprovalsSoundKept(db, after, now);
    CandidatesKept(db, after, now);
  }

  /** The completing transaction. It does not look at metrics or claims: the gate was checked
      by an earlier transaction, and the bundle was registered in between. */
  lemma FinishesMissionKeeps(db: Db, after: Db, now: Time, blobs: map<Digest, Bytes>, sent: set<Delivery>,
                             stops: set<Stop>,
                             staleAfter: Time, token: Token, artifact: ArtifactRef)
    requires FinishesMission(db, after, now, token, artifact)
    requires GateOpen(db, token.attempt) && Registered(db, Key(token.attempt, BundleSlot), artifact)
    requires Sound(db, blobs, sent, stops, staleAfter, now) && staleAfter > 0
    ensures Evolves(db, after, now) && Sound(after, blobs, sent, stops, staleAfter, now)
  {
    SoundIff(db, blobs, sent, stops, staleAfter, now);
    SoundIff(after, blobs, sent, stops, staleAfter, now);
    FinishesMissionEvolves(db, after, now, token, artifact);
    FinishesMissionFrame(db, after, now, token, artifact);
    hide FinishesMission, Evolves, DbWorkSound, RecordsSound, EffectsSound, PausesKept, NoCancellation, LogsQuietly;
    hide GateOpen, Registered;
    FinishesMissionWork(db, after, now, token, artifact);
    FinishesMissionRecords(db, after, now, token, artifact);
    EffectsKept(db, after, now, blobs, sent, stops, staleAfter);
  }

  // ---------------------------------------------------------------- transactions of approvals

  lemma AsksApprovalFrame(db: Db, after: Db, cfg: Config, now: Time, token: Token, patch: ArtifactRef, approval: Id)
    requires AsksApproval(db, after, cfg, now, token, patch, approval)
    ensures NoGrant(db, after) && NoCancellation(db, after) && LogsQuietly(db, after)
    ensures after.missions.Keys == db.missions.Keys && after.tasks.Keys == db.tasks.Keys
    ensures after.attempts.Keys == db.attempts.Keys
    ensures SameLedger(db, after) && SameEvidence(db, after) && SameOutbox(db, after) && after.bundles == db.bundles
  {}

  lemma AsksApprovalWork(db: Db, after: Db, cfg: Config, now: Time, token: Token, patch: ArtifactRef, approval: Id)
    requires AsksApproval(db, after, cfg, now, token, patch, approval)
    requires DbWorkSound(db) && Evolves(db, after, now)
    ensures DbWorkSound(after)
  {
    AsksApprovalFrame(db, after, cfg, now, token, patch, approval);
    AsksApprovalQuiet(db, after, cfg, now, token, patch, approval);
    hide AsksApproval, MissionsMove, TasksMove, AttemptsMove, OperationsMove, ApprovalsMove, WriteOnce, NoneFinishes;
    hide NewRowsLinked, Completions, TaskShape, Coupled, AllChildrenCounted, ParentsLinked, NoGrant;
    CompletionsKept(db, after, now);
    TaskShapeKept(db, after);
    AsksApprovalCoupled(db, after, cfg, now, token, patch, approval);
    ChildrenKept(db, after, now);
  }

  lemma AsksApprovalRecords(db: Db, after: Db, cfg: Config, now: Time, token: Token, patch: ArtifactRef, approval: Id)
    requires AsksApproval(db, after, cfg, now, token, patch, approval)
    requires Registered(db, Key(token.attempt, PatchSlot(patch.sha)), patch)
    requires RecordsSound(db) && Evolves(db, after, now)
    ensures RecordsSound(after)
  {
    AsksApprovalFrame(db, after, cfg, now, token, patch, approval);
    EvolvesParts(db, after, now);
    hide AsksApproval, Evolves, Keyed, Grounded, ApprovalsSound, CandidatesAuthorized, Registered;
    hide AttemptsMove, OperationsMove;
    KeyedKept(db, after, now);
    GroundedKept(db, after, now);
    AsksApprovalSound(db, after, cfg, now, token, patch, approval);
    CandidatesKept(db, after, now);
  }

  lemma AsksApprovalKeeps(db: Db, after: Db, cfg: Config, now: Time, blobs: map<Digest, Bytes>, sent: set<Delivery>,
                          stops: set<Stop>,
                          staleAfter: Time, token: Token, patch: ArtifactRef, approval: Id)
    requires AsksApproval(db, after, cfg, now, token, patch, approval)
    requires Registered(db, Key(token.attempt, PatchSlot(patch.sha)), patch)
    requires Sound(db, blobs, sent, stops, staleAfter, now) && staleAfter > 0
    ensures Evolves(db, after, now) && Sound(after, blobs, sent, stops, staleAfter, now)
  {
    SoundIff(db, blobs, sent, stops, staleAfter, now);
    SoundIff(after, blobs, sent, stops, staleAfter, now);
    AsksApprovalEvolves(db, after, cfg, now, token, patch, approval);
    AsksApprovalFrame(db, after, cfg, now, token, patch, approval);
    hide AsksApproval, Evolves, DbWorkSound, RecordsSound, EffectsSound, NoGrant, NoCancellation, LogsQuietly;
    hide Registered;
    AsksApprovalWork(db, after, cfg, now, token, patch, approval);
    AsksApprovalRecords(db, after, cfg, now, token, patch, approval);
    EffectsKept(db, after, now, blobs, sent, stops, staleAfter);
  }

  lemma GrantsApprovalFrame(db: Db, after: Db, now: Time, approval: Id, decider: Id, child: Id, event: Id)
    requires GrantsApproval(db, after, now, approval, decider, child, event)
    ensures approval in db.approvals && NoCancellation(db, after) && LogsQuietly(db, after)
    ensures after.missions.Keys == db.missions.Keys && after.tasks == db.tasks
    ensures SameLedger(db, after) && SameEvidence(db, after) && after.bundles == db.bundles
    ensures after.approvals.Keys == db.approvals.Keys
  {}

  lemma GrantsApprovalWork(db: Db, after: Db, now: Time, approval: Id, decider: Id, child: Id, event: Id)
    requires GrantsApproval(db, after, now, approval, decider, child, event)
    requires approval in db.approvals && ApprovalSound(db, approval)
    requires DbWorkSound(db) && Evolves(db, after, now)
    ensures DbWorkSound(after)
  {
    GrantsApprovalFrame(db, after, now, approval, decider, child, event);
    GrantsApprovalQuiet(db, after, now, approval, decider, child, event);
    hide GrantsApproval, MissionsMove, TasksMove, AttemptsMove, OperationsMove, ApprovalsMove, WriteOnce, NoneFinishes;
    hide NewRowsLinked, Completions, TaskShape, Coupled, AllChildrenCounted, ParentsLinked, ApprovalSound;
    CompletionsKept(db, after, now);
    TaskShapeKept(db, after);
    GrantsApprovalCoupled(db, after, now, approval, decider, child, event);
    GrantsApprovalChildren(db, after, now, approval, decider, child, event);
    GrantsApprovalParents(db, after, now, approval, decider, child, event);
  }

  lemma GrantsApprovalKeeps(db: Db, after: Db, now: Time, blobs: map<Digest, Bytes>, sent: set<Delivery>,
                            stops: set<Stop>,
                            staleAfter: Time, approval: Id, decider: Id, child: Id, event: Id)
    requires GrantsApproval(db, after, now, approval, decider, child, event)
    requires Sound(db, blobs, sent, stops, staleAfter, now) && staleAfter > 0
    ensures Evolves(db, after, now) && Sound(after, blobs, sent, stops, staleAfter, now)
  {
    SoundIff(db, blobs, sent, stops, staleAfter, now);
    SoundIff(after, blobs, sent, stops, staleAfter, now);
    hide GrantsApproval, Evolves, DbWorkSound, RecordsSound, Settled, Delivered, CancelledSound, AllPaced;
    hide ApprovalSound;
    hide LogsQuietly, NoCancellation, OperationsMove, AttemptsMove;
    GrantsApprovalEvolves(db, after, now, approval, decider, child, event);
    GrantsApprovalFrame(db, after, now, approval, decider, child, event);
    ApprovalIsSound(db, approval);
    GrantsApprovalWork(db, after, now, approval, decider, child, event);
    RecordsKept(db, after, now);
    GrantsApprovalDelivered(db, after, now, sent, approval, decider, child, event);
    CancellationsKept(db, after, now, stops);
    EvolvesParts(db, after, now);
    PacedQuietly(db, after, staleAfter, now);
  }

  lemma ApprovalIsSound(db: Db, approval: Id)
    requires RecordsSound(db) && approval in db.approvals
    ensures ApprovalSound(db, approval)
  {}

  lemma DeniesApprovalFrame(db: Db, after: Db, now: Time, approval: Id, decider: Id)
    requires DeniesApproval(db, after, now, approval, decider)
    ensures NoGrant(db, after) && NoCancellation(db, after) && LogsQuietly(db, after)
    ensures after.missions.Keys == db.missions.Keys && after.tasks.Keys == db.tasks.Keys
    ensures after.attempts == db.attempts
    ensures SameLedger(db, after) && SameEvidence(db, after) && SameOutbox(db, after) && after.bundles == db.bundles
    ensures after.approvals.Keys == db.approvals.Keys
  {}

  lemma DeniesApprovalWork(db: Db, after: Db, now: Time, approval: Id, decider: Id)
    requires DeniesApproval(db, after, now, approval, decider)
    requires DbWorkSound(db) && Evolves(db, after, now)
    ensures DbWorkSound(after)
  {
    DeniesApprovalFrame(db, after, now, approval, decider);
    DeniesApprovalQuiet(db, after, now, approval, decider);
    hide DeniesApproval, MissionsMove, TasksMove, AttemptsMove, OperationsMove, ApprovalsMove, WriteOnce, NoneFinishes;
    hide NewRowsLinked, Completions, TaskShape, Coupled, AllChildrenCounted, ParentsLinked, NoGrant;
    CompletionsKept(db, after, now);
    TaskShapeKept(db, after);
    DeniesApprovalCoupled(db, after, now, approval, decider);
    ChildrenKept(db, after, now);
  }

  lemma DeniesApprovalKeeps(db: Db, after: Db, now: Time, blobs: map<Digest, Bytes>, sent: set<Delivery>,
                            stops: set<Stop>,
                            staleAfter: Time, approval: Id, decider: Id)
    requires DeniesApproval(db, after, now, approval, decider)
    requires Sound(db, blobs, sent, stops, staleAfter, now) && staleAfter > 0
    ensures Evolves(db, after, now) && Sound(after, blobs, sent, stops, staleAfter, now)
  {
    SoundIff(db, blobs, sent, stops, staleAfter, now);
    SoundIff(after, blobs, sent, stops, staleAfter, now);
    hide DeniesApproval, Evolves, DbWorkSound, RecordsSound, EffectsSound, NoGrant, NoCancellation, LogsQuietly;
    DeniesApprovalEvolves(db, after, now, approval, decider);
    DeniesApprovalFrame(db, after, now, approval, decider);
    DeniesApprovalWork(db, after, now, approval, decider);
    RecordsKept(db, after, now);
    EffectsKept(db, after, now, blobs, sent, stops, staleAfter);
  }
}
