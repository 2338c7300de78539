/** Cancellation: what a cancelled mission proves about its sandbox, and what is refused while
    a mission is being cancelled. */
module Cancellation {
  import opened Basics
  import opened Lifecycle
  import opened Tables
  import opened Transactions
  import opened Evolution
  import opened Changes
  import opened Completion

  /** The sandbox boundary accepted a stop request that a worker sent under `token`; `live` says
      whether the token still held the lease at that moment. */
  datatype Stop = Stop(token: Token, at: Time, live: bool)

  predicate StoppedBy(db: Db, stops: set<Stop>, s: Stop, m: Id) {
    && s in stops && s.live
    && OwnedBy(db.tasks, db.attempts, s.token.attempt, m)
    && db.attempts[s.token.attempt].status == AttemptStatus.Cancelled
    && db.tasks[db.attempts[s.token.attempt].task].status == TaskStatus.Cancelled
  }

  /** A cancelled mission has an attempt that is cancelled with its task, and whose sandbox stop
      was accepted under a live lease. */
  ghost predicate CancelledSound(db: Db, stops: set<Stop>) {
    forall m :: m in db.missions && db.missions[m].status == MissionStatus.Cancelled ==>
      exists s :: StoppedBy(db, stops, s, m)
  }

  lemma StopStands(db: Db, after: Db, now: Time, stops: set<Stop>, more: set<Stop>, s: Stop, m: Id)
    requires Evolves(db, after, now) && StoppedBy(db, stops, s, m) && stops <= more
    ensures StoppedBy(after, more, s, m)
  {
    hide OperationsMove, ApprovalsMove, MissionsMove, WriteOnce;
  }

  predicate NewlyCancelled(db: Db, after: Db, m: Id) {
    m in after.missions && after.missions[m].status == MissionStatus.Cancelled
    && (m in db.missions ==> db.missions[m].status != MissionStatus.Cancelled)
  }

  lemma CancelledKept(db: Db, after: Db, now: Time, stops: set<Stop>)
    requires CancelledSound(db, stops) && Evolves(db, after, now)
    requires forall m :: NewlyCancelled(db, after, m) ==> exists s :: StoppedBy(after, stops, s, m)
    ensures CancelledSound(after, stops)
  {
    hide Evolves, StoppedBy;
    forall m | m in after.missions && after.missions[m].status == MissionStatus.Cancelled
      ensures exists s :: StoppedBy(after, stops, s, m)
    {
      if !NewlyCancelled(db, after, m) {
        var s :| StoppedBy(db, stops, s, m);
        StopStands(db, after, now, stops, stops, s, m);
      }
    }
  }

  lemma MoreStops(db: Db, stops: set<Stop>, s: Stop)
    requires CancelledSound(db, stops)
    ensures CancelledSound(db, stops + {s})
  {
    forall m | m in db.missions && db.missions[m].status == MissionStatus.Cancelled
      ensures exists t :: StoppedBy(db, stops + {s}, t, m)
    {
      var t :| StoppedBy(db, stops, t, m);
      assert StoppedBy(db, stops + {s}, t, m);
    }
  }

  lemma CancelsAttemptSound(db: Db, after: Db, now: Time, token: Token, stops: set<Stop>, s: Stop)
    requires CancelsAttempt(db, after, now, token) && Evolves(db, after, now)
    requires CancelledSound(db, stops) && s in stops && s.live && s.token == token
    ensures CancelledSound(after, stops)
  {
    CancelsOnlyOwn(db, after, now, token);
    hide Evolves;
    assert StoppedBy(after, stops, s, MissionOf(db, token.attempt));
    CancelledKept(db, after, now, stops);
  }

  lemma CancelsOnlyOwn(db: Db, after: Db, now: Time, token: Token)
    requires CancelsAttempt(db, after, now, token)
    ensures forall m :: NewlyCancelled(db, after, m) ==> m == MissionOf(db, token.attempt)
  {}

  // ---------------------------------------------------------------- two-state facts

  /** An operation reaches success only while its attempt holds the live lease of exactly the
      epoch that the operation was prepared in. */
  predicate SuccessFenced(db: Db, after: Db, now: Time, o: Id)
    requires o in after.operations
  {
    after.operations[o].status == OperationStatus.Succeeded
    && !(o in db.operations && db.operations[o].status == OperationStatus.Succeeded)
    ==>
      && o in db.operations && db.operations[o].attempt in db.attempts
      && Live(db.attempts[db.operations[o].attempt], now)
      && db.attempts[db.operations[o].attempt].epoch == db.operations[o].epoch
  }

  ghost predicate Fenced(db: Db, after: Db, now: Time) {
    forall o :: o in after.operations ==> SuccessFenced(db, after, now, o)
  }

  /** The attempt existed before, and its mission was not being cancelled. */
  predicate MayStart(db: Db, a: Id) {
    Indexed(db, a) && db.missions[MissionOf(db, a)].status != MissionStatus.Cancelling
  }

  /** Only an attempt whose mission is not being cancelled gets a worktree, sandbox or blob
      operation, or registers an artifact. */
  ghost predicate CancellationRespected(db: Db, after: Db) {
    && (forall o :: o in after.operations && o !in db.operations && after.operations[o].kind != CandidateCommit ==>
          MayStart(db, after.operations[o].attempt))
    && (forall o :: o in after.artifacts && o !in db.artifacts ==> MayStart(db, after.artifacts[o].attempt))
  }

  ghost predicate Disciplined(db: Db, after: Db, now: Time) {
    Fenced(db, after, now) && CancellationRespected(db, after)
  }

  lemma SameLedgerDisciplined(db: Db, after: Db, now: Time)
    requires SameLedger(db, after)
    ensures Disciplined(db, after, now)
  {}

  lemma AddsOperationDisciplined(db: Db, after: Db, now: Time, token: Token, id: Id, o: Operation)
    requires AddsOperation(db, after, now, token, id, o)
    ensures Disciplined(db, after, now)
  {}

  lemma AdvancesOperationDisciplined(db: Db, after: Db, now: Time, token: Token, id: Id)
    requires AdvancesOperation(db, after, now, token, id)
    requires db.operations[id].attempt == token.attempt && db.operations[id].epoch == token.epoch
    ensures Disciplined(db, after, now)
  {}

  lemma FinishesPutDisciplined(db: Db, after: Db, now: Time, token: Token, put: Put, id: Id)
    requires FinishesPut(db, after, now, token, put, id)
    requires db.operations[id].attempt == token.attempt && db.operations[id].epoch == token.epoch
    ensures Disciplined(db, after, now)
  {}

  lemma RecoversOperationsDisciplined(db: Db, after: Db, now: Time, ids: seq<Id>, event: Id)
    requires RecoversOperations(db, after, now, ids, event)
    ensures Disciplined(db, after, now)
  {
    forall o | o in after.operations ensures SuccessFenced(db, after, now, o) {
      assert o in db.operations;
    }
  }
}
