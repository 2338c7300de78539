/** The reconciler is fair: a stale operation waits only for the older ones. */
module Fairness {
  import opened Basics
  import opened Lifecycle
  import opened Tables
  import opened Transactions
  import opened Evolution
  import opened Changes
  import opened Cancellation
  import opened Runtime
  import opened Safety
  import opened Effects
  import opened Steps
  import opened History
  import opened Theorems
  import Invariant

  /** The unfinished operations that the stale query lists before `o`. */
  function OlderThan(ops: map<Id, Operation>, o: Id): set<Id>
    requires o in ops
  {
    set x | x in ops && Open(ops[x]) && Precedes(ops, x, o)
  }

  /** This step is a reconciler run that takes at least `limit` operations if there are that many. */
  predicate Reconciles(w: World, step: Step, limit: nat) {
    step.ReconcileStep? && step.limit >= limit && forall e <- w.db.outbox :: e.id < step.event
  }

  function Reconciliations(w: World, steps: seq<Step>, limit: nat): nat
    decreases |steps|
  {
    if steps == [] then 0
    else (if Reconciles(w, steps[0], limit) then 1 else 0) + Reconciliations(Apply(w, steps[0]), steps[1..], limit)
  }

  // ---------------------------------------------------------------- a run of the reconciler succeeds

  lemma {:induction false} RecoverSucceeds(db: Db, now: Time, ids: seq<Id>, event: Id)
    requires Distinct(ids)
    requires forall o <- ids :: o in db.operations && Open(db.operations[o]) && Indexed(db, db.operations[o].attempt)
    ensures Recover(db, now, ids, event).Ok?
    decreases |ids|
  {
    if ids != [] {
      assert ids[0] in ids;
      var next := RecoverFirst(db, now, ids[0], event);
      RecoverUnfolds0(db, now, ids, event);
      forall o | o in ids[1..]
        ensures o in next.operations && Open(next.operations[o]) && Indexed(next, next.operations[o].attempt)
      {
        assert o in ids && o != ids[0];
      }
      RecoverSucceeds(next, now, ids[1..], event + 1);
    }
  }

  lemma RecoverUnfolds0(db: Db, now: Time, ids: seq<Id>, event: Id)
    requires ids != [] && ids[0] in db.operations && Open(db.operations[ids[0]])
    requires Indexed(db, db.operations[ids[0]].attempt)
    ensures db.operations[ids[0]].RequestRecovery(now).Ok?
    ensures Recover(db, now, ids, event) == Recover(RecoverFirst(db, now, ids[0], event), now, ids[1..], event + 1)
  {}

  lemma ReconcileIsRecover(db: Db, cfg: Config, now: Time, limit: nat, event: Id)
    requires limit > 0
    ensures ReconcileStale(db, cfg, now, limit, event) ==
            Recover(db, now, OldestFirst(db.operations, StaleIds(db.operations, now - cfg.staleAfter), limit), event)
  {
    hide Recover, OldestFirst, StaleIds;
  }

  lemma PickedAreReady(w: World, ids: seq<Id>, before: Time)
    requires Safe(w) && forall o <- ids :: o in w.db.operations && IsStale(w.db.operations[o], before)
    ensures forall o <- ids ::
      o in w.db.operations && Open(w.db.operations[o]) && Indexed(w.db, w.db.operations[o].attempt)
  {
    hide Safe, Indexed;
    OperationsIndexed(w);
  }

  /** A run of the reconciler fails for a limit that is not positive and for no other reason. */
  lemma ReconcileSucceeds(w: World, limit: int, event: Id)
    requires Safe(w)
    ensures ReconcileStale(w.db, w.cfg, w.now, limit, event).Ok? <==> limit > 0
  {
    hide Safe, Recover, Indexed, Distinct, ReconcileStale, OldestFirst, IsStale, Open;
    if limit <= 0 {
      NothingToTake(w.db, w.cfg, w.now, limit, event);
    } else {
      var before := w.now - w.cfg.staleAfter;
      var ids := OldestFirst(w.db.operations, StaleIds(w.db.operations, before), limit);
      StalePicks(w.db.operations, before, limit);
      PickedAreReady(w, ids, before);
      RecoverSucceeds(w.db, w.now, ids, event);
      ReconcileIsRecover(w.db, w.cfg, w.now, limit, event);
    }
  }

  lemma NothingToTake(db: Db, cfg: Config, now: Time, limit: int, event: Id)
    requires limit <= 0
    ensures ReconcileStale(db, cfg, now, limit, event).Err?
  {}

  // ---------------------------------------------------------------- one step

  /** An operation that changes is updated now, so it is no longer older than one that is stale. */
  lemma OlderOnlyShrink(ops: map<Id, Operation>, later: map<Id, Operation>, now: Time, o: Id)
    requires OperationsMove(ops, later, now) && o in ops && o in later && later[o] == ops[o]
    requires ops[o].updatedAt < now
    ensures OlderThan(later, o) <= OlderThan(ops, o)
  {
    forall x | x in OlderThan(later, o) ensures x in OlderThan(ops, o) {
      if x in ops { assert OperationMoves(ops[x], later[x], now); } else { assert Begun(later[x], now); }
    }
  }

  function Members(ids: seq<Id>): set<Id> {
    set o | o in ids
  }

  lemma {:induction false} DistinctSize(ids: seq<Id>)
    requires Distinct(ids)
    ensures |Members(ids)| == |ids|
  {
    if ids != [] {
      var front, last := ids[..|ids| - 1], ids[|ids| - 1];
      DistinctSize(front);
      assert last !in front;
      assert Members(ids) == Members(front) + {last};
    }
  }

  lemma PickedWereOlder(ops: map<Id, Operation>, before: Time, limit: nat, o: Id)
    requires o in ops && IsStale(ops[o], before)
    requires o !in OldestFirst(ops, StaleIds(ops, before), limit)
    ensures var ids := OldestFirst(ops, StaleIds(ops, before), limit);
      |ids| == limit && Distinct(ids) && forall x <- ids :: x in OlderThan(ops, o)
  {
    var candidates := StaleIds(ops, before);
    var ids := OldestFirst(ops, candidates, limit);
    assert o in candidates;
    if |candidates| <= limit {
      DistinctSize(ids);
      var picked := Members(ids);
      SubsetOfSameSize(picked, candidates);
    }
  }

  lemma SubsetOfSameSize(some: set<Id>, all: set<Id>)
    requires some <= all && |some| == |all|
    ensures some == all
  {
    if x :| x in all && x !in some {
      SubsetSize(some + {x}, all);
    }
  }

  lemma RecoveredAreNewer(ops: map<Id, Operation>, later: map<Id, Operation>, now: Time, o: Id, ids: seq<Id>)
    requires o in ops && o in later && later[o] == ops[o] && ops[o].updatedAt < now
    requires forall x <- ids :: x in OlderThan(ops, o) && x in later && later[x].updatedAt == now
    requires OlderThan(later, o) <= OlderThan(ops, o) && Distinct(ids)
    ensures |OlderThan(later, o)| + |ids| <= |OlderThan(ops, o)|
  {
    DistinctSize(ids);
    var picked := Members(ids);
    assert OlderThan(later, o) !! picked;
    SubsetSize(OlderThan(later, o) + picked, OlderThan(ops, o));
  }

  lemma ReconcilePicks(w: World, limit: int, event: Id, o: Id)
    requires Safe(w) && limit > 0 && forall e <- w.db.outbox :: e.id < event
    requires o in w.db.operations && IsStale(w.db.operations[o], w.now - w.cfg.staleAfter)
    ensures var v := Reconcile(w, limit, event);
      var ids := OldestFirst(w.db.operations, StaleIds(w.db.operations, w.now - w.cfg.staleAfter), limit);
      RecoversOperations(w.db, v.db, w.now, ids, event)
  {
    hide Safe, Recover, Indexed, RecoversOperations, OldestFirst, StaleIds;
    OperationsIndexed(w);
    ReconcileSucceeds(w, limit, event);
    ReconcileChange(w.db, w.cfg, w.now, limit, event);
  }

  lemma RecoveredRows(db: Db, after: Db, now: Time, ids: seq<Id>, event: Id, x: Id)
    requires RecoversOperations(db, after, now, ids, event) && x in ids
    ensures x in db.operations && x in after.operations && after.operations[x].updatedAt == now
    ensures after.operations[x] != db.operations[x]
  {}

  /** A reconciler run that leaves a stale operation alone took `limit` older ones. */
  lemma ReconcileTakesOlder(w: World, limit: int, event: Id, o: Id)
    requires Safe(w) && limit > 0 && forall e <- w.db.outbox :: e.id < event
    requires o in w.db.operations && IsStale(w.db.operations[o], w.now - w.cfg.staleAfter) && w.cfg.staleAfter > 0
    requires var v := Reconcile(w, limit, event);
      && o in v.db.operations && v.db.operations[o] == w.db.operations[o]
      && OlderThan(v.db.operations, o) <= OlderThan(w.db.operations, o)
    ensures |OlderThan(Reconcile(w, limit, event).db.operations, o)| + limit <= |OlderThan(w.db.operations, o)|
  {
    hide Safe, RecoversOperations, OldestFirst, Reconcile, OlderThan;
    var ids := OldestFirst(w.db.operations, StaleIds(w.db.operations, w.now - w.cfg.staleAfter), limit);
    var after := Reconcile(w, limit, event).db;
    ReconcilePicks(w, limit, event, o);
    forall x | x in ids ensures x in after.operations && after.operations[x].updatedAt == w.now && x != o {
      RecoveredRows(w.db, after, w.now, ids, event, x);
    }
    PickedWereOlder(w.db.operations, w.now - w.cfg.staleAfter, limit, o);
    RecoveredAreNewer(w.db.operations, after.operations, w.now, o, ids);
  }

  lemma StepTakesOlder(w: World, step: Step, v: World, limit: nat, o: Id)
    requires Safe(w) && limit > 0
    requires o in w.db.operations && IsStale(w.db.operations[o], w.now - w.cfg.staleAfter)
    requires o in v.db.operations && v.db.operations[o] == w.db.operations[o]
    requires v == Apply(w, step)
    ensures |OlderThan(v.db.operations, o)| + (if Reconciles(w, step, limit) then limit else 0)
            <= |OlderThan(w.db.operations, o)|
  {
    hide Safe, Good, Apply, Evolves, Disciplined, Extends, OlderThan, OperationsMove, AttemptsMove, Reconcile;
    hide Invariant.Sound;
    SafeParts(w);
    StepGood(w, step);
    StepForward(w, v);
    Invariant.EvolvesParts(w.db, v.db, w.now);
    OlderOnlyShrink(w.db.operations, v.db.operations, w.now, o);
    if Reconciles(w, step, limit) {
      ReconcileApplies(w, step.limit, step.event);
      ReconcileTakesOlder(w, step.limit, step.event, o);
    } else {
      SubsetSize(OlderThan(v.db.operations, o), OlderThan(w.db.operations, o));
    }
  }

  // ---------------------------------------------------------------- over a run

  lemma UnchangedBetween(db: Db, next: Db, after: Db, o: Id)
    requires Later(db, next) && Later(next, after)
    requires o in db.operations && o in after.operations && after.operations[o] == db.operations[o]
    ensures o in next.operations && next.operations[o] == db.operations[o]
  {
    hide MissionsLater, TasksLater, AttemptsLater, ApprovalsLater, WriteOnce;
  }

  lemma {:induction false} WaitingCosts(w: World, steps: seq<Step>, limit: nat, o: Id)
    requires Safe(w) && limit > 0
    requires o in w.db.operations && IsStale(w.db.operations[o], w.now - w.cfg.staleAfter)
    requires var v := RunFrom(w, steps); o in v.db.operations && v.db.operations[o] == w.db.operations[o]
    ensures limit * Reconciliations(w, steps, limit) <= |OlderThan(w.db.operations, o)|
    decreases |steps|
  {
    hide Safe, Good, Apply, Evolves, Disciplined, Extends, Later, OlderThan, Reconciles;
    if steps != [] {
      var next, v := Apply(w, steps[0]), RunFrom(w, steps);
      StepGood(w, steps[0]);
      StepForward(w, next);
      EvolvesLater(w.db, next.db, w.now);
      StepsMoveForward(next, steps[1..]);
      UnchangedBetween(w.db, next.db, v.db, o);
      StepTakesOlder(w, steps[0], Apply(w, steps[0]), limit, o);
      WaitingCosts(next, steps[1..], limit, o);
      var rest := Reconciliations(next, steps[1..], limit);
      assert limit * (1 + rest) == limit + limit * rest;
    }
  }

  /** The effect was begun, is not finished, and nothing was heard of it for the stale interval. */
  predicate Overdue(w: World, o: Id) {
    && o in w.db.operations
    && (w.db.operations[o].status == OperationStatus.Prepared || w.db.operations[o].status == OperationStatus.Executing)
    && w.db.operations[o].updatedAt + w.cfg.staleAfter <= w.now
  }

  lemma StaleIsOverdue(w: World, o: Id)
    ensures o in StaleIds(w.db.operations, w.now - w.cfg.staleAfter) <==> Overdue(w, o)
  {}

  function Ahead(w: World, o: Id): set<Id> {
    set x | x in w.db.operations && Overdue(w, x) && Precedes(w.db.operations, x, o)
  }

  function Before(ops: map<Id, Operation>, candidates: set<Id>, o: Id): set<Id> {
    set x | x in candidates && Precedes(ops, x, o)
  }

  /** Whoever is picked has only picked candidates before it. */
  lemma PickedInOrder(ops: map<Id, Operation>, candidates: set<Id>, limit: nat, i: nat)
    requires candidates <= ops.Keys && i < |OldestFirst(ops, candidates, limit)|
    ensures |Before(ops, candidates, OldestFirst(ops, candidates, limit)[i])| == i
  {
    hide OldestFirst, Precedes;
    var ids := OldestFirst(ops, candidates, limit);
    var front, before := ids[..i], Before(ops, candidates, ids[i]);
    forall x ensures x in before <==> x in front {
      if x in before && x !in ids { assert Precedes(ops, ids[i], x); OneComesFirst(ops, x, ids[i]); }
      if x in before && x in ids {
        var j :| 0 <= j < |ids| && ids[j] == x;
        if i < j { assert Precedes(ops, ids[i], x); }
        OneComesFirst(ops, x, ids[i]);
        assert front[j] == x;
      }
    }
    assert Distinct(front);
    DistinctSize(front);
    assert before == Members(front);
  }

  /** Whoever is left out has all that are picked before it. */
  lemma LeftOutIsLater(ops: map<Id, Operation>, candidates: set<Id>, limit: nat, o: Id)
    requires candidates <= ops.Keys && o in candidates && o !in OldestFirst(ops, candidates, limit)
    ensures |Before(ops, candidates, o)| >= limit
  {
    hide OldestFirst, Precedes;
    var ids := OldestFirst(ops, candidates, limit);
    assert Distinct(ids);
    DistinctSize(ids);
    if |candidates| <= limit { SubsetOfSameSize(Members(ids), candidates); }
    assert Members(ids) <= Before(ops, candidates, o);
    SubsetSize(Members(ids), Before(ops, candidates, o));
  }

  lemma OneComesFirst(ops: map<Id, Operation>, x: Id, y: Id)
    requires x in ops && y in ops
    ensures !(Precedes(ops, x, y) && Precedes(ops, y, x))
  {}

  /** The run takes exactly the overdue operations with fewer than `limit` overdue ones before them. */
  lemma PickedIff(w: World, limit: nat, o: Id)
    requires o in w.db.operations
    ensures o in OldestFirst(w.db.operations, StaleIds(w.db.operations, w.now - w.cfg.staleAfter), limit) <==>
      Overdue(w, o) && |Ahead(w, o)| < limit
  {
    var ops, candidates := w.db.operations, StaleIds(w.db.operations, w.now - w.cfg.staleAfter);
    forall x ensures x in candidates <==> Overdue(w, x) { StaleIsOverdue(w, x); }
    hide Overdue, OldestFirst, StaleIds, Precedes;
    assert Ahead(w, o) == Before(ops, candidates, o);
    var ids := OldestFirst(ops, candidates, limit);
    if o in ids {
      var i :| 0 <= i < |ids| && ids[i] == o;
      PickedInOrder(ops, candidates, limit, i);
    } else if o in candidates {
      LeftOutIsLater(ops, candidates, limit, o);
    }
  }

  /** One run of the reconciler asks again for exactly the overdue operations that have fewer than `limit`
      overdue ones before them, and touches no other. */
  lemma ReconcilerTakesIff(w: World, limit: int, event: Id, o: Id)
    requires Reachable(w) && limit > 0 && (forall e <- w.db.outbox :: e.id < event) && o in w.db.operations
    ensures var v := Apply(w, ReconcileStep(limit, event));
      && o in v.db.operations
      && (if Overdue(w, o) && |Ahead(w, o)| < limit then
            v.db.operations[o] == w.db.operations[o].(updatedAt := w.now, version := w.db.operations[o].version + 1)
          else v.db.operations[o] == w.db.operations[o])
  {
    hide Reachable, Safe, Recover, Indexed, RecoversOperations, OldestFirst, IsStale, Overdue, Apply;
    ReachableSafe(w);
    OperationsIndexed(w);
    ReconcileSucceeds(w, limit, event);
    ReconcileChange(w.db, w.cfg, w.now, limit, event);
    ReconcileApplies(w, limit, event);
    PickedIff(w, limit, o);
    var ids := OldestFirst(w.db.operations, StaleIds(w.db.operations, w.now - w.cfg.staleAfter), limit);
    TakenRows(w.db, Reconcile(w, limit, event).db, w.now, ids, event, o);
  }

  lemma TakenRows(db: Db, after: Db, now: Time, ids: seq<Id>, event: Id, o: Id)
    requires RecoversOperations(db, after, now, ids, event) && o in db.operations
    ensures o in after.operations
    ensures after.operations[o] ==
      if o in ids then db.operations[o].(updatedAt := now, version := db.operations[o].version + 1)
      else db.operations[o]
  {}

  /** A stale operation with j older ones is picked by one of the first floor(j / limit) + 1
      reconciler runs, unless something else updated it before: as long as its row is unchanged,
      there were at most floor(j / limit) runs. */
  lemma StaleOperationsArePicked(w: World, steps: seq<Step>, limit: nat, o: Id)
    requires Reachable(w) && limit > 0 && Overdue(w, o)
    requires Reconciliations(w, steps, limit) > |OlderThan(w.db.operations, o)| / limit
    ensures o in RunFrom(w, steps).db.operations && RunFrom(w, steps).db.operations[o] != w.db.operations[o]
  {
    hide Reachable, Safe, Runs, RunFrom, Reconciliations, OlderThan, Later;
    StaleIsOverdue(w, o);
    ReachableSafe(w);
    RunsFrom(w, steps);
    OperationsKeepTheirIdentity(w, RunFrom(w, steps), o);
    if RunFrom(w, steps).db.operations[o] == w.db.operations[o] {
      WaitingCosts(w, steps, limit, o);
      MoreThanQuotient(|OlderThan(w.db.operations, o)|, limit, Reconciliations(w, steps, limit));
    }
  }

  lemma MoreThanQuotient(older: nat, limit: nat, runs: nat)
    requires limit > 0 && runs > older / limit
    ensures limit * runs > older
  {
    assert limit * runs >= limit * (older / limit + 1);
    assert limit * (older / limit + 1) == limit * (older / limit) + limit;
  }
}
