/** Recovery requests: how often one operation can be asked for again. */
module Recovery {
  import opened Basics
  import opened Lifecycle
  import opened Tables
  import opened Evolution
  import opened Changes

  /** How many recovery requests the audit log holds for operation `o`. */
  function Requests(audits: seq<Audit>, o: Id): nat {
    if audits == [] then 0
    else Requests(audits[..|audits| - 1], o)
         + if audits[|audits| - 1].kind == RecoveryRequested && audits[|audits| - 1].subject == o then 1 else 0
  }

  /** The operation was last updated no later than now, and its recovery requests are at least
      one stale interval apart from each other and from its creation. */
  predicate Paced(o: Operation, requests: nat, staleAfter: Time, now: Time) {
    && o.createdAt <= o.updatedAt <= now
    && requests * staleAfter <= o.updatedAt - o.createdAt
  }

  predicate OperationPaced(db: Db, o: Id, staleAfter: Time, now: Time)
    requires o in db.operations
  {
    Paced(db.operations[o], Requests(db.audits, o), staleAfter, now)
  }

  ghost predicate AllPaced(db: Db, staleAfter: Time, now: Time) {
    && (forall o :: o in db.operations ==> OperationPaced(db, o, staleAfter, now))
    && (forall a <- db.audits :: a.kind == RecoveryRequested ==> a.subject in db.operations)
  }

  lemma RequestsSnoc(audits: seq<Audit>, a: Audit, o: Id)
    ensures Requests(audits + [a], o) == Requests(audits, o) + if a.kind == RecoveryRequested
        && a.subject == o then 1 else 0
  {
    assert (audits + [a])[..|audits|] == audits;
  }

  lemma {:induction false} NoRequests(audits: seq<Audit>, o: Id)
    requires forall a <- audits :: !(a.kind == RecoveryRequested && a.subject == o)
    ensures Requests(audits, o) == 0
  {
    if audits != [] {
      NoRequests(audits[..|audits| - 1], o);
      assert audits[|audits| - 1] in audits;
    }
  }

  /** The requests a reconciler run logs: one for each operation it took. */
  lemma {:induction false} RequestsAppended(audits: seq<Audit>, after: seq<Audit>, ids: seq<Id>, now: Time, o: Id)
    requires Distinct(ids) && audits <= after && |after| == |audits| + |ids|
    requires forall i :: 0 <= i < |ids| ==> after[|audits| + i] == Audit(ids[i], RecoveryRequested, now)
    ensures Requests(after, o) == Requests(audits, o) + if o in ids then 1 else 0
  {
    if ids == [] {
      assert after == audits;
    } else {
      var n := |ids| - 1;
      var front, last := ids[..n], ids[n];
      assert after[|audits| + n] == Audit(last, RecoveryRequested, now);
      var shorter := after[..|after| - 1];
      RequestsAppended(audits, shorter, front, now, o);
      assert ids == front + [last];
      assert o in ids <==> o in front || o == last;
      assert last !in front;
    }
  }

  lemma PacedKept(db: Db, after: Db, staleAfter: Time, now: Time)
    requires AllPaced(db, staleAfter, now) && staleAfter > 0
    requires OperationsMove(db.operations, after.operations, now)
    requires after.audits == db.audits
    ensures AllPaced(after, staleAfter, now)
  {
    forall o | o in after.operations ensures OperationPaced(after, o, staleAfter, now) {
      if o in db.operations {
        assert OperationPaced(db, o, staleAfter, now);
      } else {
        NoRequests(after.audits, o);
      }
    }
  }

  /** Any other audit row changes no count. */
  lemma PacedLogged(db: Db, after: Db, staleAfter: Time, now: Time, a: Audit)
    requires AllPaced(db, staleAfter, now) && staleAfter > 0
    requires OperationsMove(db.operations, after.operations, now)
    requires after.audits == db.audits + [a] && a.kind != RecoveryRequested
    ensures AllPaced(after, staleAfter, now)
  {
    forall o | o in after.operations ensures OperationPaced(after, o, staleAfter, now) {
      RequestsSnoc(db.audits, a, o);
      if o in db.operations {
        assert OperationPaced(db, o, staleAfter, now);
      } else {
        NoRequests(db.audits, o);
      }
    }
  }

  lemma OneMoreInterval(requests: nat, staleAfter: Time, earlier: Time, later: Time)
    requires requests * staleAfter <= earlier && earlier + staleAfter <= later
    ensures (requests + 1) * staleAfter <= later
  {
    assert (requests + 1) * staleAfter == requests * staleAfter + staleAfter;
  }

  lemma RecoveredPaced(db: Db, after: Db, staleAfter: Time, now: Time, ids: seq<Id>, event: Id, o: Id)
    requires RecoversOperations(db, after, now, ids, event) && Distinct(ids)
    requires forall i <- ids :: i in db.operations && IsStale(db.operations[i], now - staleAfter)
    requires o in db.operations && OperationPaced(db, o, staleAfter, now) && staleAfter > 0
    ensures o in after.operations && OperationPaced(after, o, staleAfter, now)
  {
    RequestsAppended(db.audits, after.audits, ids, now, o);
    if o in ids {
      var row := db.operations[o];
      OneMoreInterval(Requests(db.audits, o), staleAfter, row.updatedAt - row.createdAt, now - row.createdAt);
    }
  }

  lemma RecoversOperationsPaced(db: Db, after: Db, staleAfter: Time, now: Time, ids: seq<Id>, event: Id)
    requires RecoversOperations(db, after, now, ids, event) && Distinct(ids)
    requires forall i <- ids :: i in db.operations && IsStale(db.operations[i], now - staleAfter)
    requires AllPaced(db, staleAfter, now) && staleAfter > 0
    ensures AllPaced(after, staleAfter, now)
  {
    hide OperationPaced;
    forall o | o in after.operations ensures OperationPaced(after, o, staleAfter, now) {
      RecoveredPaced(db, after, staleAfter, now, ids, event, o);
    }
    forall a | a in after.audits && a.kind == RecoveryRequested ensures a.subject in after.operations {
      var i :| 0 <= i < |after.audits| && after.audits[i] == a;
      if i < |db.audits| {
        assert db.audits[i] == a;
      } else {
        assert after.audits[|db.audits| + (i - |db.audits|)] == Audit(ids[i - |db.audits|], RecoveryRequested, now);
      }
    }
  }

  lemma PacedLater(db: Db, staleAfter: Time, now: Time, later: Time)
    requires AllPaced(db, staleAfter, now) && now <= later
    ensures AllPaced(db, staleAfter, later)
  {
    forall o | o in db.operations ensures OperationPaced(db, o, staleAfter, later) {
      assert OperationPaced(db, o, staleAfter, now);
    }
  }
}
