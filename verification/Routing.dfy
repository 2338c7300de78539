/** The outbox and the two delivery lanes: no attempt is lost and none is sent to the wrong lane. */
module Routing {
  import opened Basics
  import opened Lifecycle
  import opened Tables
  import opened Transactions
  import opened Evolution
  import opened Changes
  import opened EvidenceGate
  import opened Approvals

  /** One publication on a lane: the queue saw this attempt there at least once. */
  datatype Delivery = Delivery(lane: Topic, attempt: Id)

  /** The lane is the one of the attempt's task type. */
  predicate Routed(db: Db, lane: Topic, attempt: Id) {
    Indexed(db, attempt) && lane == TopicOf(db.tasks[TaskOf(db, attempt)].kind)
  }

  predicate EventFor(e: OutboxEvent, outbox: seq<OutboxEvent>, a: Id) {
    e in outbox && e.attempt == a
  }

  predicate SameEventId(outbox: seq<OutboxEvent>, i: nat, j: nat)
    requires i < |outbox| && j < |outbox|
  {
    outbox[i].id == outbox[j].id ==> i == j
  }

  ghost predicate EventsRouted(db: Db) {
    forall e <- db.outbox :: Routed(db, e.topic, e.attempt)
  }

  ghost predicate AttemptsAnnounced(attempts: map<Id, Attempt>, outbox: seq<OutboxEvent>) {
    forall a :: a in attempts ==> exists e :: EventFor(e, outbox, a)
  }

  ghost predicate EventIdsDistinct(outbox: seq<OutboxEvent>) {
    forall i: nat, j: nat :: i < |outbox| && j < |outbox| ==> SameEventId(outbox, i, j)
  }

  /** An event is marked only after it was put on its lane. */
  ghost predicate MarkedWereSent(outbox: seq<OutboxEvent>, published: map<Id, Time>, sent: set<Delivery>) {
    && (forall e <- outbox :: e.id in published ==> Delivery(e.topic, e.attempt) in sent)
    && (forall k :: k in published ==> exists e <- outbox :: e.id == k)
  }

  ghost predicate SentWereRouted(db: Db, sent: set<Delivery>) {
    forall d <- sent :: Routed(db, d.lane, d.attempt)
  }

  ghost predicate Delivered(db: Db, sent: set<Delivery>) {
    && EventsRouted(db) && AttemptsAnnounced(db.attempts, db.outbox) && EventIdsDistinct(db.outbox)
    && MarkedWereSent(db.outbox, db.published, sent) && SentWereRouted(db, sent)
  }

  lemma RouteStays(db: Db, after: Db, now: Time, lane: Topic, attempt: Id)
    requires Evolves(db, after, now) && Routed(db, lane, attempt)
    ensures Routed(after, lane, attempt)
  {
    hide OperationsMove, ApprovalsMove, WriteOnce, MissionsMove;
    IndexStays(db, after, now, attempt);
  }

  lemma SentStayRouted(db: Db, after: Db, now: Time, sent: set<Delivery>)
    requires Evolves(db, after, now) && SentWereRouted(db, sent)
    ensures SentWereRouted(after, sent)
  {
    hide Evolves, Routed;
    forall d | d in sent ensures Routed(after, d.lane, d.attempt) {
      RouteStays(db, after, now, d.lane, d.attempt);
    }
  }

  lemma EventsStayRouted(db: Db, after: Db, now: Time)
    requires Evolves(db, after, now) && EventsRouted(db)
    requires forall i :: |db.outbox| <= i < |after.outbox| ==>
        Routed(after, after.outbox[i].topic, after.outbox[i].attempt)
    requires db.outbox <= after.outbox
    ensures EventsRouted(after)
  {
    hide Evolves, Routed;
    forall e | e in after.outbox ensures Routed(after, e.topic, e.attempt) {
      var i :| 0 <= i < |after.outbox| && after.outbox[i] == e;
      if i < |db.outbox| {
        assert db.outbox[i] == e;
        RouteStays(db, after, now, e.topic, e.attempt);
      }
    }
  }

  lemma AnnouncementStays(attempts: map<Id, Attempt>, outbox: seq<OutboxEvent>, more: seq<OutboxEvent>, a: Id)
    requires AttemptsAnnounced(attempts, outbox) && outbox <= more && a in attempts
    ensures exists e :: EventFor(e, more, a)
  {
    var e :| EventFor(e, outbox, a);
    assert EventFor(e, more, a);
  }

  /** A transaction that leaves the outbox alone and adds no attempt. */
  lemma DeliveredKept(db: Db, after: Db, now: Time, sent: set<Delivery>)
    requires Delivered(db, sent) && Evolves(db, after, now)
    requires SameOutbox(db, after) && after.attempts.Keys == db.attempts.Keys
    ensures Delivered(after, sent)
  {
    hide Evolves, Routed, MarkedWereSent, EventIdsDistinct, SentWereRouted, EventsRouted;
    SentStayRouted(db, after, now, sent);
    EventsStayRouted(db, after, now);
  }

  lemma MoreIdsDistinct(outbox: seq<OutboxEvent>, e: OutboxEvent)
    requires EventIdsDistinct(outbox) && FreshEvent(outbox, e.id)
    ensures EventIdsDistinct(outbox + [e])
  {
    var more := outbox + [e];
    forall i: nat, j: nat | i < |more| && j < |more| ensures SameEventId(more, i, j) {
      if i < |outbox| && j < |outbox| { assert SameEventId(outbox, i, j); }
      else if i < |outbox| { assert outbox[i] in outbox; }
      else if j < |outbox| { assert outbox[j] in outbox; }
    }
  }

  lemma MoreMarkedWereSent(outbox: seq<OutboxEvent>, e: OutboxEvent, published: map<Id, Time>, sent: set<Delivery>)
    requires MarkedWereSent(outbox, published, sent) && FreshEvent(outbox, e.id)
    ensures MarkedWereSent(outbox + [e], published, sent)
  {
    forall k | k in published ensures exists x <- outbox + [e] :: x.id == k {
      var x :| x in outbox && x.id == k;
      assert x in outbox + [e];
    }
  }

  /** A transaction that adds one attempt together with its event. */
  lemma DeliveredWithOneMore(db: Db, after: Db, now: Time, sent: set<Delivery>, e: OutboxEvent)
    requires Delivered(db, sent) && Evolves(db, after, now)
    requires after.outbox == db.outbox + [e] && after.published == db.published && FreshEvent(db.outbox, e.id)
    requires forall a :: a in after.attempts && a !in db.attempts ==> a == e.attempt
    requires Routed(after, e.topic, e.attempt)
    ensures Delivered(after, sent)
  {
    hide Evolves, Routed, MarkedWereSent, EventIdsDistinct, SentWereRouted, EventsRouted;
    SentStayRouted(db, after, now, sent);
    EventsStayRouted(db, after, now);
    MoreIdsDistinct(db.outbox, e);
    MoreMarkedWereSent(db.outbox, e, db.published, sent);
    forall a | a in after.attempts ensures exists x :: EventFor(x, after.outbox, a) {
      if a in db.attempts {
        AnnouncementStays(db.attempts, db.outbox, after.outbox, a);
      } else {
        assert EventFor(e, after.outbox, a);
      }
    }
  }

  lemma OpensDelivered(db: Db, after: Db, now: Time, sent: set<Delivery>, mission: Id, task: Id, attempt: Id, event: Id)
    requires Opens(db, after, now, mission, task, attempt, event)
    requires Delivered(db, sent) && Evolves(db, after, now)
    ensures Delivered(after, sent)
  {
    hide Evolves, Delivered;
    DeliveredWithOneMore(db, after, now, sent, OutboxEvent(event, BaselineReady, attempt, now));
  }

  lemma SchedulesRepairDelivered(db: Db, after: Db, now: Time, sent: set<Delivery>, token: Token, code: FailureCode,
                                 ids: RepairIds)
    requires SchedulesRepair(db, after, now, token, code, ids)
    requires Delivered(db, sent) && Evolves(db, after, now)
    ensures Delivered(after, sent)
  {
    hide Evolves, Delivered, HasRepairTask;
    if HasRepairTask(db.tasks, MissionOf(db, token.attempt)) {
      DeliveredKept(db, after, now, sent);
    } else {
      DeliveredWithOneMore(db, after, now, sent, OutboxEvent(ids.event, RepairReady, ids.attempt, now));
    }
  }

  lemma GrantsApprovalDelivered(db: Db, after: Db, now: Time, sent: set<Delivery>,
                                approval: Id, decider: Id, child: Id, event: Id)
    requires GrantsApproval(db, after, now, approval, decider, child, event)
    requires ApprovalSound(db, approval)
    requires Delivered(db, sent) && Evolves(db, after, now)
    ensures Delivered(after, sent)
  {
    hide Evolves, Delivered;
    DeliveredWithOneMore(db, after, now, sent, OutboxEvent(event, RepairReady, child, now));
  }

  lemma RecoveredIdsDistinct(db: Db, after: Db, now: Time, ids: seq<Id>, event: Id, i: nat, j: nat)
    requires RecoversOperations(db, after, now, ids, event) && EventIdsDistinct(db.outbox)
    requires i < |after.outbox| && j < |after.outbox|
    ensures SameEventId(after.outbox, i, j)
  {
    var n := |db.outbox|;
    if i < n { assert after.outbox[i] == db.outbox[i] && db.outbox[i] in db.outbox; }
    else { assert after.outbox[n + (i - n)] == EventAbout(db, ids[i - n], event + (i - n), now); }
    if j < n { assert after.outbox[j] == db.outbox[j] && db.outbox[j] in db.outbox; }
    else { assert after.outbox[n + (j - n)] == EventAbout(db, ids[j - n], event + (j - n), now); }
    if i < n && j < n { assert SameEventId(db.outbox, i, j); }
  }

  lemma RecoveredIdsLate(db: Db, after: Db, now: Time, ids: seq<Id>, event: Id, i: nat)
    requires RecoversOperations(db, after, now, ids, event) && i < |after.outbox|
    ensures i < |db.outbox| || after.outbox[i].id >= event
  {
    var n := |db.outbox|;
    if n <= i {
      assert after.outbox[n + (i - n)] == EventAbout(db, ids[i - n], event + (i - n), now);
    }
  }

  lemma RecoveredMarksUnchanged(db: Db, after: Db, now: Time, ids: seq<Id>, event: Id, sent: set<Delivery>)
    requires RecoversOperations(db, after, now, ids, event) && MarkedWereSent(db.outbox, db.published, sent)
    ensures MarkedWereSent(after.outbox, after.published, sent)
  {
    forall e | e in after.outbox && e.id in after.published ensures Delivery(e.topic, e.attempt) in sent {
      var i :| 0 <= i < |after.outbox| && after.outbox[i] == e;
      var x :| x in db.outbox && x.id == e.id;
      RecoveredIdsLate(db, after, now, ids, event, i);
      assert db.outbox[i] == e;
    }
    forall k | k in after.published ensures exists x <- after.outbox :: x.id == k {
      var x :| x in db.outbox && x.id == k;
      assert x in after.outbox;
    }
  }

  lemma RecoveredEventRouted(db: Db, after: Db, now: Time, ids: seq<Id>, event: Id, i: nat)
    requires RecoversOperations(db, after, now, ids, event) && |db.outbox| <= i < |after.outbox|
    ensures Routed(after, after.outbox[i].topic, after.outbox[i].attempt)
  {
    var n := |db.outbox|;
    assert after.outbox[n + (i - n)] == EventAbout(db, ids[i - n], event + (i - n), now);
  }

  lemma RecoversOperationsDelivered(db: Db, after: Db, now: Time, sent: set<Delivery>, ids: seq<Id>, event: Id)
    requires RecoversOperations(db, after, now, ids, event)
    requires Delivered(db, sent) && Evolves(db, after, now)
    ensures Delivered(after, sent)
  {
    assert after.attempts == db.attempts && db.outbox <= after.outbox;
    hide RecoversOperations, Evolves, Routed, MarkedWereSent, SentWereRouted, EventsRouted, SameEventId;
    SentStayRouted(db, after, now, sent);
    forall i | |db.outbox| <= i < |after.outbox| ensures Routed(after, after.outbox[i].topic, after.outbox[i].attempt) {
      RecoveredEventRouted(db, after, now, ids, event, i);
    }
    EventsStayRouted(db, after, now);
    forall i: nat, j: nat | i < |after.outbox| && j < |after.outbox| ensures SameEventId(after.outbox, i, j) {
      RecoveredIdsDistinct(db, after, now, ids, event, i, j);
    }
    RecoveredMarksUnchanged(db, after, now, ids, event, sent);
    forall a | a in after.attempts ensures exists x :: EventFor(x, after.outbox, a) {
      AnnouncementStays(db.attempts, db.outbox, after.outbox, a);
    }
  }

  lemma MarksEventSent(db: Db, after: Db, now: Time, event: Id, sent: set<Delivery>)
    requires MarksEvent(db, after, now, event)
    requires MarkedWereSent(db.outbox, db.published, sent) && EventIdsDistinct(db.outbox)
    requires exists e <- db.outbox :: e.id == event && Delivery(e.topic, e.attempt) in sent
    ensures MarkedWereSent(after.outbox, after.published, sent)
  {
    var e :| e in db.outbox && e.id == event && Delivery(e.topic, e.attempt) in sent;
    var i :| 0 <= i < |db.outbox| && db.outbox[i] == e;
    forall x | x in after.outbox && x.id in after.published ensures Delivery(x.topic, x.attempt) in sent {
      if x.id == event {
        var j :| 0 <= j < |db.outbox| && db.outbox[j] == x;
        assert SameEventId(db.outbox, i, j);
      }
    }
  }

  /** The marking transaction, after the event was published on its lane. */
  lemma MarksEventDelivered(db: Db, after: Db, now: Time, sent: set<Delivery>, event: Id)
    requires MarksEvent(db, after, now, event)
    requires exists e <- db.outbox :: e.id == event && Delivery(e.topic, e.attempt) in sent
    requires Delivered(db, sent) && Evolves(db, after, now)
    ensures Delivered(after, sent)
  {
    hide Evolves, Routed, MarkedWereSent, EventIdsDistinct, SentWereRouted, EventsRouted, AttemptsAnnounced;
    MarksEventSent(db, after, now, event, sent);
    SentStayRouted(db, after, now, sent);
    EventsStayRouted(db, after, now);
  }

  /** Publishing one event on its lane. */
  lemma SendsEvent(db: Db, sent: set<Delivery>, e: OutboxEvent)
    requires Delivered(db, sent) && e in db.outbox
    ensures Delivered(db, sent + {Delivery(e.topic, e.attempt)})
  {
    hide Routed;
  }
}
