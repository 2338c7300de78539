/** The outbox publisher: what one call fetches, and that no event waits for ever. */
module Outbox {
  import opened Basics
  import opened Lifecycle
  import opened Tables
  import opened Transactions
  import opened Routing
  import opened Runtime
  import opened Safety
  import opened History
  import opened Theorems

  // ---------------------------------------------------------------- what is fetched

  /** The event at this position is not marked as published. */
  predicate Waits(outbox: seq<OutboxEvent>, published: map<Id, Time>, k: nat) {
    k < |outbox| && outbox[k].id !in published
  }

  function Backlog(outbox: seq<OutboxEvent>, published: map<Id, Time>): set<nat> {
    set k: nat | k < |outbox| && Waits(outbox, published, k)
  }

  predicate Increasing(at: seq<nat>) {
    forall i, j :: 0 <= i < j < |at| ==> at[i] < at[j]
  }

  /** These events stand in the outbox at these positions, one after the other, and wait. */
  predicate StandAt(outbox: seq<OutboxEvent>, published: map<Id, Time>, events: seq<OutboxEvent>, at: seq<nat>) {
    && |at| == |events| && Increasing(at)
    && (forall i :: 0 <= i < |at| ==> Waits(outbox, published, at[i]) && outbox[at[i]] == events[i])
  }

  function Shifted(at: seq<nat>): (next: seq<nat>)
    ensures |next| == |at| && forall i :: 0 <= i < |at| ==> next[i] == at[i] + 1
  {
    seq(|at|, i requires 0 <= i < |at| => at[i] + 1)
  }

  lemma ShiftedWaits(outbox: seq<OutboxEvent>, published: map<Id, Time>, k: nat)
    requires outbox != [] && Waits(outbox[1..], published, k)
    ensures Waits(outbox, published, k + 1) && outbox[k + 1] == outbox[1..][k]
  {}

  lemma ShiftedStand(outbox: seq<OutboxEvent>, published: map<Id, Time>, events: seq<OutboxEvent>, at: seq<nat>)
    requires outbox != [] && StandAt(outbox[1..], published, events, at)
    ensures StandAt(outbox, published, events, Shifted(at))
  {
    hide Shifted;
    forall i | 0 <= i < |at|
      ensures Waits(outbox, published, Shifted(at)[i]) && outbox[Shifted(at)[i]] == events[i]
    {
      ShiftedWaits(outbox, published, at[i]);
    }
  }

  lemma FirstStands(outbox: seq<OutboxEvent>, published: map<Id, Time>, events: seq<OutboxEvent>, at: seq<nat>)
    requires StandAt(outbox, published, events, at) && outbox != [] && outbox[0].id !in published
    requires forall i :: 0 <= i < |at| ==> at[i] > 0
    ensures StandAt(outbox, published, [outbox[0]] + events, [0] + at)
  {
    var next := [0] + at;
    forall i | 0 <= i < |next|
      ensures Waits(outbox, published, next[i]) && outbox[next[i]] == ([outbox[0]] + events)[i]
    {
      if i > 0 { assert next[i] == at[i - 1] && ([outbox[0]] + events)[i] == events[i - 1]; }
    }
    hide Waits;
  }

  ghost predicate HasAll(outbox: seq<OutboxEvent>, published: map<Id, Time>, at: seq<nat>) {
    forall k: nat :: Waits(outbox, published, k) ==> k in at
  }

  lemma ShiftedHasAll(outbox: seq<OutboxEvent>, published: map<Id, Time>, rest: seq<nat>)
    requires outbox != [] && HasAll(outbox[1..], published, rest)
    ensures outbox[0].id in published ==> HasAll(outbox, published, Shifted(rest))
    ensures outbox[0].id !in published ==> HasAll(outbox, published, [0] + Shifted(rest))
  {
    forall k: nat | k > 0 && Waits(outbox, published, k) ensures k in Shifted(rest) {
      assert Waits(outbox[1..], published, k - 1);
      var i :| 0 <= i < |rest| && rest[i] == k - 1;
      assert Shifted(rest)[i] == k;
    }
  }

  lemma {:induction false} AllWaitingStand(outbox: seq<OutboxEvent>, published: map<Id, Time>) returns (at: seq<nat>)
    ensures StandAt(outbox, published, Unpublished(outbox, published), at) && HasAll(outbox, published, at)
  {
    hide StandAt, HasAll, Shifted, Waits;
    if outbox == [] {
      at := [];
      NothingStands(published);
    } else {
      var rest := AllWaitingStand(outbox[1..], published);
      ShiftedStand(outbox, published, Unpublished(outbox[1..], published), rest);
      ShiftedHasAll(outbox, published, rest);
      at := Shifted(rest);
      assert [] + Unpublished(outbox[1..], published) == Unpublished(outbox[1..], published);
      if outbox[0].id !in published {
        FirstStands(outbox, published, Unpublished(outbox[1..], published), at);
        at := [0] + at;
      }
    }
  }

  lemma NothingStands(published: map<Id, Time>)
    ensures StandAt([], published, [], []) && HasAll([], published, [])
  {}

  function Members(at: seq<nat>): set<nat> {
    set k | k in at
  }

  lemma {:induction false} IncreasingSize(at: seq<nat>)
    requires Increasing(at)
    ensures |Members(at)| == |at|
  {
    if at != [] {
      var front, last := at[..|at| - 1], at[|at| - 1];
      IncreasingSize(front);
      assert last !in front;
      assert Members(at) == Members(front) + {last};
    }
  }

  lemma BacklogSize(outbox: seq<OutboxEvent>, published: map<Id, Time>, events: seq<OutboxEvent>, at: seq<nat>)
    requires StandAt(outbox, published, events, at) && HasAll(outbox, published, at)
    ensures |at| == |Backlog(outbox, published)|
  {
    IncreasingSize(at);
    assert Members(at) == Backlog(outbox, published);
  }

  /** Nothing that is left out stands before anything that is taken. */
  ghost predicate TakesFirst(outbox: seq<OutboxEvent>, published: map<Id, Time>, at: seq<nat>) {
    forall i, k: nat :: 0 <= i < |at| && Waits(outbox, published, k) && k !in at ==> at[i] < k
  }

  lemma PrefixStands(outbox: seq<OutboxEvent>, published: map<Id, Time>, events: seq<OutboxEvent>, at: seq<nat>,
                     limit: nat)
    requires StandAt(outbox, published, events, at)
    ensures StandAt(outbox, published, Prefix(events, limit), Prefix(at, limit))
  {
    hide Waits;
    assert limit < |at| ==> Prefix(at, limit) == at[..limit] && Prefix(events, limit) == events[..limit];
  }

  lemma StandsInOrder(outbox: seq<OutboxEvent>, published: map<Id, Time>, events: seq<OutboxEvent>, at: seq<nat>)
    requires StandAt(outbox, published, events, at)
    ensures Increasing(at)
  {}

  lemma PrefixTakesFirst(outbox: seq<OutboxEvent>, published: map<Id, Time>, at: seq<nat>, limit: nat)
    requires Increasing(at) && HasAll(outbox, published, at)
    ensures TakesFirst(outbox, published, Prefix(at, limit))
  {
    hide Waits;
    var first := Prefix(at, limit);
    forall i, k: nat | 0 <= i < |first| && Waits(outbox, published, k) && k !in first ensures first[i] < k {
      var j :| 0 <= j < |at| && at[j] == k;
      assert first == at[..|first|] && at[j] !in at[..|first|];
    }
  }

  /** A call fetches the waiting events in the order in which they were recorded, up to its limit, each
      as often as it is there; nothing that it leaves out stands before anything that it takes. */
  lemma FetchIsInOrder(db: Db, limit: int) returns (at: seq<nat>)
    requires limit > 0
    ensures FetchUnpublished(db, limit).Ok?
    ensures StandAt(db.outbox, db.published, FetchUnpublished(db, limit).value, at)
    ensures |at| == var backlog := |Backlog(db.outbox, db.published)|; if backlog <= limit then backlog else limit
    ensures TakesFirst(db.outbox, db.published, at)
  {
    hide StandAt, HasAll, TakesFirst, Unpublished, Backlog;
    var all := AllWaitingStand(db.outbox, db.published);
    var events := Unpublished(db.outbox, db.published);
    BacklogSize(db.outbox, db.published, events, all);
    PrefixStands(db.outbox, db.published, events, all, limit);
    assert Increasing(all) by { StandsInOrder(db.outbox, db.published, events, all); }
    PrefixTakesFirst(db.outbox, db.published, all, limit);
    at := Prefix(all, limit);
  }

  // ---------------------------------------------------------------- no event waits for ever

  /** The event was put on its lane, and is marked. */
  predicate Announced(w: World, e: OutboxEvent) {
    e.id in w.db.published && Delivery(e.topic, e.attempt) in w.sent
  }

  ghost predicate AllAnnounced(w: World, events: seq<OutboxEvent>) {
    forall e <- events :: Announced(w, e)
  }

  /** A publisher that returned normally, from the moment at which it fetched. */
  datatype PublisherCall = PublisherCall(fetched: World, returned: World)

  /** Whatever the others do meanwhile, what it fetched is announced when it returns. */
  ghost predicate Completes(call: PublisherCall, limit: int) {
    && Runs(call.fetched, call.returned) && FetchUnpublished(call.fetched.db, limit).Ok?
    && AllAnnounced(call.returned, FetchUnpublished(call.fetched.db, limit).value)
  }

  /** Publisher calls one after the other, with anything in between. */
  ghost predicate Successive(w: World, calls: seq<PublisherCall>, limit: int)
    decreases |calls|
  {
    calls != [] ==>
      && Runs(w, calls[0].fetched) && Completes(calls[0], limit) && Successive(calls[0].returned, calls[1..], limit)
  }

  /** The waiting events that were recorded before position `k`. */
  function Ahead(db: Db, k: nat): set<nat> {
    set i: nat | i < k && Waits(db.outbox, db.published, i)
  }

  lemma OutboxLater(db: Db, after: Db, k: nat)
    requires Later(db, after) && k < |db.outbox|
    ensures k < |after.outbox| && after.outbox[k] == db.outbox[k]
    ensures Ahead(after, k) <= Ahead(db, k)
    ensures db.outbox[k].id in db.published ==> db.outbox[k].id in after.published
  {
    hide MissionsLater, TasksLater, AttemptsLater, OperationsLater, ApprovalsLater;
    assert forall i :: 0 <= i < |db.outbox| ==> after.outbox[i] == db.outbox[i];
  }

  lemma MarkedIsAnnounced(w: World, k: nat)
    requires Safe(w) && k < |w.db.outbox| && w.db.outbox[k].id in w.db.published
    ensures Announced(w, w.db.outbox[k])
  {
    hide Safe, Routed, EventIdsDistinct, EventsRouted, AttemptsAnnounced, SentWereRouted;
    SafeDelivered(w);
    assert w.db.outbox[k] in w.db.outbox;
  }

  /** What a call took is no longer ahead of anything. */
  lemma TakenIsAnnounced(call: PublisherCall, limit: int, at: seq<nat>, k: nat)
    requires Safe(call.fetched) && Completes(call, limit)
    requires StandAt(call.fetched.db.outbox, call.fetched.db.published,
                     FetchUnpublished(call.fetched.db, limit).value, at)
    ensures Members(at) !! Ahead(call.returned.db, k)
    ensures k in at ==> call.fetched.db.outbox[k].id in call.returned.db.published
  {
    hide Safe, Runs, Later, FetchUnpublished;
    var events := FetchUnpublished(call.fetched.db, limit).value;
    RunsOnlyMoveForward(call.fetched, call.returned);
    forall i | 0 <= i < |at|
      ensures at[i] !in Ahead(call.returned.db, k) && call.fetched.db.outbox[at[i]].id in call.returned.db.published
    {
      assert events[i] in events && Announced(call.returned, events[i]);
      OutboxLater(call.fetched.db, call.returned.db, at[i]);
    }
  }

  /** A call that does not announce the event takes as many as its limit of those ahead of it. */
  lemma CallAnnounces(call: PublisherCall, limit: int, k: nat)
    requires Safe(call.fetched) && Completes(call, limit) && k < |call.fetched.db.outbox|
    requires call.fetched.db.outbox[k].id !in call.returned.db.published
    ensures limit > 0 && |Ahead(call.returned.db, k)| + limit <= |Ahead(call.fetched.db, k)|
  {
    hide Safe, Runs, Later, FetchUnpublished, AllAnnounced;
    var db, after := call.fetched.db, call.returned.db;
    RunsOnlyMoveForward(call.fetched, call.returned);
    OutboxLater(db, after, k);
    NoLimit(db, limit);
    var at := FetchIsInOrder(db, limit);
    TakenIsAnnounced(call, limit, at, k);
    IncreasingSize(at);
    assert Waits(db.outbox, db.published, k) && k in Backlog(db.outbox, db.published) && k !in Members(at);
    assert Members(at) <= Ahead(db, k);
    assert Members(at) <= Backlog(db.outbox, db.published);
    SubsetIsSmaller(Members(at), Backlog(db.outbox, db.published));
    SubsetIsSmaller(Ahead(after, k) + Members(at), Ahead(db, k));
  }

  lemma NoLimit(db: Db, limit: int)
    ensures FetchUnpublished(db, limit).Ok? <==> limit > 0
  {}

  lemma SubsetIsSmaller(some: set<nat>, all: set<nat>)
    requires some <= all
    ensures |some| <= |all| && (some != all ==> |some| < |all|)
  {
    SubsetSize(some, all);
    if x :| x in all && x !in some { SubsetSize(some + {x}, all); }
  }

  lemma {:induction false} WaitingIsCounted(w: World, calls: seq<PublisherCall>, limit: int, k: nat)
    requires Safe(w) && Successive(w, calls, limit) && k < |w.db.outbox| && calls != []
    ensures var v := calls[|calls| - 1].returned;
      && limit > 0 && Safe(v) && Later(w.db, v.db)
      && (w.db.outbox[k].id !in v.db.published ==> |calls| * limit <= |Ahead(w.db, k)|)
    decreases |calls|
  {
    hide Safe, Runs, Later, FetchUnpublished, AllAnnounced;
    var first := calls[0];
    RunsOnlyMoveForward(w, first.fetched);
    OutboxLater(w.db, first.fetched.db, k);
    RunsOnlyMoveForward(first.fetched, first.returned);
    OutboxLater(first.fetched.db, first.returned.db, k);
    LaterThrough(w.db, first.fetched.db, first.returned.db);
    NoLimit(first.fetched.db, limit);
    SubsetIsSmaller(Ahead(first.fetched.db, k), Ahead(w.db, k));
    if w.db.outbox[k].id !in first.returned.db.published { CallAnnounces(first, limit, k); }
    if |calls| > 1 {
      WaitingIsCounted(first.returned, calls[1..], limit, k);
      var v := calls[|calls| - 1].returned;
      assert calls[1..][|calls| - 2].returned == v;
      LaterThrough(w.db, first.returned.db, v.db);
      OutboxLater(first.returned.db, v.db, k);
      assert |calls| * limit == (|calls| - 1) * limit + limit;
    }
  }

  /** An event with j waiting events ahead of it is announced by one of the first floor(j / limit) + 1
      publisher calls that return, whatever else happens during and between them. */
  lemma WaitingEventsAreAnnounced(w: World, calls: seq<PublisherCall>, limit: int, k: nat)
    requires Reachable(w) && limit > 0 && k < |w.db.outbox|
    requires Successive(w, calls, limit) && |calls| > |Ahead(w.db, k)| / limit
    ensures Announced(calls[|calls| - 1].returned, w.db.outbox[k])
  {
    hide Reachable, Safe, Runs, Later, Successive, FetchUnpublished;
    ReachableSafe(w);
    WaitingIsCounted(w, calls, limit, k);
    var v := calls[|calls| - 1].returned;
    MoreThan(|Ahead(w.db, k)|, limit, |calls|);
    OutboxLater(w.db, v.db, k);
    MarkedIsAnnounced(v, k);
  }

  lemma MoreThan(ahead: nat, limit: nat, calls: nat)
    requires limit > 0 && calls > ahead / limit
    ensures calls * limit > ahead
  {
    assert limit * calls >= limit * (ahead / limit + 1);
    assert limit * (ahead / limit + 1) == limit * (ahead / limit) + limit;
  }
}
