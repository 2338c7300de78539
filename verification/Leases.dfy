/** Leases over whole runs: epochs, versions, the intervals of successive leases, and tokens
    that can never pass the check again. */
module Leases {
  import opened Basics
  import opened Lifecycle
  import opened Evolution

  /** One lease that was handed out: from the claim to its latest agreed end. */
  datatype Lease = Lease(epoch: nat, from: Time, until: Time)

  /** The history of one attempt after its row moved from `x` to `y` at `now`. */
  function Recorded(log: seq<Lease>, x: Attempt, y: Attempt, now: Time): seq<Lease> {
    if y.epoch > x.epoch then log + [Lease(y.epoch, now, if y.expires.Some? then y.expires.value else now)]
    else if y.expires != x.expires && y.expires.Some? && log != [] then
      log[..|log| - 1] + [log[|log| - 1].(until := y.expires.value)]
    else log
  }

  predicate LeaseOrdered(log: seq<Lease>, i: nat, j: nat)
    requires i < |log| && j < |log|
  {
    i < j ==> log[i].until <= log[j].from
  }

  predicate LeaseSane(log: seq<Lease>, i: nat, now: Time)
    requires i < |log|
  {
    log[i].epoch == i + 1 && log[i].from <= now && log[i].from <= log[i].until
  }

  /** What the history of an attempt and its row say about each other. */
  predicate LeaseRow(log: seq<Lease>, row: Attempt, now: Time) {
    && row.epoch == |log| && row.epoch <= row.version
    && (if log == [] then row.status == AttemptStatus.Pending && row.expires == None
        else row.expires == Some(log[|log| - 1].until)
             && (row.status == AttemptStatus.Running || log[|log| - 1].until <= now)
             && row.status != AttemptStatus.Pending)
  }

  ghost predicate LeaseLog(log: seq<Lease>, row: Attempt, now: Time) {
    && LeaseRow(log, row, now)
    && (forall i: nat :: i < |log| ==> LeaseSane(log, i, now))
    && (forall i: nat, j: nat :: i < |log| && j < |log| ==> LeaseOrdered(log, i, j))
  }

  lemma LeaseLogLater(log: seq<Lease>, row: Attempt, now: Time, later: Time)
    requires LeaseLog(log, row, now) && now <= later
    ensures LeaseLog(log, row, later)
  {
    forall i: nat | i < |log| ensures LeaseSane(log, i, later) {
      assert LeaseSane(log, i, now);
    }
  }

  /** A move of the row keeps its history in order: a claim opens an interval after every
      earlier one, a heartbeat extends the last one, a finish ends it. */
  lemma LeaseLogMoves(log: seq<Lease>, x: Attempt, y: Attempt, now: Time)
    requires LeaseLog(log, x, now) && AttemptMoves(x, y, now)
    ensures LeaseLog(Recorded(log, x, y, now), y, now)
  {
    if x != y {
      var next := Recorded(log, x, y, now);
      forall i: nat | i < |next| ensures LeaseSane(next, i, now) {
        if i < |log| { assert LeaseSane(log, i, now); }
      }
      forall i: nat, j: nat | i < |next| && j < |next| ensures LeaseOrdered(next, i, j) {
        if i < |log| && j < |log| { assert LeaseOrdered(log, i, j); }
        if i < |log| && j == |log| {
          assert LeaseOrdered(log, i, |log| - 1) && LeaseSane(log, |log| - 1, now);
        }
      }
    }
  }

  lemma FreshLeaseLog(row: Attempt, now: Time)
    requires Unclaimed(row)
    ensures LeaseLog([], row, now)
  {}

  /** Successive leases never overlap. */
  lemma LeasesDisjoint(log: seq<Lease>, row: Attempt, now: Time, i: nat, j: nat, t: Time)
    requires LeaseLog(log, row, now) && i < |log| && j < |log| && i != j
    requires log[i].from <= t < log[i].until
    ensures !(log[j].from <= t < log[j].until)
  {
    assert LeaseOrdered(log, i, j) && LeaseOrdered(log, j, i);
  }

  // ---------------------------------------------------------------- dead epochs

  /** An epoch is over: superseded, finished or expired. */
  predicate EpochOver(row: Attempt, epoch: nat, now: Time) {
    row.epoch > epoch
    || (row.epoch == epoch && (row.status != AttemptStatus.Running || row.expires.None? || row.expires.value <= now))
  }

  /** An epoch that is over stays over, whatever happens to the row later. */
  lemma EpochStaysOver(x: Attempt, y: Attempt, epoch: nat, now: Time, later: Time)
    requires EpochOver(x, epoch, now) && now <= later && AttemptMoves(x, y, later)
    ensures EpochOver(y, epoch, later)
  {}

  /** The lease check refuses every token of such an epoch, and of no other epoch up to the
      current one: the check passes for some token exactly when the epoch is live. */
  lemma EpochOverRefused(row: Attempt, attempt: Id, epoch: nat, now: Time)
    requires epoch <= row.epoch && row.owner.Some?
    ensures EpochOver(row, epoch, now) <==>
      forall owner: Id, version: nat :: row.CheckLease(Token(attempt, owner, epoch, version), now).Err?
  {
    if !EpochOver(row, epoch, now) {
      assert row.CheckLease(Token(attempt, row.owner.value, epoch, row.version), now).Ok?;
    }
  }

  // ---------------------------------------------------------------- dead tokens

  /** A token that a claim or heartbeat handed out: its version was reached. */
  predicate Issued(row: Attempt, token: Token) {
    token.version <= row.version
  }

  /** Once an issued token fails the lease check, it fails ever after. */
  lemma DeadTokenStaysDead(x: Attempt, y: Attempt, token: Token, now: Time, later: Time)
    requires Issued(x, token) && x.CheckLease(token, now).Err?
    requires now <= later && AttemptMoves(x, y, later)
    ensures Issued(y, token) && y.CheckLease(token, later).Err?
  {}
}
