/** The invariant of the running system, and what every step keeps and may change. */
module Safety {
  import opened Basics
  import opened Content
  import opened Lifecycle
  import opened Tables
  import opened Transactions
  import opened Evolution
  import opened Ledger
  import opened Approvals
  import opened Leases
  import opened Cancellation
  import opened Invariant
  import opened Runtime
  import opened Sessions

  ghost predicate SessionsOk(w: World) {
    forall s :: s in w.sessions ==> SessionOk(w.db, w.blobs, w.sent, w.stops, w.now, w.sessions[s])
  }

  ghost predicate LeasesOk(leases: map<Id, seq<Lease>>, attempts: map<Id, Attempt>, now: Time) {
    && leases.Keys == attempts.Keys
    && (forall a :: a in attempts ==> LeaseLog(leases[a], attempts[a], now))
  }

  /** What was handed to git is what its operation was prepared for, within the mission's spec. */
  predicate HandedSound(db: Db, h: Handed) {
    && h.operation in db.operations && db.operations[h.operation].kind == CandidateCommit
    && db.operations[h.operation].input == Sha256(Utf8(h.context.diff))
    && ContextOf(db, db.operations[h.operation].attempt, h.context)
  }

  ghost predicate HandedOk(db: Db, handed: set<Handed>) {
    forall h <- handed :: HandedSound(db, h)
  }

  predicate ProposalSound(approvals: map<Id, Approval>, proposals: map<Id, string>, ttl: Time, p: Id)
    requires p in approvals && p in proposals
  {
    && approvals[p].actionHash == Sha256(Utf8(proposals[p])) && IsUnifiedDiff(proposals[p])
    && approvals[p].expiresAt == approvals[p].requestedAt + ttl
  }

  /** Every approval is for the digest of the diff it was asked for, and expires after the time to live. */
  ghost predicate ProposalsOk(approvals: map<Id, Approval>, proposals: map<Id, string>, ttl: Time) {
    && approvals.Keys == proposals.Keys
    && (forall p :: p in approvals ==> ProposalSound(approvals, proposals, ttl, p))
  }

  ghost predicate WorldSound(w: World) {
    Sound(w.db, w.blobs, w.sent, w.stops, w.cfg.staleAfter, w.now)
  }

  /** The invariant of the system has these parts. */
  datatype Part = Durations | TablesAndEffects | BlobNames | CallsInProgress | LeaseHistory | HandOvers | Proposals

  ghost predicate PartHolds(part: Part, w: World) {
    match part
    case Durations => w.cfg.Valid()
    case TablesAndEffects => WorldSound(w)
    case BlobNames => BlobsNamed(w.blobs)
    case CallsInProgress => SessionsOk(w)
    case LeaseHistory => LeasesOk(w.leases, w.db.attempts, w.now)
    case HandOvers => HandedOk(w.db, w.handed)
    case Proposals => ProposalsOk(w.db.approvals, w.proposals, w.cfg.approvalTtl)
  }

  /** The invariant; a part of it is looked at where a proof names it. */
  ghost predicate Safe(w: World) {
    forall part: Part :: PartHolds(part, w)
  }

  ghost predicate AllParts(w: World) {
    && w.cfg.Valid() && WorldSound(w) && BlobsNamed(w.blobs) && SessionsOk(w)
    && LeasesOk(w.leases, w.db.attempts, w.now) && HandedOk(w.db, w.handed)
    && ProposalsOk(w.db.approvals, w.proposals, w.cfg.approvalTtl)
  }

  lemma SafeIff(w: World)
    ensures Safe(w) <==> AllParts(w)
  {
    hide WorldSound, BlobsNamed, SessionsOk, LeasesOk, HandedOk, ProposalsOk;
    if Safe(w) {
      assert PartHolds(Durations, w) && PartHolds(TablesAndEffects, w) && PartHolds(BlobNames, w);
      assert PartHolds(CallsInProgress, w) && PartHolds(LeaseHistory, w) && PartHolds(HandOvers, w);
      assert PartHolds(Proposals, w);
    }
  }

  /** What one step may change: at most one transaction at the time of the step, and only more of
      everything that is recorded outside the tables. */
  datatype Aspect = Clock | Tables | Discipline | Outside

  ghost predicate AdvancesIn(aspect: Aspect, w: World, v: World) {
    match aspect
    case Clock => v.cfg == w.cfg && w.now <= v.now
    case Tables => Evolves(w.db, v.db, w.now)
    case Discipline => Disciplined(w.db, v.db, w.now)
    case Outside =>
      && Extends(w.blobs, v.blobs) && Extends(w.proposals, v.proposals)
      && w.sent <= v.sent && w.stops <= v.stops && w.handed <= v.handed
  }

  ghost predicate Advances(w: World, v: World) {
    forall aspect: Aspect :: AdvancesIn(aspect, w, v)
  }

  ghost predicate AllAspects(w: World, v: World) {
    && v.cfg == w.cfg && w.now <= v.now
    && Evolves(w.db, v.db, w.now) && Disciplined(w.db, v.db, w.now)
    && Extends(w.blobs, v.blobs) && Extends(w.proposals, v.proposals)
    && w.sent <= v.sent && w.stops <= v.stops && w.handed <= v.handed
  }

  lemma AdvancesIff(w: World, v: World)
    ensures Advances(w, v) <==> AllAspects(w, v)
  {
    hide Evolves, Disciplined, Extends;
    if Advances(w, v) {
      assert AdvancesIn(Clock, w, v) && AdvancesIn(Aspect.Tables, w, v);
      assert AdvancesIn(Discipline, w, v) && AdvancesIn(Outside, w, v);
    }
  }

  ghost predicate Good(w: World, v: World) {
    Safe(v) && Advances(w, v)
  }

  // ---------------------------------------------------------------- sessions come and go

  lemma StaysGood(w: World)
    requires Safe(w)
    ensures Good(w, w)
  {
    hide Safe, Evolves, Disciplined;
    AdvancesIff(w, w);
    Unmoved(w.db, w.now);
    SameLedgerDisciplined(w.db, w.db, w.now);
  }

  lemma GoGood(w: World, v: World, s: Id, session: Session)
    requires Good(w, v) && SessionOk(v.db, v.blobs, v.sent, v.stops, v.now, session)
    ensures Good(w, Go(v, s, session))
  {
    hide Sound, BlobsNamed, LeasesOk, HandedOk, ProposalsOk, Evolves, Disciplined, Extends, SessionOk, Safe, Advances;
    SafeIff(v);
    SafeIff(Go(v, s, session));
    AdvancesIff(w, v);
    AdvancesIff(w, Go(v, s, session));
  }

  lemma EndGood(w: World, v: World, s: Id)
    requires Good(w, v)
    ensures Good(w, End(v, s))
  {
    hide Sound, BlobsNamed, LeasesOk, HandedOk, ProposalsOk, Evolves, Disciplined, Extends, SessionOk, Safe, Advances;
    SafeIff(v);
    SafeIff(End(v, s));
    AdvancesIff(w, v);
    AdvancesIff(w, End(v, s));
  }

  lemma SessionIsOk(w: World, s: Id)
    requires Safe(w) && s in w.sessions
    ensures SessionOk(w.db, w.blobs, w.sent, w.stops, w.now, w.sessions[s])
  {
    hide SessionOk;
    assert PartHolds(CallsInProgress, w);
  }

  // ---------------------------------------------------------------- a commit

  lemma SessionsStay(w: World, after: Db)
    requires SessionsOk(w) && Evolves(w.db, after, w.now)
    ensures forall s :: s in w.sessions ==> SessionOk(after, w.blobs, w.sent, w.stops, w.now, w.sessions[s])
  {
    hide Evolves, SessionOk;
    forall s | s in w.sessions ensures SessionOk(after, w.blobs, w.sent, w.stops, w.now, w.sessions[s]) {
      SessionStays(w.db, after, w.now, w.blobs, w.sent, w.stops, w.sessions[s]);
    }
  }

  lemma LeasesStay(leases: map<Id, seq<Lease>>, before: map<Id, Attempt>, after: map<Id, Attempt>, now: Time)
    requires LeasesOk(leases, before, now) && AttemptsMove(before, after, now)
    ensures LeasesOk(RecordAll(leases, before, after, now), after, now)
  {
    hide LeaseLog, AttemptMoves, Unclaimed, Recorded;
    var more := RecordAll(leases, before, after, now);
    forall a | a in after ensures LeaseLog(more[a], after[a], now) {
      if a in before {
        LeaseLogMoves(leases[a], before[a], after[a], now);
      } else {
        FreshLeaseLog(after[a], now);
      }
    }
  }

  lemma HandedStays(db: Db, after: Db, now: Time, h: Handed)
    requires Evolves(db, after, now) && HandedSound(db, h)
    ensures HandedSound(after, h)
  {
    hide Evolves, ContextOf;
    IdentitiesStay(db, after, now);
    ContextStays(db, after, now, db.operations[h.operation].attempt, h.context);
  }

  lemma AllHandedStay(db: Db, after: Db, now: Time, handed: set<Handed>)
    requires Evolves(db, after, now) && HandedOk(db, handed)
    ensures HandedOk(after, handed)
  {
    hide Evolves, HandedSound;
    forall h | h in handed ensures HandedSound(after, h) {
      HandedStays(db, after, now, h);
    }
  }

  lemma ProposalsStay(before: map<Id, Approval>, after: map<Id, Approval>, now: Time, proposals: map<Id, string>,
                      ttl: Time)
    requires ProposalsOk(before, proposals, ttl) && ApprovalsMove(before, after, now) && after.Keys == before.Keys
    ensures ProposalsOk(after, proposals, ttl)
  {
    hide IsUnifiedDiff;
    forall p | p in after ensures ProposalSound(after, proposals, ttl, p) {
      assert ProposalSound(before, proposals, ttl, p);
    }
  }

  lemma ExtendsItself<K, V>(m: map<K, V>)
    ensures Extends(m, m)
  {}

  lemma EvolvesAttempts(db: Db, after: Db, now: Time)
    requires Evolves(db, after, now)
    ensures AttemptsMove(db.attempts, after.attempts, now) && ApprovalsMove(db.approvals, after.approvals, now)
  {}

  /** A transaction that keeps the invariant of the tables keeps the invariant of the system. */
  lemma CommitGoodWith(w: World, proposals: map<Id, string>, after: Db)
    requires Safe(w) && Evolves(w.db, after, w.now) && Disciplined(w.db, after, w.now)
    requires Sound(after, w.blobs, w.sent, w.stops, w.cfg.staleAfter, w.now)
    requires ProposalsOk(after.approvals, proposals, w.cfg.approvalTtl) && Extends(w.proposals, proposals)
    ensures Good(w, Commit(w.(proposals := proposals), after))
  {
    hide Sound, BlobsNamed, LeasesOk, HandedOk, ProposalsOk, Evolves, Disciplined, SessionOk, RecordAll, Extends;
    hide Safe, Advances;
    var v := Commit(w.(proposals := proposals), after);
    SafeIff(w);
    SafeIff(v);
    AdvancesIff(w, v);
    ExtendsItself(w.blobs);
    EvolvesAttempts(w.db, after, w.now);
    hide AttemptsMove, ApprovalsMove;
    SessionsStay(w, after);
    LeasesStay(w.leases, w.db.attempts, after.attempts, w.now);
    AllHandedStay(w.db, after, w.now, w.handed);
  }

  lemma CommitGood(w: World, after: Db)
    requires Safe(w) && Evolves(w.db, after, w.now) && Disciplined(w.db, after, w.now)
    requires Sound(after, w.blobs, w.sent, w.stops, w.cfg.staleAfter, w.now)
    requires after.approvals.Keys == w.db.approvals.Keys
    ensures Good(w, Commit(w, after))
  {
    hide Sound, BlobsNamed, SessionsOk, LeasesOk, HandedOk, ProposalsOk, Evolves, Disciplined, Good, Safe, Extends;
    SafeIff(w);
    ExtendsItself(w.proposals);
    EvolvesAttempts(w.db, after, w.now);
    hide AttemptsMove, ApprovalsMove;
    ProposalsStay(w.db.approvals, after.approvals, w.now, w.proposals, w.cfg.approvalTtl);
    CommitGoodWith(w, w.proposals, after);
    assert w.(proposals := w.proposals) == w;
  }

  /** A transaction that found nothing to change. */
  lemma CommitNothing(w: World)
    requires Safe(w)
    ensures Good(w, Commit(w, w.db))
  {
    hide Sound, BlobsNamed, SessionsOk, LeasesOk, HandedOk, ProposalsOk, Evolves, Disciplined, Good, Safe;
    SafeIff(w);
    Unmoved(w.db, w.now);
    SameLedgerDisciplined(w.db, w.db, w.now);
    CommitGood(w, w.db);
  }
}
