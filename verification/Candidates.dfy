/** The candidate repository of a mission beside the running system: every commit on it is made of a
    diff that was approved for the operation that it names. */
module Candidates {
  import opened Basics
  import opened Content
  import opened Lifecycle
  import opened Tables
  import opened Transactions
  import Evolution
  import opened Runtime
  import opened Sessions
  import opened Approvals
  import opened Safety
  import opened Steps
  import opened History
  import opened Theorems
  import JsonPointer
  import G = GitWorktree

  /** The commit was made for a candidate operation, with the input of that operation. */
  predicate CommitTracked(commit: G.CommitObject, db: Db) {
    && commit.operation in db.operations && db.operations[commit.operation].kind == CandidateCommit
    && db.operations[commit.operation].input == commit.input
  }

  ghost predicate Tracks(repo: G.CandidateRepository, db: Db)
    reads repo`commits
  {
    forall c <- repo.Candidates() :: CommitTracked(repo.commits[c], db)
  }

  /** The repository is that of this mission: it pins the commit of the spec, and its budget is the
      spec's. */
  predicate RepositoryOf(repo: G.CandidateRepository, spec: Spec) {
    && spec.commit == JsonPointer.PrintDecimal(repo.pinned)
    && repo.budget == G.Budget(spec.allowedPaths, spec.maxFiles, spec.maxChangedLines)
  }

  lemma CommitTrackedLater(commit: G.CommitObject, db: Db, after: Db)
    requires Later(db, after) && CommitTracked(commit, db)
    ensures CommitTracked(commit, after)
  {
    hide MissionsLater, TasksLater, AttemptsLater, ApprovalsLater, Evolution.WriteOnce;
  }

  lemma TracksFrom(repo: G.CandidateRepository, w: World, steps: seq<Step>)
    requires Safe(w) && Tracks(repo, w.db)
    ensures Tracks(repo, RunFrom(w, steps).db)
  {
    hide Safe, RunFrom, Later, CommitTracked;
    StepsMoveForward(w, steps);
    forall c | c in repo.Candidates() ensures CommitTracked(repo.commits[c], RunFrom(w, steps).db) {
      CommitTrackedLater(repo.commits[c], w.db, RunFrom(w, steps).db);
    }
  }

  lemma KeepsTracking(repo: G.CandidateRepository, w: World, v: World)
    requires Safe(w) && Runs(w, v) && Tracks(repo, w.db)
    ensures Tracks(repo, v.db)
  {
    hide Safe, Runs, RunFrom, Tracks;
    var steps := StepsOf(w, v);
    TracksFrom(repo, w, steps);
  }

  /** The commit is a child of the pinned commit, within the budget, and made of a diff for which an
      approval was asked and granted, for the attempt of its operation. */
  ghost predicate MadeOfApproved(repo: G.CandidateRepository, w: World, c: Id)
    reads repo`commits
  {
    && c in repo.commits && repo.pinned in repo.commits && repo.commits[c].parent == repo.pinned
    && G.WithinBudget(repo.git, repo.commits[repo.pinned].tree, repo.commits[c].tree, repo.budget)
    && repo.commits[c].operation in w.db.operations
    && exists p, diff :: MadeOf(repo, w, c, p, diff)
  }

  ghost predicate MadeOf(repo: G.CandidateRepository, w: World, c: Id, p: Id, diff: string)
    requires c in repo.commits && repo.pinned in repo.commits && repo.commits[c].operation in w.db.operations
    reads repo`commits
  {
    && G.Makes(repo.git, repo.commits[repo.pinned].tree, diff, repo.commits[c].tree)
    && ApprovedDiff(w, p, w.db.operations[repo.commits[c].operation].attempt, diff)
  }

  /** Whatever became of the calls, a commit on the repository is made of an approved diff. */
  lemma CommitsAreApproved(repo: G.CandidateRepository, w: World, c: Id)
    requires Safe(w) && repo.Valid() && Tracks(repo, w.db) && c in repo.Candidates()
    ensures MadeOfApproved(repo, w, c)
  {
    hide Safe, G.WithinBudget, G.Makes, ApprovedDiff, Authorizes;
    var commit := repo.commits[c];
    assert CommitTracked(commit, w.db) && repo.CandidateOk(c);
    var diff := commit.input.preimage.text;
    CandidateIsAuthorized(w, commit.operation);
    var row := w.db.operations[commit.operation];
    var p :| Authorizes(w.db, p, row.attempt, row.input);
    AuthorizedIsApproved(w, p, row.attempt, diff);
    assert MadeOf(repo, w, c, p, diff);
  }

  /** A prepared candidate operation has the diff that is handed to git as its input. */
  lemma PreparedIsTracked(w: World, s: Id)
    requires Safe(w) && s in w.sessions && w.sessions[s].CandidatePrepared?
    ensures var (o, diff) := (w.sessions[s].operation, w.sessions[s].context.diff);
      && o in w.db.operations && w.db.operations[o].kind == CandidateCommit
      && w.db.operations[o].input == Sha256(Utf8(diff))
  {
    hide Safe, ContextOf;
    SessionIsOk(w, s);
    SafeKeys(w);
  }
}
