/** The candidate worktree of one mission: git commands one at a time, any of which may fail or be
    the last one before the process dies. */
module GitWorktree {
  import opened Basics
  import opened Content
  import opened JsonPointer

  type Path = string
  type Tree = map<Path, Bytes>

  /** What git computes and the adapter only passes on: the tree that a patch makes of a tree, and
      the added and deleted lines between two versions of a file (none for binary files), and the
      order in which it lists paths. */
  datatype Git = Git(
    apply: (string, Tree) -> Option<Tree>,
    numstat: (Option<Bytes>, Option<Bytes>) -> Option<(nat, nat)>,
    list: set<Path> -> seq<Path>)

  datatype CommitObject = CommitObject(parent: Id, tree: Tree, operation: Id, input: Digest)

  /** The change budget of the mission's spec. */
  datatype Budget = Budget(allowedPaths: seq<string>, maxFiles: nat, maxChangedLines: nat)

  /** The caller hashes the diff, and the digest goes into the commit message. */
  datatype Request = Request(diff: string, operation: Id) {
    function Input(): Digest { Sha256(Utf8(diff)) }
  }

  /** What becomes of one git command: it is done, it fails without effect, or it is done and the
      process dies right after it. */
  datatype Outcome = Done | Failed | Died

  datatype Answer<+T> = Returned(value: T) | Raised | Crashed

  datatype Call = RecoverCall(operation: Id) | CommitCall(request: Request)

  datatype Reply = Recovered(workspace: Answer<()>) | Committed(commit: Answer<CandidateCommit>)

  // ---------------------------------------------------------------- diffs and budgets

  function At(tree: Tree, path: Path): Option<Bytes> {
    if path in tree then Some(tree[path]) else None
  }

  /** `git diff --name-only`: the tracked paths whose file differs from the index. */
  function ChangedPaths(index: Tree, files: Tree): set<Path> {
    set p | p in index && At(files, p) != At(index, p)
  }

  /** `git add -- paths`. */
  function Staged(index: Tree, files: Tree, paths: set<Path>): Tree {
    map p | p in index.Keys + paths && (if p in paths then p in files else p in index) ::
      if p in paths then files[p] else index[p]
  }

  /** `entry.rstrip("/")`. */
  function TrimSlashes(entry: string): (t: string)
    ensures t <= entry && (t == "" || t[|t| - 1] != '/')
    ensures forall i :: |t| <= i < |entry| ==> entry[i] == '/'
  {
    if entry != "" && entry[|entry| - 1] == '/' then TrimSlashes(entry[..|entry| - 1]) else entry
  }

  predicate Under(path: Path, entry: string) {
    path == entry || TrimSlashes(entry) + "/" <= path
  }

  /** `_validate_changed_path`. */
  predicate SafePath(path: Path, allowed: seq<string>) {
    && !("/" <= path) && ".." !in Split(path, '/') && '\t' !in path
    && exists entry <- allowed :: Under(path, entry)
  }

  predicate Enumerates(names: seq<Path>, paths: set<Path>) {
    && (forall p <- names :: p in paths) && (forall p <- paths :: p in names)
    && (forall i, j :: 0 <= i < j < |names| ==> names[i] != names[j])
  }

  /** The lines of all paths together, or none if git reports a binary file among them. */
  function ChangedLines(git: Git, before: Tree, after: Tree, names: seq<Path>): Option<nat> {
    if names == [] then Some(0)
    else
      var last := names[|names| - 1];
      var front, one := ChangedLines(git, before, after, names[..|names| - 1]),
          git.numstat(At(before, last), At(after, last));
      if front.None? || one.None? then None else Some(front.value + one.value.0 + one.value.1)
  }

  /** `git show --name-only`: every path that differs between two trees. */
  function Differences(before: Tree, after: Tree): set<Path> {
    set p | p in before.Keys + after.Keys && At(after, p) != At(before, p)
  }

  lemma DiffersIff(before: Tree, after: Tree, p: Path)
    ensures p in Differences(before, after) <==> At(before, p) != At(after, p)
  {}

  /** A change stays within the budget: at least one and at most `maxFiles` paths, each
      allowed, and at most `maxChangedLines` lines by git's own count. */
  ghost predicate WithinBudget(git: Git, before: Tree, after: Tree, b: Budget) {
    var names := git.list(Differences(before, after));
    && names != [] && |names| <= b.maxFiles && (forall p <- names :: SafePath(p, b.allowedPaths))
    && ChangedLines(git, before, after, names).Some?
    && ChangedLines(git, before, after, names).value <= b.maxChangedLines
  }

  // ---------------------------------------------------------------- what the budget means

  /** The path is relative, climbs nowhere, and is an allowed entry itself or lies below one: the names on
      the way to the entry, without its trailing slashes, are the first names on the way to the path. */
  predicate Inside(path: Path, allowed: seq<string>) {
    var names := Split(path, '/');
    && !(names[0] == "" && |names| > 1) && ".." !in names && '\t' !in path
    && exists entry <- allowed :: path == entry || Split(TrimSlashes(entry), '/') < names
  }

  lemma {:induction false} JoinAppends(a: seq<string>, b: seq<string>)
    requires a != [] && b != []
    ensures Join(a + b, '/') == Join(a, '/') + "/" + Join(b, '/')
  {
    if |a| == 1 {
      JoinFirst(a[0], b, '/');
      assert a + b == [a[0]] + b && a[0] + ("/" + Join(b, '/')) == Join(a, '/') + "/" + Join(b, '/');
    } else {
      JoinAppends(a[1..], b);
      assert (a + b)[0] == a[0] && (a + b)[1..] == a[1..] + b;
      assert Join(a + b, '/') == a[0] + "/" + (Join(a[1..], '/') + "/" + Join(b, '/'));
    }
  }

  lemma SplitAppends(a: string, b: string)
    ensures Split(a + "/" + b, '/') == Split(a, '/') + Split(b, '/')
  {
    hide Split, Join;
    JoinSplit(a, '/');
    JoinSplit(b, '/');
    JoinAppends(Split(a, '/'), Split(b, '/'));
    SplitJoin(Split(a, '/') + Split(b, '/'), '/');
  }

  /** The comparison of names is what the comparison of strings with a separator amounts to. */
  lemma BelowIff(path: Path, entry: string)
    ensures entry + "/" <= path <==> Split(entry, '/') < Split(path, '/')
  {
    var first, names := Split(entry, '/'), Split(path, '/');
    if entry + "/" <= path {
      var rest := path[|entry| + 1..];
      assert path == entry + "/" + rest;
      SplitAppends(entry, rest);
    }
    if first < names {
      var rest := names[|first|..];
      assert names == first + rest;
      JoinSplit(entry, '/');
      JoinSplit(path, '/');
      JoinAppends(first, rest);
    }
  }

  lemma AbsoluteIff(path: Path)
    ensures "/" <= path <==> Split(path, '/')[0] == "" && |Split(path, '/')| > 1
  {
    if path != "" && path[0] == '/' {
      assert "/" <= path;
    }
  }

  /** The check of one path accepts exactly the paths inside. */
  lemma SafePathIff(path: Path, allowed: seq<string>)
    ensures SafePath(path, allowed) <==> Inside(path, allowed)
  {
    AbsoluteIff(path);
    forall entry | entry in allowed
      ensures Under(path, entry) <==> path == entry || Split(TrimSlashes(entry), '/') < Split(path, '/')
    {
      BelowIff(path, TrimSlashes(entry));
    }
    hide Split;
  }

  /** A sibling whose name only begins like an allowed entry is outside. */
  lemma SiblingIsOutside(entry: string, suffix: string)
    requires suffix != "" && suffix[0] != '/' && (entry == "" || entry[|entry| - 1] != '/')
    ensures !SafePath(entry + suffix, [entry])
  {
    var path := entry + suffix;
    assert TrimSlashes(entry) == entry;
    assert path[..|entry| + 1] == entry + [suffix[0]];
    assert (entry + [suffix[0]])[|entry|] == suffix[0] && (entry + "/")[|entry|] == '/';
  }

  /** The lines of two groups of paths add up, those of one path are its added and its deleted ones, and
      one binary file spoils the count. */
  lemma {:induction false} LinesAddUp(git: Git, before: Tree, after: Tree, some: seq<Path>, more: seq<Path>)
    ensures var (x, y) := (ChangedLines(git, before, after, some), ChangedLines(git, before, after, more));
      ChangedLines(git, before, after, some + more) ==
      if x.Some? && y.Some? then Some(x.value + y.value) else None
  {
    if more == [] {
      assert some + more == some;
    } else {
      var n := |more| - 1;
      LinesAddUp(git, before, after, some, more[..n]);
      assert (some + more)[..|some| + n] == some + more[..n] && (some + more)[|some| + n] == more[n];
    }
  }

  lemma LinesOfOne(git: Git, before: Tree, after: Tree, path: Path)
    ensures ChangedLines(git, before, after, [path]) ==
      match git.numstat(At(before, path), At(after, path))
      case Some((added, deleted)) => Some(added + deleted)
      case None => None
  {
    assert [path][..0] == [];
  }

  lemma {:induction false} ListedOnce(names: seq<Path>, paths: set<Path>)
    requires Enumerates(names, paths)
    ensures |names| == |paths|
  {
    if names == [] {
      assert paths == {};
    } else {
      var front, last := names[..|names| - 1], names[|names| - 1];
      assert last !in front;
      forall p | p in paths - {last} ensures p in front {
        assert p in names;
      }
      assert forall p <- front :: p in names;
      ListedOnce(front, paths - {last});
    }
  }

  /** The budget in terms of the trees alone: which paths differ, how many, where they lie, and the lines
      that git counts in them. */
  lemma WithinBudgetIff(git: Git, before: Tree, after: Tree, b: Budget)
    requires forall paths: set<Path> :: Enumerates(git.list(paths), paths)
    ensures WithinBudget(git, before, after, b) <==>
      var paths := Differences(before, after);
      var lines := ChangedLines(git, before, after, git.list(paths));
      && 1 <= |paths| <= b.maxFiles && (forall p <- paths :: Inside(p, b.allowedPaths))
      && lines.Some? && lines.value <= b.maxChangedLines
  {
    hide SafePath, Inside, ChangedLines, Differences;
    var paths := Differences(before, after);
    var names := git.list(paths);
    assert Enumerates(names, paths);
    ListedOnce(names, paths);
    forall p ensures SafePath(p, b.allowedPaths) <==> Inside(p, b.allowedPaths) {
      SafePathIff(p, b.allowedPaths);
    }
  }

  // ---------------------------------------------------------------- what is staged is what was looked at

  lemma StagedDiffers(index: Tree, files: Tree)
    ensures Differences(index, Staged(index, files, ChangedPaths(index, files))) == ChangedPaths(index, files)
    ensures forall p <- ChangedPaths(index, files) ::
      At(Staged(index, files, ChangedPaths(index, files)), p) == At(files, p)
  {}

  lemma {:induction false} SameLines(git: Git, before: Tree, after: Tree, other: Tree, names: seq<Path>)
    requires forall p <- names :: At(after, p) == At(other, p)
    ensures ChangedLines(git, before, after, names) == ChangedLines(git, before, other, names)
  {
    if names != [] {
      SameLines(git, before, after, other, names[..|names| - 1]);
      assert names[|names| - 1] in names;
    }
  }

  lemma {:induction false} NoLines(git: Git, before: Tree, after: Tree, names: seq<Path>, i: nat)
    requires i < |names| && git.numstat(At(before, names[i]), At(after, names[i])).None?
    ensures ChangedLines(git, before, after, names).None?
  {
    if i < |names| - 1 {
      assert names[..|names| - 1][i] == names[i];
      NoLines(git, before, after, names[..|names| - 1], i);
    }
  }

  /** What `_validate_candidate_diff` accepts. */
  ghost predicate Passes(git: Git, index: Tree, files: Tree, names: seq<Path>, b: Budget) {
    && names != [] && |names| <= b.maxFiles && (forall p <- names :: SafePath(p, b.allowedPaths))
    && ChangedLines(git, index, files, names).Some?
    && ChangedLines(git, index, files, names).value <= b.maxChangedLines
  }

  /** The check looks at the working files, the commit holds what was staged: they agree. */
  lemma CheckedIsCommitted(git: Git, index: Tree, files: Tree, b: Budget)
    requires Enumerates(git.list(ChangedPaths(index, files)), ChangedPaths(index, files))
    ensures var names := git.list(ChangedPaths(index, files));
      && (set p | p in names) == ChangedPaths(index, files)
      && (Passes(git, index, files, names, b) <==>
            WithinBudget(git, index, Staged(index, files, ChangedPaths(index, files)), b))
  {
    hide SafePath;
    var names := git.list(ChangedPaths(index, files));
    StagedAsListed(git, index, files, names);
    assert (set p | p in names) == ChangedPaths(index, files);
  }

  lemma StagedAsListed(git: Git, index: Tree, files: Tree, names: seq<Path>)
    requires names == git.list(ChangedPaths(index, files)) && Enumerates(names, ChangedPaths(index, files))
    ensures var after := Staged(index, files, set p | p in names);
      && names == git.list(Differences(index, after))
      && ChangedLines(git, index, after, names) == ChangedLines(git, index, files, names)
  {
    assert (set p | p in names) == ChangedPaths(index, files);
    var after := Staged(index, files, ChangedPaths(index, files));
    StagedDiffers(index, files);
    SameLines(git, index, files, after, names);
  }

  /** The worktree is clean after the commit exactly when the patch created no file: `git diff` does
      not list an untracked file, so it is neither checked, staged nor committed, and stays behind. */
  lemma CleanAfterCommitIff(index: Tree, files: Tree)
    ensures Staged(index, files, ChangedPaths(index, files)) == files <==> files.Keys <= index.Keys
  {
    var staged := Staged(index, files, ChangedPaths(index, files));
    forall p ensures p in staged <==> p in files && p in index {
      assert p in ChangedPaths(index, files) <==> p in index && At(files, p) != At(index, p);
    }
    if files.Keys <= index.Keys {
      assert staged.Keys == files.Keys;
      forall p | p in staged ensures staged[p] == files[p] {
        assert p in ChangedPaths(index, files) || At(files, p) == At(index, p);
      }
    }
  }

  /** What a commit of this diff on a clean tree holds: the patched tree, as far as it was staged. */
  ghost predicate Makes(git: Git, before: Tree, diff: string, after: Tree) {
    var patched := git.apply(diff, before);
    patched.Some? && after == Staged(before, patched.value, ChangedPaths(before, patched.value))
  }

  // ---------------------------------------------------------------- the repository

  /** The commit that a call answered with. */
  datatype CandidateCommit = CandidateCommit(commit: Id, paths: seq<Path>, lines: nat)

  /** The mirror and the candidate worktree of one mission whose spec pins the commit `pinned`.
      `plan` says what becomes of the git commands still to come. */
  class CandidateRepository {
    const git: Git
    const pinned: Id
    const budget: Budget
    var worktree: bool
    var head: Id
    var index: Tree
    var files: Tree
    var commits: map<Id, CommitObject>
    var refs: map<Id, Id>
    var plan: seq<Outcome>

    /** The candidate commits: everything but the pinned one. */
    function Candidates(): set<Id>
      reads `commits
    {
      commits.Keys - {pinned}
    }

    /** A candidate commit is a child of the pinned commit, within the budget, and made of the diff
        whose digest it names. */
    ghost predicate CandidateOk(c: Id)
      requires c in commits && pinned in commits
      reads `commits
    {
      && commits[c].parent == pinned && WithinBudget(git, commits[pinned].tree, commits[c].tree, budget)
      && commits[c].input.preimage.Utf8?
      && Makes(git, commits[pinned].tree, commits[c].input.preimage.text, commits[c].tree)
    }

    /** At most one candidate commit exists, and HEAD is the newest commit; a ref names the
        candidate commit of its own operation. */
    ghost predicate Valid()
      reads `worktree, `head, `commits, `refs
    {
      && (forall paths: set<Path> :: Enumerates(git.list(paths), paths))
      && pinned in commits && |Candidates()| <= 1
      && (if worktree then head in commits && (head == pinned <==> Candidates() == {}) else Candidates() == {})
      && (forall c <- Candidates() :: CandidateOk(c))
      && (forall o :: o in refs ==> refs[o] in Candidates() && commits[refs[o]].operation == o)
    }

    /** Commits and refs are never changed, only added. */
    twostate predicate Keeps()
      reads `commits, `refs
    {
      && (forall c :: c in old(commits) ==> c in commits && commits[c] == old(commits)[c])
      && (forall o :: o in old(refs) ==> o in refs && refs[o] == old(refs)[o])
    }

    /** What was committed since is of this request. */
    twostate predicate OnlyOwn(r: Request)
      reads `commits
    {
      forall c :: c in commits && c !in old(commits) ==>
        commits[c].operation == r.operation && commits[c].input == r.Input()
    }

    /** `git status --porcelain` prints something. */
    predicate Dirty()
      requires head in commits
      reads `head, `index, `files, `commits
    {
      index != commits[head].tree || files != index
    }

    /** Every command still to come will be done. */
    predicate Smooth()
      reads `plan
    {
      forall o <- plan :: o == Done
    }

    constructor (git: Git, pinned: Id, tree: Tree, budget: Budget, plan: seq<Outcome>)
      requires forall paths: set<Path> :: Enumerates(git.list(paths), paths)
      ensures Valid() && !worktree && Candidates() == {} && refs == map[]
      ensures this.git == git && this.pinned == pinned && this.budget == budget && this.plan == plan
      ensures head == pinned && commits[pinned].tree == tree
    {
      this.git, this.pinned, this.budget, this.plan := git, pinned, budget, plan;
      worktree, head, index, files, refs := false, pinned, map[], map[], map[];
      commits := map[pinned := CommitObject(pinned, tree, 0, Sha256(Utf8("")))];
    }

    // -------------------------------------------------------------- one git command each

    /** A command that only reads. */
    method Query() returns (o: Outcome)
      modifies this`plan
      ensures old(Smooth()) ==> o == Done && Smooth()
    {
      if plan == [] { return Done; }
      assert plan[0] in plan && forall x <- plan[1..] :: x in plan;
      o, plan := plan[0], plan[1..];
    }

    method WorktreeAdd() returns (o: Outcome)
      requires Valid() && !worktree
      modifies this
      ensures Valid() && Keeps() && Candidates() == old(Candidates()) && refs == old(refs)
      ensures commits == old(commits) && (old(Smooth()) ==> Smooth() && o == Done)
      ensures if o == Failed then !worktree else worktree && head == pinned && !Dirty()
    {
      o := Query();
      if o != Failed {
        worktree, head, index, files := true, pinned, commits[pinned].tree, commits[pinned].tree;
      }
    }

    /** `git apply` touches working files only: a file it creates is untracked. */
    method ApplyPatch(diff: string) returns (o: Outcome)
      requires Valid() && worktree
      modifies this`files, this`plan
      ensures Valid() && (old(Smooth()) ==> Smooth() && o == if git.apply(diff, old(files)).Some? then Done else Failed)
      ensures o == Done ==> git.apply(diff, old(files)) == Some(files)
      ensures o == Failed ==> files == old(files)
    {
      o := Query();
      var patched := git.apply(diff, files);
      if patched.None? { return if o == Died then Died else Failed; }
      if o != Failed { files := patched.value; }
    }

    method Add(names: seq<Path>) returns (o: Outcome)
      requires Valid() && worktree
      modifies this`index, this`plan
      ensures Valid() && (old(Smooth()) ==> Smooth() && o == Done)
      ensures index == if o == Failed then old(index) else Staged(old(index), files, set p | p in names)
    {
      o := Query();
      if o != Failed {
        index := Staged(index, files, set p | p in names);
      }
    }

    method Commit(r: Request, sha: Id) returns (o: Outcome)
      requires Valid() && worktree && head == pinned && sha !in commits
      requires WithinBudget(git, commits[pinned].tree, index, budget) && Makes(git, commits[pinned].tree, r.diff, index)
      modifies this`head, this`commits, this`plan
      ensures Valid() && Keeps() && (old(Smooth()) ==> Smooth() && o == Done)
      ensures if o == Failed then head == old(head) && commits == old(commits)
              else head == sha && commits == old(commits)[sha := CommitObject(pinned, index, r.operation, r.Input())]
    {
      o := Query();
      if o != Failed {
        assert Candidates() == {};
        commits, head := commits[sha := CommitObject(head, index, r.operation, r.Input())], sha;
        assert Candidates() == {sha};
      }
    }

    /** `git update-ref` with the all-zero old value: it refuses to move an existing ref. */
    method UpdateRef(operation: Id, c: Id) returns (o: Outcome)
      requires Valid() && c in Candidates() && commits[c].operation == operation
      modifies this`refs, this`plan
      ensures Valid() && Keeps() && (old(Smooth()) ==> Smooth() && (operation !in old(refs) ==> o == Done))
      ensures o == Done ==> operation in refs && refs[operation] == c
    {
      hide CandidateOk;
      o := Query();
      if operation in refs { return if o == Died then Died else Failed; }
      if o != Failed { refs := refs[operation := c]; }
    }

    /** `git reset --hard` to the pinned commit: tracked files go back, untracked ones stay. */
    method ResetHard() returns (o: Outcome)
      requires Valid() && worktree && head == pinned
      modifies this`index, this`files, this`plan
      ensures Valid() && (old(Smooth()) ==> Smooth() && o == Done)
      ensures o == Done ==> index == commits[pinned].tree && forall p :: p in index ==>
                p in files && files[p] == index[p]
    {
      o := Query();
      if o != Failed {
        index := commits[head].tree;
        files := files + index;
      }
    }

    /** `git clean -fd`: untracked files go. */
    method Clean() returns (o: Outcome)
      requires Valid() && worktree
      requires forall p :: p in index ==> p in files && files[p] == index[p]
      modifies this`files, this`plan
      ensures Valid() && (old(Smooth()) ==> Smooth() && o == Done)
      ensures o == Done ==> files == index
    {
      o := Query();
      if o != Failed {
        files := map p | p in files && p in index :: files[p];
      }
    }

    // -------------------------------------------------------------- reading the change

    method AllSafe(names: seq<Path>) returns (safe: bool)
      ensures safe <==> forall p <- names :: SafePath(p, budget.allowedPaths)
    {
      hide SafePath;
      for i := 0 to |names|
        invariant forall k :: 0 <= k < i ==> SafePath(names[k], budget.allowedPaths)
      {
        if !SafePath(names[i], budget.allowedPaths) { return false; }
      }
      return true;
    }

    method CountLines(names: seq<Path>) returns (total: Option<nat>)
      ensures total == ChangedLines(git, index, files, names)
    {
      var lines := 0;
      for i := 0 to |names|
        invariant ChangedLines(git, index, files, names[..i]) == Some(lines)
      {
        var stat := git.numstat(At(index, names[i]), At(files, names[i]));
        assert names[..i + 1][..i] == names[..i];
        if stat.None? {
          NoLines(git, index, files, names, i);
          return None;
        }
        lines := lines + stat.value.0 + stat.value.1;
      }
      assert names[..|names|] == names;
      return Some(lines);
    }

    /** Paths first, then lines. */
    method ValidateDiff() returns (a: Answer<(seq<Path>, nat)>)
      requires Valid() && worktree
      modifies this`plan
      ensures Valid() && (old(Smooth()) ==> Smooth() && !a.Crashed?)
      ensures var names := git.list(ChangedPaths(index, files));
        && (old(Smooth()) ==> (a.Returned? <==> Passes(git, index, files, names, budget)))
        && (a.Returned? ==> Passes(git, index, files, names, budget) && a.value.0 == names
                            && ChangedLines(git, index, files, names) == Some(a.value.1))
    {
      hide CandidateOk, WithinBudget, ChangedLines, SafePath, Staged, Enumerates;
      var o := Query();
      if o != Done { return if o == Died then Crashed else Raised; }
      var names := git.list(ChangedPaths(index, files));
      if names == [] || |names| > budget.maxFiles { return Raised; }
      var safe := AllSafe(names);
      if !safe { return Raised; }
      o := Query();
      if o != Done { return if o == Died then Crashed else Raised; }
      var lines := CountLines(names);
      if lines.None? || lines.value > budget.maxChangedLines { return Raised; }
      return Returned((names, lines.value));
    }

    /** Git can apply the diff, and the change it makes stays within the budget. */
    ghost predicate Acceptable(diff: string)
      reads `index, `files
    {
      var after := git.apply(diff, files);
      after.Some? && WithinBudget(git, index, Staged(index, after.value, ChangedPaths(index, after.value)), budget)
    }

    /** The same without the words of the check: the tracked files that the patch changes are at least one
        and not too many, all inside, and their lines are not too many. */
    lemma AcceptableIff(diff: string)
      requires Valid()
      ensures Acceptable(diff) <==>
        && git.apply(diff, files).Some?
        && (var paths := ChangedPaths(index, git.apply(diff, files).value);
            var lines := ChangedLines(git, index, git.apply(diff, files).value, git.list(paths));
            && 1 <= |paths| <= budget.maxFiles && (forall p <- paths :: Inside(p, budget.allowedPaths))
            && lines.Some? && lines.value <= budget.maxChangedLines)
    {
      hide CandidateOk, Inside, WithinBudget, ChangedLines, ChangedPaths, Differences, Staged;
      if git.apply(diff, files).Some? {
        var after := git.apply(diff, files).value;
        var paths := ChangedPaths(index, after);
        assert Enumerates(git.list(paths), paths);
        WithinBudgetIff(git, index, Staged(index, after, paths), budget);
        StagedDiffers(index, after);
        StagedAsListed(git, index, after, git.list(paths));
        CheckedIsCommitted(git, index, after, budget);
      }
    }

    /** What a call may answer with: a change that stays inside, each path once, in the limits. */
    predicate Allowed(answer: CandidateCommit) {
      && 1 <= |answer.paths| <= budget.maxFiles && (forall p <- answer.paths :: Inside(p, budget.allowedPaths))
      && (forall i, j :: 0 <= i < j < |answer.paths| ==> answer.paths[i] != answer.paths[j])
      && answer.lines <= budget.maxChangedLines
    }

    /** ... and it names exactly the paths on which the commit and the pinned one differ. */
    lemma AnswerIsAllowed(operation: Id, answer: CandidateCommit)
      requires Valid() && Answers(operation, answer)
      ensures Allowed(answer) && RefOf(operation) == Some(answer.commit)
      ensures forall p: Path :: p in answer.paths <==>
        At(commits[pinned].tree, p) != At(commits[answer.commit].tree, p)
    {
      hide Inside, ChangedLines, Differences, SafePath, Makes;
      var c := answer.commit;
      assert CandidateOk(c);
      hide CandidateOk;
      WithinBudgetIff(git, commits[pinned].tree, commits[c].tree, budget);
      var paths := Differences(commits[pinned].tree, commits[c].tree);
      assert Enumerates(git.list(paths), paths);
      ListedOnce(git.list(paths), paths);
      forall p: Path ensures p in paths <==> At(commits[pinned].tree, p) != At(commits[c].tree, p) {
        DiffersIff(commits[pinned].tree, commits[c].tree, p);
      }
    }

    /** `git show` of a candidate commit. */
    method View(c: Id) returns (a: Answer<CandidateCommit>)
      requires Valid() && c in Candidates()
      modifies this`plan
      ensures Valid() && (old(Smooth()) ==> Smooth() && a.Returned?)
      ensures a.Returned? ==> a.value == ViewOf(c) && a.value.commit == c
    {
      var o := Query();
      if o != Done { return if o == Died then Crashed else Raised; }
      o := Query();
      if o != Done { return if o == Died then Crashed else Raised; }
      assert CandidateOk(c);
      return Returned(ViewOf(c));
    }

    function ViewOf(c: Id): CandidateCommit
      requires c in commits && pinned in commits
      reads `commits
    {
      var names := git.list(Differences(commits[pinned].tree, commits[c].tree));
      var lines := ChangedLines(git, commits[pinned].tree, commits[c].tree, names);
      CandidateCommit(c, names, if lines.Some? then lines.value else 0)
    }

    // -------------------------------------------------------------- the adapter's own calls

    /** `_operation_commit`: any failure reads as "no ref". */
    method OperationCommit(operation: Id) returns (a: Answer<Option<Id>>)
      requires Valid()
      modifies this`plan
      ensures Valid() && !a.Raised? && (old(Smooth()) ==> Smooth() && a == Returned(RefOf(operation)))
      ensures a.Returned? && a.value.Some? ==> RefOf(operation) == a.value
    {
      var o := Query();
      return if o == Died then Crashed else if o == Failed then Returned(None) else Returned(RefOf(operation));
    }

    function RefOf(operation: Id): Option<Id>
      reads `refs
    {
      if operation in refs then Some(refs[operation]) else None
    }

    method PublishOperationRef(operation: Id, c: Id) returns (a: Answer<()>)
      requires Valid() && c in Candidates() && commits[c].operation == operation
      modifies this`refs, this`plan
      ensures Valid() && Keeps() && (old(Smooth()) ==> Smooth() && a.Returned?)
      ensures a.Returned? ==> operation in refs && refs[operation] == c
    {
      hide CandidateOk, WithinBudget;
      var current := OperationCommit(operation);
      if current.Crashed? { return Crashed; }
      OnlyCandidate(operation, c);
      if current.value.Some? {
        return if current.value.value != c then Raised else Returned(());
      }
      var o := UpdateRef(operation, c);
      return if o == Died then Crashed else if o == Failed then Raised else Returned(());
    }

    lemma OnlyCandidate(operation: Id, c: Id)
      requires Valid() && c in Candidates()
      ensures operation in refs ==> refs[operation] == c
    {
      if operation in refs && refs[operation] != c {
        assert {c, refs[operation]} <= Candidates();
        TwoMembers(Candidates(), c, refs[operation]);
      }
    }

    method EnsureCandidate() returns (a: Answer<()>)
      requires Valid()
      modifies this
      ensures Valid() && Keeps() && commits == old(commits) && refs == old(refs)
      ensures a.Returned? ==> worktree && head == pinned && !Dirty()
      ensures old(Smooth()) ==> Smooth() && (a.Returned? <==> old(!worktree || (head == pinned && !Dirty())))
    {
      var o := Query();
      if o != Done { return if o == Died then Crashed else Raised; }
      if worktree {
        o := Query();
        if o != Done { return if o == Died then Crashed else Raised; }
        o := Query();
        if o != Done { return if o == Died then Crashed else Raised; }
        return if head != pinned || Dirty() then Raised else Returned(());
      }
      o := WorktreeAdd();
      return if o == Died then Crashed else if o == Failed then Raised else Returned(());
    }

    /** The worktree can be used for the operation: it is clean, and at the pinned commit or at the
        operation's own commit. */
    predicate Recoverable(operation: Id)
      requires head in commits
      reads `head, `index, `files, `commits
    {
      !Dirty() && (head == pinned || (commits[head].parent == pinned && commits[head].operation == operation))
    }

    method RecoverCandidate(operation: Id) returns (a: Answer<()>)
      requires Valid()
      modifies this
      ensures Valid() && Keeps() && Candidates() == old(Candidates()) && refs == old(refs)
      ensures a.Returned? ==> worktree && Recoverable(operation)
      ensures a.Returned? ==> !Dirty() && (head == pinned || commits[head].operation == operation)
      ensures commits == old(commits) && (old(worktree) ==> SameWorktree())
      ensures old(worktree && Smooth()) ==> (a.Returned? <==> Recoverable(operation))
    {
      hide CandidateOk, WithinBudget;
      if !worktree {
        a := EnsureCandidate();
        return;
      }
      var o := Query();
      if o != Done { return if o == Died then Crashed else Raised; }
      if Dirty() { return Raised; }
      o := Query();
      if o != Done { return if o == Died then Crashed else Raised; }
      if head != pinned {
        o := Query();
        if o != Done { return if o == Died then Crashed else Raised; }
        if commits[head].parent != pinned { return Raised; }
        o := Query();
        if o != Done { return if o == Died then Crashed else Raised; }
        if commits[head].operation != operation { return Raised; }
      }
      return Returned(());
    }

    /** The body of the `try` up to `git add`, and whether the patch was applied by then. */
    method Stage(r: Request) returns (a: Answer<(seq<Path>, nat)>, patchApplied: bool)
      requires Valid() && worktree && head == pinned && !Dirty()
      modifies this`index, this`files, this`plan
      ensures Valid() && (old(Smooth()) ==> Smooth() && !a.Crashed?)
      ensures !patchApplied && a.Raised? ==> index == old(index) && files == old(files)
      ensures a.Returned? ==> patchApplied && WithinBudget(git, commits[pinned].tree, index, budget)
      ensures a.Returned? ==> a.value.0 == git.list(Differences(commits[pinned].tree, index))
      ensures a.Returned? ==> ChangedLines(git, commits[pinned].tree, index, a.value.0) == Some(a.value.1)
      ensures a.Returned? ==> git.apply(r.diff, old(files)) == Some(files)
      ensures a.Returned? ==> index == Staged(old(index), files, ChangedPaths(old(index), files))
      ensures old(Smooth()) ==> (a.Returned? <==> old(Acceptable(r.diff)))
    {
      hide CandidateOk, WithinBudget, ChangedLines, Staged, Differences, ChangedPaths, Passes;
      patchApplied := false;
      var o := Query();
      if o == Died { return Crashed, patchApplied; }
      if o == Failed || git.apply(r.diff, files).None? { return Raised, patchApplied; }
      o := ApplyPatch(r.diff);
      if o != Done { return if o == Died then Crashed else Raised, patchApplied; }
      patchApplied := true;
      CheckedIsCommitted(git, index, files, budget);
      a := ValidateDiff();
      if !a.Returned? { return a, patchApplied; }
      StagedAsListed(git, index, files, a.value.0);
      o := Add(a.value.0);
      if o != Done { return if o == Died then Crashed else Raised, patchApplied; }
    }

    /** HEAD is the request's own candidate commit, and holds this tree. */
    predicate HeadIs(r: Request, tree: Tree)
      reads `head, `commits
    {
      head != pinned && head in commits && commits[head] == CommitObject(pinned, tree, r.operation, r.Input())
    }

    /** The rest of the `try`: the commit, and its ref. */
    method CommitStaged(r: Request, sha: Id, change: (seq<Path>, nat))
      returns (a: Answer<CandidateCommit>, commitCreated: bool)
      requires Valid() && worktree && head == pinned && sha !in commits
      requires WithinBudget(git, commits[pinned].tree, index, budget) && Makes(git, commits[pinned].tree, r.diff, index)
      requires change.0 == git.list(Differences(commits[pinned].tree, index))
      requires ChangedLines(git, commits[pinned].tree, index, change.0) == Some(change.1)
      modifies this`head, this`commits, this`refs, this`plan
      ensures Valid() && Keeps() && (old(Smooth()) ==> Smooth() && a.Returned?)
      ensures a.Returned? ==> Answers(r.operation, a.value) && commits[a.value.commit].input == r.Input()
      ensures commitCreated ==> head == sha
      ensures OnlyOwn(r) && (a.Returned? ==> HeadIs(r, index))
      ensures !commitCreated && !a.Crashed? ==>
                a.Raised? && head == pinned && commits == old(commits) && refs == old(refs)
    {
      hide CandidateOk, WithinBudget, ChangedLines, Differences, Enumerates;
      commitCreated := false;
      var o := Commit(r, sha);
      if o != Done { return if o == Died then Crashed else Raised, commitCreated; }
      commitCreated := true;
      o := Query();
      if o != Done { return if o == Died then Crashed else Raised, commitCreated; }
      var published := PublishOperationRef(r.operation, head);
      if !published.Returned? { return if published.Crashed? then Crashed else Raised, commitCreated; }
      return Returned(CandidateCommit(head, change.0, change.1)), commitCreated;
    }

    /** The body of the `try`: whether the patch was applied and whether the commit was created
        before an exception. */
    method TryCommit(r: Request, sha: Id) returns (a: Answer<CandidateCommit>, patchApplied: bool, commitCreated: bool)
      requires Valid() && worktree && head == pinned && !Dirty() && sha !in commits
      modifies this
      ensures Valid() && Keeps() && worktree && (old(Smooth()) ==> Smooth() && !a.Crashed?)
      ensures a.Returned? ==> Answers(r.operation, a.value) && commits[a.value.commit].input == r.Input()
      ensures commitCreated ==> head == sha
      ensures OnlyOwn(r) && (a.Returned? ==> HeadIs(r, index) && git.apply(r.diff, old(files)) == Some(files))
      ensures a.Returned? ==> index == Staged(old(index), files, ChangedPaths(old(index), files))
      ensures !commitCreated && !a.Crashed? ==> head == pinned && commits == old(commits) && refs == old(refs)
      ensures !patchApplied && a.Raised? ==> index == old(index) && files == old(files)
      ensures old(Smooth()) ==> (a.Returned? <==> old(Acceptable(r.diff))) && (a.Raised? ==> !commitCreated)
    {
      hide CandidateOk, WithinBudget, ChangedLines, Differences, Enumerates, Acceptable, Answers, Staged, ChangedPaths;
      var change;
      change, patchApplied := Stage(r);
      if !change.Returned? { return if change.Crashed? then Crashed else Raised, patchApplied, false; }
      a, commitCreated := CommitStaged(r, sha, change.value);
    }

    /** The answer names the operation's own commit, which its ref now names too. */
    ghost predicate Answers(operation: Id, answer: CandidateCommit)
      reads `refs, `commits
    {
      operation in refs && refs[operation] == answer.commit && answer.commit in commits && pinned in commits
      && answer == ViewOf(answer.commit)
    }

    /** The `except` branch: the patch is taken back. */
    method TakeBack() returns (a: Answer<()>)
      requires Valid() && worktree && head == pinned
      modifies this`index, this`files, this`plan
      ensures Valid() && (old(Smooth()) ==> Smooth() && a.Returned?)
      ensures a.Returned? ==> !Dirty()
    {
      hide CandidateOk;
      var o := ResetHard();
      if o != Done { return if o == Died then Crashed else Raised; }
      o := Clean();
      if o != Done { return if o == Died then Crashed else Raised; }
      return Returned(());
    }

    /** What a successful commit on these clean files leaves: the operation's own commit at HEAD, and a
        worktree that is clean, and can be recovered for the operation, exactly when the patch
        created no file. */
    predicate LeftBy(r: Request, before: Tree)
      reads `worktree, `head, `index, `files, `commits
    {
      var after := git.apply(r.diff, before);
      && worktree && head != pinned && head in commits && after == Some(files)
      && (!Dirty() <==> after.value.Keys <= before.Keys)
      && (Recoverable(r.operation) <==> after.value.Keys <= before.Keys)
      && (Stuck() <==> !(after.value.Keys <= before.Keys))
    }

    /** A committed worktree that is not clean. */
    predicate Stuck()
      reads `worktree, `head, `index, `files, `commits
    {
      worktree && head != pinned && head in commits && Dirty()
    }

    /** A clean worktree at the pinned commit: the only state from which a commit is created. */
    method CommitOnPinned(r: Request) returns (a: Answer<CandidateCommit>)
      requires Valid() && worktree && head == pinned && !Dirty()
      modifies this
      ensures Valid() && Keeps() && worktree && (old(Smooth()) ==> Smooth() && !a.Crashed?)
      ensures a.Returned? ==> Answers(r.operation, a.value) && commits[a.value.commit].input == r.Input()
      ensures old(Smooth()) ==> (a.Returned? <==> old(Acceptable(r.diff)))
      ensures old(Smooth()) && a.Raised? ==> Candidates() == {} && !Dirty()
      ensures OnlyOwn(r) && (a.Returned? ==> LeftBy(r, old(files)))
    {
      hide CandidateOk, Answers, WithinBudget, Acceptable, Staged, ChangedPaths;
      FreshExists(commits.Keys);
      var sha: Id :| sha !in commits;
      var patchApplied, commitCreated;
      a, patchApplied, commitCreated := TryCommit(r, sha);
      if a.Returned? { CleanAfterCommitIff(old(index), files); }
      if a.Raised? && patchApplied && !commitCreated {
        var taken := TakeBack();
        if taken.Crashed? { return Crashed; }
      }
    }

    /** A commit is there already: it is the operation's own, or the call is refused. */
    method AdoptHead(operation: Id) returns (a: Answer<CandidateCommit>)
      requires Valid() && worktree && head != pinned
      modifies this`refs, this`plan
      ensures Valid() && Keeps() && (old(Smooth()) ==> Smooth())
      ensures a.Returned? ==> Answers(operation, a.value)
      ensures old(Smooth()) ==> (a.Returned? <==> commits[head].operation == operation)
    {
      hide CandidateOk, WithinBudget, ChangedLines, Differences;
      var o := Query();
      if o != Done { return if o == Died then Crashed else Raised; }
      if commits[head].operation != operation { return Raised; }
      var published := PublishOperationRef(operation, head);
      if !published.Returned? { return if published.Crashed? then Crashed else Raised; }
      a := View(head);
    }

    twostate predicate SameWorktree()
      reads `worktree, `head, `index, `files, `commits
    {
      && worktree == old(worktree) && head == old(head) && index == old(index) && files == old(files)
      && commits == old(commits)
    }

    /** No ref is there yet: what HEAD is decides. */
    method CommitAtHead(r: Request) returns (a: Answer<CandidateCommit>)
      requires Valid() && worktree
      modifies this
      ensures Valid() && Keeps() && (old(Smooth()) ==> Smooth())
      ensures a.Returned? ==> Answers(r.operation, a.value)
      ensures old(head == pinned && !Dirty() && Smooth()) ==> (a.Returned? <==> old(Acceptable(r.diff)))
      ensures old(head == pinned && !Dirty()) && a.Returned? ==> LeftBy(r, old(files))
      ensures OnlyOwn(r) && (old(head != pinned) ==> SameWorktree())
    {
      hide CandidateOk, WithinBudget, ViewOf, Acceptable, LeftBy, Recoverable, Answers;
      var o := Query();
      if o != Done { return if o == Died then Crashed else Raised; }
      if head != pinned {
        a := AdoptHead(r.operation);
        return;
      }
      o := Query();
      if o != Done { return if o == Died then Crashed else Raised; }
      if Dirty() { return Raised; }
      a := CommitOnPinned(r);
    }

    lemma RefAnswers(operation: Id, c: Id)
      requires Valid() && operation in refs && refs[operation] == c
      ensures Answers(operation, ViewOf(c))
    {
      hide CandidateOk;
    }

    method CommitCandidate(r: Request) returns (a: Answer<CandidateCommit>)
      requires Valid()
      modifies this
      ensures Valid() && Keeps() && (old(Smooth()) ==> Smooth())
      ensures a.Returned? ==> Answers(r.operation, a.value) && Allowed(a.value)
      ensures a.Returned? && old(RefOf(r.operation)).Some? ==> Some(a.value.commit) == old(RefOf(r.operation))
      ensures old(worktree && head == pinned && !Dirty() && Smooth()) ==> (a.Returned? <==> old(Acceptable(r.diff)))
      ensures old(worktree && head == pinned && !Dirty()) && a.Returned? ==> LeftBy(r, old(files))
      ensures OnlyOwn(r) && (old(worktree && head != pinned) ==> SameWorktree())
    {
      hide CandidateOk, WithinBudget, ViewOf, Acceptable, LeftBy, Recoverable, Allowed, Answers;
      if !worktree { return Raised; }
      var existing := OperationCommit(r.operation);
      if existing.Crashed? { return Crashed; }
      if existing.value.Some? {
        RefAnswers(r.operation, existing.value.value);
        a := View(existing.value.value);
      } else {
        a := CommitAtHead(r);
      }
      if a.Returned? { AnswerIsAllowed(r.operation, a.value); }
    }

    /** Each reply is one to its call, and a commit that was answered is that of its operation. */
    ghost predicate AllAnswer(calls: seq<Call>, replies: seq<Reply>)
      reads `refs, `commits
    {
      |replies| <= |calls| && forall i :: 0 <= i < |replies| ==> Replies(calls[i], replies[i])
    }

    ghost predicate Replies(call: Call, reply: Reply)
      reads `refs, `commits
    {
      match call
      case CommitCall(r) => reply.Committed? && (reply.commit.Returned? ==> Answers(r.operation, reply.commit.value))
      case RecoverCall(_) => reply.Recovered?
    }

    method ServeOne(next: Call, ghost calls: seq<Call>, ghost replies: seq<Reply>) returns (reply: Reply)
      requires Valid() && AllAnswer(calls, replies)
      modifies this
      ensures Valid() && Keeps() && AllAnswer(calls, replies) && Replies(next, reply)
      ensures old(Stuck()) ==> Stuck() && (next.RecoverCall? ==> !reply.workspace.Returned?)
    {
      hide CandidateOk, WithinBudget, ChangedLines, Differences;
      match next
      case CommitCall(r) =>
        var a := CommitCandidate(r);
        reply := Committed(a);
      case RecoverCall(operation) =>
        var a := RecoverCandidate(operation);
        reply := Recovered(a);
    }

    /** Any calls in any order, each of which may crash after any git command: at most one commit is
        ever created on the worktree, and whatever calls return names the commit of their own
        operation, which its ref names from then on. A committed worktree that is not clean stays so,
        and no recovery of any operation succeeds from then on. */
    method Serve(calls: seq<Call>) returns (replies: seq<Reply>)
      requires Valid()
      modifies this
      ensures Valid() && Keeps() && |Candidates()| <= 1
      ensures |replies| == |calls| && AllAnswer(calls, replies)
      ensures old(Stuck()) ==> Stuck() && forall i :: 0 <= i < |calls| && calls[i].RecoverCall? ==>
        replies[i].Recovered? && !replies[i].workspace.Returned?
    {
      hide Answers, CandidateOk, WithinBudget, Stuck;
      replies := [];
      for n := 0 to |calls|
        invariant Valid() && Keeps() && |replies| == n && AllAnswer(calls, replies)
        invariant old(Stuck()) ==> Stuck() && forall i :: 0 <= i < n && calls[i].RecoverCall? ==>
          replies[i].Recovered? && !replies[i].workspace.Returned?
      {
        var reply := ServeOne(calls[n], calls, replies);
        replies := replies + [reply];
      }
    }

    /** Two answers that were given for any two operations are one answer for one operation. */
    lemma AnswersAgree(first: Id, one: CandidateCommit, second: Id, two: CandidateCommit)
      requires Valid() && Answers(first, one) && Answers(second, two)
      ensures first == second && one == two
    {
      hide CandidateOk, ViewOf;
      OnlyCandidate(second, one.commit);
    }
  }

  lemma TwoMembers(s: set<Id>, x: Id, y: Id)
    requires x in s && y in s && x != y
    ensures |s| >= 2
  {
    assert |{x, y}| == 2;
    SubsetSize({x, y}, s);
  }

  // ---------------------------------------------------------------- a patch that creates a file

  lemma FirstTwoDiffer(names: seq<Path>)
    requires forall i, j :: 0 <= i < j < |names| ==> names[i] != names[j]
    ensures |names| > 1 ==> names[0] != names[1]
  {}

  lemma OneName(names: seq<Path>, p: Path)
    requires Enumerates(names, {p})
    ensures names == [p]
  {
    forall i | 0 <= i < |names| ensures names[i] == p {
      assert names[i] in names;
    }
    FirstTwoDiffer(names);
    assert p in names;
  }

  lemma OnePath(list: set<Path> -> seq<Path>)
    requires Enumerates(list({"a"}), {"a"})
    ensures list({"a"}) == ["a"] && SafePath("a", ["a"])
  {
    OneName(list({"a"}), "a");
    assert "a"[0] == 'a' && "/"[0] == '/';
    assert "a"[1..] == "" && Split("", '/') == [""] && ["a"[0]] + "" == "a";
    assert Split("a", '/') == ["a"];
    assert ".." != "a";
    assert Under("a", "a") && "a" in ["a"];
  }

  /** A git whose patch changes the file `a` and creates the file `b`. */
  function ChangeAndCreate(list: set<Path> -> seq<Path>, after: Bytes, added: Bytes): Git {
    Git((diff: string, tree: Tree) => Some(tree["a" := after]["b" := added]),
        (x: Option<Bytes>, y: Option<Bytes>) => Some((1, 1)), list)
  }

  lemma OnePathChanges(before: Bytes, after: Bytes, added: Bytes)
    requires before != after
    ensures var (index, files) := (map["a" := before], map["a" := after, "b" := added]);
      && ChangedPaths(index, files) == {"a"} && Staged(index, files, {"a"}) == map["a" := after]
      && Differences(index, map["a" := after]) == {"a"}
  {
    assert "a"[0] == 'a' && "b"[0] == 'b';
  }

  lemma OneLineEach(list: set<Path> -> seq<Path>, before: Bytes, after: Bytes, added: Bytes)
    ensures ChangedLines(ChangeAndCreate(list, after, added), map["a" := before], map["a" := after], ["a"]) == Some(2)
  {
    assert ["a"][..0] == [];
  }

  lemma ChangeIsAcceptable(list: set<Path> -> seq<Path>, before: Bytes, after: Bytes, added: Bytes)
    requires before != after && Enumerates(list({"a"}), {"a"})
    ensures var (index, files) := (map["a" := before], map["a" := after, "b" := added]);
      && Staged(index, files, ChangedPaths(index, files)) == map["a" := after]
      && WithinBudget(ChangeAndCreate(list, after, added), index, map["a" := after], Budget(["a"], 1, 2))
  {
    hide Staged, ChangedPaths, Differences, ChangedLines, SafePath;
    OnePath(list);
    OnePathChanges(before, after, added);
    OneLineEach(list, before, after, added);
  }

  lemma OnlyOneIsThere(before: Bytes, after: Bytes, added: Bytes)
    ensures "b" in map["a" := after, "b" := added] && "b" !in map["a" := before]
  {
    assert "a"[0] == 'a' && "b"[0] == 'b';
  }

  /** Its patch is accepted and committed, and the worktree is stuck from then on. */
  method NewFileStaysBehind(list: set<Path> -> seq<Path>, before: Bytes, after: Bytes, added: Bytes, diff: string,
                            operation: Id)
    returns (repo: CandidateRepository, a: Answer<CandidateCommit>)
    requires forall paths: set<Path> :: Enumerates(list(paths), paths)
    requires before != after
    ensures repo.Valid() && a.Returned? && repo.Stuck()
  {
    hide CandidateRepository.CandidateOk, WithinBudget, Staged, ChangedPaths, Enumerates;
    var git := ChangeAndCreate(list, after, added);
    repo := new CandidateRepository(git, 0, map["a" := before], Budget(["a"], 1, 2), []);
    var ensured := repo.EnsureCandidate();
    ghost var index, files := map["a" := before], map["a" := after, "b" := added];
    assert repo.index == index && repo.files == index && repo.head == repo.pinned && !repo.Dirty();
    assert index["a" := after]["b" := added] == files;
    assert repo.git.apply(diff, index) == Some(files);
    ChangeIsAcceptable(list, before, after, added);
    assert repo.Acceptable(diff);
    hide ChangeAndCreate;
    a := repo.CommitCandidate(Request(diff, operation));
    OnlyOneIsThere(before, after, added);
  }
}
