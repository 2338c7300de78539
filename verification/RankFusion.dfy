/** Reciprocal rank fusion over the reals: the in-place merge and sort against its formula. */
module RankFusion {
  import opened Basics

  /** The fields of a paper that fusion reads or writes; the others are carried along in `rest`. */
  datatype Paper = Paper(
    doi: Option<string>, arxiv: Option<string>, title: Option<string>,
    summary: Option<string>, citedBy: Option<int>, score: Option<real>, rest: Id)

  // ---------------------------------------------------------------- the dedupe key

  datatype Key = Doi(id: string) | Arxiv(id: string) | Title(text: string)

  function LowerChar(c: char): char {
    if 'A' <= c <= 'Z' then c - 'A' + 'a' else c
  }

  function Lower(s: string): (t: string)
    ensures |t| == |s|
  {
    if s == "" then "" else [LowerChar(s[0])] + Lower(s[1..])
  }

  predicate IsAlnum(c: char) {
    'a' <= c <= 'z' || 'A' <= c <= 'Z' || '0' <= c <= '9'
  }

  function OnlyAlnum(s: string): string {
    if s == "" then "" else (if IsAlnum(s[0]) then [s[0]] else []) + OnlyAlnum(s[1..])
  }

  /** Present and not empty. */
  predicate Given(field: Option<string>) {
    field.Some? && field.value != ""
  }

  function DedupeKey(p: Paper): Key {
    if Given(p.doi) then Doi(Lower(p.doi.value))
    else if Given(p.arxiv) then Arxiv(Lower(p.arxiv.value))
    else
      var text := OnlyAlnum(Lower(if p.title.Some? then p.title.value else ""));
      Title(if |text| > 60 then text[..60] else text)
  }

  /** Two fields that differ in case only. */
  predicate SameText(a: Option<string>, b: Option<string>) {
    a.Some? == b.Some? && (a.Some? ==> Lower(a.value) == Lower(b.value))
  }

  /** Papers whose DOI, arXiv identifier and title differ in case only are one key. */
  lemma KeyIgnoresCase(p: Paper, q: Paper)
    requires SameText(p.doi, q.doi) && SameText(p.arxiv, q.arxiv) && SameText(p.title, q.title)
    ensures DedupeKey(p) == DedupeKey(q)
  {
    GivenIgnoresCase(p.doi, q.doi);
    GivenIgnoresCase(p.arxiv, q.arxiv);
  }

  /** There is something in the field. */
  predicate Present(field: Option<string>) {
    field.Some? && |field.value| > 0
  }

  /** Two papers are one exactly when they have the same DOI, or no DOI and the same arXiv identifier, or
      neither and titles that begin with the same sixty letters and digits, all without case. */
  lemma SameKeyIff(p: Paper, q: Paper)
    ensures DedupeKey(p) == DedupeKey(q) <==>
      || (Present(p.doi) && Present(q.doi) && Lower(p.doi.value) == Lower(q.doi.value))
      || (!Present(p.doi) && !Present(q.doi) && Present(p.arxiv) && Present(q.arxiv)
          && Lower(p.arxiv.value) == Lower(q.arxiv.value))
      || (!Present(p.doi) && !Present(q.doi) && !Present(p.arxiv) && !Present(q.arxiv)
          && SameStart(OnlyAlnum(Lower(TitleOf(p))), OnlyAlnum(Lower(TitleOf(q))), 60))
  {
    hide Lower, OnlyAlnum;
    if !Given(p.doi) && !Given(p.arxiv) && !Given(q.doi) && !Given(q.arxiv) {
      var s, t := OnlyAlnum(Lower(TitleOf(p))), OnlyAlnum(Lower(TitleOf(q)));
      var x, y := if |s| > 60 then s[..60] else s, if |t| > 60 then t[..60] else t;
      assert DedupeKey(p) == Title(x) && DedupeKey(q) == Title(y);
      assert |x| == |y| && (forall i :: 0 <= i < |x| ==> x[i] == y[i]) ==> x == y;
    }
  }

  function TitleOf(p: Paper): string {
    if p.title.Some? then p.title.value else ""
  }

  /** The texts agree in their first `n` characters, and in their length if one is shorter. */
  predicate SameStart(s: string, t: string, n: nat) {
    && (|s| < n || |t| < n ==> |s| == |t|)
    && forall i :: 0 <= i < n && i < |s| && i < |t| ==> s[i] == t[i]
  }

  /** Lower case changes the capital letters and nothing else. */
  lemma {:induction false} LowerEach(s: string, i: nat)
    requires i < |s|
    ensures 'A' <= s[i] <= 'Z' ==> 'a' <= Lower(s)[i] <= 'z' && Lower(s)[i] - 'a' == s[i] - 'A'
    ensures !('A' <= s[i] <= 'Z') ==> Lower(s)[i] == s[i]
  {
    if i > 0 { LowerEach(s[1..], i - 1); }
  }

  /** The title keeps its letters and digits, in their order, and loses everything else. */
  lemma {:induction false} AlnumInOrder(s: string, t: string)
    ensures OnlyAlnum(s + t) == OnlyAlnum(s) + OnlyAlnum(t)
  {
    hide IsAlnum;
    if s == "" {
      assert s + t == t;
    } else {
      AlnumInOrder(s[1..], t);
      assert (s + t)[0] == s[0] && (s + t)[1..] == s[1..] + t;
    }
  }

  lemma AlnumOne(c: char)
    ensures OnlyAlnum([c]) == if 'a' <= c <= 'z' || 'A' <= c <= 'Z' || '0' <= c <= '9' then [c] else ""
  {
    assert [c][1..] == "";
  }

  lemma GivenIgnoresCase(a: Option<string>, b: Option<string>)
    requires SameText(a, b)
    ensures Given(a) <==> Given(b)
  {}

  // ---------------------------------------------------------------- the formula

  /** What rank `rank` in one list contributes; `k + rank` must not be zero. */
  function Contribution(k: int, rank: int): real {
    if k + rank == 0 then 0.0 else 1.0 / (k + rank) as real
  }

  /** The contributions of the first `n` papers of one list to a key. */
  function ListScore(list: seq<Paper>, key: Key, k: int, n: nat): real
    requires n <= |list|
  {
    if n == 0 then 0.0
    else ListScore(list, key, k, n - 1) + if DedupeKey(list[n - 1]) == key then Contribution(k, n) else 0.0
  }

  /** The formula: the sum over every occurrence of the key in every list. */
  function Score(lists: seq<seq<Paper>>, key: Key, k: int): real {
    if lists == [] then 0.0
    else Score(lists[..|lists| - 1], key, k) + ListScore(lists[|lists| - 1], key, k, |lists[|lists| - 1]|)
  }

  predicate Occurs(lists: seq<seq<Paper>>, key: Key) {
    exists i, j :: 0 <= i < |lists| && 0 <= j < |lists[i]| && DedupeKey(lists[i][j]) == key
  }

  /** Some rank would divide by zero. */
  predicate DividesByZero(lists: seq<seq<Paper>>, k: int) {
    exists i :: 0 <= i < |lists| && 1 <= -k <= |lists[i]|
  }

  /** A paper that one list holds once, at rank r, gets 1 / (k + r) from it. */
  lemma {:induction false} OneSighting(list: seq<Paper>, key: Key, k: int, rank: nat, n: nat)
    requires 1 <= rank <= n <= |list| && k + rank != 0
    requires forall i :: 0 <= i < n ==> (DedupeKey(list[i]) == key <==> i == rank - 1)
    ensures ListScore(list, key, k, n) == 1.0 / (k + rank) as real
  {
    hide DedupeKey;
    if n == rank {
      NoSighting(list, key, k, n - 1);
    } else {
      OneSighting(list, key, k, rank, n - 1);
    }
  }

  lemma {:induction false} NoSighting(list: seq<Paper>, key: Key, k: int, n: nat)
    requires n <= |list| && forall i :: 0 <= i < n ==> DedupeKey(list[i]) != key
    ensures ListScore(list, key, k, n) == 0.0
  {
    hide DedupeKey;
    if n > 0 { NoSighting(list, key, k, n - 1); }
  }

  lemma WithoutCommutes<T>(s: seq<T>, i: nat)
    requires i < |s| - 1
    ensures var n := |s| - 1;
      s[..i] + s[i + 1..] == s[..n][..i] + s[..n][i + 1..] + [s[n]]
  {}

  lemma {:induction false} ScoreSplits(lists: seq<seq<Paper>>, i: nat, key: Key, k: int)
    requires i < |lists|
    ensures Score(lists, key, k) == Score(lists[..i] + lists[i + 1..], key, k) + ListScore(lists[i], key, k, |lists[i]|)
  {
    hide ListScore;
    var n := |lists| - 1;
    if i == n {
      assert lists[..i] + lists[i + 1..] == lists[..n];
    } else {
      ScoreSplits(lists[..n], i, key, k);
      WithoutCommutes(lists, i);
      var rest := lists[..n][..i] + lists[..n][i + 1..];
      assert (rest + [lists[n]])[..|rest|] == rest;
    }
  }

  lemma WithoutOne<T>(s: seq<T>, i: nat)
    requires i < |s|
    ensures multiset(s) == multiset(s[..i] + s[i + 1..]) + multiset{s[i]}
  {
    assert s == s[..i] + [s[i]] + s[i + 1..];
  }

  lemma Cancels<T>(a: multiset<T>, b: multiset<T>, x: T)
    requires a + multiset{x} == b + multiset{x}
    ensures a == b
  {
    assert a + multiset{x} - multiset{x} == a && b + multiset{x} - multiset{x} == b;
  }

  /** The score of a key does not depend on the order of the source lists. */
  lemma {:induction false} ScoreIgnoresOrder(lists: seq<seq<Paper>>, others: seq<seq<Paper>>, key: Key, k: int)
    requires multiset(lists) == multiset(others)
    ensures Score(lists, key, k) == Score(others, key, k)
  {
    hide ListScore;
    assert |lists| == |multiset(lists)| && |others| == |multiset(others)|;
    if lists != [] {
      var n := |lists| - 1;
      assert lists[n] in multiset(others);
      var i :| 0 <= i < |others| && others[i] == lists[n];
      var rest := others[..i] + others[i + 1..];
      WithoutOne(lists, n);
      assert lists[..n] + lists[n + 1..] == lists[..n];
      WithoutOne(others, i);
      Cancels(multiset(lists[..n]), multiset(rest), lists[n]);
      ScoreIgnoresOrder(lists[..n], rest, key, k);
      ScoreSplits(others, i, key, k);
    }
  }

  // ---------------------------------------------------------------- merging

  /** An entry that was seen before: add up, and fill in what is missing. */
  function Merge(before: Paper, p: Paper, contribution: real): Paper {
    before.(score := Some((if before.score.Some? then before.score.value else 0.0) + contribution),
          summary := if !Given(before.summary) && Given(p.summary) then p.summary else before.summary,
          citedBy := if (before.citedBy.None? || before.citedBy.value == 0) && p.citedBy.Some? && p.citedBy.value != 0
                     then p.citedBy else before.citedBy)
  }

  /** Present and not zero. */
  predicate Counted(field: Option<int>) {
    field.Some? && field.value != 0
  }

  /** The first of these values that has something to say, or the very first when none has. */
  ghost predicate FirstWith<T>(x: T, values: seq<T>, has: T -> bool) {
    exists i :: 0 <= i < |values| && x == values[i] && IsFirst(values, has, i)
  }

  ghost predicate IsFirst<T>(values: seq<T>, has: T -> bool, i: nat)
    requires i < |values|
  {
    && (forall j :: 0 <= j < i ==> !has(values[j]))
    && (has(values[i]) || (i == 0 && forall j :: 0 <= j < |values| ==> !has(values[j])))
  }

  function Summaries(seen: seq<Paper>): seq<Option<string>> {
    seq(|seen|, i requires 0 <= i < |seen| => seen[i].summary)
  }

  function Counts(seen: seq<Paper>): seq<Option<int>> {
    seq(|seen|, i requires 0 <= i < |seen| => seen[i].citedBy)
  }

  /** What becomes of the papers that were seen under one key, in the order in which they were seen: the
      first of them, with the first summary and the first citation count that any of them gives. */
  ghost predicate FilledFrom(p: Paper, seen: seq<Paper>) {
    && seen != []
    && p.doi == seen[0].doi && p.arxiv == seen[0].arxiv && p.title == seen[0].title && p.rest == seen[0].rest
    && FirstWith(p.summary, Summaries(seen), Present) && FirstWith(p.citedBy, Counts(seen), Counted)
  }

  /** The dictionary after one more paper. */
  function Absorb(merged: map<Key, Paper>, p: Paper, contribution: real): map<Key, Paper> {
    var key := DedupeKey(p);
    merged[key := if key in merged then Merge(merged[key], p, contribution) else p.(score := Some(contribution))]
  }

  /** The score of a key after the first `i` lists and `n` papers of the next one. */
  function Total(lists: seq<seq<Paper>>, i: nat, n: nat, k: int, key: Key): real
    requires i <= |lists| && (if i < |lists| then n <= |lists[i]| else n == 0)
  {
    Score(lists[..i], key, k) + if n > 0 then ListScore(lists[i], key, k, n) else 0.0
  }

  /** The distinct keys of those papers, in the order they were first seen. */
  function FirstSeen(lists: seq<seq<Paper>>, i: nat, n: nat): seq<Key>
    requires i <= |lists| && (if i < |lists| then n <= |lists[i]| else n == 0)
    decreases i, n
  {
    if n > 0 then
      var before, key := FirstSeen(lists, i, n - 1), DedupeKey(lists[i][n - 1]);
      if key in before then before else before + [key]
    else if i > 0 then FirstSeen(lists, i - 1, |lists[i - 1]|)
    else []
  }

  /** The papers among those that have this key, in the order in which they were seen. */
  function Sightings(lists: seq<seq<Paper>>, i: nat, n: nat, key: Key): seq<Paper>
    requires i <= |lists| && (if i < |lists| then n <= |lists[i]| else n == 0)
    decreases i, n
  {
    if n > 0 then
      Sightings(lists, i, n - 1, key) + if DedupeKey(lists[i][n - 1]) == key then [lists[i][n - 1]] else []
    else if i > 0 then Sightings(lists, i - 1, |lists[i - 1]|, key)
    else []
  }

  lemma {:induction false} SightingsOfSeen(lists: seq<seq<Paper>>, i: nat, n: nat, key: Key)
    requires i <= |lists| && (if i < |lists| then n <= |lists[i]| else n == 0)
    ensures Sightings(lists, i, n, key) != [] <==> key in FirstSeen(lists, i, n)
    ensures forall p <- Sightings(lists, i, n, key) :: DedupeKey(p) == key
    decreases i, n
  {
    hide DedupeKey;
    if n > 0 {
      SightingsOfSeen(lists, i, n - 1, key);
    } else if i > 0 {
      SightingsOfSeen(lists, i - 1, |lists[i - 1]|, key);
    }
  }

  lemma {:induction false} FirstSeenDistinct(lists: seq<seq<Paper>>, i: nat, n: nat)
    requires i <= |lists| && (if i < |lists| then n <= |lists[i]| else n == 0)
    ensures forall a, b :: 0 <= a < b < |FirstSeen(lists, i, n)| ==>
        FirstSeen(lists, i, n)[a] != FirstSeen(lists, i, n)[b]
    decreases i, n
  {
    if n > 0 {
      FirstSeenDistinct(lists, i, n - 1);
    } else if i > 0 {
      FirstSeenDistinct(lists, i - 1, |lists[i - 1]|);
    }
  }

  /** The keys of all papers are those that occur. */
  lemma {:induction false} FirstSeenOccur(lists: seq<seq<Paper>>, i: nat, n: nat, key: Key)
    requires i <= |lists| && (if i < |lists| then n <= |lists[i]| else n == 0)
    ensures key in FirstSeen(lists, i, n) <==>
      exists a, b :: 0 <= a < |lists| && 0 <= b < |lists[a]| && (a < i || (a == i && b < n))
          && DedupeKey(lists[a][b]) == key
    decreases i, n
  {
    hide DedupeKey;
    if n > 0 {
      FirstSeenOccur(lists, i, n - 1, key);
      if DedupeKey(lists[i][n - 1]) == key { assert i < |lists| && n - 1 < |lists[i]|; }
    } else if i > 0 {
      FirstSeenOccur(lists, i - 1, |lists[i - 1]|, key);
    }
  }

  lemma TotalOfNextList(lists: seq<seq<Paper>>, i: nat, k: int, key: Key)
    requires i < |lists|
    ensures Total(lists, i + 1, 0, k, key) == Total(lists, i, |lists[i]|, k, key)
  {
    assert lists[..i + 1][..i] == lists[..i];
  }

  lemma {:induction false} UnseenScoresNothing(lists: seq<seq<Paper>>, i: nat, n: nat, k: int, key: Key)
    requires i <= |lists| && (if i < |lists| then n <= |lists[i]| else n == 0)
    requires key !in FirstSeen(lists, i, n)
    ensures Total(lists, i, n, k, key) == 0.0
    decreases i, n
  {
    hide DedupeKey;
    if n > 0 {
      TotalStep(lists, i, n - 1, k, key);
      UnseenScoresNothing(lists, i, n - 1, k, key);
    } else if i > 0 {
      UnseenScoresNothing(lists, i - 1, |lists[i - 1]|, k, key);
      TotalOfNextList(lists, i - 1, k, key);
    }
  }

  /** The dictionary after those papers: one entry a key, each under its own key, with its score. */
  ghost predicate MergedUpTo(lists: seq<seq<Paper>>, i: nat, n: nat, k: int, merged: map<Key, Paper>)
    requires i <= |lists| && (if i < |lists| then n <= |lists[i]| else n == 0)
  {
    && (forall key :: key in merged <==> key in FirstSeen(lists, i, n))
    && (forall key :: key in merged ==>
          DedupeKey(merged[key]) == key && merged[key].score == Some(Total(lists, i, n, k, key)))
  }

  lemma TotalStep(lists: seq<seq<Paper>>, i: nat, n: nat, k: int, key: Key)
    requires i < |lists| && n < |lists[i]|
    ensures Total(lists, i, n + 1, k, key) ==
            Total(lists, i, n, k, key) + if DedupeKey(lists[i][n]) == key then Contribution(k, n + 1) else 0.0
  {
    hide DedupeKey, Contribution, Score;
    assert ListScore(lists[i], key, k, 0) == 0.0;
    assert ListScore(lists[i], key, k, n + 1) ==
      ListScore(lists[i], key, k, n) + if DedupeKey(lists[i][n]) == key then Contribution(k, n + 1) else 0.0;
  }

  lemma AbsorbedKeepsKey(merged: map<Key, Paper>, p: Paper, c: real)
    requires forall key :: key in merged ==> DedupeKey(merged[key]) == key
    ensures forall key :: key in Absorb(merged, p, c) ==> DedupeKey(Absorb(merged, p, c)[key]) == key
  {
    hide Lower, OnlyAlnum;
  }

  lemma AbsorbedScore(lists: seq<seq<Paper>>, i: nat, n: nat, k: int, merged: map<Key, Paper>, key: Key)
    requires i < |lists| && n < |lists[i]| && MergedUpTo(lists, i, n, k, merged)
    requires key in Absorb(merged, lists[i][n], Contribution(k, n + 1))
    ensures Absorb(merged, lists[i][n], Contribution(k, n + 1))[key].score == Some(Total(lists, i, n + 1, k, key))
  {
    hide DedupeKey, Contribution, Total, FirstSeen;
    TotalStep(lists, i, n, k, key);
    if key !in merged { UnseenScoresNothing(lists, i, n, k, key); }
  }

  lemma AbsorbOne(lists: seq<seq<Paper>>, i: nat, n: nat, k: int, merged: map<Key, Paper>)
    requires i < |lists| && n < |lists[i]| && MergedUpTo(lists, i, n, k, merged)
    ensures MergedUpTo(lists, i, n + 1, k, Absorb(merged, lists[i][n], Contribution(k, n + 1)))
  {
    var next := Absorb(merged, lists[i][n], Contribution(k, n + 1));
    AbsorbedKeepsKey(merged, lists[i][n], Contribution(k, n + 1));
    SeenStep(lists, i, n);
    hide DedupeKey, Contribution, Total, FirstSeen, Merge;
    forall key | key in next ensures next[key].score == Some(Total(lists, i, n + 1, k, key)) {
      AbsorbedScore(lists, i, n, k, merged, key);
    }
  }

  lemma FirstAlone<T>(x: T, has: T -> bool)
    ensures FirstWith(x, [x], has)
  {
    assert IsFirst([x], has, 0);
  }

  lemma FirstWithOneMore<T>(x: T, values: seq<T>, v: T, has: T -> bool)
    requires FirstWith(x, values, has)
    ensures FirstWith(if !has(x) && has(v) then v else x, values + [v], has)
  {
    var i :| 0 <= i < |values| && x == values[i] && IsFirst(values, has, i);
    var more := values + [v];
    assert forall j :: 0 <= j < |values| ==> more[j] == values[j];
    assert IsFirst(more, has, if !has(x) && has(v) then |values| else i);
  }

  lemma FirstFills(p: Paper, contribution: real)
    ensures FilledFrom(p.(score := Some(contribution)), [p])
  {
    assert Summaries([p]) == [p.summary] && Counts([p]) == [p.citedBy];
    FirstAlone(p.summary, Present);
    FirstAlone(p.citedBy, Counted);
  }

  lemma MergeFills(before: Paper, seen: seq<Paper>, p: Paper, contribution: real)
    requires FilledFrom(before, seen)
    ensures FilledFrom(Merge(before, p, contribution), seen + [p])
  {
    hide FirstWith;
    assert Summaries(seen + [p]) == Summaries(seen) + [p.summary] && Counts(seen + [p]) == Counts(seen) + [p.citedBy];
    FirstWithOneMore(before.summary, Summaries(seen), p.summary, Present);
    FirstWithOneMore(before.citedBy, Counts(seen), p.citedBy, Counted);
  }

  /** Every entry of the dictionary is filled from the papers seen under its key. */
  ghost predicate FilledUpTo(lists: seq<seq<Paper>>, i: nat, n: nat, merged: map<Key, Paper>)
    requires i <= |lists| && (if i < |lists| then n <= |lists[i]| else n == 0)
  {
    forall key :: key in merged ==> FilledFrom(merged[key], Sightings(lists, i, n, key))
  }

  lemma AbsorbFills(lists: seq<seq<Paper>>, i: nat, n: nat, k: int, merged: map<Key, Paper>)
    requires i < |lists| && n < |lists[i]| && MergedUpTo(lists, i, n, k, merged) && FilledUpTo(lists, i, n, merged)
    ensures FilledUpTo(lists, i, n + 1, Absorb(merged, lists[i][n], Contribution(k, n + 1)))
  {
    hide DedupeKey, Contribution, Total, FirstSeen, FilledFrom, Merge;
    var p := lists[i][n];
    var next := Absorb(merged, p, Contribution(k, n + 1));
    forall key | key in next ensures FilledFrom(next[key], Sightings(lists, i, n + 1, key)) {
      var seen := Sightings(lists, i, n, key);
      SightingsOfSeen(lists, i, n, key);
      if key != DedupeKey(p) {
        assert Sightings(lists, i, n + 1, key) == seen;
      } else if key in merged {
        assert Sightings(lists, i, n + 1, key) == seen + [p];
        MergeFills(merged[key], seen, p, Contribution(k, n + 1));
      } else {
        assert Sightings(lists, i, n + 1, key) == [p];
        FirstFills(p, Contribution(k, n + 1));
      }
    }
  }

  lemma SeenStep(lists: seq<seq<Paper>>, i: nat, n: nat)
    requires i < |lists| && n < |lists[i]|
    ensures forall key ::
      key in FirstSeen(lists, i, n + 1) <==> key in FirstSeen(lists, i, n) || key == DedupeKey(lists[i][n])
  {
    hide DedupeKey;
  }

  // ---------------------------------------------------------------- sorting

  function ScoreOf(p: Paper): real {
    if p.score.Some? then p.score.value else 0.0
  }

  /** Insert behind every entry whose score is at least as high. */
  function InsertByScore(sorted: seq<Paper>, p: Paper): seq<Paper> {
    if sorted == [] then [p]
    else
      var last := sorted[|sorted| - 1];
      if ScoreOf(last) >= ScoreOf(p) then sorted + [p] else InsertByScore(sorted[..|sorted| - 1], p) + [last]
  }

  /** `sort(key=score, reverse=True)`: descending, and stable. */
  function SortByScore(papers: seq<Paper>): seq<Paper> {
    if papers == [] then [] else InsertByScore(SortByScore(papers[..|papers| - 1]), papers[|papers| - 1])
  }

  predicate Descending(papers: seq<Paper>) {
    forall i, j :: 0 <= i < j < |papers| ==> ScoreOf(papers[i]) >= ScoreOf(papers[j])
  }

  /** The papers of one score, in their order. */
  function WithScore(papers: seq<Paper>, score: real): seq<Paper> {
    if papers == [] then []
    else
      var last := papers[|papers| - 1];
      WithScore(papers[..|papers| - 1], score) + if ScoreOf(last) == score then [last] else []
  }

  lemma {:induction false} InsertContents(sorted: seq<Paper>, p: Paper)
    ensures multiset(InsertByScore(sorted, p)) == multiset(sorted) + multiset{p}
    decreases |sorted|
  {
    if sorted != [] {
      var front, last := sorted[..|sorted| - 1], sorted[|sorted| - 1];
      assert sorted == front + [last];
      if ScoreOf(last) < ScoreOf(p) { InsertContents(front, p); }
    }
  }

  lemma {:induction false} InsertDescending(sorted: seq<Paper>, p: Paper)
    requires Descending(sorted)
    ensures Descending(InsertByScore(sorted, p))
    decreases |sorted|
  {
    if sorted != [] {
      var front, last := sorted[..|sorted| - 1], sorted[|sorted| - 1];
      if ScoreOf(last) < ScoreOf(p) {
        InsertDescending(front, p);
        InsertContents(front, p);
        var inner := InsertByScore(front, p);
        forall i | 0 <= i < |inner| ensures ScoreOf(inner[i]) >= ScoreOf(last) {
          assert inner[i] in multiset(inner);
          assert inner[i] == p || inner[i] in front;
        }
      }
    }
  }

  lemma {:induction false} InsertStable(sorted: seq<Paper>, p: Paper, score: real)
    requires Descending(sorted)
    ensures WithScore(InsertByScore(sorted, p), score) ==
            WithScore(sorted, score) + (if ScoreOf(p) == score then [p] else [])
    decreases |sorted|
  {
    if sorted == [] {
      assert [p][..0] == [];
    } else {
      var front, last := sorted[..|sorted| - 1], sorted[|sorted| - 1];
      if ScoreOf(last) >= ScoreOf(p) {
        assert (sorted + [p])[..|sorted|] == sorted;
      } else {
        InsertStable(front, p, score);
        var inner := InsertByScore(front, p);
        assert (inner + [last])[..|inner|] == inner;
      }
    }
  }

  lemma {:induction false} SortContents(papers: seq<Paper>)
    ensures multiset(SortByScore(papers)) == multiset(papers)
  {
    if papers != [] {
      var front, last := papers[..|papers| - 1], papers[|papers| - 1];
      SortContents(front);
      InsertContents(SortByScore(front), last);
      assert papers == front + [last];
    }
  }

  lemma {:induction false} SortDescends(papers: seq<Paper>)
    ensures Descending(SortByScore(papers))
  {
    if papers != [] {
      SortDescends(papers[..|papers| - 1]);
      InsertDescending(SortByScore(papers[..|papers| - 1]), papers[|papers| - 1]);
    }
  }

  /** Sorting is a descending, stable rearrangement. */
  lemma {:induction false} SortIsDescendingAndStable(papers: seq<Paper>, score: real)
    ensures Descending(SortByScore(papers)) && multiset(SortByScore(papers)) == multiset(papers)
    ensures WithScore(SortByScore(papers), score) == WithScore(papers, score)
  {
    SortDescends(papers);
    SortContents(papers);
    if papers != [] {
      var front, last := papers[..|papers| - 1], papers[|papers| - 1];
      SortIsDescendingAndStable(front, score);
      InsertStable(SortByScore(front), last, score);
    }
  }

  // ---------------------------------------------------------------- fusion

  /** The merged papers in dictionary order. */
  function Listed(order: seq<Key>, merged: map<Key, Paper>): seq<Paper>
    requires forall key <- order :: key in merged
  {
    seq(|order|, i requires 0 <= i < |order| => merged[order[i]])
  }

  function KeysOf(papers: seq<Paper>): seq<Key> {
    if papers == [] then [] else KeysOf(papers[..|papers| - 1]) + [DedupeKey(papers[|papers| - 1])]
  }

  /** The keys of one score, in a given order. */
  function Tied(lists: seq<seq<Paper>>, k: int, order: seq<Key>, score: real): seq<Key> {
    if order == [] then []
    else
      var last := order[|order| - 1];
      Tied(lists, k, order[..|order| - 1], score) + if Score(lists, last, k) == score then [last] else []
  }

  /** What fusion promises: the papers are exactly the keys that occur, each once, filled from all its
      sightings and with the score of the formula, highest first, ties in the order of first occurrence. */
  ghost predicate Fused(lists: seq<seq<Paper>>, k: int, papers: seq<Paper>) {
    && (forall key :: Occurs(lists, key) <==> exists p <- papers :: DedupeKey(p) == key)
    && (forall i, j :: 0 <= i < j < |papers| ==> DedupeKey(papers[i]) != DedupeKey(papers[j]))
    && (forall p <- papers :: p.score == Some(Score(lists, DedupeKey(p), k)))
    && (forall p <- papers :: FilledFrom(p, Sightings(lists, |lists|, 0, DedupeKey(p))))
    && Descending(papers)
    && (forall score :: KeysOf(WithScore(papers, score)) == Tied(lists, k, FirstSeen(lists, |lists|, 0), score))
  }

  /** The nested loops and the final sort. */
  method ReciprocalRankFusion(lists: seq<seq<Paper>>, k: int) returns (r: Result<seq<Paper>>)
    ensures r.Ok? <==> !DividesByZero(lists, k)
    ensures r.Ok? ==> Fused(lists, k, r.value)
  {
    hide DedupeKey, Contribution, Total, MergedUpTo, FilledUpTo, FirstSeen, Fused, Absorb;
    var merged: map<Key, Paper> := map[];
    var order: seq<Key> := [];
    EmptyMerged(lists, k);
    for i := 0 to |lists|
      invariant MergedUpTo(lists, i, 0, k, merged) && order == FirstSeen(lists, i, 0)
      invariant FilledUpTo(lists, i, 0, merged)
      invariant forall a :: 0 <= a < i ==> !(1 <= -k <= |lists[a]|)
    {
      for n := 0 to |lists[i]|
        invariant MergedUpTo(lists, i, n, k, merged) && order == FirstSeen(lists, i, n)
        invariant FilledUpTo(lists, i, n, merged)
        invariant !(1 <= -k <= n)
      {
        var p := lists[i][n];
        if k + n + 1 == 0 { return Err(Refused); }
        AbsorbOne(lists, i, n, k, merged);
        AbsorbFills(lists, i, n, k, merged);
        OrderStep(lists, i, n);
        merged := Absorb(merged, p, Contribution(k, n + 1));
        order := if DedupeKey(p) in order then order else order + [DedupeKey(p)];
      }
      NextList(lists, i, k, merged);
    }
    AllListed(lists, k, merged);
    r := Ok(SortByScore(Listed(order, merged)));
  }

  lemma EmptyMerged(lists: seq<seq<Paper>>, k: int)
    ensures MergedUpTo(lists, 0, 0, k, map[]) && FilledUpTo(lists, 0, 0, map[]) && FirstSeen(lists, 0, 0) == []
  {}

  lemma OrderStep(lists: seq<seq<Paper>>, i: nat, n: nat)
    requires i < |lists| && n < |lists[i]|
    ensures var order, key := FirstSeen(lists, i, n), DedupeKey(lists[i][n]);
      FirstSeen(lists, i, n + 1) == if key in order then order else order + [key]
  {
    hide DedupeKey;
  }

  lemma NextList(lists: seq<seq<Paper>>, i: nat, k: int, merged: map<Key, Paper>)
    requires i < |lists| && MergedUpTo(lists, i, |lists[i]|, k, merged)
    ensures MergedUpTo(lists, i + 1, 0, k, merged)
    ensures FirstSeen(lists, i + 1, 0) == FirstSeen(lists, i, |lists[i]|)
    ensures FilledUpTo(lists, i, |lists[i]|, merged) ==> FilledUpTo(lists, i + 1, 0, merged)
  {
    hide DedupeKey, Total, FilledFrom;
    forall key ensures Total(lists, i + 1, 0, k, key) == Total(lists, i, |lists[i]|, k, key) {
      TotalOfNextList(lists, i, k, key);
    }
  }

  lemma {:induction false} AtMostOnce<T>(s: seq<T>, x: T)
    requires forall i, j :: 0 <= i < j < |s| ==> s[i] != s[j]
    ensures multiset(s)[x] <= 1
  {
    if s != [] {
      AtMostOnce(s[..|s| - 1], x);
      assert s == s[..|s| - 1] + [s[|s| - 1]];
      if s[|s| - 1] == x { assert x !in s[..|s| - 1]; }
    }
  }

  lemma AtLeastTwice<T>(t: seq<T>, i: nat, j: nat)
    requires i < j < |t|
    ensures t[i] == t[j] ==> multiset(t)[t[j]] >= 2
  {
    assert t == t[..j] + [t[j]] + t[j + 1..];
    assert t[..j][i] == t[i];
  }

  lemma StaysDistinct<T>(s: seq<T>, t: seq<T>, i: nat, j: nat)
    requires forall a, b :: 0 <= a < b < |s| ==> s[a] != s[b]
    requires multiset(s) == multiset(t) && i < j < |t|
    ensures t[i] != t[j]
  {
    AtMostOnce(s, t[j]);
    AtLeastTwice(t, i, j);
  }

  /** The listed papers carry the keys in order and the scores of the formula. */
  ghost predicate ListedAs(lists: seq<seq<Paper>>, k: int, order: seq<Key>, listed: seq<Paper>) {
    && |listed| == |order|
    && (forall i :: 0 <= i < |order| ==>
          DedupeKey(listed[i]) == order[i] && listed[i].score == Some(Score(lists, order[i], k)))
    && (forall i, j :: 0 <= i < j < |order| ==> order[i] != order[j])
  }

  lemma {:induction false} TiedAsListed(lists: seq<seq<Paper>>, k: int, order: seq<Key>, listed: seq<Paper>,
                                        score: real)
    requires ListedAs(lists, k, order, listed)
    ensures KeysOf(WithScore(listed, score)) == Tied(lists, k, order, score)
  {
    hide DedupeKey, Score;
    if order == [] {
      assert listed == [];
    } else {
      var n := |order| - 1;
      TiedAsListed(lists, k, order[..n], listed[..n], score);
      var front := WithScore(listed[..n], score);
      assert (front + [listed[n]])[..|front|] == front;
      assert KeysOf(front + [listed[n]]) == KeysOf(front) + [DedupeKey(listed[n])];
      assert ScoreOf(listed[n]) == Score(lists, order[n], k);
      assert WithScore(listed, score) == if ScoreOf(listed[n]) == score then front + [listed[n]] else front;
    }
  }

  lemma SortedKeys(lists: seq<seq<Paper>>, k: int, order: seq<Key>, listed: seq<Paper>)
    requires ListedAs(lists, k, order, listed)
    ensures var sorted := SortByScore(listed);
      && (forall key :: key in order <==> exists p <- sorted :: DedupeKey(p) == key)
      && (forall i, j :: 0 <= i < j < |sorted| ==> DedupeKey(sorted[i]) != DedupeKey(sorted[j]))
      && (forall p <- sorted :: p.score == Some(Score(lists, DedupeKey(p), k)))
  {
    hide DedupeKey, Score, SortByScore;
    var sorted := SortByScore(listed);
    SortContents(listed);
    forall p ensures p in sorted <==> p in listed {
      assert p in multiset(sorted) <==> p in multiset(listed);
    }
    forall key | key in order ensures exists p <- sorted :: DedupeKey(p) == key {
      var i :| 0 <= i < |order| && order[i] == key;
      assert listed[i] in sorted;
    }
    forall i, j | 0 <= i < j < |sorted| ensures DedupeKey(sorted[i]) != DedupeKey(sorted[j]) {
      StaysDistinct(listed, sorted, i, j);
      assert sorted[i] in listed && sorted[j] in listed;
    }
  }

  lemma ListedFromMerged(lists: seq<seq<Paper>>, k: int, merged: map<Key, Paper>)
    requires MergedUpTo(lists, |lists|, 0, k, merged)
    ensures var order := FirstSeen(lists, |lists|, 0);
      (forall key <- order :: key in merged) && ListedAs(lists, k, order, Listed(order, merged))
  {
    hide DedupeKey, Score, FirstSeen;
    assert lists[..|lists|] == lists;
    FirstSeenDistinct(lists, |lists|, 0);
  }

  lemma SortedAreFilled(lists: seq<seq<Paper>>, k: int, merged: map<Key, Paper>, order: seq<Key>)
    requires MergedUpTo(lists, |lists|, 0, k, merged) && FilledUpTo(lists, |lists|, 0, merged)
    requires forall key <- order :: key in merged
    ensures forall p <- SortByScore(Listed(order, merged)) ::
      FilledFrom(p, Sightings(lists, |lists|, 0, DedupeKey(p)))
  {
    hide DedupeKey, Total, FirstSeen, FilledFrom, Sightings, SortByScore;
    var listed := Listed(order, merged);
    SortContents(listed);
    forall p | p in SortByScore(listed) ensures FilledFrom(p, Sightings(lists, |lists|, 0, DedupeKey(p))) {
      assert p in multiset(SortByScore(listed));
      var i :| 0 <= i < |listed| && listed[i] == p;
      assert merged[order[i]] == p;
    }
  }

  lemma AllListed(lists: seq<seq<Paper>>, k: int, merged: map<Key, Paper>)
    requires MergedUpTo(lists, |lists|, 0, k, merged) && FilledUpTo(lists, |lists|, 0, merged)
    ensures var order := FirstSeen(lists, |lists|, 0);
      (forall key <- order :: key in merged) && Fused(lists, k, SortByScore(Listed(order, merged)))
  {
    hide DedupeKey, Score, SortByScore, Descending, FirstSeen, Tied, KeysOf, WithScore, MergedUpTo, Listed, ListedAs;
    hide Occurs, FilledUpTo, FilledFrom, Sightings;
    ListedFromMerged(lists, k, merged);
    var order := FirstSeen(lists, |lists|, 0);
    SortedAreFilled(lists, k, merged, order);
    var listed := Listed(order, merged);
    SortedKeys(lists, k, order, listed);
    SortDescends(listed);
    forall key ensures key in order <==> Occurs(lists, key) { SeenAll(lists, key); }
    forall score ensures KeysOf(WithScore(SortByScore(listed), score)) == Tied(lists, k, order, score) {
      SortIsDescendingAndStable(listed, score);
      TiedAsListed(lists, k, order, listed, score);
    }
  }

  lemma SeenAll(lists: seq<seq<Paper>>, key: Key)
    ensures key in FirstSeen(lists, |lists|, 0) <==> Occurs(lists, key)
  {
    hide DedupeKey, FirstSeen;
    FirstSeenOccur(lists, |lists|, 0, key);
  }

  /** So the same lists in any order give the same keys with the same scores. */
  lemma FusionIgnoresListOrder(lists: seq<seq<Paper>>, others: seq<seq<Paper>>, k: int, papers: seq<Paper>,
                               same: seq<Paper>, p: Paper)
    requires multiset(lists) == multiset(others) && Fused(lists, k, papers) && Fused(others, k, same) && p in papers
    ensures exists q <- same :: DedupeKey(q) == DedupeKey(p) && q.score == p.score
  {
    hide DedupeKey, Score, Descending, FirstSeen, Tied, KeysOf, WithScore, FilledFrom, Sightings;
    var key := DedupeKey(p);
    assert Occurs(lists, key);
    var i, j :| 0 <= i < |lists| && 0 <= j < |lists[i]| && DedupeKey(lists[i][j]) == key;
    assert lists[i] in multiset(others);
    var a :| 0 <= a < |others| && others[a] == lists[i];
    assert Occurs(others, key);
    ScoreIgnoresOrder(lists, others, key, k);
  }
}
