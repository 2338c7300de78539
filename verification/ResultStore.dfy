/** The broker's store of completed results: any number of putters, interleaved file step by file
    step, any of which may die at any step. */
module ResultStore {
  import opened Basics
  import opened ResultCodec

  /** The digest of the canonical payload text; it determines the payload. */
  datatype PayloadDigest = DigestOf(payload: Payload)

  datatype Document = Document(schema: int, payload: Payload, digest: PayloadDigest)

  /** What a file holds: not everything yet, or one whole document. */
  datatype File = Partial | Whole(document: Document)

  predicate PathOk(operation: string) {
    !Blank(operation) && '\0' !in operation
  }

  function DocumentFor(r: SandboxResult): Result<Document> {
    var payload := PayloadOf(r);
    var checked :- ResultFrom(payload);
    if checked != r then Err(Refused) else Ok(Document(1, payload, DigestOf(payload)))
  }

  function ResultFromDocument(d: Document): Result<SandboxResult> {
    if d.schema != 1 || d.digest != DigestOf(d.payload) then Err(Refused) else ResultFrom(d.payload)
  }

  function Get(records: map<string, File>, operation: string): Result<Option<SandboxResult>> {
    if !PathOk(operation) then Err(Refused)
    else if operation !in records then Ok(None)
    else if records[operation].Partial? then Err(Refused)
    else
      var r :- ResultFromDocument(records[operation].document);
      if r.operation != operation then Err(Refused) else Ok(Some(r))
  }

  /** A record answers only for its own operation and only as it was written: another schema, a payload
      that does not match its digest, another operation's result or half a file are refused. */
  lemma RecordAnswersIff(records: map<string, File>, operation: string, r: SandboxResult)
    ensures Get(records, operation) == Ok(Some(r)) <==>
      && (exists c <- operation :: !IsSpace(c)) && '\0' !in operation && operation in records
      && records[operation].Whole? && records[operation].document.schema == 1
      && records[operation].document.digest.payload == records[operation].document.payload
      && ResultFrom(records[operation].document.payload) == Ok(r) && r.operation == operation
    ensures Get(records, operation) == Ok(None) <==>
      (exists c <- operation :: !IsSpace(c)) && '\0' !in operation && operation !in records
  {
    hide ResultFrom, IsSpace;
  }

  lemma PathIsAsked(records: map<string, File>, operation: string)
    requires !PathOk(operation)
    ensures Get(records, operation) == Err(Refused)
  {}

  // ---------------------------------------------------------------- putters

  /** Where a `put` is: a staging file made, written, linked, or an existing record found. */
  datatype Phase =
    | Staged(result: SandboxResult)
    | Written(result: SandboxResult)
    | Linked(result: SandboxResult)
    | Found(result: SandboxResult)

  datatype Store = Store(
    records: map<string, File>, staging: map<Id, File>, putters: map<Id, Phase>,
    returned: set<SandboxResult>)

  datatype Move =
    | Begin(p: Id, result: SandboxResult)
    | Write(p: Id)
    | Link(p: Id)
    | Compare(p: Id)
    | Sync(p: Id)
    | Die(p: Id)

  /** The `finally` clause: the staging file goes. */
  function Leave(s: Store, p: Id): Store {
    s.(putters := s.putters - {p}, staging := s.staging - {p})
  }

  function Apply(s: Store, move: Move): Store {
    match move
    case Begin(p, r) =>
      if p in s.putters || p in s.staging || !PathOk(r.operation) || DocumentFor(r).Err? then s
      else s.(staging := s.staging[p := Partial], putters := s.putters[p := Staged(r)])
    case Write(p) =>
      if p !in s.putters || !s.putters[p].Staged? then s
      else
        var r := s.putters[p].result;
        if DocumentFor(r).Err? then s
        else s.(staging := s.staging[p := Whole(DocumentFor(r).value)], putters := s.putters[p := Written(r)])
    case Link(p) =>
      if p !in s.putters || !s.putters[p].Written? || p !in s.staging then s
      else
        var r := s.putters[p].result;
        if r.operation in s.records then s.(putters := s.putters[p := Found(r)])
        else s.(records := s.records[r.operation := s.staging[p]], putters := s.putters[p := Linked(r)])
    case Compare(p) =>
      if p !in s.putters || !s.putters[p].Found? then s
      else
        var r := s.putters[p].result;
        if Get(s.records, r.operation) == Ok(Some(r)) then Leave(s.(returned := s.returned + {r}), p) else Leave(s, p)
    case Sync(p) =>
      if p !in s.putters || !s.putters[p].Linked? then s
      else Leave(s.(returned := s.returned + {s.putters[p].result}), p)
    case Die(p) => s.(putters := s.putters - {p})
  }

  function Run(s: Store, moves: seq<Move>): Store
    decreases |moves|
  {
    if moves == [] then s else Run(Apply(s, moves[0]), moves[1..])
  }

  const Empty := Store(map[], map[], map[], {})

  // ---------------------------------------------------------------- the invariant

  /** The record of `operation` is the whole document of a result of that operation. */
  predicate Recorded(records: map<string, File>, operation: string, r: SandboxResult) {
    && operation in records && r.operation == operation && Storable(r) && PathOk(operation)
    && records[operation] == Whole(Document(1, PayloadOf(r), DigestOf(PayloadOf(r))))
  }

  ghost predicate PutterOk(s: Store, p: Id)
    requires p in s.putters
  {
    var r := s.putters[p].result;
    && Storable(r) && PathOk(r.operation)
    && match s.putters[p]
       case Staged(_) => true
       case Written(_) => p in s.staging && s.staging[p] == Whole(Document(1, PayloadOf(r), DigestOf(PayloadOf(r))))
       case Linked(_) => Recorded(s.records, r.operation, r)
       case Found(_) => r.operation in s.records
  }

  ghost predicate Valid(s: Store) {
    && (forall o :: o in s.records ==> exists r :: Recorded(s.records, o, r))
    && (forall p :: p in s.putters ==> PutterOk(s, p))
    && (forall r <- s.returned :: Recorded(s.records, r.operation, r))
  }

  lemma DocumentForStorable(r: SandboxResult)
    ensures DocumentFor(r) ==
            if Storable(r) then Ok(Document(1, PayloadOf(r), DigestOf(PayloadOf(r)))) else Err(Refused)
  {
    hide PayloadOf, ResultFrom, Storable;
    PayloadRoundTrip(r);
  }

  /** A recorded result is exactly what `get` returns, and no other result is recorded. */
  lemma GetRecorded(records: map<string, File>, operation: string, r: SandboxResult)
    requires Recorded(records, operation, r)
    ensures Get(records, operation) == Ok(Some(r))
  {
    hide PayloadOf, ResultFrom, Storable, PathOk;
    PayloadRoundTrip(r);
  }

  ghost predicate RecordsKept(s: Store, next: Store) {
    forall o :: o in s.records ==> o in next.records && next.records[o] == s.records[o]
  }

  lemma MoveKeepsRecords(s: Store, move: Move)
    ensures RecordsKept(s, Apply(s, move))
  {
    hide DocumentFor, Get;
  }

  /** A putter that dies takes nothing with it, and nothing that it left is read: whatever can be put by
      another one can be put after its death, as if it had not been there. */
  lemma DeathIsHarmless(s: Store, p: Id, other: Id, r: SandboxResult)
    requires p in s.putters && other !in s.putters && other !in s.staging && Storable(r) && PathOk(r.operation)
    ensures p !in Apply(s, Die(p)).putters
    ensures forall operation :: Get(Apply(s, Die(p)).records, operation) == Get(s.records, operation)
    ensures Apply(Apply(s, Die(p)), Begin(other, r)).putters == s.putters[other := Staged(r)] - {p}
  {
    DocumentForStorable(r);
    hide DocumentFor, Get, Storable, PathOk;
  }

  lemma RecordedStays(s: Store, next: Store, operation: string, r: SandboxResult)
    requires RecordsKept(s, next) && Recorded(s.records, operation, r)
    ensures Recorded(next.records, operation, r)
  {
    hide PayloadOf, Storable, PathOk;
  }

  lemma PutterMoves(s: Store, move: Move, p: Id)
    requires Valid(s) && p in Apply(s, move).putters
    ensures PutterOk(Apply(s, move), p)
  {
    hide PayloadOf, Storable, PathOk, Get, ResultFrom;
    if p in s.putters { assert PutterOk(s, p); }
    if move.Begin? || (move.Write? && p in s.putters) {
      DocumentForStorable(if move.Begin? then move.result else s.putters[p].result);
    }
    hide DocumentFor;
  }

  lemma RecordMoves(s: Store, move: Move, o: string)
    requires Valid(s) && o in Apply(s, move).records
    ensures exists r :: Recorded(Apply(s, move).records, o, r)
  {
    hide PayloadOf, Storable, PathOk, Get, DocumentFor;
    MoveKeepsRecords(s, move);
    if o in s.records {
      var r :| Recorded(s.records, o, r);
      RecordedStays(s, Apply(s, move), o, r);
    } else {
      assert PutterOk(s, move.p);
      assert Recorded(Apply(s, move).records, o, s.putters[move.p].result);
    }
  }

  lemma ReturnMoves(s: Store, move: Move, r: SandboxResult)
    requires Valid(s) && r in Apply(s, move).returned
    ensures Recorded(Apply(s, move).records, r.operation, r)
  {
    hide PayloadOf, Storable, PathOk, Get, DocumentFor;
    MoveKeepsRecords(s, move);
    if r in s.returned {
      RecordedStays(s, Apply(s, move), r.operation, r);
    } else {
      assert PutterOk(s, move.p);
      if move.Compare? {
        var kept :| Recorded(s.records, r.operation, kept);
        GetRecorded(s.records, r.operation, kept);
      }
    }
  }

  lemma MoveKeepsValid(s: Store, move: Move)
    requires Valid(s)
    ensures Valid(Apply(s, move)) && RecordsKept(s, Apply(s, move))
  {
    var next := Apply(s, move);
    MoveKeepsRecords(s, move);
    hide Apply, PutterOk, Recorded, RecordsKept;
    forall o | o in next.records ensures exists r :: Recorded(next.records, o, r) { RecordMoves(s, move, o); }
    forall p | p in next.putters ensures PutterOk(next, p) { PutterMoves(s, move, p); }
    forall r | r in next.returned ensures Recorded(next.records, r.operation, r) { ReturnMoves(s, move, r); }
  }

  lemma {:induction false} RunKeepsValid(s: Store, moves: seq<Move>)
    requires Valid(s)
    ensures Valid(Run(s, moves)) && RecordsKept(s, Run(s, moves))
    decreases |moves|
  {
    hide Valid, Apply;
    if moves != [] {
      MoveKeepsValid(s, moves[0]);
      RunKeepsValid(Apply(s, moves[0]), moves[1..]);
    }
  }

  // ---------------------------------------------------------------- what callers see

  /** In any run, with any putters dying anywhere: `get` of a good id never fails, and answers with
      nothing or with one result of that id. */
  lemma GetNeverFails(moves: seq<Move>, operation: string)
    requires PathOk(operation)
    ensures var got := Get(Run(Empty, moves).records, operation);
      got.Ok? && (got.value.Some? ==> got.value.value.operation == operation && Storable(got.value.value))
  {
    hide Apply, PutterOk, PathOk;
    RunKeepsValid(Empty, moves);
    var s := Run(Empty, moves);
    if operation in s.records {
      var r :| Recorded(s.records, operation, r);
      GetRecorded(s.records, operation, r);
    }
  }

  /** An answer never changes, whatever is put later. */
  lemma AnswersNeverChange(moves: seq<Move>, more: seq<Move>, operation: string)
    requires PathOk(operation) && Get(Run(Empty, moves).records, operation) != Ok(None)
    ensures Get(Run(Run(Empty, moves), more).records, operation) == Get(Run(Empty, moves).records, operation)
  {
    hide Apply, PutterOk, PathOk, Recorded;
    RunKeepsValid(Empty, moves);
    RunKeepsValid(Run(Empty, moves), more);
  }

  /** Every `put` that returned normally stored its result, or found exactly that result stored. */
  lemma ReturnedPutsAreStored(moves: seq<Move>, r: SandboxResult)
    requires r in Run(Empty, moves).returned
    ensures Get(Run(Empty, moves).records, r.operation) == Ok(Some(r))
  {
    hide Apply, PutterOk;
    RunKeepsValid(Empty, moves);
    GetRecorded(Run(Empty, moves).records, r.operation, r);
  }

  /** So two puts of one operation that both returned carried the same result. */
  lemma NoConflictReturns(moves: seq<Move>, r: SandboxResult, other: SandboxResult)
    requires r in Run(Empty, moves).returned && other in Run(Empty, moves).returned && r.operation == other.operation
    ensures r == other
  {
    ReturnedPutsAreStored(moves, r);
    ReturnedPutsAreStored(moves, other);
  }

  // ---------------------------------------------------------------- one put, among others

  predicate Foreign(moves: seq<Move>, p: Id) {
    forall move <- moves :: move.p != p
  }

  predicate SamePutter(s: Store, next: Store, p: Id) {
    && (p in s.putters <==> p in next.putters) && (p in s.putters ==> next.putters[p] == s.putters[p])
    && (p in s.staging <==> p in next.staging) && (p in s.staging ==> next.staging[p] == s.staging[p])
  }

  lemma {:induction false} OthersLeave(s: Store, moves: seq<Move>, p: Id)
    requires Foreign(moves, p)
    ensures SamePutter(s, Run(s, moves), p)
    decreases |moves|
  {
    if moves != [] {
      assert moves[0] in moves;
      assert SamePutter(s, Apply(s, moves[0]), p) by { hide DocumentFor, Get; }
      hide Apply;
      OthersLeave(Apply(s, moves[0]), moves[1..], p);
    }
  }

  lemma {:induction false} RunJoins(s: Store, moves: seq<Move>, more: seq<Move>)
    ensures Run(s, moves + more) == Run(Run(s, moves), more)
    decreases |moves|
  {
    hide Apply;
    if moves == [] {
      assert moves + more == more;
    } else {
      RunJoins(Apply(s, moves[0]), moves[1..], more);
      assert (moves + more)[0] == moves[0] && (moves + more)[1..] == moves[1..] + more;
    }
  }

  class CompletedResultStore {
    var store: Store

    constructor ()
      ensures store == Empty
    {
      store := Empty;
    }

    method Recover(operation: string) returns (r: Result<Option<SandboxResult>>)
      requires Valid(store) && PathOk(operation)
      ensures r == Get(store.records, operation) && r.Ok?
    {
      hide PutterOk;
      r := Get(store.records, operation);
      if operation in store.records {
        ghost var kept :| Recorded(store.records, operation, kept);
        GetRecorded(store.records, operation, kept);
      }
    }

    /** One file step of putter `p`, after whatever the others did. */
    method Do(p: Id, others: seq<Move>, move: Move, ghost begin: Store, ghost trace: seq<Move>)
      returns (ghost longer: seq<Move>)
      requires Foreign(others, p) && Valid(store) && store == Run(begin, trace)
      modifies this
      ensures store == Apply(Run(old(store), others), move) && store == Run(begin, longer) && Valid(store)
      ensures SamePutter(old(store), Run(old(store), others), p) && Valid(Run(old(store), others))
    {
      hide Apply, Valid;
      OthersLeave(store, others, p);
      RunKeepsValid(store, others);
      MoveKeepsValid(Run(store, others), move);
      store := Apply(Run(store, others), move);
      longer := trace + (others + [move]);
      RunJoins(begin, trace, others + [move]);
      RunJoins(old(store), others, [move]);
      assert [move][1..] == [];
    }

    /** After the link: the record is this putter's own, or another one's to compare with. */
    method Settle(p: Id, r: SandboxResult, others: seq<Move>, ghost begin: Store, ghost trace: seq<Move>)
      returns (a: Result<()>, ghost longer: seq<Move>)
      requires Foreign(others, p) && Valid(store) && store == Run(begin, trace) && p in store.putters
      requires store.putters[p] == Linked(r) || store.putters[p] == Found(r)
      modifies this
      ensures store == Run(begin, longer) && Valid(store) && p !in store.putters && p !in store.staging
      ensures a.Ok? ==> r in store.returned
      ensures a.Err? ==> Get(store.records, r.operation) != Ok(Some(r))
    {
      hide PutterOk, Recorded, DocumentFor, Get, Storable, PathOk, Valid;
      if store.putters[p].Linked? {
        longer := Do(p, others, Sync(p), begin, trace);
        a := Ok(());
      } else {
        longer := Do(p, others, Compare(p), begin, trace);
        a := if Get(store.records, r.operation) == Ok(Some(r)) then Ok(()) else Err(Refused);
      }
    }

    /** `put`: returns normally exactly when its result is the one that is stored in the end. */
    method Put(p: Id, r: SandboxResult, others: nat -> seq<Move>) returns (a: Result<()>, ghost trace: seq<Move>)
      requires Valid(store) && p !in store.putters && p !in store.staging && forall n: nat :: Foreign(others(n), p)
      modifies this
      ensures store == Run(old(store), trace) && Valid(store)
      ensures a.Ok? <==> Storable(r) && Get(store.records, r.operation) == Ok(Some(r))
      ensures p !in store.putters && p !in store.staging
    {
      hide PutterOk, Recorded, DocumentFor, Get, Storable, PathOk, Valid;
      ghost var begin := store;
      DocumentForStorable(r);
      if !PathOk(r.operation) {
        PathIsAsked(store.records, r.operation);
        return Err(Refused), [];
      }
      if DocumentFor(r).Err? { return Err(Refused), []; }
      trace := Do(p, others(0), Begin(p, r), begin, []);
      trace := Do(p, others(1), Write(p), begin, trace);
      trace := Do(p, others(2), Link(p), begin, trace);
      a, trace := Settle(p, r, others(3), begin, trace);
      ReturnedIsStored(store, r);
    }
  }

  lemma ReturnedIsStored(s: Store, r: SandboxResult)
    requires Valid(s)
    ensures r in s.returned ==> Get(s.records, r.operation) == Ok(Some(r))
  {
    hide PutterOk, Get;
    if r in s.returned { GetRecorded(s.records, r.operation, r); }
  }
}
