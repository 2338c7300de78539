/** The blob directory: staging, replacement and verification, file step by file step, by any number
    of writers that may die at any step. */
module LocalCas {
  import opened Basics
  import opened Content
  import opened Transactions
  import R = Runtime

  /** What a file holds: not everything yet, or these bytes. */
  datatype File = Partial | Whole(payload: Bytes)

  /** Where a `put` is: a staging file made, its bytes written, or the blob in place. */
  datatype Phase = Staged(payload: Bytes) | Written(payload: Bytes) | Placed(payload: Bytes)

  datatype Cas = Cas(blobs: map<Digest, File>, staging: map<Id, File>, writers: map<Id, Phase>, returned: set<Bytes>)

  datatype Move = Begin(p: Id, payload: Bytes) | Write(p: Id) | Replace(p: Id) | Verify(p: Id) | Die(p: Id)

  /** `read_verified`. */
  function Read(blobs: map<Digest, File>, artifact: ArtifactRef): Result<Bytes> {
    if artifact.sha !in blobs || blobs[artifact.sha].Partial? then Err(Refused)
    else
      var payload := blobs[artifact.sha].payload;
      if Sha256(payload) != artifact.sha || Size(payload) != artifact.size then Err(Refused) else Ok(payload)
  }

  function Leave(c: Cas, p: Id): Cas {
    c.(writers := c.writers - {p}, staging := c.staging - {p})
  }

  /** A blob that is there already is only verified; otherwise the staging file replaces it. */
  function Apply(c: Cas, move: Move): Cas {
    match move
    case Begin(p, payload) =>
      if p in c.writers || p in c.staging then c
      else if Sha256(payload) in c.blobs then c.(writers := c.writers[p := Placed(payload)])
      else c.(staging := c.staging[p := Partial], writers := c.writers[p := Staged(payload)])
    case Write(p) =>
      if p !in c.writers || !c.writers[p].Staged? then c
      else
        var payload := c.writers[p].payload;
        c.(staging := c.staging[p := Whole(payload)], writers := c.writers[p := Written(payload)])
    case Replace(p) =>
      if p !in c.writers || !c.writers[p].Written? || p !in c.staging then c
      else
        var payload := c.writers[p].payload;
        var placed := c.(writers := c.writers[p := Placed(payload)]);
        if Sha256(payload) in c.blobs then placed
        else placed.(blobs := c.blobs[Sha256(payload) := c.staging[p]], staging := c.staging - {p})
    case Verify(p) =>
      if p !in c.writers || !c.writers[p].Placed? then c
      else
        var payload := c.writers[p].payload;
        if Read(c.blobs, RefOf(payload, PlainText)).Err? then Leave(c, p)
        else Leave(c.(returned := c.returned + {payload}), p)
    case Die(p) => c.(writers := c.writers - {p})
  }

  function Run(c: Cas, moves: seq<Move>): Cas
    decreases |moves|
  {
    if moves == [] then c else Run(Apply(c, moves[0]), moves[1..])
  }

  const Empty := Cas(map[], map[], map[], {})

  // ---------------------------------------------------------------- the invariant

  /** Every visible blob is whole and named by its own digest, and a writer's staging file holds
      what it wrote. */
  ghost predicate Valid(c: Cas) {
    && (forall d :: d in c.blobs ==> c.blobs[d].Whole? && Sha256(c.blobs[d].payload) == d)
    && (forall p :: p in c.writers && c.writers[p].Written? && p in c.staging ==>
          c.staging[p] == Whole(c.writers[p].payload))
    && (forall p :: p in c.writers && c.writers[p].Placed? ==> Sha256(c.writers[p].payload) in c.blobs)
    && (forall payload <- c.returned :: Sha256(payload) in c.blobs)
  }

  /** What readers see: the directory as the runtime model has it. */
  function Visible(c: Cas): map<Digest, Bytes> {
    map d | d in c.blobs && c.blobs[d].Whole? :: c.blobs[d].payload
  }

  lemma MoveKeepsValid(c: Cas, move: Move)
    requires Valid(c)
    ensures Valid(Apply(c, move))
    ensures forall d :: d in c.blobs ==> d in Apply(c, move).blobs && Apply(c, move).blobs[d] == c.blobs[d]
  {
    hide Read;
  }

  /** One file step shows readers nothing new, or all of one payload at once under its digest: a
      whole `put` is the single blob write of the runtime model. */
  lemma StepsAreAtomicWrites(c: Cas, move: Move)
    requires Valid(c)
    ensures Visible(Apply(c, move)) == Visible(c)
      || (move.p in c.writers && Sha256(c.writers[move.p].payload) !in Visible(c)
          && Visible(Apply(c, move)) == Visible(c)[Sha256(c.writers[move.p].payload) := c.writers[move.p].payload])
  {
    hide Read;
    MoveKeepsValid(c, move);
  }

  lemma {:induction false} RunKeepsValid(c: Cas, moves: seq<Move>)
    requires Valid(c)
    ensures Valid(Run(c, moves))
    ensures forall d :: d in c.blobs ==> d in Run(c, moves).blobs && Run(c, moves).blobs[d] == c.blobs[d]
    decreases |moves|
  {
    hide Valid, Apply;
    if moves != [] {
      MoveKeepsValid(c, moves[0]);
      RunKeepsValid(Apply(c, moves[0]), moves[1..]);
    }
  }

  lemma PlacedReads(c: Cas, payload: Bytes, media: MediaType)
    requires Valid(c) && Sha256(payload) in c.blobs
    ensures Read(c.blobs, RefOf(payload, media)) == Ok(payload)
  {
    hide Size;
  }

  /** A read is answered with bytes exactly when the file is whole, and its bytes have the digest and the size
      that were asked for; a damaged or unfinished file is refused. */
  lemma ReadIff(blobs: map<Digest, File>, artifact: ArtifactRef, payload: Bytes)
    ensures Read(blobs, artifact) == Ok(payload) <==>
      && artifact.sha in blobs && blobs[artifact.sha] == Whole(payload) && artifact.sha.preimage == payload
      && artifact.size == Size(payload)
  {
    hide Size;
  }

  function PutInPlace(c: Cas, p: Id, payload: Bytes): Cas {
    Apply(Apply(Apply(c, Begin(p, payload)), Write(p)), Replace(p))
  }

  lemma KnownIsInPlace(c: Cas, p: Id, payload: Bytes)
    requires p !in c.writers && p !in c.staging && Sha256(payload) in c.blobs
    ensures PutInPlace(c, p, payload) == Apply(c, Begin(p, payload)) == c.(writers := c.writers[p := Placed(payload)])
  {}

  lemma NewIsInPlace(c: Cas, p: Id, payload: Bytes)
    requires p !in c.writers && p !in c.staging && Sha256(payload) !in c.blobs
    ensures PutInPlace(c, p, payload) ==
      c.(writers := c.writers[p := Placed(payload)], blobs := c.blobs[Sha256(payload) := Whole(payload)])
  {
    var written := c.(staging := c.staging[p := Whole(payload)], writers := c.writers[p := Written(payload)]);
    assert Apply(Apply(c, Begin(p, payload)), Write(p)) == written by {
      assert c.staging[p := Partial][p := Whole(payload)] == written.staging;
      assert c.writers[p := Staged(payload)][p := Written(payload)] == written.writers;
    }
    assert written.staging - {p} == c.staging;
    assert written.writers[p := Placed(payload)] == c.writers[p := Placed(payload)];
  }

  lemma VerifyReturns(c: Cas, p: Id)
    requires p in c.writers && c.writers[p].Placed? && Read(c.blobs, RefOf(c.writers[p].payload, PlainText)).Ok?
    ensures Apply(c, Verify(p)) == Leave(c.(returned := c.returned + {c.writers[p].payload}), p)
  {
    hide Read, Size;
  }

  /** A put that nobody disturbs returns, shows its payload and leaves no staging file; bytes that are there
      are not written again. */
  lemma PutReturns(c: Cas, p: Id, payload: Bytes)
    requires Valid(c) && p !in c.writers && p !in c.staging
    ensures var d := Apply(PutInPlace(c, p, payload), Verify(p));
      && d.returned == c.returned + {payload} && d.writers == c.writers && d.staging == c.staging
      && Visible(d) == Visible(c)[Sha256(payload) := payload]
    ensures Sha256(payload) in c.blobs ==> Apply(c, Begin(p, payload)).staging == c.staging
  {
    hide Apply, Read, Size;
    var placed := PutInPlace(c, p, payload);
    if Sha256(payload) in c.blobs { KnownIsInPlace(c, p, payload); } else { NewIsInPlace(c, p, payload); }
    PlacedReads(placed, payload, PlainText);
    VerifyReturns(placed, p);
    hide PutInPlace, Valid;
    assert placed.writers - {p} == c.writers && placed.staging - {p} == c.staging;
  }

  /** A file step of the writer of a session's payload either shows nothing new or is the blob write of
      that session in the runtime, and a read of the directory is the runtime's verified read. */
  lemma StepIsBlobWrite(c: Cas, move: Move, w: R.World, s: Id, artifact: ArtifactRef)
    requires Valid(c) && Visible(c) == w.blobs
    requires s in w.sessions && w.sessions[s].Persisting?
    requires move.p in c.writers ==> c.writers[move.p].payload == w.sessions[s].put.payload
    ensures Visible(Apply(c, move)) == w.blobs || Visible(Apply(c, move)) == R.BlobWrite(w, s).blobs
    ensures Read(Apply(c, move).blobs, artifact) == ReadVerified(Visible(Apply(c, move)), artifact)
  {
    hide Size, Apply;
    StepsAreAtomicWrites(c, move);
    MoveKeepsValid(c, move);
  }

  /** Every put that returned can be read back, byte for byte, in every later state. */
  lemma ReturnedPutsAreReadable(moves: seq<Move>, more: seq<Move>, payload: Bytes, media: MediaType)
    requires payload in Run(Empty, moves).returned
    ensures Read(Run(Run(Empty, moves), more).blobs, RefOf(payload, media)) == Ok(payload)
  {
    hide Apply, Read, Size;
    RunKeepsValid(Empty, moves);
    RunKeepsValid(Run(Empty, moves), more);
    PlacedReads(Run(Run(Empty, moves), more), payload, media);
  }

  /** A writer that gets to its end never finds its blob damaged. */
  lemma VerifyNeverFails(moves: seq<Move>, p: Id)
    requires p in Run(Empty, moves).writers && Run(Empty, moves).writers[p].Placed?
    ensures Run(Empty, moves).writers[p].payload in Apply(Run(Empty, moves), Verify(p)).returned
  {
    RunKeepsValid(Empty, moves);
    hide Run, Read, Size;
    PlacedReads(Run(Empty, moves), Run(Empty, moves).writers[p].payload, PlainText);
  }
}
