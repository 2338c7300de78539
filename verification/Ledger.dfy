/** The operation ledger and the blob directory: what the rows of operations, artifacts and
    blobs say about each other. */
module Ledger {
  import opened Basics
  import opened Content
  import opened Lifecycle
  import opened Tables
  import opened Transactions
  import opened Evolution
  import opened Changes

  // ---------------------------------------------------------------- keys and attempts

  ghost predicate OperationsOwned(operations: map<Id, Operation>, attempts: map<Id, Attempt>) {
    forall o :: o in operations ==> operations[o].attempt in attempts
  }

  /** Operations are indexed by their keys, have the type of their slot, and belong to attempts. */
  ghost predicate Keyed(operations: map<Id, Operation>, keys: map<Key, Id>, attempts: map<Id, Attempt>) {
    KeyIndex(operations, keys) && OperationsKinded(operations) && OperationsOwned(operations, attempts)
  }

  lemma KeyedKept(db: Db, after: Db, now: Time)
    requires Keyed(db.operations, db.keys, db.attempts)
    requires OperationsMove(db.operations, after.operations, now) && AttemptsMove(db.attempts, after.attempts, now)
    requires after.keys == db.keys && after.operations.Keys == db.operations.Keys
    ensures Keyed(after.operations, after.keys, after.attempts)
  {
    OperationsKeepIdentity(db, after, now);
    hide OperationsMove;
  }

  lemma OperationsKeepIdentity(db: Db, after: Db, now: Time)
    requires OperationsMove(db.operations, after.operations, now)
    ensures forall o :: o in db.operations ==>
      o in after.operations && SameIdentity(db.operations[o], after.operations[o])
  {}

  lemma AddsOperationKeyed(db: Db, after: Db, now: Time, token: Token, id: Id, o: Operation)
    requires AddsOperation(db, after, now, token, id, o)
    requires Keyed(db.operations, db.keys, db.attempts)
    ensures Keyed(after.operations, after.keys, after.attempts)
  {}

  // ---------------------------------------------------------------- operations and artifacts

  /** A blob put has succeeded exactly when its artifact is registered. */
  predicate PutSettled(operations: map<Id, Operation>, artifacts: map<Id, Registration>, o: Id)
    requires o in operations
  {
    operations[o].kind == CasPut ==> (operations[o].status == OperationStatus.Succeeded <==> o in artifacts)
  }

  predicate BlobHeld(blobs: map<Digest, Bytes>, artifact: ArtifactRef) {
    artifact.sha in blobs && blobs[artifact.sha] == artifact.sha.preimage && Size(blobs[artifact.sha]) == artifact.size
  }

  /** A registration agrees with its operation in digest, address, attempt, kind and media type,
      and its bytes are in the blob directory. */
  predicate ArtifactSettled(operations: map<Id, Operation>, artifacts: map<Id, Registration>,
                            blobs: map<Digest, Bytes>, o: Id)
    requires o in artifacts
  {
    && o in operations && operations[o].kind == CasPut && operations[o].status == OperationStatus.Succeeded
    && artifacts[o].artifact.sha == operations[o].input
    && operations[o].result == Some(CasUri(artifacts[o].artifact.sha))
    && artifacts[o].attempt == operations[o].attempt && artifacts[o].operation == o
    && artifacts[o].kind == KindIn(operations[o].key.slot)
    && artifacts[o].artifact.media == MediaIn(operations[o].key.slot)
    && BlobHeld(blobs, artifacts[o].artifact)
  }

  ghost predicate Settled(operations: map<Id, Operation>, artifacts: map<Id, Registration>, blobs: map<Digest, Bytes>) {
    && (forall o :: o in operations ==> PutSettled(operations, artifacts, o))
    && (forall o :: o in artifacts ==> ArtifactSettled(operations, artifacts, blobs, o))
  }

  /** Every blob is named by its own digest. */
  ghost predicate BlobsNamed(blobs: map<Digest, Bytes>) {
    forall d :: d in blobs ==> Sha256(blobs[d]) == d
  }

  lemma SettledWithMoreBlobs(db: Db, blobs: map<Digest, Bytes>, payload: Bytes)
    requires Settled(db.operations, db.artifacts, blobs) && BlobsNamed(blobs)
    ensures Settled(db.operations, db.artifacts, blobs[Sha256(payload) := payload])
    ensures BlobsNamed(blobs[Sha256(payload) := payload])
    ensures Extends(blobs, blobs[Sha256(payload) := payload])
  {
    var more := blobs[Sha256(payload) := payload];
    forall o | o in db.artifacts ensures ArtifactSettled(db.operations, db.artifacts, more, o) {
      assert ArtifactSettled(db.operations, db.artifacts, blobs, o);
    }
  }

  lemma ArtifactsHaveOperations(operations: map<Id, Operation>, artifacts: map<Id, Registration>, blobs: map<Digest,
                                Bytes>)
    requires Settled(operations, artifacts, blobs)
    ensures artifacts.Keys <= operations.Keys
  {
    forall o | o in artifacts ensures o in operations {
      assert ArtifactSettled(operations, artifacts, blobs, o);
    }
  }

  lemma AddsOperationSettled(db: Db, after: Db, now: Time, token: Token, id: Id, o: Operation, blobs: map<Digest,
                             Bytes>)
    requires AddsOperation(db, after, now, token, id, o) && Settled(db.operations, db.artifacts, blobs)
    ensures Settled(after.operations, after.artifacts, blobs)
  {
    ArtifactsHaveOperations(db.operations, db.artifacts, blobs);
    forall p | p in after.operations ensures PutSettled(after.operations, after.artifacts, p) {
      if p in db.operations { assert PutSettled(db.operations, db.artifacts, p); }
    }
    forall p | p in after.artifacts ensures ArtifactSettled(after.operations, after.artifacts, blobs, p) {
      assert ArtifactSettled(db.operations, db.artifacts, blobs, p);
    }
  }

  lemma AdvancesOperationSettled(db: Db, after: Db, now: Time, token: Token, id: Id, blobs: map<Digest, Bytes>)
    requires AdvancesOperation(db, after, now, token, id) && Settled(db.operations, db.artifacts, blobs)
    ensures Settled(after.operations, after.artifacts, blobs)
  {
    forall p | p in after.operations ensures PutSettled(after.operations, after.artifacts, p) {
      assert PutSettled(db.operations, db.artifacts, p);
    }
    forall p | p in after.artifacts ensures ArtifactSettled(after.operations, after.artifacts, blobs, p) {
      assert ArtifactSettled(db.operations, db.artifacts, blobs, p);
    }
  }

  lemma RecoversOperationsSettled(db: Db, after: Db, now: Time, ids: seq<Id>, event: Id, blobs: map<Digest, Bytes>)
    requires RecoversOperations(db, after, now, ids, event) && Settled(db.operations, db.artifacts, blobs)
    ensures Settled(after.operations, after.artifacts, blobs)
  {
    forall p | p in after.operations ensures PutSettled(after.operations, after.artifacts, p) {
      assert PutSettled(db.operations, db.artifacts, p);
    }
    forall p | p in after.artifacts ensures ArtifactSettled(after.operations, after.artifacts, blobs, p) {
      assert ArtifactSettled(db.operations, db.artifacts, blobs, p);
    }
  }

  /** The finalizing transaction of the persister: the blob was written before it, and the
      operation was prepared for the same bytes. */
  lemma FinishesPutSettled(db: Db, after: Db, now: Time, token: Token, put: Put, id: Id, blobs: map<Digest, Bytes>)
    requires FinishesPut(db, after, now, token, put, id) && Settled(db.operations, db.artifacts, blobs)
    requires db.operations[id].kind == CasPut && db.operations[id].attempt == token.attempt
    requires db.operations[id].input == Sha256(put.payload) && BlobHeld(blobs, put.Ref())
    ensures Settled(after.operations, after.artifacts, blobs)
  {
    forall p | p in after.operations ensures PutSettled(after.operations, after.artifacts, p) {
      assert PutSettled(db.operations, db.artifacts, p);
    }
    forall p | p in after.artifacts ensures ArtifactSettled(after.operations, after.artifacts, blobs, p) {
      if p in db.artifacts { assert ArtifactSettled(db.operations, db.artifacts, blobs, p); }
    }
  }

  // ---------------------------------------------------------------- registered artifacts

  /** The artifact of one slot of one attempt is registered as `artifact`. */
  predicate Registered(db: Db, key: Key, artifact: ArtifactRef) {
    key in db.keys && db.keys[key] in db.artifacts && db.artifacts[db.keys[key]].artifact == artifact
  }

  lemma RegisteredStays(db: Db, after: Db, key: Key, artifact: ArtifactRef)
    requires Registered(db, key, artifact) && WriteOnce(db, after)
    ensures Registered(after, key, artifact)
  {}

  /** Whatever is registered can be read back, byte for byte. */
  lemma RegisteredIsReadable(db: Db, blobs: map<Digest, Bytes>, key: Key, artifact: ArtifactRef)
    requires Registered(db, key, artifact) && Settled(db.operations, db.artifacts, blobs)
    ensures ReadVerified(blobs, artifact) == Ok(artifact.sha.preimage)
  {
    assert ArtifactSettled(db.operations, db.artifacts, blobs, db.keys[key]);
  }
}
