/** Types shared by every part of the model. */
module Basics {

  /** An identifier minted by the id generator: compared, and ordered only where rows are sorted. */
  type Id = nat

  /** A clock reading. */
  type Time = int

  datatype Option<+T> = None | Some(value: T)

  /** The exceptions that a caller can see, one per class the code raises. */
  datatype Error =
    | NotFound
    | InvalidTransition
    | VersionConflict
    | LeaseLost
    | OperationConflict
    | CancellationRequested
    | ApprovalUndecidable
    | MetricExtraction
    | Refused

  datatype Result<+T> = Ok(value: T) | Err(error: Error) {
    predicate IsFailure() { Err? }

    function PropagateFailure<U>(): Result<U>
      requires Err?
    {
      Err(error)
    }

    function Extract(): T
      requires Ok?
    {
      value
    }
  }

  /** `str.isspace` of an ASCII character, and `not s.strip()`. */
  predicate IsSpace(c: char) {
    c == ' ' || 0x09 <= c as int <= 0x0d || 0x1c <= c as int <= 0x1f
  }

  predicate Blank(s: string) {
    forall c <- s :: IsSpace(c)
  }

  /** The ten of them: tab, line feed, vertical tab, form feed, carriage return, the four separators and
      space. */
  lemma SpacesAre(c: char)
    ensures IsSpace(c) <==> c as int in {9, 10, 11, 12, 13, 28, 29, 30, 31, 32}
  {}

  /** There is always another identifier. */
  lemma {:induction false} FreshExists(ids: set<Id>)
    ensures exists n: Id :: n !in ids
  {
    assert Above(ids) !in ids;
  }

  ghost function Above(ids: set<Id>): (n: Id)
    ensures forall x <- ids :: x < n
    decreases |ids|
  {
    if ids == {} then 0
    else
      var x :| x in ids;
      var rest := Above(ids - {x});
      assert ids == (ids - {x}) + {x};
      if x < rest then rest else x + 1
  }

  lemma {:induction false} SubsetSize(some: set<Id>, all: set<Id>)
    requires some <= all
    ensures |some| <= |all|
  {
    if x :| x in some {
      SubsetSize(some - {x}, all - {x});
    }
  }
}
