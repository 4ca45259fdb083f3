/** Shared vocabulary: identifiers, optional values, results with the error
    kinds the handlers report, and the two MongoDB array-update operators the
    core relies on, `$addToSet` and `$pull`. */
module Common {

  /** A user or post id (a MongoDB ObjectId rendered as a string). */
  type Id = string

  /** A location in external object storage (an S3 URL). */
  type Ref = string

  datatype Option<+T> = None | Some(value: T)

  /** The ways a handler or a store operation can fail. */
  datatype Error =
    | NotFound(msg: string)        // HTTP 404 in the routes
    | Unauthorized(msg: string)    // HTTP 401, or the "only your own" refusals
    | BadRequest(msg: string)      // HTTP 400 with a fixed message
    | StoreFailure                 // the database rejected a read or a write
    | StorageFailure               // object storage rejected a delete
    | UploadFailure                // the multipart upload to object storage failed

  datatype Result<+T> = Ok(value: T) | Err(error: Error)

  /** No element occurs twice. */
  predicate Distinct<T(==,!new)>(s: seq<T>) {
    forall i, j :: 0 <= i < j < |s| ==> s[i] != s[j]
  }

  /** `$addToSet`: append `x` unless it is already an element. */
  function AddToSet<T(==,!new)>(s: seq<T>, x: T): (r: seq<T>)
    ensures x in r
    ensures x in s ==> r == s
    ensures forall y :: y in r <==> y in s || y == x
    ensures s <= r && |r| <= |s| + 1
    ensures Distinct(s) ==> Distinct(r)
  {
    if x in s then s else s + [x]
  }

  /** `$pull`: remove every occurrence of `x`, keeping the order of the rest. */
  function Pull<T(==,!new)>(s: seq<T>, x: T): (r: seq<T>)
    ensures x !in r
    ensures multiset(r) == multiset(s)[x := 0]
    ensures forall y :: y in r <==> y in s && y != x
    ensures |r| <= |s|
  {
    if s == [] then []
    else
      assert s == [s[0]] + s[1..];
      if s[0] == x then Pull(s[1..], x) else [s[0]] + Pull(s[1..], x)
  }

  /** Pulling an absent element is a no-op. */
  lemma {:induction false} PullAbsent<T(!new)>(s: seq<T>, x: T)
    requires x !in s
    ensures Pull(s, x) == s
  {
    if s != [] {
      PullAbsent(s[1..], x);
      assert s == [s[0]] + s[1..];
    }
  }

  /** Pulling distributes over concatenation. */
  lemma {:induction false} PullConcat<T(!new)>(s: seq<T>, t: seq<T>, x: T)
    ensures Pull(s + t, x) == Pull(s, x) + Pull(t, x)
  {
    if s == [] {
      assert s + t == t;
    } else {
      assert (s + t)[1..] == s[1..] + t;
      PullConcat(s[1..], t, x);
    }
  }

  /** `$pull` after `$addToSet` of a fresh element restores the array. */
  lemma PullUndoesAddToSet<T(!new)>(s: seq<T>, x: T)
    requires x !in s
    ensures Pull(AddToSet(s, x), x) == s
  {
    PullConcat(s, [x], x);
    PullAbsent(s, x);
  }

  /** Repeating `$pull` changes nothing. */
  lemma PullIdempotent<T(!new)>(s: seq<T>, x: T)
    ensures Pull(Pull(s, x), x) == Pull(s, x)
  {
    PullAbsent(Pull(s, x), x);
  }

  /** A `$pull` of one element and an `$addToSet` of another commute: the
      array is the same whichever of the two writes lands first. */
  lemma AddToSetPullCommute<T(!new)>(s: seq<T>, x: T, y: T)
    requires x != y
    ensures AddToSet(Pull(s, y), x) == Pull(AddToSet(s, x), y)
  {
    PullConcat(s, [x], y);
  }
}
