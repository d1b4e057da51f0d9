/** The result types shared by every layer: the `Either` container the
    repository, HTTP client and use case return, an `Option` for the
    source's optional (`?:`) fields, and `Settled`, the outcome of an awaited
    promise (fulfilled with a value, or rejected with a thrown reason). */
module SharedTypes {

  /** An optional field: `None` is a property that is absent or `undefined`. */
  datatype Option<+T> = None | Some(value: T) {
    function GetOr(default: T): (r: T)
      ensures Some? ==> r == value
      ensures None? ==> r == default
    {
      match this
      case Some(v) => v
      case None => default
    }
  }

  /** Exactly one side is populated: `Left` carries a failure, `Right` a success. */
  datatype Either<+L, +R> = Left(leftValue: L) | Right(rightValue: R) {
    predicate IsLeft() { Left? }
    predicate IsRight() { Right? }
  }

  /** The `left` factory: the result reports failure, not success, and holds exactly `v`. */
  function MakeLeft<L, R>(v: L): (e: Either<L, R>)
    ensures e.IsLeft() && !e.IsRight()
    ensures e.leftValue == v
  {
    Left(v)
  }

  /** The `right` factory: the result reports success, not failure, and holds exactly `v`. */
  function MakeRight<L, R>(v: R): (e: Either<L, R>)
    ensures e.IsRight() && !e.IsLeft()
    ensures e.rightValue == v
  {
    Right(v)
  }

  /** The two discriminants are complementary, so every value answers exactly one of them. */
  lemma ExactlyOneSide<L, R>(e: Either<L, R>)
    ensures e.IsLeft() <==> !e.IsRight()
  {
  }

  /** The type of `null`, the only inhabitant of the use case's failure side. */
  datatype Null = Null

  /** How an awaited promise settles: fulfilled with a value or rejected with a reason. */
  datatype Settled<+T, +E> = Fulfilled(value: T) | Rejected(reason: E)
}
