/** The two outcomes a step of the pipeline can have.

    `Either<T>` is the Left/Right value a stage returns (the pymonad `Either`).
    `Py<T>` is what a Python call does: it returns a value or raises an
    exception.  A stage that catches its own exceptions returns
    `Returned(Left(e))`; a stage that does not catch lets `Raised(e)` escape,
    and the `.then` chain does not catch it either.
 */
module Monad {

  datatype Option<+T> = None | Some(value: T)

  /** What a Left carries or what is raised.  Library calls (base64, zlib,
      json, the messaging client) fail with a `Foreign` fault of their own. */
  datatype Fault =
    | TypeError              // subscript, iteration or call on a value of the wrong type
    | KeyError(key: string)  // `d[key]` on a dict without `key`
    | AttributeError         // `.index` / `.split` on a value without that method
    | ValueError             // `.index("{")` found nothing
    | Foreign(what: string)  // an exception raised inside a library call
    | Message(text: string)  // a plain string put into a Left
    | Exception(reason: Fault) // `raise Exception(reason)`

  /** A pymonad Either value. */
  datatype Either<+T> = Left(error: Fault) | Right(value: T) {

    /** `.then(f)` for a stage `f` that returns an Either and never raises. */
    function Bind<U>(f: T -> Either<U>): Either<U>
    {
      match this
      case Left(e) => Left(e)
      case Right(v) => f(v)
    }
  }

  /** The outcome of evaluating a Python expression. */
  datatype Py<+T> = Returned(value: T) | Raised(exc: Fault)

  /** A stage that catches everything never raises. */
  function Lift<T>(e: Either<T>): Py<Either<T>>
  {
    Returned(e)
  }

  /** True when the chain has stopped: an exception escaped or a Left was returned. */
  predicate Stopped<T>(p: Py<Either<T>>)
  {
    p.Raised? || p.value.Left?
  }

  /** `.then(f)`: apply `f` only to a returned Right; a Left is carried on
      unchanged, and an exception escapes before `.then` is reached. */
  function Then<A, B>(p: Py<Either<A>>, f: A -> Py<Either<B>>): Py<Either<B>>
  {
    match p
    case Raised(e) => Raised(e)
    case Returned(Left(e)) => Returned(Left(e))
    case Returned(Right(v)) => f(v)
  }

  /** `identity(arg)` */
  function Identity<T>(x: T): T
  {
    x
  }

  /** `raise_error(reason)`: raises `Exception(reason)`. */
  function RaiseError<T>(reason: Fault): Py<T>
  {
    Raised(Exception(reason))
  }

  /** `.either(raise_error, identity)`: a Left is raised, a Right is returned. */
  function Unwrap<T>(p: Py<Either<T>>): (r: Py<T>)
    ensures r.Returned? <==> !Stopped(p)
    ensures r.Returned? ==> r.value == p.value.value
    ensures p.Raised? ==> r == Raised(p.exc)
    ensures p.Returned? && p.value.Left? ==> r == Raised(Exception(p.value.error))
  {
    match p
    case Raised(e) => Raised(e)
    case Returned(Left(e)) => RaiseError(e)
    case Returned(Right(v)) => Returned(Identity(v))
  }

  /** Once the chain has stopped, the next stage is not applied: whatever
      `f` is, the outcome is the one that stopped it. */
  lemma ThenAfterStop<A, B>(p: Py<Either<A>>, f: A -> Py<Either<B>>)
    requires Stopped(p)
    ensures Stopped(Then(p, f))
    ensures p.Raised? ==> Then(p, f) == Raised(p.exc)
    ensures p.Returned? ==> Then(p, f) == Returned(Left(p.value.error))
  {
  }

  /** On a returned Right the next stage receives exactly that value. */
  lemma ThenOnRight<A, B>(p: Py<Either<A>>, f: A -> Py<Either<B>>)
    requires !Stopped(p)
    ensures Then(p, f) == f(p.value.value)
  {
  }

  /** `list(map(f, xs))` where `f` may raise: the results in order, or the
      first failure met from the left. */
  function MapAll<A, B>(f: A -> Either<B>, xs: seq<A>): (r: Either<seq<B>>)
    ensures r.Right? <==> forall k :: 0 <= k < |xs| ==> f(xs[k]).Right?
    ensures r.Right? ==> |r.value| == |xs| && forall k :: 0 <= k < |xs| ==> r.value[k] == f(xs[k]).value
    ensures r.Left? ==> exists j :: 0 <= j < |xs| && f(xs[j]).Left? && r.error == f(xs[j]).error &&
                                    forall k :: 0 <= k < j ==> f(xs[k]).Right?
  {
    if xs == [] then Right([])
    else
      match f(xs[0])
      case Left(e) => Left(e)
      case Right(y) =>
        match MapAll(f, xs[1..])
        case Left(e) =>
          ghost var j :| 0 <= j < |xs| - 1 && f(xs[1..][j]).Left? && e == f(xs[1..][j]).error &&
                         forall k :: 0 <= k < j ==> f(xs[1..][k]).Right?;
          assert f(xs[j + 1]).Left? && forall k :: 0 <= k < j + 1 ==> f(xs[k]).Right?;
          Left(e)
        case Right(ys) => Right([y] + ys)
  }

  /** The failure `list(map(f, xs))` reports is the one of the first element that fails. */
  lemma MapAllFirstFailure<A, B>(f: A -> Either<B>, xs: seq<A>, j: nat)
    requires j < |xs| && f(xs[j]).Left?
    requires forall k :: 0 <= k < j ==> f(xs[k]).Right?
    ensures MapAll(f, xs) == Left(f(xs[j]).error)
  {
    var i :| 0 <= i < |xs| && f(xs[i]).Left? && MapAll(f, xs).error == f(xs[i]).error &&
             forall k :: 0 <= k < i ==> f(xs[k]).Right?;
    assert i == j;
  }
}
