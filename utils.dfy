/** The promise combinators of lib/utils.ts: `catchError` and
    `catchErrorTyped` turn the settlement of a call into an `[error, data]`
    pair, the second one only for errors of the listed classes. */
module Utils {
  import opened Wrappers
  import opened Errors

  /** `[undefined, data]` or `[error]`. */
  datatype Caught<+T> = Succeeded(data: T) | CaughtError(error: Thrown)

  /** `catchError(promise)`. */
  function CatchError<T>(o: Settled<T>): (r: Settled<Caught<T>>)
    ensures !r.Raised?
    ensures o.Fulfilled? <==> r.Fulfilled? && r.value.Succeeded?
    ensures o.Fulfilled? ==> r.value.data == o.value
    ensures o.Raised? ==> r == Fulfilled(CaughtError(o.error))
    ensures r.Undetermined? <==> o.Undetermined?
  {
    match o
    case Fulfilled(data) => Fulfilled(Succeeded(data))
    case Raised(e) => Fulfilled(CaughtError(e))
    case Undetermined => Undetermined
  }

  /** `errorsToCatch.some(c => error instanceof c)`. */
  predicate InstanceOfAny(t: Thrown, classes: seq<ErrorClass>) {
    exists k :: 0 <= k < |classes| && InstanceOf(t, classes[k])
  }

  /** `catchErrorTyped(promise, errorsToCatch)`; `None` is an
      `undefined` class list. */
  function CatchErrorTyped<T>(o: Settled<T>, errorsToCatch: Option<seq<ErrorClass>>): Settled<Caught<T>> {
    match o
    case Fulfilled(data) => Fulfilled(Succeeded(data))
    case Raised(e) =>
      if errorsToCatch.None? then Fulfilled(CaughtError(e))
      else if InstanceOfAny(e, errorsToCatch.value) then Fulfilled(CaughtError(e))
      else Raised(e)
    case Undetermined => Undetermined
  }

  /** The typed combinator agrees with `catchError` except that an error of
      no listed class is rethrown as it is; an undefined list catches
      everything, an empty list nothing. */
  lemma CatchErrorTypedCases<T>(o: Settled<T>, errorsToCatch: Option<seq<ErrorClass>>)
    ensures o.Fulfilled? || o.Undetermined? ==> CatchErrorTyped(o, errorsToCatch) == CatchError(o)
    ensures o.Raised? ==>
      ((CatchErrorTyped(o, errorsToCatch) == Raised(o.error))
       <==> (errorsToCatch.Some? && !InstanceOfAny(o.error, errorsToCatch.value)))
    ensures o.Raised? && CatchErrorTyped(o, errorsToCatch) != Raised(o.error) ==>
      CatchErrorTyped(o, errorsToCatch) == CatchError(o)
    ensures CatchErrorTyped(o, None) == CatchError(o)
    ensures o.Raised? ==> CatchErrorTyped(o, Some([])) == Raised(o.error)
  {
  }

  /** Listing AppErrors catches exactly the application's typed errors;
      listing one domain class catches exactly the errors of that class. */
  lemma CatchErrorTypedByClass<T>(o: Settled<T>, c: ErrorClass)
    requires o.Raised?
    ensures CatchErrorTyped(o, Some([AppErrorsClass])).Raised? <==> !IsAppErrors(o.error)
    ensures c != AppErrorsClass ==>
      (CatchErrorTyped(o, Some([c])).Raised? <==> !(o.error.App? && ClassOf(o.error.error) == c))
  {
    assert InstanceOfAny(o.error, [AppErrorsClass]) <==> InstanceOf(o.error, AppErrorsClass) by {
      assert [AppErrorsClass][0] == AppErrorsClass;
    }
    assert InstanceOfAny(o.error, [c]) <==> InstanceOf(o.error, c) by {
      assert [c][0] == c;
    }
  }

  /** Listing more classes never rethrows more. */
  lemma CatchErrorTypedMonotone<T>(o: Settled<T>, fewer: seq<ErrorClass>, more: seq<ErrorClass>)
    requires forall k :: 0 <= k < |fewer| ==> fewer[k] in more
    ensures CatchErrorTyped(o, Some(more)).Raised? ==> CatchErrorTyped(o, Some(fewer)).Raised?
  {
    if o.Raised? && InstanceOfAny(o.error, fewer) {
      var k :| 0 <= k < |fewer| && InstanceOf(o.error, fewer[k]);
      var j :| 0 <= j < |more| && more[j] == fewer[k];
      assert InstanceOf(o.error, more[j]);
    }
  }
}
