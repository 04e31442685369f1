/**
 * `Result<T>` (backend/Orders.Api/Result.cs): a get-only triple built only through two
 * static factories, since its constructor is protected. `Value` is `default` on failure
 * and `Error` is null on success; both absences are modelled as None.
 */
module Results {

  import opened Wrappers

  datatype Result<T> = Result(isSuccess: bool, value: Option<T>, error: Option<string>)

  /** The two shapes the factories can produce. */
  predicate WellFormed<T>(r: Result<T>)
  {
    || (r.isSuccess && r.value.Some? && r.error.None?)
    || (!r.isSuccess && r.value.None? && r.error.Some?)
  }

  /** `Success(value)`: succeeded, carries the value, no error. */
  function Success<T>(v: T): (r: Result<T>)
    ensures WellFormed(r) && r.isSuccess
    ensures r.value == Some(v)
  {
    Result(true, Some(v), None)
  }

  /** `Failure(error)`: failed, carries the message, no value. */
  function Failure<T>(e: string): (r: Result<T>)
    ensures WellFormed(r) && !r.isSuccess
    ensures r.error == Some(e)
  {
    Result(false, None, Some(e))
  }

  /**
   * Every well-formed result is the product of exactly one factory call, and the call
   * can be read back from it: the factories are the only way in, and nothing is lost.
   */
  lemma {:induction false} FactoriesCoverShapes<T>(r: Result<T>)
    requires WellFormed(r)
    ensures r.isSuccess ==> r == Success(r.value.value)
    ensures !r.isSuccess ==> r == Failure(r.error.value)
  {
  }

  /** A success is never a failure, and each factory is injective. */
  lemma {:induction false} FactoriesDistinct<T>(v: T, w: T, e: string, f: string)
    ensures Success(v) != Failure<T>(e)
    ensures Success(v) == Success(w) ==> v == w
    ensures Failure<T>(e) == Failure<T>(f) ==> e == f
  {
    assert Success(v).value.value == v;
    assert Failure<T>(e).error.value == e;
  }
}
