/** Python-level outcomes shared by every model module: optional values (`None`),
    the exception classes the ingester raises or returns, and results that are
    either a value or a raised exception. */
module Py {

  datatype Option<T> = None | Some(value: T)

  /** The exception classes that the modelled code raises (or, in two drafts,
      returns as values). */
  datatype Exception =
    | KeyError
    | ValueError
    | TypeError
    | AttributeError
    | IndexError
    | OverflowError
    | JSONDecodeError
      /** requests.exceptions.RequestException, raised by a transport failure or by
          `raise_for_status` on a 4xx/5xx status */
    | RequestException
      /** requests.HTTPError raised explicitly by the caller */
    | HTTPError
      /** a bare `Exception(...)` */
    | GenericException
    | MaxFredDataRequestTriesError
    | MaxGenerateAccessTokenTriesError
    | MaxPetfinderTokenGenerationTriesError
    | MaxPetfinderDataRequestTriesError

  /** The value a call returns, or the exception it raises. */
  datatype Result<+T> = Ok(value: T) | Err(exc: Exception) {

    predicate IsFailure() {
      Err?
    }

    function PropagateFailure<U>(): Result<U>
      requires Err?
    {
      Err(exc)
    }

    function Extract(): T
      requires Ok?
    {
      value
    }
  }

  /** A list built front to back: the elements built so far followed by what
      the rest gives, or the error the rest raises. */
  function Prepend<T>(done: seq<T>, rest: Result<seq<T>>): Result<seq<T>> {
    match rest
    case Ok(xs) => Ok(done + xs)
    case Err(e) => Err(e)
  }

  /** What `f` gives for the first element, followed by what it gives for
      each of the rest, is what it gives for every element, in order. */
  lemma EachCons<A, B>(f: A -> Result<B>, xs: seq<A>, first: B, rest: seq<B>)
    requires |xs| > 0 && f(xs[0]) == Ok(first) && |rest| == |xs| - 1
    requires forall i :: 0 <= i < |rest| ==> f(xs[1..][i]) == Ok(rest[i])
    ensures forall i :: 0 <= i < |xs| ==> f(xs[i]) == Ok(([first] + rest)[i])
  {
    forall i | 0 <= i < |xs|
      ensures f(xs[i]) == Ok(([first] + rest)[i])
    {
      if i > 0 {
        assert xs[i] == xs[1..][i - 1];
      }
    }
  }

  /** When `f` succeeds on the first element and on the first `n` of the
      rest, it succeeds on the first `n + 1` elements. */
  lemma SucceedsCons<A, B>(f: A -> Result<B>, xs: seq<A>, n: nat)
    requires n < |xs| && f(xs[0]).Ok?
    requires forall j :: 0 <= j < n ==> f(xs[1..][j]).Ok?
    ensures forall j :: 0 <= j < n + 1 ==> f(xs[j]).Ok?
  {
    forall j | 0 <= j < n + 1
      ensures f(xs[j]).Ok?
    {
      if j > 0 {
        assert xs[j] == xs[1..][j - 1];
      }
    }
  }
}
