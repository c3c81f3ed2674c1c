/** Optional values, the Python exceptions the modelled code raises or lets
    through, and failure-compatible results carrying them. */
module Outcomes {

  datatype Option<+T> = None | Some(value: T)

  /** The exceptions that reach a caller of the modelled code. Messages are kept
      where the repository writes them itself; runtime errors raised by Python
      (subscripting the wrong type, a missing list element, an exhausted
      iterator) carry only what identifies them. */
  datatype Error =
    | ValueError(message: string)
    | AssertionError(message: string)
    | KeyError(key: string)
    | AttributeError(attribute: string)
    | TypeError
    | IndexError
    | StopIteration

  /** A value, or the exception raised instead of returning one. */
  datatype Result<+T> = Ok(value: T) | Err(error: Error) {
    predicate IsFailure() { Err? }

    function PropagateFailure<U>(): Result<U>
      requires Err?
    {
      Err(error)
    }

    function Extract(): T
      requires Ok?
    {
      value
    }
  }

  /** Completion of a procedure that returns nothing, or the exception it raised. */
  datatype Outcome = Pass | Fail(error: Error) {
    predicate IsFailure() { Fail? }

    function PropagateFailure(): Outcome
      requires Fail?
    {
      this
    }
  }

  /** `[f(item) for item in items]`: every item mapped, in order, or the
      exception of the first item that fails. */
  function MapEach<S, T>(items: seq<S>, f: S -> Result<T>): (r: Result<seq<T>>)
    ensures r.Ok? <==> forall i :: 0 <= i < |items| ==> f(items[i]).Ok?
    ensures r.Ok? ==> |r.value| == |items|
    ensures r.Ok? ==> forall i :: 0 <= i < |items| ==> f(items[i]) == Ok(r.value[i])
    ensures r.Err? ==> exists i :: 0 <= i < |items| && f(items[i]) == Err(r.error)
                                 && forall k :: 0 <= k < i ==> f(items[k]).Ok?
  {
    if items == [] then Ok([])
    else
      match f(items[0])
      case Err(e) => Err(e)
      case Ok(first) =>
        match MapEach(items[1..], f)
        case Err(e) =>
          assert exists i :: 1 <= i < |items| && f(items[i]) == Err(e)
                             && forall k :: 0 <= k < i ==> f(items[k]).Ok? by {
            var i' :| 0 <= i' < |items| - 1 && f(items[1..][i']) == Err(e)
                      && forall k :: 0 <= k < i' ==> f(items[1..][k]).Ok?;
            assert forall k :: 1 <= k < i' + 1 ==> f(items[k]).Ok? by {
              forall k | 1 <= k < i' + 1 ensures f(items[k]).Ok? {
                assert items[k] == items[1..][k - 1];
              }
            }
            assert items[i' + 1] == items[1..][i'];
          }
          Err(e)
        case Ok(rest) =>
          assert forall i :: 1 <= i < |items| ==> items[i] == items[1..][i - 1];
          Ok([first] + rest)
  }
}
