// Option and Result wrappers, and the exceptions the library raises,
// shared by every module of the model.

module Wrappers {

  datatype Option<T> = None | Some(value: T)
  {
    function GetOr(default: T): T
    {
      match this
      case None => default
      case Some(v) => v
    }
  }

  /** The Python exception classes the modelled code raises or lets through. */
  datatype Error =
    | ValueError(msg: string)
    | NotImplementedError(msg: string)
    | KeyError(key: string)
    | IndexError
    | AttributeError(name: string)
    | TypeError(msg: string)
    | ValidationError(msg: string)
    | DimensionalityError
    | MatMLParserError(msg: string)
    | StopIteration
    /** Division of a Python float by zero. */
    | ZeroDivisionError
    /** numpy division by a zero total: the values become NaN or infinite. */
    | NonFinite

  datatype Result<T> = Ok(value: T) | Err(error: Error)
  {
    predicate IsFailure() { Err? }

    function PropagateFailure<U>(): Result<U>
      requires Err?
    {
      Err(error)
    }

    function Extract(): T
      requires Ok?
    {
      value
    }
  }

  /** A loop over `xs` that updates a state one item at a time and stops
      at the first step that raises. */
  function Steps<S, T>(init: S, xs: seq<T>, step: (S, T) -> Result<S>): Result<S>
  {
    if |xs| == 0 then Ok(init)
    else
      var prev :- Steps(init, xs[..|xs| - 1], step);
      step(prev, xs[|xs| - 1])
  }

  /** A step that raises ends the loop: the error of the first `m` steps
      is the error of the whole loop. */
  lemma {:induction false} StepsPrefixErr<S, T>(init: S, xs: seq<T>, step: (S, T) -> Result<S>, m: nat)
    requires m <= |xs| && Steps(init, xs[..m], step).Err?
    ensures Steps(init, xs, step) == Steps(init, xs[..m], step)
    decreases |xs|
  {
    if m == |xs| {
      assert xs[..m] == xs;
    } else {
      var n := |xs| - 1;
      assert xs[..n][..m] == xs[..m];
      StepsPrefixErr(init, xs[..n], step, m);
    }
  }

  /** The outcome of a check that returns nothing or raises. */
  datatype Outcome = Pass | Fail(error: Error)
  {
    predicate IsFailure() { Fail? }

    function PropagateFailure<U>(): Result<U>
      requires Fail?
    {
      Err(error)
    }
  }
}
