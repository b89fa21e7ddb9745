/** Failure-compatible wrappers shared by every module of the model. */
module Wrappers {

  /** Rust's `Option<T>`. */
  datatype Option<T> = None | Some(value: T) {
    function GetOr(default: T): T {
      match this
      case Some(v) => v
      case None => default
    }
  }

  /** Rust's `Result<T, E>`. */
  datatype Result<T, E> = Ok(value: T) | Err(error: E)

  /** Why a call did not return normally: an `Err` it returned, or a panic (an `unwrap` of `None`). */
  datatype Failure = Error(message: string) | Panic(message: string)

  const UNWRAP_NONE: string := "called `Option::unwrap()` on a `None` value"

  /**
   * A loop's result once its first part `done` is known: the rest's error,
   * or `done` followed by the rest.
   */
  function After<T, E>(done: seq<T>, rest: Result<seq<T>, E>): Result<seq<T>, E> {
    if rest.Err? then rest else Ok(done + rest.value)
  }

  lemma AfterNothing<T, E>(r: Result<seq<T>, E>)
    ensures After([], r) == r
  {
    if r.Ok? {
      assert [] + r.value == r.value;
    }
  }

  /** Moving one item from the rest into the known part leaves the loop's result alone. */
  lemma AfterSnoc<T, E>(done: seq<T>, item: T, tail: Result<seq<T>, E>)
    ensures After(done + [item], tail) == After(done, if tail.Err? then tail else Ok([item] + tail.value))
  {
    if tail.Ok? {
      assert (done + [item]) + tail.value == done + ([item] + tail.value);
    }
  }
}
