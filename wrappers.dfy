/** Option, Result and Outcome: the error-carrying shapes the Go code expresses
    with nil pointers and `error` returns. */
module Wrappers {

  /** A value that may be missing (a nil pointer or an absent map entry in Go). */
  datatype Option<+T> = None | Some(value: T)

  /** A value or the error that replaced it (Go's `(T, error)` pair). */
  datatype Result<+T, +E> = Ok(value: T) | Err(error: E)

  /** An error that may be nil (Go's lone `error` return). */
  datatype Outcome<+E> = Pass | Fail(error: E)

  /** `n` copies of `x`. */
  function Repeat<T>(x: T, n: nat): (r: seq<T>)
    ensures |r| == n && forall i | 0 <= i < n :: r[i] == x
  {
    seq(n, _ => x)
  }
}
