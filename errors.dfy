/** Error values as the squad package sees them.

    Go's `error` is an interface; the model keeps the handful of sentinel
    values the package compares against, an opaque failure for every other
    error a task or hook may return, and a wrapper so that `errors.Is`
    (which follows the chain of wrapped causes) has something to follow.
 */
module Errors {

  datatype Error =
    | Nil                               // the nil error
    | Canceled                          // context.Canceled
    | DeadlineExceeded                  // context.DeadlineExceeded
    | ContextCancelled                  // ErrContextCancelled of graceful_context.go
    | ServerClosed                      // http.ErrServerClosed
    | Failure(code: nat)                // any other error, told apart by its code
    | Wrapped(code: nat, cause: Error)  // an error that wraps `cause` (fmt.Errorf with %w)

  /** The errors a standard library context reports once it is done. */
  predicate IsContextErr(e: Error) {
    e == Canceled || e == DeadlineExceeded
  }

  /** The error of a context after an event that would end it with `e`: a
      context that is done already keeps its first error. */
  function Settle(current: Error, e: Error): (r: Error)
    ensures current != Nil ==> r == current
    ensures current == Nil ==> r == e
  {
    if current == Nil then e else current
  }

  /** The chain `errors.Is` walks: the error itself, then what it wraps, and so on. */
  function Chain(err: Error): (r: seq<Error>)
    ensures err != Nil ==> |r| > 0 && r[0] == err
    ensures Nil !in r
  {
    match err
    case Nil => []
    case Wrapped(_, cause) => [err] + Chain(cause)
    case _ => [err]
  }

  /** `errors.Is(err, target)`: a nil error is only nil; otherwise some error on
      the chain must equal the target. */
  function Is(err: Error, target: Error): bool {
    if err == Nil || target == Nil then err == target
    else target in Chain(err)
  }
}
