/** graceful_context.go: a context that is cancelled in two phases.

    Calling its cancel function first sets `isCanceled` (the soft phase, in
    which Err reports ErrContextCancelled but Done has not fired), waits for
    the grace period, and only then cancels the embedded context (the hard
    phase, in which Done fires and Err reports the embedded context's error).
    The wait is the step GracePeriodElapsed; the mutex is not modelled, each
    method being one critical section.
 */
module Graceful {
  import opened Errors
  import opened Contexts

  datatype GracePhase = Live | SoftCancelled | HardCancelled

  /** The order of the phases: a context only moves forward. */
  function Rank(p: GracePhase): nat {
    match p
    case Live => 0
    case SoftCancelled => 1
    case HardCancelled => 2
  }

  /** Which event cancelled the embedded context. */
  datatype HardCause = NotYet | ByParent | ByCancelFn

  class GracefulContext {
    const parent: Context
    const gracefulPeriod: int
    var innerErr: Error      // Err() of the embedded cancel context
    var isCanceled: bool
    ghost var waiting: nat   // calls of cancel that are in their grace wait
    ghost var cause: HardCause

    ghost predicate Valid()
      reads this
    {
      && (innerErr == Nil <==> cause == NotYet)
      && (innerErr == Nil || IsContextErr(innerErr))
      && (cause == ByCancelFn ==> isCanceled && innerErr == Canceled)
      && (waiting > 0 ==> isCanceled)
    }

    /** WithGracefulPeriod: wrap context.WithCancel(parent). A parent that is
        already done cancels the embedded context at once. */
    constructor WithGracefulPeriod(parent: Context, gracefulPeriod: int)
      requires parent.Valid()
      ensures Valid() && this.parent == parent && this.gracefulPeriod == gracefulPeriod
      ensures innerErr == parent.err && !isCanceled && waiting == 0
      ensures Phase() == if parent.Done() then HardCancelled else Live
    {
      this.parent := parent;
      this.gracefulPeriod := gracefulPeriod;
      innerErr := parent.err;
      isCanceled := false;
      waiting := 0;
      cause := if parent.err == Nil then NotYet else ByParent;
    }

    function Phase(): GracePhase
      reads this
    {
      if innerErr != Nil then HardCancelled
      else if isCanceled then SoftCancelled
      else Live
    }

    /** Err: nil while live, ErrContextCancelled in the soft phase, and the
        embedded context's error, never ErrContextCancelled, once hard. */
    function Err(): (r: Error)
      reads this
      requires Valid()
      ensures r == Nil <==> Phase() == Live
      ensures r == ContextCancelled <==> Phase() == SoftCancelled
      ensures Phase() == HardCancelled ==> r == innerErr && IsContextErr(r)
    {
      if isCanceled && innerErr == Nil then ContextCancelled else innerErr
    }

    /** Done comes from the embedded context: it fires in the hard phase only,
        and only the parent or the deferred cancelFn get it there. */
    function Done(): (r: bool)
      reads this
      requires Valid()
      ensures r <==> Phase() == HardCancelled
      ensures r ==> cause == ByParent || cause == ByCancelFn
    {
      innerErr != Nil
    }

    /** The cancel function starts: it sets `isCanceled` before any waiting. */
    method Cancel()
      requires Valid()
      modifies this`isCanceled, this`waiting
      ensures Valid()
      ensures isCanceled && waiting == old(waiting) + 1
      ensures Phase() != Live && Rank(old(Phase())) <= Rank(Phase())
    {
      isCanceled := true;
      waiting := waiting + 1;
    }

    /** The grace period of a pending cancel call has passed: cancelFn runs.
        An embedded context that is already cancelled keeps its error. */
    method GracePeriodElapsed()
      requires Valid() && waiting > 0
      modifies this`innerErr, this`waiting, this`cause
      ensures Valid()
      ensures waiting == old(waiting) - 1 && isCanceled
      ensures Phase() == HardCancelled && Rank(old(Phase())) <= Rank(Phase())
      ensures innerErr == Settle(old(innerErr), Canceled)
    {
      if innerErr == Nil {
        cause := ByCancelFn;
      }
      innerErr := Settle(innerErr, Canceled);
      waiting := waiting - 1;
    }

    /** The parent is done: its error reaches the embedded context, unless
        that is cancelled already. Nothing happens while the parent is live. */
    method ParentPropagates()
      requires Valid() && parent.Valid()
      modifies this`innerErr, this`cause
      ensures Valid()
      ensures Rank(old(Phase())) <= Rank(Phase())
      ensures parent.Done() ==> innerErr == Settle(old(innerErr), parent.err) && Phase() == HardCancelled
      ensures !parent.Done() || old(innerErr) != Nil ==> unchanged(this)
    {
      if parent.Done() {
        if innerErr == Nil {
          cause := ByParent;
        }
        innerErr := Settle(innerErr, parent.err);
      }
    }
  }
}
