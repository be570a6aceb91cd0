/** context.go: a context whose done event comes `delay` after its
    parent's, and which otherwise answers as its parent does.

    The parent is an ordinary standard library context. The goroutine that
    WithDelay starts is a small state machine; its steps are methods, and
    the instants at which they happen are passed in, so that "after the
    delay" can be said without a clock.
 */
module Contexts {
  import opened Errors

  /** What Deadline() reports: no deadline (zero time, false), or a time. */
  datatype Expiry = NoExpiry | ExpiresAt(t: int)

  /** What Value(key) reports: nil, or the value stored under the key. */
  datatype Any = NilAny | Boxed(v: int)

  /** A standard library context: an error once done, a fixed deadline and
      the values stored in it. */
  class Context {
    var err: Error
    const deadline: Expiry
    const values: map<int, int>

    ghost predicate Valid()
      reads this
    {
      err == Nil || IsContextErr(err)
    }

    constructor (deadline: Expiry, values: map<int, int>)
      ensures Valid() && err == Nil
      ensures this.deadline == deadline && this.values == values
    {
      err := Nil;
      this.deadline := deadline;
      this.values := values;
    }

    /** Whether its Done channel is closed. */
    function Done(): bool
      reads this
    {
      err != Nil
    }

    function Err(): Error
      reads this
    {
      err
    }

    function Deadline(): Expiry {
      deadline
    }

    function Value(key: int): Any {
      if key in values then Boxed(values[key]) else NilAny
    }

    /** Cancellation or expiry: the first error sticks. */
    method Cancel(e: Error)
      requires Valid() && IsContextErr(e)
      modifies this
      ensures Valid()
      ensures err == Settle(old(err), e)
    {
      err := Settle(err, e);
    }
  }

  /** Where the goroutine of WithDelay is. */
  datatype SenderStage =
    | AwaitingParent            // blocked on <-ctx.Done()
    | Sleeping(wokeAt: int)     // in time.Sleep(delay) since `wokeAt`
    | Sending(readyAt: int)     // blocked on ch <- struct{}{} since `readyAt`
    | Sent                      // the value was taken; close(ch) is next
    | Closed                    // ch is closed; the goroutine has ended

  /** What a receive on the Done channel does now. */
  datatype Receive = WouldBlock | GotValue | GotClosed

  class DelayedContext {
    const parentCtx: Context
    const delay: int
    var stage: SenderStage
    ghost var parentSeenAt: int   // when the goroutine saw the parent done
    ghost var delivered: bool     // some receiver took the one value sent

    ghost predicate Valid()
      reads this, parentCtx
    {
      && (stage != AwaitingParent ==> parentCtx.Done())
      && (stage.Sleeping? ==> stage.wokeAt == parentSeenAt)
      && (stage.Sending? ==> stage.readyAt >= parentSeenAt + delay)
      && (delivered <==> stage == Sent || stage == Closed)
    }

    /** WithDelay: the goroutine starts by waiting for the parent. */
    constructor WithDelay(ctx: Context, delay: int)
      ensures Valid()
      ensures parentCtx == ctx && this.delay == delay && stage == AwaitingParent && !delivered
    {
      parentCtx := ctx;
      this.delay := delay;
      stage := AwaitingParent;
      delivered := false;
    }

    /** Err is the parent's Err, whether or not the delay has run out. */
    function Err(): (r: Error)
      reads this, parentCtx
      ensures r == parentCtx.err
    {
      parentCtx.Err()
    }

    /** Deadline is the parent's Deadline: no deadline of its own. */
    function Deadline(): (r: Expiry)
      reads this
      ensures r == parentCtx.deadline
    {
      parentCtx.Deadline()
    }

    /** Value is the parent's Value: no values of its own. */
    function Value(key: int): (r: Any)
      reads this
      ensures r == (if key in parentCtx.values then Boxed(parentCtx.values[key]) else NilAny)
    {
      parentCtx.Value(key)
    }

    /** Whether a receive on Done() would proceed now. It never does before
        the parent is done. */
    function DoneReady(): (r: bool)
      reads this, parentCtx
      requires Valid()
      ensures r ==> parentCtx.Done() && (stage.Sending? || stage.Closed?)
      ensures stage.Sending? || stage.Closed? ==> r
    {
      stage.Sending? || stage == Closed
    }

    /** The goroutine's <-ctx.Done() returns at instant `now` if the parent is
        done; otherwise it stays blocked. */
    method ParentDoneSeen(now: int)
      requires Valid()
      modifies this
      ensures Valid()
      ensures old(stage) == AwaitingParent && parentCtx.Done() ==>
        stage == Sleeping(now) && parentSeenAt == now && delivered == old(delivered)
      ensures old(stage) != AwaitingParent || !parentCtx.Done() ==> unchanged(this)
    {
      if stage == AwaitingParent && parentCtx.Done() {
        stage := Sleeping(now);
        parentSeenAt := now;
      }
    }

    /** time.Sleep(delay) returns at `now`, not before the delay has passed
        since the goroutine woke. */
    method SleepEnds(now: int)
      requires Valid()
      modifies this
      ensures Valid()
      ensures old(stage).Sleeping? && now >= old(stage).wokeAt + delay ==>
        stage == Sending(now) && parentSeenAt == old(parentSeenAt) && delivered == old(delivered)
      ensures !(old(stage).Sleeping? && now >= old(stage).wokeAt + delay) ==> unchanged(this)
    {
      if stage.Sleeping? && now >= stage.wokeAt + delay {
        stage := Sending(now);
      }
    }

    /** A receive on Done(): it takes the one value while the goroutine is
        sending, gets the zero value once the channel is closed, and blocks
        otherwise (before the send, and between the send and the close). */
    method ReceiveDone() returns (r: Receive)
      requires Valid()
      modifies this
      ensures Valid()
      ensures r == GotValue <==> old(stage).Sending?
      ensures r == GotClosed <==> old(stage) == Closed
      ensures r == GotValue ==> stage == Sent && delivered
      ensures r != GotValue ==> unchanged(this)
      ensures r != WouldBlock ==> parentCtx.Done()
    {
      match stage
      case Sending(_) =>
        stage := Sent;
        delivered := true;
        r := GotValue;
      case Closed =>
        r := GotClosed;
      case _ =>
        r := WouldBlock;
    }

    /** close(ch): only after a receiver has taken the value. */
    method CloseAfterSend()
      requires Valid()
      modifies this
      ensures Valid()
      ensures old(stage) == Sent ==> stage == Closed && delivered
      ensures old(stage) != Sent ==> unchanged(this)
    {
      if stage == Sent {
        stage := Closed;
      }
    }
  }
}
