/** The Squad of squad.go: a group of goroutines that run together and go
    down together.

    Goroutines are not modelled. Each event that a goroutine of the Go code
    brings about is a method of the class instead: a task returning
    (TaskFinished), a shutdown function returning (HookFinished), the
    shutdown listener waking (ListenerWakes) and the shutdown timeout
    expiring (ShutdownDelayElapsed). The WaitGroup is its counter `wg`.
 */
module Squads {
  import opened Errors
  import opened Options

  /** The errors a run of results leaves behind: the non-nil ones, in the
      order they were returned. */
  function NonNil(results: seq<Error>): (r: seq<Error>)
    ensures |r| <= |results|
    ensures Nil !in r
    ensures forall e :: e in r ==> e in results
  {
    if results == [] then []
    else (if results[0] == Nil then [] else [results[0]]) + NonNil(results[1..])
  }

  /** Collecting is compositional, so order is kept across any split. */
  lemma {:induction false} NonNilConcat(a: seq<Error>, b: seq<Error>)
    ensures NonNil(a + b) == NonNil(a) + NonNil(b)
  {
    if a == [] {
      assert a + b == b;
    } else {
      assert (a + b)[1..] == a[1..] + b;
      NonNilConcat(a[1..], b);
    }
  }

  /** One more result adds its error at the end, or nothing if it is nil. */
  lemma NonNilSnoc(results: seq<Error>, e: Error)
    ensures NonNil(results + [e]) == NonNil(results) + (if e == Nil then [] else [e])
  {
    NonNilConcat(results, [e]);
    assert [e][1..] == [];
  }

  /** No error is dropped and none is merged with an equal one: each non-nil
      error is kept exactly as many times as it was returned. */
  lemma {:induction false} NonNilKeepsEveryError(results: seq<Error>, e: Error)
    requires e != Nil
    ensures multiset(NonNil(results))[e] == multiset(results)[e]
  {
    if results != [] {
      NonNilKeepsEveryError(results[1..], e);
      assert results == [results[0]] + results[1..];
    }
  }

  /** Where the shutdown listener goroutine started by NewSquad is. */
  datatype ListenerState =
    | NotLaunched        // NewSquad has not reached its `go func()` yet
    | AwaitingGroupDone  // blocked on <-ctx.Done()
    | ShuttingDown       // inside shutdown(): hooks launched, waiting for the timeout
    | Exited             // its deferred wg.Done() has run

  /** What a call of Wait does now: block, or return the recorded errors. */
  datatype WaitResult = Blocked | Returned(errs: seq<Error>)

  class Squad {
    var ctxErr: Error             // Err() of the group context; Nil while it is live
    var funcs: seq<Fn>
    var cancellationDelay: int
    var cancellationFuncs: seq<Fn>
    var bootstraps: seq<Fn>       // written by WithBootstrap of options.go only
    var errs: seq<Error>
    var wg: nat                   // the WaitGroup counter
    var listener: ListenerState

    ghost var tasksRunning: nat    // task goroutines that have not returned
    ghost var hooksRunning: nat    // shutdown goroutines that have not returned
    ghost var started: seq<Fn>     // every task started, in order
    ghost var hooksLaunched: seq<Fn>
    ghost var results: seq<Error>  // every task and hook result, in the order returned

    ghost predicate Valid()
      reads this
    {
      && wg == tasksRunning + (if listener == AwaitingGroupDone || listener == ShuttingDown then 1 else 0)
      && errs == NonNil(results)
      && (ctxErr == Nil || IsContextErr(ctxErr))
      && (listener == ShuttingDown || listener == Exited ==> ctxErr != Nil)
      && (listener == NotLaunched || listener == AwaitingGroupDone ==> hooksLaunched == [] && hooksRunning == 0)
      && (listener == ShuttingDown ==> |hooksLaunched| > 0)
      && hooksRunning <= |hooksLaunched|
    }

    /** The fields that options write. */
    function Configuration(): Config
      reads this
    {
      Config(funcs, cancellationDelay, cancellationFuncs, bootstraps)
    }

    /** NewSquad: derive the group context, apply the options in order over
        the defaults, start every entry of `funcs` with Run, then launch the
        shutdown listener. A parent context that is already done makes the
        group context done from the start. */
    constructor NewSquad(parentErr: Error, opts: seq<SquadOption>)
      requires parentErr == Nil || IsContextErr(parentErr)
      ensures Valid()
      ensures Configuration() == ApplyAll(opts, DefaultConfig())
      ensures started == funcs && tasksRunning == |funcs| && wg == |funcs| + 1
      ensures ctxErr == parentErr && errs == [] && listener == AwaitingGroupDone
    {
      ctxErr := parentErr;
      funcs, cancellationDelay, cancellationFuncs, bootstraps := [], DefaultCancellationDelay, [], [];
      errs, wg, listener := [], 0, NotLaunched;
      tasksRunning, hooksRunning, started, hooksLaunched, results := 0, 0, [], [], [];
      new;
      ApplyOptions(opts);
      StartFuncs();
      wg := wg + 1;
      listener := AwaitingGroupDone;
    }

    /** The first loop of NewSquad: `opt(squad)` for each option, in order. */
    method ApplyOptions(opts: seq<SquadOption>)
      modifies this`funcs, this`cancellationDelay, this`cancellationFuncs, this`bootstraps
      ensures Configuration() == ApplyAll(opts, old(Configuration()))
    {
      ghost var c0 := Configuration();
      var i := 0;
      while i < |opts|
        invariant i <= |opts|
        invariant Configuration() == ApplyAll(opts[..i], c0)
      {
        ghost var before := Configuration();
        Apply(opts[i]);
        assert opts[..i + 1][..i] == opts[..i];
        assert ApplyAll(opts[..i + 1], c0) == Applied(opts[i], before);
        i := i + 1;
      }
      assert opts[..i] == opts;
    }

    /** The second loop of NewSquad: Run(f) for each entry of `funcs`, in
        order. Run leaves `funcs` as it is, so the loop visits exactly the
        entries present when it starts. */
    method StartFuncs()
      requires Valid()
      modifies this`cancellationFuncs, this`wg, this`tasksRunning, this`started
      ensures Valid()
      ensures cancellationFuncs == old(cancellationFuncs)
      ensures started == old(started) + funcs
      ensures tasksRunning == old(tasksRunning) + |funcs| && wg == old(wg) + |funcs|
    {
      for k := 0 to |funcs|
        invariant Valid() && cancellationFuncs == old(cancellationFuncs)
        invariant started == old(started) + funcs[..k]
        invariant tasksRunning == old(tasksRunning) + k && wg == old(wg) + k
      {
        Run(funcs[k]);
        assert funcs[..k + 1] == funcs[..k] + [funcs[k]];
      }
      assert funcs[..|funcs|] == funcs;
    }

    /** Running the closure of one option on this Squad. */
    method Apply(opt: SquadOption)
      modifies this`funcs, this`cancellationDelay, this`cancellationFuncs, this`bootstraps
      ensures Configuration() == Applied(opt, old(Configuration()))
    {
      match opt
      case WithShutdownDelay(t) =>
        cancellationDelay := t;
      case WithSignalHandler =>
        funcs := funcs + [HandleSignals];
      case WithHealthHandler(port) =>
        funcs := funcs + [ListenAndServe(HealthServer(port))];
        cancellationFuncs := cancellationFuncs + [ShutdownServer(HealthServer(port))];
      case WithProfileHandler(port) =>
        funcs := funcs + [ListenAndServe(ProfileServer(port))];
        cancellationFuncs := cancellationFuncs + [ShutdownServer(ProfileServer(port))];
      case WithBootstrap(fns) =>
        bootstraps := fns;
      case WithCloses(fns) =>
        cancellationFuncs := cancellationFuncs + fns;
    }

    /** Run is RunGracefully without a shutdown function. */
    method Run(fn: Fn)
      requires Valid()
      modifies this`cancellationFuncs, this`wg, this`tasksRunning, this`started
      ensures Valid()
      ensures cancellationFuncs == old(cancellationFuncs)
      ensures started == old(started) + [fn]
      ensures tasksRunning == old(tasksRunning) + 1 && wg == old(wg) + 1
    {
      RunGracefully(fn, NilFn);
    }

    /** Register a non-nil `onDown` at the end of the shutdown functions and
        start `fn` as one more task. */
    method RunGracefully(fn: Fn, onDown: Fn)
      requires Valid()
      modifies this`cancellationFuncs, this`wg, this`tasksRunning, this`started
      ensures Valid()
      ensures cancellationFuncs == old(cancellationFuncs) + (if onDown != NilFn then [onDown] else [])
      ensures started == old(started) + [fn]
      ensures tasksRunning == old(tasksRunning) + 1 && wg == old(wg) + 1
    {
      if onDown != NilFn {
        cancellationFuncs := cancellationFuncs + [onDown];
      }
      wg := wg + 1;
      tasksRunning := tasksRunning + 1;
      started := started + [fn];
    }

    /** A task returns `err`: a non-nil error is recorded, then the deferred
        cancel() and wg.Done() run, whatever the task returned. */
    method TaskFinished(err: Error)
      requires Valid() && tasksRunning > 0
      modifies this`errs, this`ctxErr, this`wg, this`tasksRunning, this`results
      ensures Valid()
      ensures results == old(results) + [err]
      ensures errs == old(errs) + (if err != Nil then [err] else [])
      ensures ctxErr == Settle(old(ctxErr), Canceled)
      ensures tasksRunning == old(tasksRunning) - 1 && wg == old(wg) - 1
    {
      if err != Nil {
        AppendErr(err);
      }
      results := results + [err];
      NonNilSnoc(old(results), err);
      Cancel();
      wg := wg - 1;
      tasksRunning := tasksRunning - 1;
    }

    /** appendErr: the error goes at the end; nothing before it moves. */
    method AppendErr(err: Error)
      modifies this`errs
      ensures errs == old(errs) + [err]
    {
      errs := errs + [err];
    }

    /** The cancel function of the group context: idempotent. */
    method Cancel()
      modifies this`ctxErr
      ensures ctxErr == Settle(old(ctxErr), Canceled)
    {
      ctxErr := Settle(ctxErr, Canceled);
    }

    /** The parent context ends with `e`, which the group context inherits
        unless it is done already. */
    method ParentDone(e: Error)
      requires Valid() && IsContextErr(e)
      modifies this`ctxErr
      ensures Valid()
      ensures ctxErr == Settle(old(ctxErr), e)
    {
      ctxErr := Settle(ctxErr, e);
    }

    /** The listener's <-ctx.Done() returns once the group context is done:
        it runs shutdown() if there are shutdown functions and exits
        otherwise. Until then it stays blocked and nothing changes. */
    method ListenerWakes()
      requires Valid()
      modifies this`listener, this`wg, this`hooksRunning, this`hooksLaunched
      ensures Valid()
      ensures old(listener) != AwaitingGroupDone || ctxErr == Nil ==> unchanged(this)
      ensures old(listener) == AwaitingGroupDone && ctxErr != Nil && |cancellationFuncs| > 0 ==>
        listener == ShuttingDown && hooksLaunched == cancellationFuncs &&
        hooksRunning == |cancellationFuncs| && wg == old(wg)
      ensures old(listener) == AwaitingGroupDone && ctxErr != Nil && |cancellationFuncs| == 0 ==>
        listener == Exited && hooksLaunched == [] && wg == old(wg) - 1
    {
      if listener == AwaitingGroupDone && ctxErr != Nil {
        if |cancellationFuncs| > 0 {
          Shutdown();
        } else {
          listener := Exited;
          wg := wg - 1;
        }
      }
    }

    /** shutdown(): launch every shutdown function, then wait for the
        cancellation timeout. */
    method Shutdown()
      requires Valid() && listener == AwaitingGroupDone && ctxErr != Nil && |cancellationFuncs| > 0
      modifies this`listener, this`hooksRunning, this`hooksLaunched
      ensures Valid() && listener == ShuttingDown
      ensures hooksLaunched == cancellationFuncs && hooksRunning == |cancellationFuncs|
    {
      for i := 0 to |cancellationFuncs|
        invariant hooksLaunched == cancellationFuncs[..i] && hooksRunning == i
      {
        hooksLaunched := hooksLaunched + [cancellationFuncs[i]];
        hooksRunning := hooksRunning + 1;
      }
      assert cancellationFuncs[..|cancellationFuncs|] == cancellationFuncs;
      listener := ShuttingDown;
    }

    /** A shutdown function returns `err`; a non-nil error is recorded. The
        WaitGroup does not track these goroutines. */
    method HookFinished(err: Error)
      requires Valid() && hooksRunning > 0
      modifies this`errs, this`hooksRunning, this`results
      ensures Valid()
      ensures results == old(results) + [err]
      ensures errs == old(errs) + (if err != Nil then [err] else [])
      ensures hooksRunning == old(hooksRunning) - 1
    {
      if err != Nil {
        AppendErr(err);
      }
      results := results + [err];
      NonNilSnoc(old(results), err);
      hooksRunning := hooksRunning - 1;
    }

    /** The cancellation timeout of shutdown() expires: the listener returns
        and its wg.Done() runs. Nothing happens if no listener waits for it. */
    method ShutdownDelayElapsed()
      requires Valid()
      modifies this`listener, this`wg
      ensures Valid()
      ensures old(listener) != ShuttingDown ==> unchanged(this)
      ensures old(listener) == ShuttingDown ==> listener == Exited && wg == old(wg) - 1
    {
      if listener == ShuttingDown {
        listener := Exited;
        wg := wg - 1;
      }
    }

    /** Wait returns the recorded errors once the WaitGroup counter is zero,
        that is once every task and the listener are done; before that it
        blocks. */
    method Wait() returns (r: WaitResult)
      requires Valid() && listener != NotLaunched
      ensures r.Returned? <==> wg == 0
      ensures r.Returned? ==> r.errs == errs && r.errs == NonNil(results)
      ensures r.Returned? ==> tasksRunning == 0 && listener == Exited && ctxErr != Nil
    {
      if wg == 0 {
        r := Returned(errs);
      } else {
        r := Blocked;
      }
    }
  }
}
