# squad — a Dafny model of its sequential bookkeeping

The Go package `squad` runs a group of goroutines as a unit. Every task
gets the group's context. Whichever task returns first, with an error or
without, cancels that context, so that the other tasks are told to stop.
A listener goroutine waits for the context to be done and then runs the
registered shutdown functions, bounded by a cancellation delay. `Wait`
blocks until every task and the listener are done, then returns the errors
recorded on the way.

This project models the state each of those pieces keeps and proves what
the code promises about it:

- `errors.dfy` (module `Errors`): the error values the package compares
  against, and the unwrap chain that `errors.Is` follows.
- `options.dfy` (module `Options`): the options as values. `Applied` is
  what one option closure does to the Squad fields it writes, and
  `ApplyAll` does it for a list of options, first to last. The module also
  holds the result filter of `shutdownServer` and the result of
  `handleSignals`.
- `squad.dfy` (module `Squads`): the `Squad` record as a class whose
  methods update it in place. Each thing a goroutine does is an explicit
  step: a task returns (`TaskFinished`), a shutdown function returns
  (`HookFinished`), the listener wakes (`ListenerWakes`), the shutdown
  delay expires (`ShutdownDelayElapsed`). The `WaitGroup` is the counter
  `wg`. `Wait` either returns the errors or reports that it would block.
  `NonNil` states which errors end up recorded for a run of results.
- `graceful_context.dfy` (module `Graceful`) models graceful_context.go:
  the two-phase context as a state machine. It goes from live to
  soft-cancelled (`isCanceled` is set and `Err` reports
  `ErrContextCancelled`). It then goes to hard-cancelled, where the
  embedded context's error is reported and `Done` fires. It can also go
  from live straight to hard-cancelled when the parent is done. The grace
  wait is the step `GracePeriodElapsed`.
- `context.dfy` (module `Contexts`) models context.go: an ordinary
  parent context, and the delayed context. Its `Err`, `Deadline` and
  `Value` delegate to the parent. The goroutine of `WithDelay` is a state
  machine: wait for the parent, sleep, send one value, close. The instants
  at which its steps happen are passed in.

squad.go and options.go belong to two revisions of the package. Both
files define `WithShutdownDelay`, `WithSignalHandler`, `WithProfileHandler`,
`handleSignals` and `shutdownServer`, and the bodies agree wherever it
matters here. `SquadOption` holds the options of both files. The
`bootstraps` field exists only in the revision of options.go. `NewSquad`
of squad.go never reads it, and neither does the model. `Wait` returns the
slice of errors, as squad.go:63 has it.

Some consequences of the code that the model makes explicit:
- `cancellationFuncs != nil` is modelled as "not empty". The slice is only
  ever appended to, and appending nothing to a nil slice leaves it nil.
- Shutdown functions are not counted by the `WaitGroup`. One that returns
  after the cancellation delay can record its error after `Wait` has
  returned. `HookFinished` is allowed after the listener has exited.
- The delayed context's goroutine closes its channel only after some
  receiver has taken the one value it sends. With no receiver it stays
  blocked, and the channel never closes.
- The delayed context's `Err` reports the parent's error as soon as the
  parent is done, before its own `Done` fires.

## Model

| member | source | states |
|---|---|---|
| `Options.Applied` | options.go:17-58 | WithShutdownDelay sets only the delay. WithSignalHandler appends handleSignals to `funcs` and leaves the shutdown functions alone. WithBootstrap replaces `bootstraps`. WithCloses appends all its functions in argument order. WithProfileHandler appends one run function and one shutdown function. Existing entries are kept in every case |
| `Squads.Squad.Apply` | squad.go:128-164 | running an option closure on the Squad changes exactly the option fields, as `Applied` says. WithHealthHandler and WithProfileHandler each add one task and one shutdown function |
| `Options.ApplyAllTasks` | squad.go:103-105 | applying options in order keeps the existing `funcs` in front and then appends every option's run functions, in option order |
| `Options.ApplyAllHooks` | squad.go:103-105 | the same for `cancellationFuncs`: nothing is reordered or dropped |
| `Options.LastShutdownDelayWins` | squad.go:100-105 | the delay after all options is that of the last WithShutdownDelay |
| `Options.NoShutdownDelayKeepsDelay` | squad.go:96-105 | without a WithShutdownDelay, the delay stays what it was (2 s from NewSquad) |
| `Options.LastBootstrapWins` | options.go:36-40 | WithBootstrap overrides: the last one's functions are the bootstraps |
| `Options.NoBootstrapKeepsBootstraps` | options.go:36-40 | options other than WithBootstrap never touch the bootstraps |
| `Options.ShutdownServerResult` | options.go:87-95 | the shutdown function returns nil exactly when Shutdown returned nil or an error that is http.ErrServerClosed; otherwise it passes the error on unchanged |
| `Options.HandleSignalsResult` | options.go:78-85 | handleSignals returns nil, whether a signal or the context ended its wait |
| `Squads.Squad.NewSquad` | squad.go:94-123 | the Squad starts from the defaults (2 s delay, no functions), applies the options in order and starts every entry of `funcs` in order. The counter is then one per task plus one for the listener, and no error is recorded |
| `Squads.Squad.ApplyOptions` | squad.go:103-105 | the option loop leaves the option fields as `ApplyAll` of the options over the old fields |
| `Squads.Squad.StartFuncs` | squad.go:107-109 | the start loop starts exactly the entries of `funcs`, in order, and adds no shutdown function |
| `Squads.Squad.Run` | squad.go:37-40 | Run starts one task and registers no shutdown function |
| `Squads.Squad.RunGracefully` | squad.go:44-60 | a non-nil `onDown` is appended once at the end of `cancellationFuncs`; a nil one leaves it unchanged. One task is added to the counter |
| `Squads.Squad.TaskFinished` | squad.go:50-58 | a returning task records its error only if it is non-nil. It always cancels the group context and removes one from the counter. A cancelled group stays cancelled with its first error |
| `Squads.Squad.AppendErr` | squad.go:69-73 | the error is appended at the end and earlier errors are untouched |
| `Squads.Squad.Cancel` | squad.go:95-99 | the group's cancel function sets context.Canceled once; a later call changes nothing |
| `Squads.Squad.ParentDone` | squad.go:95 | the group context inherits the parent's error unless it is already done |
| `Squads.Squad.ListenerWakes` | squad.go:111-120 | the listener does nothing until the group context is done. Then it launches shutdown if there are shutdown functions, and otherwise exits at once |
| `Squads.Squad.Shutdown` | squad.go:75-91 | shutdown launches every registered shutdown function, in order |
| `Squads.Squad.HookFinished` | squad.go:80-85 | a returning shutdown function records its error only if it is non-nil |
| `Squads.Squad.ShutdownDelayElapsed` | squad.go:88-90 | when the cancellation timeout expires, the listener returns and leaves the counter |
| `Squads.Squad.Wait` | squad.go:62-67 | Wait returns only when the counter is zero. Then no task is running, the listener has exited and the group is cancelled. It returns exactly the non-nil results in the order they came |
| `Squads.NonNil` | squad.go:56-58 | the recorded errors are some of the results, and never nil |
| `Squads.NonNilConcat` | squad.go:69-73 | recording is compositional, so the order of arrival is kept |
| `Squads.NonNilSnoc` | squad.go:56-58 | one more result adds its error at the end, or nothing when it is nil |
| `Squads.NonNilKeepsEveryError` | squad.go:82-84 | every non-nil error is kept as many times as it was returned, with no dropping and no deduplication |
| `Graceful.GracefulContext.WithGracefulPeriod` | graceful_context.go:13-19 | a new graceful context is live, unless its parent is already done |
| `Graceful.GracefulContext.Err` | graceful_context.go:28-38 | Err is nil while live and ErrContextCancelled in the soft phase. In the hard phase it is the embedded context's error, never ErrContextCancelled |
| `Graceful.GracefulContext.Done` | graceful_context.go:21-22 | Done fires only in the hard phase, and only the parent or the deferred cancelFn gets it there |
| `Graceful.GracefulContext.Cancel` | graceful_context.go:41-44 | invoking cancel sets `isCanceled` before any waiting, and the phase never goes back |
| `Graceful.GracefulContext.GracePeriodElapsed` | graceful_context.go:46-47 | cancelFn runs only after a pending cancel's wait, so hard cancellation follows soft cancellation |
| `Graceful.GracefulContext.ParentPropagates` | graceful_context.go:14 | a done parent hard-cancels the context with its own error; a live parent changes nothing |
| `Contexts.DelayedContext.WithDelay` | context.go:13-22 | a new delayed context's goroutine waits for the parent, and nothing has been sent |
| `Contexts.DelayedContext.Err` | context.go:30-32 | Err is always the parent's Err |
| `Contexts.DelayedContext.Deadline` | context.go:34-36 | Deadline is always the parent's Deadline |
| `Contexts.DelayedContext.Value` | context.go:38-40 | Value(key) is always the parent's Value(key) |
| `Contexts.DelayedContext.DoneReady` | context.go:26-28 | a receive on Done can proceed only once the parent is done, and only while the value is being sent or after the close |
| `Contexts.DelayedContext.ParentDoneSeen` | context.go:16 | the goroutine moves on only when the parent is done; if the parent is never done, nothing ever changes |
| `Contexts.DelayedContext.SleepEnds` | context.go:17 | the send becomes ready no earlier than the delay after the goroutine saw the parent done |
| `Contexts.DelayedContext.ReceiveDone` | context.go:18 | the one value goes to exactly one receiver, and only after the parent is done. Later receivers block until the close, then get the zero value |
| `Contexts.DelayedContext.CloseAfterSend` | context.go:19 | the channel closes only after a receiver has taken the value |

## Left out

- Goroutines, `sync.WaitGroup` blocking and the mutexes of squad.go and graceful_context.go are not modelled. Each goroutine's actions are explicit step methods, and each method is one atomic step. No interleaving inside a step and no data race is modelled.
- Squads.Squad.ShutdownDelayElapsed: does not model that the listener waits for the full `cancellationDelay`. Time is an abstract event, and durations are not claimed.
- Graceful.GracefulContext.GracePeriodElapsed: the length of the grace period is not modelled. The wait is an abstract event.
- Contexts.DelayedContext.SleepEnds: the instants are parameters supplied by the caller, with no clock behind them. The parent's own done instant is not recorded, so "after the delay" is measured from when the goroutine saw the parent done.
- A nil task or shutdown function (`NilFn`), and any task or shutdown function that panics, is not modelled as a crash. In Go, calling a nil function panics (squad.go:56 for a task, squad.go:81 for a shutdown function). Neither goroutine recovers, so the whole process dies after the deferred `cancel()` and `wg.Done()` of squad.go:51-54 run, and `Wait` never returns. In the model such a function is an ordinary one that returns some error, and `Wait` returns normally.
- Squads.Squad.TaskFinished: does not know which task returned, so it accepts any result. The nil result of a finished `handleSignals` task is stated on its own by `Options.HandleSignalsResult` and is not tied to the task's completion.
- Operating-system signal handling (`signal.Notify`, `signal.NotifyContext`) is foreign runtime behaviour. Only the nil result of `handleSignals` is modelled. The select-based version at squad.go:196-207 returns nil in the same way.
- `healthHandler` and `profileHandler` build HTTP servers and pprof routes (HTTP library plumbing). The model keeps only which run function and which shutdown function each one contributes, and it does not model what `ListenAndServe` returns.
- `errors.Is` is modelled only as a walk along the wrap chain. Custom `Is` methods and multi-error unwrapping are not modelled.
- `time.Duration` is an unbounded integer. 64-bit overflow of durations plays no part in the modelled code.
- http.go, http/server.go and http/graceful_listener.go are not part of this model: they are network adapters built on `net`/`net/http` I/O, and http.go uses fields the Squad struct shown does not have.
- consumers.go declares only a function type. examples/simple.go and example/simple.go are demo `main` programs. None of them is modelled.
- The expectations of squad_test.go about joined error strings, `New` and `WithShutdownTimeout` belong to a revision whose code is not part of this model.
