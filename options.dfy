/** The options of a Squad, and the functions they install.

    A Go option is a closure over `*Squad`; here it is a value of
    `SquadOption` and its effect on the configuration part of a Squad is the
    function `Applied`. The class in squad.dfy runs the same update in place.
    squad.go and options.go come from two revisions of the package: the
    datatype holds the options of both (WithShutdownDelay, WithSignalHandler
    and WithProfileHandler have the same body in both files).
 */
module Options {
  import opened Errors

  /** time.Duration is a count of nanoseconds. */
  const Second: int := 1_000_000_000

  /** defaultCancellationDelay of squad.go. */
  const DefaultCancellationDelay: int := 2 * Second

  /** The HTTP servers the option helpers build. */
  datatype Server = HealthServer(port: int) | ProfileServer(port: int)

  /** A `func(context.Context) error` value. */
  datatype Fn =
    | NilFn                           // the nil function
    | UserFn(id: nat)                 // a function supplied by the caller
    | HandleSignals                   // handleSignals
    | ListenAndServe(server: Server)  // the run function of healthHandler/profileHandler
    | ShutdownServer(server: Server)  // shutdownServer(srv)

  datatype SquadOption =
    | WithShutdownDelay(t: int)
    | WithSignalHandler
    | WithHealthHandler(port: int)
    | WithProfileHandler(port: int)
    | WithBootstrap(fns: seq<Fn>)
    | WithCloses(fns: seq<Fn>)

  /** The Squad fields that options write. */
  datatype Config = Config(
    funcs: seq<Fn>,
    cancellationDelay: int,
    cancellationFuncs: seq<Fn>,
    bootstraps: seq<Fn>)

  /** The configuration NewSquad starts from, before any option. */
  function DefaultConfig(): Config {
    Config([], DefaultCancellationDelay, [], [])
  }

  /** The run functions an option appends to `funcs`. */
  function TasksOf(opt: SquadOption): seq<Fn> {
    match opt
    case WithSignalHandler => [HandleSignals]
    case WithHealthHandler(port) => [ListenAndServe(HealthServer(port))]
    case WithProfileHandler(port) => [ListenAndServe(ProfileServer(port))]
    case _ => []
  }

  /** The shutdown functions an option appends to `cancellationFuncs`. */
  function HooksOf(opt: SquadOption): seq<Fn> {
    match opt
    case WithHealthHandler(port) => [ShutdownServer(HealthServer(port))]
    case WithProfileHandler(port) => [ShutdownServer(ProfileServer(port))]
    case WithCloses(fns) => fns
    case _ => []
  }

  /** Running the closure of `opt` on a Squad whose options part is `c`. */
  function Applied(opt: SquadOption, c: Config): (r: Config)
    ensures r.funcs == c.funcs + TasksOf(opt)
    ensures r.cancellationFuncs == c.cancellationFuncs + HooksOf(opt)
    ensures r.cancellationDelay == if opt.WithShutdownDelay? then opt.t else c.cancellationDelay
    ensures r.bootstraps == if opt.WithBootstrap? then opt.fns else c.bootstraps
  {
    match opt
    case WithShutdownDelay(t) => c.(cancellationDelay := t)
    case WithSignalHandler => c.(funcs := c.funcs + [HandleSignals])
    case WithHealthHandler(port) =>
      c.(funcs := c.funcs + [ListenAndServe(HealthServer(port))],
         cancellationFuncs := c.cancellationFuncs + [ShutdownServer(HealthServer(port))])
    case WithProfileHandler(port) =>
      c.(funcs := c.funcs + [ListenAndServe(ProfileServer(port))],
         cancellationFuncs := c.cancellationFuncs + [ShutdownServer(ProfileServer(port))])
    case WithBootstrap(fns) => c.(bootstraps := fns)
    case WithCloses(fns) => c.(cancellationFuncs := c.cancellationFuncs + fns)
  }

  /** Running the closures of `opts` one after the other, first to last. */
  function ApplyAll(opts: seq<SquadOption>, c: Config): Config
    decreases |opts|
  {
    if opts == [] then c
    else Applied(opts[|opts| - 1], ApplyAll(opts[..|opts| - 1], c))
  }

  /** Every run function the options contribute, in option order. */
  function AllTasks(opts: seq<SquadOption>): seq<Fn> {
    if opts == [] then [] else TasksOf(opts[0]) + AllTasks(opts[1..])
  }

  /** Every shutdown function the options contribute, in option order. */
  function AllHooks(opts: seq<SquadOption>): seq<Fn> {
    if opts == [] then [] else HooksOf(opts[0]) + AllHooks(opts[1..])
  }

  lemma {:induction false} AllTasksSnoc(opts: seq<SquadOption>, opt: SquadOption)
    ensures AllTasks(opts + [opt]) == AllTasks(opts) + TasksOf(opt)
  {
    if opts == [] {
      assert opts + [opt] == [opt];
    } else {
      assert (opts + [opt])[1..] == opts[1..] + [opt];
      AllTasksSnoc(opts[1..], opt);
    }
  }

  lemma {:induction false} AllHooksSnoc(opts: seq<SquadOption>, opt: SquadOption)
    ensures AllHooks(opts + [opt]) == AllHooks(opts) + HooksOf(opt)
  {
    if opts == [] {
      assert opts + [opt] == [opt];
    } else {
      assert (opts + [opt])[1..] == opts[1..] + [opt];
      AllHooksSnoc(opts[1..], opt);
    }
  }

  /** Options only append to `funcs`: what was there stays in front, and each
      option's run functions follow in option order. */
  lemma {:induction false} ApplyAllTasks(opts: seq<SquadOption>, c: Config)
    ensures ApplyAll(opts, c).funcs == c.funcs + AllTasks(opts)
    decreases |opts|
  {
    if opts != [] {
      var init, last := opts[..|opts| - 1], opts[|opts| - 1];
      ApplyAllTasks(init, c);
      assert opts == init + [last];
      AllTasksSnoc(init, last);
    }
  }

  /** Options only append to `cancellationFuncs`, in option order. */
  lemma {:induction false} ApplyAllHooks(opts: seq<SquadOption>, c: Config)
    ensures ApplyAll(opts, c).cancellationFuncs == c.cancellationFuncs + AllHooks(opts)
    decreases |opts|
  {
    if opts != [] {
      var init, last := opts[..|opts| - 1], opts[|opts| - 1];
      ApplyAllHooks(init, c);
      assert opts == init + [last];
      AllHooksSnoc(init, last);
    }
  }

  /** The last WithShutdownDelay wins. */
  lemma {:induction false} LastShutdownDelayWins(opts: seq<SquadOption>, c: Config, i: nat)
    requires i < |opts| && opts[i].WithShutdownDelay?
    requires forall j :: i < j < |opts| ==> !opts[j].WithShutdownDelay?
    ensures ApplyAll(opts, c).cancellationDelay == opts[i].t
    decreases |opts|
  {
    if i < |opts| - 1 {
      var init := opts[..|opts| - 1];
      assert init[i] == opts[i];
      LastShutdownDelayWins(init, c, i);
    }
  }

  /** Without a WithShutdownDelay the delay is the one the Squad had. */
  lemma {:induction false} NoShutdownDelayKeepsDelay(opts: seq<SquadOption>, c: Config)
    requires forall j :: 0 <= j < |opts| ==> !opts[j].WithShutdownDelay?
    ensures ApplyAll(opts, c).cancellationDelay == c.cancellationDelay
    decreases |opts|
  {
    if opts != [] {
      NoShutdownDelayKeepsDelay(opts[..|opts| - 1], c);
    }
  }

  /** WithBootstrap replaces rather than accumulates: the last one wins. */
  lemma {:induction false} LastBootstrapWins(opts: seq<SquadOption>, c: Config, i: nat)
    requires i < |opts| && opts[i].WithBootstrap?
    requires forall j :: i < j < |opts| ==> !opts[j].WithBootstrap?
    ensures ApplyAll(opts, c).bootstraps == opts[i].fns
    decreases |opts|
  {
    if i < |opts| - 1 {
      var init := opts[..|opts| - 1];
      assert init[i] == opts[i];
      LastBootstrapWins(init, c, i);
    }
  }

  /** Without a WithBootstrap the bootstraps are the ones the Squad had. */
  lemma {:induction false} NoBootstrapKeepsBootstraps(opts: seq<SquadOption>, c: Config)
    requires forall j :: 0 <= j < |opts| ==> !opts[j].WithBootstrap?
    ensures ApplyAll(opts, c).bootstraps == c.bootstraps
    decreases |opts|
  {
    if opts != [] {
      NoBootstrapKeepsBootstraps(opts[..|opts| - 1], c);
    }
  }

  /** The function shutdownServer builds, given what `srv.Shutdown` returned:
      a server that was already closed is not a failure. */
  function ShutdownServerResult(shutdownErr: Error): (r: Error)
    ensures r == Nil <==> shutdownErr == Nil || Is(shutdownErr, ServerClosed)
    ensures r != Nil ==> r == shutdownErr
  {
    if shutdownErr != Nil && !Is(shutdownErr, ServerClosed) then shutdownErr else Nil
  }

  /** What ended the wait of handleSignals. */
  datatype SignalWake = SignalReceived | ContextDone

  /** handleSignals returns nil whichever event ended its wait. */
  function HandleSignalsResult(wake: SignalWake): (r: Error)
    ensures r == Nil
  {
    match wake
    case SignalReceived => Nil
    case ContextDone => Nil
  }
}
