/**
 * Call sequences from the system's test suite, replayed against
 * the model: each method builds fresh objects, drives them through the
 * calls and events of one scenario, and states what the callers observe.
 */
module Scenarios {
  import opened Wrappers
  import opened BundleConfig
  import opened WebpackCompiler
  import ReactRender

  /** A loader for Bundles whose configuration is inline: `require` is never reached. */
  function Unused(): Loader
  {
    (p: string) => Failure(MissingConfig)
  }

  /** A module loader under which `file` exports `c`. */
  function Exporting(file: string, c: Config): Loader
  {
    (p: string) => if p == file then Success(c) else Failure(MissingConfig)
  }

  /**
   * Any number of `onceDone` calls before the run completes share one webpack
   * run, and each caller is called once, in call order, with the run's pair.
   */
  method ConcurrentRequestsShareOneRun(cfg: Config, cbs: seq<CallbackId>, e: Option<Error>, s: Option<Stats>)
    returns (inFlight: nat, deliveries: seq<Delivery>)
    requires |cbs| > 0
    ensures inFlight == 1
    ensures deliveries == Round(cbs, e, s)
  {
    var b := new Bundle.Plain(Options(Inline(cfg), false));
    b.OnceDone(cbs[0], Unused());
    var i := 1;
    while i < |cbs|
      invariant 1 <= i <= |cbs|
      invariant b.Valid() && b.RegistryValid() && b.registry == null
      invariant b.isCompiling && !b.hasCompiled
      invariant b.runs == [BoundCallDone] && b.onceDoneQueue == cbs[..i] && b.log == []
    {
      assert cbs[..i + 1] == cbs[..i] + [cbs[i]];
      b.OnceDone(cbs[i], Unused());
      i := i + 1;
    }
    assert cbs[..i] == cbs;
    inFlight := |b.runs|;
    b.RunFinished(0, e, s);
    deliveries := b.log;
  }

  /** After a successful build, further requests get the same stats at once and no run is started. */
  method CompiledOutcomeIsCached(cfg: Config, first: CallbackId, second: CallbackId, s: Stats)
    returns (inFlight: nat, deliveries: seq<Delivery>)
    ensures inFlight == 0
    ensures deliveries == [Delivery(first, None, Some(s)), Delivery(second, None, Some(s))]
  {
    var b := new Bundle.Plain(Options(Inline(cfg), false));
    b.OnceDone(first, Unused());
    b.RunFinished(0, None, Some(s));
    b.OnceDone(second, Unused());
    inFlight := |b.runs|;
    deliveries := b.log;
  }

  /** A failed build is not cached: the next request starts a new run. */
  method FailedBuildIsRetried(cfg: Config, first: CallbackId, second: CallbackId, e: Error)
    returns (inFlight: nat, deliveries: seq<Delivery>)
    ensures inFlight == 1
    ensures deliveries == [Delivery(first, Some(e), None)]
  {
    var b := new Bundle.Plain(Options(Inline(cfg), false));
    b.OnceDone(first, Unused());
    b.RunFinished(0, Some(e), None);
    b.OnceDone(second, Unused());
    inFlight := |b.runs|;
    deliveries := b.log;
  }

  /**
   * `invalidate` during a run clears `isCompiling`, so the next request starts
   * a second run beside the first.
   */
  method InvalidateDuringRunStartsSecondRun(cfg: Config, first: CallbackId, second: CallbackId)
    returns (inFlight: nat, waiting: seq<CallbackId>)
    ensures inFlight == 2
    ensures waiting == [first, second]
  {
    var b := new Bundle.Plain(Options(Inline(cfg), false));
    b.OnceDone(first, Unused());
    b.Invalidate();
    b.OnceDone(second, Unused());
    inFlight := |b.runs|;
    waiting := b.onceDoneQueue;
  }

  /** After `invalidate`, the compiler is kept and the next request builds again with it. */
  method InvalidateForcesRebuild(cfg: Config, first: CallbackId, second: CallbackId, s: Stats)
    returns (inFlight: nat, compiler: Option<Compiler>, deliveries: seq<Delivery>)
    ensures inFlight == 1
    ensures compiler == Some(Webpack(cfg))
    ensures deliveries == [Delivery(first, None, Some(s))]
  {
    var b := new Bundle.Plain(Options(Inline(cfg), false));
    b.OnceDone(first, Unused());
    b.RunFinished(0, None, Some(s));
    b.Invalidate();
    b.OnceDone(second, Unused());
    inFlight := |b.runs|;
    compiler := b.compiler;
    deliveries := b.log;
  }

  /**
   * A run started by a direct `compile(cb)` completes only `cb`: callers that
   * queued through `onceDone` meanwhile stay queued after the run, and are
   * answered by the next `onceDone`, which finds the Bundle compiled.
   */
  method DirectCompileLeavesWaitersQueued(cfg: Config, direct: CallbackId, a: CallbackId, b: CallbackId, s: Stats)
    returns (waitingAfterRun: seq<CallbackId>, deliveries: seq<Delivery>)
    ensures waitingAfterRun == [a]
    ensures deliveries == [Delivery(direct, None, Some(s)), Delivery(a, None, Some(s)), Delivery(b, None, Some(s))]
  {
    var bundle := new Bundle.Plain(Options(Inline(cfg), false));
    bundle.Compile(Callback(direct), Unused());
    bundle.OnceDone(a, Unused());
    bundle.RunFinished(0, None, Some(s));
    waitingAfterRun := bundle.onceDoneQueue;
    bundle.OnceDone(b, Unused());
    deliveries := bundle.log;
  }

  /** Without a `config` option, a request is answered with the error at once and nothing is compiled. */
  method MissingConfigIsReported(first: CallbackId, second: CallbackId)
    returns (compiling: bool, deliveries: seq<Delivery>)
    ensures !compiling
    ensures deliveries == [Delivery(first, Some(MissingConfig), None), Delivery(second, Some(MissingConfig), None)]
  {
    var b := new Bundle.Plain(Options(NoConfig, false));
    b.OnceDone(first, Unused());
    b.OnceDone(second, Unused());
    compiling := b.isCompiling;
    deliveries := b.log;
  }

  /**
   * A watched configuration file: its change clears the configuration, and
   * the next request builds from what the file exports then. The Bundle
   * subscribed once and does not subscribe again.
   */
  method ConfigChangeRebuildsFromNewConfig(file: string, c1: Config, c2: Config, first: CallbackId, second: CallbackId, s: Stats)
    returns (builtFrom: Option<Compiler>, subscriptions: nat, inFlight: nat)
    requires file != ""
    ensures builtFrom == Some(Webpack(c2))
    ensures subscriptions == 1
    ensures inFlight == 1
  {
    var registry := new WatchRegistry();
    var b := new Bundle.Watched(Options(ConfigPath(file), true), registry);
    assert Exporting(file, c1)(file) == Success(c1);
    b.OnceDone(first, Exporting(file, c1));
    assert b.watchingConfig;
    assert [] + [ConfigInvalidator(b)] == [ConfigInvalidator(b)];
    assert registry.watchedFiles == map[file := [ConfigInvalidator(b)]];
    b.RunFinished(0, None, Some(s));
    var subs := registry.SubscribersOf(file);
    assert subs == [ConfigInvalidator(b)] && subs[0].bundle == b;
    assert b in Invalidated(subs);
    registry.OnFileChange(file);
    b.OnceDone(second, Exporting(file, c2));
    builtFrom := b.compiler;
    subscriptions := |registry.watchedFiles[file]|;
    inFlight := |b.runs|;
  }

  /**
   * Two subscriptions to one path hand the path to the watcher once, and a
   * change reaches both callbacks in order; a change elsewhere reaches none.
   */
  method DuplicateWatchSharesOnePath(file: string, other: string, id1: CallbackId, id2: CallbackId)
    returns (added: seq<string>, calls: seq<CallbackId>)
    requires other != file
    ensures added == [file]
    ensures calls == [id1, id2]
  {
    var registry := new WatchRegistry();
    registry.WatchFile(file, Listener(id1));
    registry.WatchFile(file, Listener(id2));
    registry.OnFileChange(other);
    registry.OnFileChange(file);
    assert Listeners([Listener(id2)]) == [id2];
    assert Listeners([Listener(id1), Listener(id2)]) == [id1] + Listeners([Listener(id2)]);
    added := registry.watcher.added;
    calls := registry.listenerCalls;
  }

  /** Resetting closes the watcher; the next subscription opens a new one that sees the path again. */
  method ResetStartsOver(file: string, id: CallbackId)
    returns (oldClosed: bool, added: seq<string>, subscribers: seq<Subscriber>)
    ensures oldClosed
    ensures added == [file]
    ensures subscribers == [Listener(id)]
  {
    var registry := new WatchRegistry();
    registry.ResetFileWatcher();
    registry.WatchFile(file, Listener(id));
    var w := registry.watcher;
    registry.ResetFileWatcher();
    registry.WatchFile(file, Listener(id));
    oldClosed := w.closed;
    added := registry.watcher.added;
    subscribers := registry.watchedFiles[file];
  }

  /** Rendering twice with the same component options reuses one stored Component. */
  method RepeatedRenderReusesComponent(opts: ReactRender.RenderOptions, later: ReactRender.RenderOptions, parse: ReactRender.Parser)
    returns (same: bool, stored: nat)
    requires ReactRender.Pick(later) == ReactRender.Pick(opts)
    requires !ReactRender.NoCache(ReactRender.Pick(opts))
    ensures same && stored == 1
  {
    var components := new ReactRender.ComponentCache();
    var c1, _ := ReactRender.Render(components, opts, parse);
    ReactRender.LookupAfterAdd([], c1, ReactRender.Pick(opts));
    var c2, _ := ReactRender.Render(components, later, parse);
    same := c1 == c2;
    stored := |components.cache|;
  }

  /**
   * Two renders on the same store whose options agree on `component`, `path`
   * and `noCache` use one Component, whatever their props; the second render
   * leaves the store as the first left it.
   */
  method AgreeingOptionsShareComponent(components: ReactRender.ComponentCache,
                                       a: ReactRender.RenderOptions, b: ReactRender.RenderOptions,
                                       parse: ReactRender.Parser)
    returns (first: ReactRender.Component, second: ReactRender.Component)
    requires a.component == b.component && a.path == b.path && a.noCache == b.noCache
    requires !ReactRender.NoCache(ReactRender.Pick(a))
    modifies components
    ensures first == second
    ensures components.cache ==
      old(components.cache) + (if ReactRender.Lookup(old(components.cache), ReactRender.Pick(a)).None? then [first] else [])
  {
    var before := components.cache;
    var choiceA;
    first, choiceA := ReactRender.Render(components, a, parse);
    ReactRender.PickIgnoresProps(a, b);
    ReactRender.LookupAfterAdd(before, first, ReactRender.Pick(a));
    var choiceB;
    second, choiceB := ReactRender.Render(components, b, parse);
  }

  /** With `noCache`, every render makes its own Component and the store stays empty. */
  method NoCacheNeverStores(opts: ReactRender.RenderOptions, parse: ReactRender.Parser)
    returns (same: bool, stored: nat)
    requires ReactRender.NoCache(ReactRender.Pick(opts))
    ensures !same && stored == 0
  {
    var components := new ReactRender.ComponentCache();
    var c1, _ := ReactRender.Render(components, opts, parse);
    var c2, _ := ReactRender.Render(components, opts, parse);
    same := c1 == c2;
    stored := |components.cache|;
  }
}
