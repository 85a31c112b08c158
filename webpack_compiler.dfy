/**
 * webpack-compiler/lib: the Bundle (Bundle.js), a single-flight caching
 * handle around one webpack build, its watching variant (WatchedBundle.js),
 * and the process-wide registry of file-watch subscriptions that the
 * watching variant shares.
 *
 * A WatchedBundle overrides only `getConfig` and adds `invalidateConfig`;
 * because the base methods dispatch to `this.getConfig`, both kinds are one
 * class here, and a Bundle constructed as watched holds the registry.
 */
module WebpackCompiler {
  import opened Wrappers
  import opened BundleConfig

  /** The chokidar watcher, seen from outside: the paths handed to `add` and whether `close` was called. */
  class FSWatcher {
    var added: seq<string>
    var closed: bool

    constructor ()
      ensures added == [] && !closed
    {
      added := [];
      closed := false;
    }

    method Add(path: string)
      modifies this
      ensures added == old(added) + [path] && closed == old(closed)
    {
      added := added + [path];
    }

    method Close()
      modifies this
      ensures closed && added == old(added)
    {
      closed := true;
    }
  }

  /**
   * A callback in the registry: one supplied by a caller of `watchFile`
   * (identified by id) or a Bundle's bound `invalidateConfig`.
   */
  datatype Subscriber = Listener(id: CallbackId) | ConfigInvalidator(bundle: Bundle)

  /** The path list after `watchFile(filename, s)`: a new one-element list, or the old list with `s` pushed. */
  function Subscribe(files: map<string, seq<Subscriber>>, filename: string, s: Subscriber): map<string, seq<Subscriber>>
  {
    files[filename := (if filename in files then files[filename] else []) + [s]]
  }

  /** The listeners among some subscribers, in order. */
  function Listeners(subs: seq<Subscriber>): seq<CallbackId>
  {
    if subs == [] then []
    else (if subs[0].Listener? then [subs[0].id] else []) + Listeners(subs[1..])
  }

  /** The Bundles whose `invalidateConfig` is among some subscribers. */
  function Invalidated(subs: seq<Subscriber>): set<Bundle>
  {
    set i | 0 <= i < |subs| && subs[i].ConfigInvalidator? :: subs[i].bundle
  }

  lemma ListenersAppend(subs: seq<Subscriber>, s: Subscriber)
    ensures Listeners(subs + [s]) == Listeners(subs) + (if s.Listener? then [s.id] else [])
  {
    if subs == [] {
      assert subs + [s] == [s];
    } else {
      ListenersAppend(subs[1..], s);
      assert (subs + [s])[1..] == subs[1..] + [s];
    }
  }

  /** No path occurs twice. */
  predicate NoDuplicates(paths: seq<string>)
  {
    forall i, j :: 0 <= i < j < |paths| ==> paths[i] != paths[j]
  }

  /**
   * `WatchedBundle._watchedFiles` and `WatchedBundle._watcher`, with the log
   * of listener invocations standing for what those callbacks do.
   */
  class WatchRegistry {
    var watchedFiles: map<string, seq<Subscriber>>
    var watcher: FSWatcher?
    var listenerCalls: seq<CallbackId>

    function Repr(): set<object>
      reads this
    {
      {this} + (if watcher == null then {} else {watcher})
    }

    /**
     * The registry's invariant: without a watcher nothing is subscribed; with
     * one, the watcher is open and has been handed every subscribed path
     * exactly once, and every subscribed path has at least one callback.
     */
    ghost predicate Valid()
      reads this, watcher
    {
      (watcher == null ==> watchedFiles == map[]) &&
      (watcher != null ==>
        !watcher.closed && NoDuplicates(watcher.added) &&
        forall f :: f in watchedFiles <==> f in watcher.added) &&
      forall f :: f in watchedFiles ==> |watchedFiles[f]| > 0
    }

    /** The state at module load: an empty map and no watcher. */
    constructor ()
      ensures Valid() && watchedFiles == map[] && watcher == null && listenerCalls == []
    {
      watchedFiles := map[];
      watcher := null;
      listenerCalls := [];
    }

    /**
     * `watchFile(filename, cb)` (WatchedBundle.js:38-50): creates the watcher on
     * first use, pushes `cb` onto the path's list, and hands the path to the
     * watcher only when it had no list yet.
     */
    method WatchFile(filename: string, cb: Subscriber)
      requires Valid()
      modifies Repr()
      ensures Valid()
      ensures watchedFiles == Subscribe(old(watchedFiles), filename, cb)
      ensures watcher != null
      ensures old(watcher) != null ==> watcher == old(watcher)
      ensures old(watcher) == null ==> fresh(watcher) && !watcher.closed
      ensures fresh(Repr() - old(Repr()))
      ensures watcher.added ==
        (if old(watcher) == null then [] else old(watcher.added)) +
        (if filename in old(watchedFiles) then [] else [filename])
      ensures listenerCalls == old(listenerCalls)
    {
      if watcher == null {
        watcher := new FSWatcher();
      }
      if filename in watchedFiles {
        watchedFiles := watchedFiles[filename := watchedFiles[filename] + [cb]];
      } else {
        assert [] + [cb] == [cb];
        watchedFiles := watchedFiles[filename := [cb]];
        watcher.Add(filename);
      }
    }

    /** The callbacks a change to `filename` reaches. */
    function SubscribersOf(filename: string): seq<Subscriber>
      reads this
    {
      if filename in watchedFiles then watchedFiles[filename] else []
    }

    /**
     * `onFileChange(filename)` (WatchedBundle.js:52-59): invokes every callback
     * registered for the path, once each, in registration order. A listener's
     * invocation is logged; a Bundle's `invalidateConfig` is run.
     */
    method OnFileChange(filename: string)
      requires Valid()
      modifies this, Invalidated(SubscribersOf(filename))
      ensures Valid()
      ensures watchedFiles == old(watchedFiles) && watcher == old(watcher)
      ensures listenerCalls == old(listenerCalls) + Listeners(old(SubscribersOf(filename)))
      ensures forall b :: b in Invalidated(old(SubscribersOf(filename))) ==>
        b.ConfigCleared() && b.KeepsCallbacks() && b.KeepsRuns() &&
        b.watchingConfig == old(b.watchingConfig) && (old(b.Valid()) ==> b.Valid())
    {
      var callbacks := SubscribersOf(filename);
      var i := 0;
      while i < |callbacks|
        invariant 0 <= i <= |callbacks|
        invariant watchedFiles == old(watchedFiles) && watcher == old(watcher)
        invariant listenerCalls == old(listenerCalls) + Listeners(callbacks[..i])
        invariant forall b :: b in Invalidated(callbacks) ==>
          b.KeepsCallbacks() && b.KeepsRuns() && b.watchingConfig == old(b.watchingConfig)
        invariant forall b :: b in Invalidated(callbacks[..i]) ==>
          b.ConfigCleared() && (old(b.Valid()) ==> b.Valid())
      {
        assert callbacks[..i + 1] == callbacks[..i] + [callbacks[i]];
        ListenersAppend(callbacks[..i], callbacks[i]);
        match callbacks[i] {
          case Listener(id) =>
            listenerCalls := listenerCalls + [id];
          case ConfigInvalidator(b) =>
            b.InvalidateConfig();
        }
        i := i + 1;
      }
      assert callbacks[..i] == callbacks;
    }

    /**
     * `_resetFileWatcher()` (WatchedBundle.js:61-67): closes and drops the
     * watcher if there is one, and always empties the subscription map.
     */
    method ResetFileWatcher()
      requires Valid()
      modifies this, watcher
      ensures Valid() && watcher == null && watchedFiles == map[]
      ensures old(watcher) != null ==> old(watcher).closed && old(watcher).added == old(watcher.added)
      ensures listenerCalls == old(listenerCalls)
    {
      if watcher != null {
        watcher.Close();
        watcher := null;
      }
      watchedFiles := map[];
    }
  }

  /** The callback a webpack run completes with: the Bundle's `callDone`, or a caller's callback. */
  datatype Continuation = BoundCallDone | Callback(id: CallbackId)

  /** The callbacks completing `cont` reaches while `queue` is waiting. */
  function Reached(cont: Continuation, queue: seq<CallbackId>): seq<CallbackId>
  {
    if cont.BoundCallDone? then queue else [cont.id]
  }

  /** Whether a watched Bundle subscribes to its configuration file after a `getConfig` that succeeded (`ok`). */
  predicate StartsWatchingConfig(watched: bool, opts: Options, watching: bool, ok: bool)
  {
    watched && ok && opts.watchConfig && !watching && opts.config.ConfigPath?
  }

  class Bundle {
    const opts: Options
    const cacheKey: Options
    /** null for a plain Bundle; for a WatchedBundle, the process-wide registry. */
    const registry: WatchRegistry?

    var config: Option<Config>
    var compiler: Option<Compiler>
    var err: Option<Error>
    var stats: Option<Stats>
    var isCompiling: bool
    var hasCompiled: bool
    /** `_onceDone`: callbacks waiting for the current or next compilation. */
    var onceDoneQueue: seq<CallbackId>
    var watchingConfig: bool

    /** Completion callbacks of the webpack runs in flight, in start order. */
    var runs: seq<Continuation>
    /** Every callback invocation the Bundle has made, in order. */
    var log: seq<Delivery>

    ghost var runsStarted: nat
    ghost var compilersBuilt: nat
    /** Every callback ever passed to `onceDone`, and those `callDone` has dispatched. */
    ghost var requested: seq<CallbackId>
    ghost var drained: seq<CallbackId>

    /**
     * The Bundle's invariant. Every callback given to `onceDone` has been
     * dispatched once, in order, or is still queued; the compiler belongs to
     * the current configuration; an inline configuration is adopted as it is;
     * `isCompiling` holds only while a run is in flight and with the outcome
     * reset; a compiled Bundle holds no error.
     */
    ghost predicate Valid()
      reads this
    {
      requested == drained + onceDoneQueue &&
      (compiler.Some? ==> config == Some(compiler.value.config)) &&
      (config.Some? && opts.config.Inline? ==> config == Some(opts.config.obj)) &&
      (isCompiling ==> !hasCompiled && err.None? && stats.None? && |runs| > 0) &&
      (hasCompiled ==> err.None?) &&
      (watchingConfig ==> registry != null && opts.watchConfig && opts.config.ConfigPath?) &&
      |runs| <= runsStarted
    }

    function Env(): set<object>
      reads this, registry
    {
      if registry == null then {} else registry.Repr()
    }

    ghost predicate RegistryValid()
      reads this, Env()
    {
      registry != null ==> registry.Valid()
    }

    /** Neither the configuration nor the compiler nor the outcome of a build is held. */
    predicate ConfigCleared()
      reads this
    {
      config.None? && compiler.None? && !isCompiling && !hasCompiled && err.None? && stats.None?
    }

    twostate predicate KeepsCallbacks()
      reads this
    {
      onceDoneQueue == old(onceDoneQueue) && log == old(log) &&
      requested == old(requested) && drained == old(drained)
    }

    twostate predicate KeepsRuns()
      reads this
    {
      runs == old(runs) && runsStarted == old(runsStarted)
    }

    twostate predicate KeepsOutcome()
      reads this
    {
      err == old(err) && stats == old(stats) && isCompiling == old(isCompiling) && hasCompiled == old(hasCompiled)
    }

    twostate predicate KeepsResolution()
      reads this
    {
      config == old(config) && compiler == old(compiler) &&
      watchingConfig == old(watchingConfig) && compilersBuilt == old(compilersBuilt)
    }

    /** Completing `cont` with `(e, s)`: either a `callDone` round over the queue, or one direct call. */
    twostate predicate Completed(cont: Continuation, e: Option<Error>, s: Option<Stats>)
      reads this
    {
      requested == old(requested) &&
      log == old(log) + Round(Reached(cont, old(onceDoneQueue)), e, s) &&
      (cont.BoundCallDone? ==> onceDoneQueue == [] && drained == old(drained) + old(onceDoneQueue)) &&
      (cont.Callback? ==> onceDoneQueue == old(onceDoneQueue) && drained == old(drained))
    }

    /** The registry changes only by the configuration subscription, made when `watchingConfig` is first set. */
    twostate predicate RegistryEffect()
      reads this, registry
    {
      registry != null ==>
        registry.listenerCalls == old(registry.listenerCalls) &&
        registry.watchedFiles ==
          if watchingConfig && !old(watchingConfig) && opts.config.ConfigPath?
          then Subscribe(old(registry.watchedFiles), opts.config.file, ConfigInvalidator(this))
          else old(registry.watchedFiles)
    }

    /** `new Bundle(opts)` (Bundle.js:4-15). */
    constructor Plain(opts: Options)
      ensures Valid() && this.opts == opts && cacheKey == opts && registry == null
      ensures config.None? && compiler.None? && err.None? && stats.None?
      ensures !isCompiling && !hasCompiled && onceDoneQueue == [] && !watchingConfig
      ensures runs == [] && log == [] && runsStarted == 0 && compilersBuilt == 0
    {
      this.opts := opts;
      cacheKey := opts;
      registry := null;
      config, compiler, err, stats := None, None, None, None;
      isCompiling, hasCompiled := false, false;
      onceDoneQueue := [];
      watchingConfig := false;
      runs, log := [], [];
      runsStarted, compilersBuilt := 0, 0;
      requested, drained := [], [];
    }

    /** `new WatchedBundle(opts)` (WatchedBundle.js:5-9): a Bundle sharing the process-wide registry. */
    constructor Watched(opts: Options, registry: WatchRegistry)
      ensures Valid() && this.opts == opts && cacheKey == opts && this.registry == registry
      ensures config.None? && compiler.None? && err.None? && stats.None?
      ensures !isCompiling && !hasCompiled && onceDoneQueue == [] && !watchingConfig
      ensures runs == [] && log == [] && runsStarted == 0 && compilersBuilt == 0
    {
      this.opts := opts;
      cacheKey := opts;
      this.registry := registry;
      config, compiler, err, stats := None, None, None, None;
      isCompiling, hasCompiled := false, false;
      onceDoneQueue := [];
      watchingConfig := false;
      runs, log := [], [];
      runsStarted, compilersBuilt := 0, 0;
      requested, drained := [], [];
    }

    /**
     * `invalidate()` (Bundle.js:17-22): forgets the outcome, including a run's
     * `isCompiling`, and keeps the configuration and the compiler.
     */
    method Invalidate()
      requires Valid()
      modifies this
      ensures Valid()
      ensures !isCompiling && !hasCompiled && err.None? && stats.None?
      ensures KeepsResolution() && KeepsCallbacks() && KeepsRuns()
    {
      isCompiling := false;
      hasCompiled := false;
      err := None;
      stats := None;
    }

    /**
     * `getConfig(cb)` (Bundle.js:24-44, overridden by WatchedBundle.js:13-24):
     * resolves the configuration and, for a watched Bundle asked to watch a
     * configuration file, subscribes `invalidateConfig` to it once.
     */
    method GetConfig(require: Loader) returns (r: Result<Config, Error>)
      requires Valid() && RegistryValid()
      modifies this, Env()
      ensures Valid() && RegistryValid()
      ensures r == ResolveConfig(old(config), opts.config, require).result
      ensures config == ResolveConfig(old(config), opts.config, require).config
      ensures watchingConfig ==
        (old(watchingConfig) || StartsWatchingConfig(registry != null, opts, old(watchingConfig), r.Success?))
      ensures RegistryEffect() && fresh(Env() - old(Env()))
      ensures compiler == old(compiler) && compilersBuilt == old(compilersBuilt)
      ensures KeepsOutcome() && KeepsCallbacks() && KeepsRuns()
    {
      var step := ResolveConfig(config, opts.config, require);
      config := step.config;
      r := step.result;
      if StartsWatchingConfig(registry != null, opts, watchingConfig, r.Success?) {
        watchingConfig := true;
        registry.WatchFile(opts.config.file, ConfigInvalidator(this));
      }
    }

    /** `getCompiler(cb)` (Bundle.js:46-58): builds `webpack(config)` at most once. */
    method GetCompiler(require: Loader) returns (r: Result<Compiler, Error>)
      requires Valid() && RegistryValid()
      modifies this, Env()
      ensures Valid() && RegistryValid()
      ensures var step := ResolveCompiler(old(config), old(compiler), opts.config, require);
        r == step.result && config == step.config && compiler == step.compiler
      ensures compilersBuilt == old(compilersBuilt) + (if old(compiler).None? && r.Success? then 1 else 0)
      ensures watchingConfig ==
        (old(watchingConfig) ||
         StartsWatchingConfig(registry != null, opts, old(watchingConfig), old(compiler).None? && r.Success?))
      ensures RegistryEffect() && fresh(Env() - old(Env()))
      ensures KeepsOutcome() && KeepsCallbacks() && KeepsRuns()
    {
      if compiler.Some? {
        return Success(compiler.value);
      }
      var c := GetConfig(require);
      if c.Failure? {
        return Failure(c.error);
      }
      compiler := Some(Webpack(c.value));
      compilersBuilt := compilersBuilt + 1;
      r := Success(compiler.value);
    }

    /** `callDone(err, stats)` (Bundle.js:92-99): swaps the queue out, then calls each callback in order. */
    method CallDone(e: Option<Error>, s: Option<Stats>)
      requires Valid()
      modifies this
      ensures Valid()
      ensures Completed(BoundCallDone, e, s)
      ensures KeepsOutcome() && KeepsResolution() && KeepsRuns()
    {
      var round := onceDoneQueue;
      onceDoneQueue := [];
      drained := drained + round;
      var i := 0;
      while i < |round|
        invariant 0 <= i <= |round|
        invariant log == old(log) + Round(round[..i], e, s)
        invariant onceDoneQueue == [] && drained == old(drained) + round && requested == old(requested)
        invariant KeepsOutcome() && KeepsResolution() && KeepsRuns()
      {
        RoundAppend(round[..i], [round[i]], e, s);
        assert round[..i + 1] == round[..i] + [round[i]];
        log := log + [Delivery(round[i], e, s)];
        i := i + 1;
      }
      assert round[..i] == round;
    }

    /** Invoking a run's completion callback `cont` with `(e, s)`. */
    method Complete(cont: Continuation, e: Option<Error>, s: Option<Stats>)
      requires Valid()
      modifies this
      ensures Valid()
      ensures Completed(cont, e, s)
      ensures KeepsOutcome() && KeepsResolution() && KeepsRuns()
    {
      if cont.BoundCallDone? {
        CallDone(e, s);
      } else {
        log := log + [Delivery(cont.id, e, s)];
      }
    }

    /**
     * `compile(cb)` (Bundle.js:60-80) up to `compiler.run`: a resolution error
     * goes straight to `cb` and `isCompiling` is never set; otherwise the
     * outcome is reset, `isCompiling` is set and a run is started that will
     * complete with `cb`.
     */
    method Compile(cont: Continuation, require: Loader)
      requires Valid() && RegistryValid()
      modifies this, Env()
      ensures Valid() && RegistryValid()
      ensures var step := ResolveCompiler(old(config), old(compiler), opts.config, require);
        config == step.config && compiler == step.compiler &&
        if step.result.Success? then
          isCompiling && !hasCompiled && err.None? && stats.None? &&
          runs == old(runs) + [cont] && runsStarted == old(runsStarted) + 1 && KeepsCallbacks()
        else
          KeepsOutcome() && KeepsRuns() && Completed(cont, Some(step.result.error), None)
      ensures watchingConfig ==
        (old(watchingConfig) ||
         StartsWatchingConfig(registry != null, opts, old(watchingConfig),
           old(compiler).None? && ResolveCompiler(old(config), old(compiler), opts.config, require).result.Success?))
      ensures RegistryEffect() && fresh(Env() - old(Env()))
    {
      var c := GetCompiler(require);
      if c.Failure? {
        Complete(cont, Some(c.error), None);
        return;
      }
      Invalidate();
      isCompiling := true;
      runs := runs + [cont];
      runsStarted := runsStarted + 1;
    }

    /**
     * The callback of run `k` of `compiler.run` (Bundle.js:67-78): records the
     * outcome, clears `isCompiling`, sets `hasCompiled` only when there is no
     * error, and completes the run's callback.
     */
    method RunFinished(k: nat, e: Option<Error>, s: Option<Stats>)
      requires Valid() && k < |runs|
      modifies this
      ensures Valid()
      ensures err == e && stats == s && !isCompiling && hasCompiled == e.None?
      ensures runs == old(runs[..k] + runs[k + 1..]) && runsStarted == old(runsStarted)
      ensures Completed(old(runs[k]), e, s)
      ensures KeepsResolution()
    {
      var cont := runs[k];
      runs := runs[..k] + runs[k + 1..];
      err := e;
      stats := s;
      isCompiling := false;
      hasCompiled := e.None?;
      Complete(cont, e, s);
    }

    /**
     * `onceDone(cb)` (Bundle.js:82-90): queues `cb`; a compiled Bundle delivers
     * the cached outcome to the whole queue at once; a compiling one only
     * queues; an idle one starts one compilation that completes with `callDone`.
     */
    method OnceDone(cb: CallbackId, require: Loader)
      requires Valid() && RegistryValid()
      modifies this, Env()
      ensures Valid() && RegistryValid()
      ensures requested == old(requested) + [cb]
      ensures old(hasCompiled) ==>
        onceDoneQueue == [] && log == old(log) + Round(old(onceDoneQueue) + [cb], old(err), old(stats)) &&
        KeepsOutcome() && KeepsResolution() && KeepsRuns()
      ensures !old(hasCompiled) && old(isCompiling) ==>
        onceDoneQueue == old(onceDoneQueue) + [cb] && log == old(log) &&
        KeepsOutcome() && KeepsResolution() && KeepsRuns()
      ensures !old(hasCompiled) && !old(isCompiling) ==>
        var step := ResolveCompiler(old(config), old(compiler), opts.config, require);
        config == step.config && compiler == step.compiler &&
        if step.result.Success? then
          isCompiling && !hasCompiled && err.None? && stats.None? &&
          runs == old(runs) + [BoundCallDone] && runsStarted == old(runsStarted) + 1 &&
          onceDoneQueue == old(onceDoneQueue) + [cb] && log == old(log)
        else
          KeepsOutcome() && KeepsRuns() && onceDoneQueue == [] &&
          log == old(log) + Round(old(onceDoneQueue) + [cb], Some(step.result.error), None)
      ensures watchingConfig ==
        (old(watchingConfig) ||
         (!old(hasCompiled) && !old(isCompiling) &&
          StartsWatchingConfig(registry != null, opts, old(watchingConfig),
            old(compiler).None? && ResolveCompiler(old(config), old(compiler), opts.config, require).result.Success?)))
      ensures RegistryEffect() && fresh(Env() - old(Env()))
    {
      onceDoneQueue := onceDoneQueue + [cb];
      requested := requested + [cb];
      if hasCompiled {
        CallDone(err, stats);
      } else if !isCompiling {
        Compile(BoundCallDone, require);
      }
    }

    /**
     * `invalidateConfig()` (WatchedBundle.js:26-32): drops the configuration
     * and the compiler, then does what `invalidate` does. The subscription and
     * `watchingConfig` stay.
     */
    method InvalidateConfig()
      modifies this
      ensures ConfigCleared()
      ensures KeepsCallbacks() && KeepsRuns()
      ensures watchingConfig == old(watchingConfig) && compilersBuilt == old(compilersBuilt)
      ensures old(Valid()) ==> Valid()
    {
      config := None;
      compiler := None;
      isCompiling := false;
      hasCompiled := false;
      err := None;
      stats := None;
    }
  }
}
