/**
 * The values a Bundle (webpack-compiler/lib/Bundle.js) works with, and the
 * pure part of its behaviour: resolving the configuration, building the
 * compiler once, and the round of deliveries `callDone` performs.
 */
module BundleConfig {
  import opened Wrappers

  /** A webpack configuration object, by identity. */
  datatype Config = Config(id: nat)

  /**
   * The `config` option: absent, an inline configuration object, or the path
   * of a module that exports one.
   */
  datatype ConfigRef = NoConfig | Inline(obj: Config) | ConfigPath(file: string)

  /** The options a Bundle is constructed with (and cached under). */
  datatype Options = Options(config: ConfigRef, watchConfig: bool)

  /**
   * An error handed to a callback: the one `getConfig` creates for a missing
   * `config` option, or an error thrown by `require` or reported by webpack.
   */
  datatype Error = MissingConfig | Raised(id: nat)

  /**
   * `require(path)` as seen from the Bundle: the exported configuration or the
   * thrown error. The host's module loader is a parameter of the model.
   */
  type Loader = string -> Result<Config, Error>

  /** The object `webpack(config)` returns; `Webpack(c).config` is the configuration it was built from. */
  datatype Compiler = Webpack(config: Config)

  /** The stats object webpack passes to a run's callback, by identity. */
  datatype Stats = Stats(id: nat)

  /** A callback handed to the Bundle, by identity. */
  type CallbackId = nat

  /** One invocation `cb(err, stats)`. */
  datatype Delivery = Delivery(callback: CallbackId, err: Option<Error>, stats: Option<Stats>)

  /** JavaScript truthiness of `opts.config`: objects are truthy, and so is every string but "". */
  predicate Truthy(ref: ConfigRef)
  {
    ref.Inline? || (ref.ConfigPath? && ref.file != "")
  }

  /** What `getConfig` reports and what `this.config` holds afterwards. */
  datatype ConfigStep = ConfigStep(result: Result<Config, Error>, config: Option<Config>)

  /**
   * `getConfig` (Bundle.js:24-44) with its load failure corrected: a cached
   * configuration is returned as it is; a missing option is an error; an
   * inline object is adopted as it is; a path is loaded with `require`. A
   * failure leaves nothing cached.
   */
  function ResolveConfig(config: Option<Config>, ref: ConfigRef, require: Loader): (r: ConfigStep)
    ensures config.Some? ==> r == ConfigStep(Success(config.value), config)
    ensures r.result.Success? ==> r.config == Some(r.result.value)
    ensures r.result.Failure? ==> r.config == config == None
    ensures config.None? && ref.Inline? ==> r.result == Success(ref.obj)
    ensures config.None? && !Truthy(ref) ==> r.result == Failure(MissingConfig)
    ensures config.None? && Truthy(ref) && ref.ConfigPath? ==> r.result == require(ref.file)
  {
    if config.Some? then ConfigStep(Success(config.value), config)
    else if !Truthy(ref) then ConfigStep(Failure(MissingConfig), None)
    else if ref.Inline? then ConfigStep(Success(ref.obj), Some(ref.obj))
    else match require(ref.file)
      case Success(c) => ConfigStep(Success(c), Some(c))
      case Failure(e) => ConfigStep(Failure(e), None)
  }

  /** Once a configuration is resolved, resolving again returns it without consulting the loader. */
  lemma ResolvedConfigIsKept(config: Option<Config>, ref: ConfigRef, require: Loader, later: Loader)
    ensures var first := ResolveConfig(config, ref, require);
      first.result.Success? ==> ResolveConfig(first.config, ref, later) == first
  {
  }

  /** A failed resolution leaves nothing behind: the next call loads again, whatever the loader says then. */
  lemma FailedResolutionIsRetried(config: Option<Config>, ref: ConfigRef, require: Loader, later: Loader)
    ensures var first := ResolveConfig(config, ref, require);
      first.result.Failure? ==> ResolveConfig(first.config, ref, later) == ResolveConfig(config, ref, later)
  {
  }

  /** What `this.config` can hold in the code as written: a configuration object or the raw option string. */
  datatype ConfigSlot = Object(obj: Config) | PathString(path: string)

  datatype SlotStep = SlotStep(result: Result<ConfigSlot, Error>, config: Option<ConfigSlot>)

  /**
   * `getConfig` exactly as Bundle.js:24-44 has it: line 33 stores the option
   * in `this.config` before `require` runs, and the catch on line 39 returns
   * without clearing it.
   */
  function GetConfigAsWritten(config: Option<ConfigSlot>, ref: ConfigRef, require: Loader): (r: SlotStep)
    ensures config.Some? ==> r == SlotStep(Success(config.value), config)
    ensures config.None? && ref.ConfigPath? && ref.file != "" && require(ref.file).Failure? ==>
      r == SlotStep(Failure(require(ref.file).error), Some(PathString(ref.file)))
  {
    if config.Some? then SlotStep(Success(config.value), config)
    else if !Truthy(ref) then SlotStep(Failure(MissingConfig), None)
    else if ref.Inline? then SlotStep(Success(Object(ref.obj)), Some(Object(ref.obj)))
    else match require(ref.file)
      case Success(c) => SlotStep(Success(Object(c)), Some(Object(c)))
      case Failure(e) => SlotStep(Failure(e), Some(PathString(ref.file)))
  }

  /**
   * The discrepancy: after `require` throws once, the next `getConfig` reports
   * success and hands out the path string itself as the configuration.
   */
  lemma AsWrittenFailedLoadYieldsPath(file: string, require: Loader, later: Loader)
    requires file != "" && require(file).Failure?
    ensures var first := GetConfigAsWritten(None, ConfigPath(file), require);
      first.result == Failure(require(file).error) &&
      GetConfigAsWritten(first.config, ConfigPath(file), later).result == Success(PathString(file))
  {
  }

  /** Lifts a corrected resolution into the as-written slot type. */
  function AsSlot(config: Option<Config>): Option<ConfigSlot>
  {
    if config.Some? then Some(Object(config.value)) else None
  }

  /**
   * The corrected resolution agrees with the code as written except where
   * `require` throws: there it reports the same error, but caches nothing.
   */
  lemma CorrectionOnlyChangesFailedLoad(config: Option<Config>, ref: ConfigRef, require: Loader)
    ensures var fixed := ResolveConfig(config, ref, require);
            var written := GetConfigAsWritten(AsSlot(config), ref, require);
      (written.result.Success? <==> fixed.result.Success?) &&
      (fixed.result.Success? ==> written.result == Success(Object(fixed.result.value)) && written.config == AsSlot(fixed.config)) &&
      (fixed.result.Failure? ==> written.result == Failure(fixed.result.error)) &&
      (written.config != AsSlot(fixed.config) ==>
        config.None? && ref.ConfigPath? && require(ref.file).Failure? && written.config == Some(PathString(ref.file)))
  {
  }

  /** What `getCompiler` reports, and `this.config` and `this.compiler` afterwards. */
  datatype CompilerStep = CompilerStep(result: Result<Compiler, Error>, config: Option<Config>, compiler: Option<Compiler>)

  /**
   * `getCompiler` (Bundle.js:46-58): a built compiler is returned as it is;
   * otherwise the configuration is resolved and `webpack(config)` is built
   * from it, and a configuration error is passed on with no compiler set.
   */
  function ResolveCompiler(config: Option<Config>, compiler: Option<Compiler>, ref: ConfigRef, require: Loader): (r: CompilerStep)
    ensures compiler.Some? ==> r == CompilerStep(Success(compiler.value), config, compiler)
    ensures compiler.None? ==> r.config == ResolveConfig(config, ref, require).config
    ensures compiler.None? && r.result.Success? ==>
      r.compiler == Some(r.result.value) && r.config == Some(r.result.value.config) &&
      ResolveConfig(config, ref, require).result == Success(r.result.value.config)
    ensures r.result.Failure? ==>
      compiler.None? && r.compiler.None? && ResolveConfig(config, ref, require).result.Failure? &&
      r.result.error == ResolveConfig(config, ref, require).result.error
  {
    if compiler.Some? then CompilerStep(Success(compiler.value), config, compiler)
    else
      var step := ResolveConfig(config, ref, require);
      match step.result
      case Success(c) => CompilerStep(Success(Webpack(c)), step.config, Some(Webpack(c)))
      case Failure(e) => CompilerStep(Failure(e), step.config, None)
  }

  /** A compiler, once built, is returned by every later call, whatever the loader would say. */
  lemma CompilerBuiltOnce(config: Option<Config>, compiler: Option<Compiler>, ref: ConfigRef, require: Loader, later: Loader)
    ensures var first := ResolveCompiler(config, compiler, ref, require);
      first.result.Success? ==> ResolveCompiler(first.config, first.compiler, ref, later) == first
  {
  }

  /** The deliveries `callDone(err, stats)` makes: every queued callback, in queue order, with the same pair. */
  function Round(callbacks: seq<CallbackId>, err: Option<Error>, stats: Option<Stats>): (r: seq<Delivery>)
    ensures |r| == |callbacks|
  {
    if callbacks == [] then []
    else [Delivery(callbacks[0], err, stats)] + Round(callbacks[1..], err, stats)
  }

  /** The callbacks a log of deliveries invoked, in order. */
  function Invoked(log: seq<Delivery>): seq<CallbackId>
  {
    if log == [] then [] else [log[0].callback] + Invoked(log[1..])
  }

  /** The k-th delivery of a round goes to the k-th queued callback, with the round's pair. */
  lemma {:induction false} RoundAt(callbacks: seq<CallbackId>, err: Option<Error>, stats: Option<Stats>, k: nat)
    requires k < |callbacks|
    ensures Round(callbacks, err, stats)[k] == Delivery(callbacks[k], err, stats)
  {
    if k > 0 {
      RoundAt(callbacks[1..], err, stats, k - 1);
    }
  }

  /** A round invokes exactly the queued callbacks, each once, in FIFO order. */
  lemma {:induction false} RoundInvokesQueue(callbacks: seq<CallbackId>, err: Option<Error>, stats: Option<Stats>)
    ensures Invoked(Round(callbacks, err, stats)) == callbacks
  {
    if callbacks != [] {
      RoundInvokesQueue(callbacks[1..], err, stats);
      assert Round(callbacks, err, stats)[1..] == Round(callbacks[1..], err, stats);
    }
  }

  /** Dispatching two queues one after the other is dispatching their concatenation. */
  lemma {:induction false} RoundAppend(a: seq<CallbackId>, b: seq<CallbackId>, err: Option<Error>, stats: Option<Stats>)
    ensures Round(a + b, err, stats) == Round(a, err, stats) + Round(b, err, stats)
  {
    if a != [] {
      RoundAppend(a[1..], b, err, stats);
      assert (a + b)[1..] == a[1..] + b;
    } else {
      assert a + b == b;
    }
  }
}
