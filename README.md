# react-render: the webpack build cache and its keyed stores, in Dafny

This project models the core of react-render's `webpack-compiler`. A **Bundle** is a single-flight, caching handle around one webpack build:
- concurrent `onceDone` requests share one compilation;
- a successful outcome is cached until `invalidate`;
- a **WatchedBundle** subscribes to its configuration file through a process-wide **watch registry**, so that a change to the file drops the configuration and the compiler.

Around them sit three keyed object stores:
- the object cache of `lib/cache.js`, searched by constructor and deep-equal `cacheKey`;
- the component store of `lib/components.js`, searched by partial property match;
- the component cache and lookup-or-create logic of `reactRender` in `lib/index.js`.

Modules, one per source file or concern:

- `Wrappers`: `Option` and `Result`.
- `FirstMatch`: lodash's `_.find` (first accepted element, in insertion order), shared by the three stores.
- `ObjectCache`: `lib/cache.js`.
- `ComponentStore`: `lib/components.js`.
- `ReactRender`: `lib/index.js`.
- `BundleConfig`: the values a Bundle handles and the pure part of its behaviour:
  - configuration resolution, both as written and corrected;
  - building the compiler once;
  - the delivery round of `callDone`.
- `WebpackCompiler`: the classes `Bundle`, `WatchRegistry` and `FSWatcher`, written imperatively with `modifies` frames and object invariants (`Valid()`).
- `Scenarios`: call sequences from the test suite, replayed against fresh objects, each with the outcome its callers observe.

How the external collaborators appear:

- **webpack(config)** is the value `Webpack(config)`. A ghost counter `compilersBuilt` counts how many were built.
- **compiler.run(cb)** is split in two:
  - `Compile` appends the run's completion callback to the field `runs` and bumps the ghost counter `runsStarted`;
  - `RunFinished(k, err, stats)` is the event that plays run `k`'s callback.
- **require(path)** is a `Loader` parameter (`string -> Result<Config, Error>`) of every method that can reach `getConfig`. The `delete require.cache[...]` of `invalidateConfig` is therefore the absence of any memory: the next `getConfig` sees whatever the loader returns then.
- **chokidar** is `FSWatcher`: the list of paths handed to `add`, and a `closed` flag.
- **Callbacks** are ids:
  - each `cb(err, stats)` a Bundle makes is appended to its `log` as a `Delivery`;
  - each invocation of a `watchFile` listener is appended to the registry's `listenerCalls`;
  - a Bundle's bound `invalidateConfig` is a `ConfigInvalidator` subscriber, which `OnFileChange` runs.
- **Bundle and WatchedBundle are one class.** The WatchedBundle prototype overrides `getConfig`, and the base `getCompiler`/`compile` dispatch to that override. So `Bundle` has two constructors, `Plain` and `Watched`; a watched Bundle holds the shared registry (a plain one holds `null`). `watchFile`, `onFileChange` and `_resetFileWatcher` use only the shared state, so they are methods of `WatchRegistry`.

Behaviours of the code that the model keeps as they are:

- **A failed Bundle is not cached as failed.** A run sets `hasCompiled = !err` (Bundle.js:71), so after an error the next `onceDone` rebuilds.
- **`invalidate` during a run clears `isCompiling`** (Bundle.js:18). A later `onceDone` can then start a second run beside the first.
- **Waiters can stay queued after a run.** A run started by a direct `compile(cb)` completes only `cb` (Bundle.js:75-77). Callbacks that `onceDone` queued during that run stay queued, and the next `onceDone` answers them (see `Scenarios.DirectCompileLeavesWaitersQueued`).
- `invalidateConfig` does not reset `watchingConfig`. After it, the Bundle therefore never subscribes again; its existing subscription stays in place.
- After `_resetFileWatcher`, a Bundle whose `watchingConfig` is already set never subscribes again.

The Bundle's invariant (`WebpackCompiler.Bundle.Valid`) states:
- every callback passed to `onceDone` has been dispatched exactly once, in order, or is still queued (`requested == drained + onceDoneQueue`);
- the compiler belongs to the current configuration;
- an inline configuration is adopted as the identical object;
- `isCompiling` holds only while a run is in flight, with the outcome reset;
- a compiled Bundle holds no error.

The registry's invariant (`WebpackCompiler.WatchRegistry.Valid`) states:
- with no watcher there are no subscriptions;
- with a watcher, it is open, and it has been handed every subscribed path exactly once and no other path.

## Model

| member | source | states |
|---|---|---|
| `FirstMatch.FirstIndex` | lib/index.js:7-9 | the index found is accepted by the predicate and no earlier element is; no index means no element is accepted |
| `FirstMatch.Find` | lib/components.js:6 | `_.find` returns the first accepted element: it is an element of the list, accepted, with no accepted element before it; nothing is returned exactly when no element is accepted |
| `FirstMatch.FirstIndexUnique` | lib/cache.js:6-8 | the first match is the unique accepted index with no accepted predecessor |
| `FirstMatch.FirstIndexAppend` | lib/cache.js:10-12 | pushing an element never changes an existing first match; after a miss, the new element is found exactly when it is accepted |
| `ObjectCache.Hit` | lib/cache.js:7 | an object that is not an instance of `func` is never a hit; an instance is a hit exactly for its own `cacheKey` |
| `ObjectCache.Lookup` | lib/cache.js:5-9 | `find(func, opts)` returns the oldest object that is an instance of `func` and whose `cacheKey` equals `opts`; nothing exactly when no object is both |
| `ObjectCache.LookupRespectsType` | lib/cache.js:7 | an object with an equal key but of another type never changes an answer |
| `ObjectCache.LookupAfterAdd` | lib/cache.js:10-12 | after `add(obj)` every earlier answer stays; a query that missed now finds `obj` exactly when `obj` is a hit |
| `ObjectCache.Cache.constructor` | lib/cache.js:4 | the cache starts empty |
| `ObjectCache.Cache.Find` | lib/cache.js:5-9 | `find` returns the oldest cached object that is a hit for `func` and `opts`, and nothing exactly when no cached object is one |
| `ObjectCache.Cache.Add` | lib/cache.js:10-12 | `add` appends at the end and keeps every earlier entry in order |
| `ObjectCache.Cache.Clear` | lib/cache.js:13-15 | after `clear` the cache is empty and every `find` returns nothing |
| `ComponentStore.IsMatch` | lib/components.js:6 | lodash's partial match: a match means the component has every property the query names; the query with no properties matches every component |
| `ComponentStore.Search` | lib/components.js:5-7 | `find(config)` returns the oldest component having every property of the query with an equal value; nothing exactly when none has |
| `ComponentStore.EmptyQueryFindsFirst` | lib/components.js:5-7 | a query with no properties finds the oldest component |
| `ComponentStore.ExtraPropertiesStillMatch` | lib/components.js:6 | the match is partial: properties the query does not name never prevent a match |
| `ComponentStore.SearchAfterAdd` | lib/components.js:8-10 | after `add` every earlier answer stays, and a missed query finds the new component exactly when it matches |
| `ComponentStore.Store.constructor` | lib/components.js:4 | the store starts empty |
| `ComponentStore.Store.Find` | lib/components.js:5-7 | `find(config)` returns the oldest stored component that matches the query, and nothing exactly when none does |
| `ComponentStore.Store.Add` | lib/components.js:8-10 | `add` appends at the end and keeps every earlier component |
| `ComponentStore.Store.Clear` | lib/components.js:11-13 | after `clear` the store is empty and every `find` returns nothing |
| `ReactRender.Pick` | lib/index.js:20 | the lookup key carries the caller's `component`, `path` and `noCache` options, each absent exactly when the caller left it out |
| `ReactRender.PickIgnoresProps` | lib/index.js:20 | two option sets give the same lookup key exactly when they agree on `component`, `path` and `noCache`; `props`, `serializedProps` and `toStaticMarkup` play no part |
| `ReactRender.Component.constructor` | lib/index.js:24 | a new Component carries the picked options it was created from |
| `ReactRender.Lookup` | lib/index.js:6-10 | `components.find(opts)` returns the oldest Component whose `opts` equal the key; nothing exactly when none has |
| `ReactRender.LookupAfterAdd` | lib/index.js:11-13 | after `add` every earlier answer stays, and a missed key finds the new Component exactly when it carries that key |
| `ReactRender.ComponentCache.constructor` | lib/index.js:5 | the component cache starts empty |
| `ReactRender.ComponentCache.Find` | lib/index.js:6-10 | `find(opts)` returns the oldest stored Component whose `opts` equal the key, and nothing exactly when none does |
| `ReactRender.ComponentCache.Add` | lib/index.js:11-13 | `add` appends at the end |
| `ReactRender.ComponentCache.Clear` | lib/index.js:14-16 | after `clear` the cache is empty and every `find` returns nothing |
| `ReactRender.SelectProps` | lib/index.js:34-41 | given props are used as they are. Otherwise absent or empty serialized props leave the props absent without parsing; non-empty ones are parsed, and the parsed value becomes the props; a parse failure is reported and leaves the props absent |
| `ReactRender.GivenPropsIgnoreSerialized` | lib/index.js:34-35 | when props are given, neither `serializedProps` nor the parser affects the choice |
| `ReactRender.Render` | lib/index.js:19-41 | the Component is keyed by the picked options. With `noCache` it is fresh and the cache is unchanged. Otherwise an existing equal-keyed entry is reused with the cache unchanged, or exactly one fresh Component is appended. The props are those `SelectProps` chooses |
| `BundleConfig.ResolveConfig` | webpack-compiler/lib/Bundle.js:24-44 | a cached configuration is returned without loading; a missing (or empty-string) `config` option is an error; an inline object is adopted as it is; a path yields what `require` yields; a success is cached, a failure caches nothing |
| `BundleConfig.ResolvedConfigIsKept` | webpack-compiler/lib/Bundle.js:25-27 | once resolved, the next resolution returns the same configuration whatever the loader would say |
| `BundleConfig.FailedResolutionIsRetried` | webpack-compiler/lib/Bundle.js:36-40 | with the load failure corrected, a failed resolution leaves no trace: the next call behaves like a first call under the loader of that moment |
| `BundleConfig.GetConfigAsWritten` | webpack-compiler/lib/Bundle.js:24-44 | as written: a cached slot is returned as it is, and a `require` failure reports the error while leaving the path string in `this.config` |
| `BundleConfig.AsWrittenFailedLoadYieldsPath` | webpack-compiler/lib/Bundle.js:33-40 | as written, after `require` throws, the next `getConfig` succeeds and hands out the path string as the configuration |
| `BundleConfig.CorrectionOnlyChangesFailedLoad` | webpack-compiler/lib/Bundle.js:33-40 | the corrected resolution reports exactly what the code reports; the cached state differs only after a failed `require`, where the code caches the path string |
| `BundleConfig.ResolveCompiler` | webpack-compiler/lib/Bundle.js:46-58 | a built compiler is returned as it is; otherwise `webpack(config)` is built from the resolved configuration and cached; a configuration error is passed on and no compiler is set |
| `BundleConfig.CompilerBuiltOnce` | webpack-compiler/lib/Bundle.js:47-49 | once built, the compiler is returned by every later call whatever the loader would say |
| `BundleConfig.Round` | webpack-compiler/lib/Bundle.js:96-98 | `callDone` makes one delivery per queued callback |
| `BundleConfig.RoundAt` | webpack-compiler/lib/Bundle.js:96-98 | the k-th delivery of a round goes to the k-th queued callback with the round's `(err, stats)` pair |
| `BundleConfig.RoundInvokesQueue` | webpack-compiler/lib/Bundle.js:92-99 | a round invokes exactly the queued callbacks, each once, in FIFO order |
| `BundleConfig.RoundAppend` | webpack-compiler/lib/Bundle.js:83-86 | dispatching a queue with one more callback pushed is dispatching the queue, then that callback |
| `WebpackCompiler.ListenersAppend` | webpack-compiler/lib/WatchedBundle.js:44-45 | pushing a subscriber onto a path's list adds its listener, if it is one, after those already there, so change notifications keep registration order |
| `WebpackCompiler.WatchRegistry.constructor` | webpack-compiler/lib/WatchedBundle.js:34-36 | the registry starts with no subscriptions and no watcher |
| `WebpackCompiler.WatchRegistry.WatchFile` | webpack-compiler/lib/WatchedBundle.js:38-50 | the watcher is created on first use and reused afterwards; the first call for a path makes a one-element list and hands the path to the watcher; later calls push onto the list and never hand the path again; the invariant (each path handed once) is kept |
| `WebpackCompiler.WatchRegistry.OnFileChange` | webpack-compiler/lib/WatchedBundle.js:52-59 | every callback registered for the path runs once, in registration order. Listeners are logged in that order, and each subscribed Bundle has its configuration, compiler and outcome cleared, with its queue, runs and log kept. Subscriptions and watcher are unchanged, and an unwatched path does nothing |
| `WebpackCompiler.WatchRegistry.ResetFileWatcher` | webpack-compiler/lib/WatchedBundle.js:61-67 | an existing watcher is closed and dropped, the map is always emptied, and the call is allowed with no watcher |
| `WebpackCompiler.Bundle.Plain` | webpack-compiler/lib/Bundle.js:4-15 | a new Bundle keeps its options as `cacheKey`, has no error, stats, configuration or compiler, is neither compiling nor compiled, and has an empty queue |
| `WebpackCompiler.Bundle.Watched` | webpack-compiler/lib/WatchedBundle.js:5-9 | the same initial state, with `watchingConfig` false and the shared registry |
| `WebpackCompiler.Bundle.Invalidate` | webpack-compiler/lib/Bundle.js:17-22 | `isCompiling`, `hasCompiled`, `err` and `stats` are reset; configuration, compiler, queue and runs are unchanged |
| `WebpackCompiler.Bundle.GetConfig` | webpack-compiler/lib/WatchedBundle.js:13-24 | the result and the new `config` are `ResolveConfig`'s. A watched Bundle with `watchConfig` and a path option subscribes `invalidateConfig` to the path once, after the first success. A failure subscribes nothing, and nothing else changes |
| `WebpackCompiler.Bundle.GetCompiler` | webpack-compiler/lib/Bundle.js:46-58 | result, configuration and compiler are `ResolveCompiler`'s; at most one compiler is built per missing compiler; a configuration error builds none |
| `WebpackCompiler.Bundle.CallDone` | webpack-compiler/lib/Bundle.js:92-99 | the queue is emptied, and every callback in it is logged once, in order, with the same pair; nothing else changes |
| `WebpackCompiler.Bundle.Complete` | webpack-compiler/lib/Bundle.js:75-77 | completing a run's callback is either a `callDone` round over the queue or one call of the caller's callback |
| `WebpackCompiler.Bundle.Compile` | webpack-compiler/lib/Bundle.js:60-80 | on a resolution error, the callback completes with `(err, undefined)` and `isCompiling` is never set. Otherwise the outcome is reset, `isCompiling` is set and exactly one run is started with the callback |
| `WebpackCompiler.Bundle.RunFinished` | webpack-compiler/lib/Bundle.js:67-78 | the run's `err` and `stats` are recorded, `isCompiling` becomes false and `hasCompiled` is `!err`; the run leaves the in-flight list and its callback completes with the same pair |
| `WebpackCompiler.Bundle.OnceDone` | webpack-compiler/lib/Bundle.js:82-90 | a compiled Bundle delivers its cached `err`/`stats` to the whole queue plus the new callback without a run. A compiling one only appends. An idle one starts exactly one run completing with `callDone`, or, on a resolution error, answers the whole queue with it |
| `WebpackCompiler.Bundle.InvalidateConfig` | webpack-compiler/lib/WatchedBundle.js:26-32 | configuration and compiler are dropped along with everything `invalidate` resets; queue, runs, log and `watchingConfig` stay; the invariant is kept |
| `Scenarios.ConcurrentRequestsShareOneRun` | webpack-compiler/test/Bundle.js:129-172 | any number of `onceDone` calls on an idle Bundle start one run, and on completion each caller gets the run's pair once, in call order |
| `Scenarios.CompiledOutcomeIsCached` | webpack-compiler/test/Bundle.js:173-194 | after a successful build a further request is answered at once with the same stats, and no run is in flight |
| `Scenarios.FailedBuildIsRetried` | webpack-compiler/lib/Bundle.js:71 | after a failed build the next request starts a new run |
| `Scenarios.InvalidateDuringRunStartsSecondRun` | webpack-compiler/lib/Bundle.js:17-18 | `invalidate` during a run lets the next `onceDone` start a second run beside the first |
| `Scenarios.InvalidateForcesRebuild` | webpack-compiler/test/Bundle.js:195-223 | after success and `invalidate` the compiler is kept and the next request starts a new run |
| `Scenarios.DirectCompileLeavesWaitersQueued` | webpack-compiler/lib/Bundle.js:75-77 | a direct `compile(cb)` run answers only `cb`; callbacks queued meanwhile are answered by the next `onceDone` with the cached outcome |
| `Scenarios.MissingConfigIsReported` | webpack-compiler/lib/Bundle.js:29-31 | without a `config` option each request is answered with the error at once and `isCompiling` stays false |
| `Scenarios.ConfigChangeRebuildsFromNewConfig` | webpack-compiler/test/Bundle.js:347-416 | a change to a watched configuration file makes the next request build from the file's new export, with one subscription |
| `Scenarios.DuplicateWatchSharesOnePath` | webpack-compiler/test/Bundle.js:225-262 | two subscriptions to one path hand it to the watcher once and a change reaches both in order; a change elsewhere reaches none |
| `Scenarios.ResetStartsOver` | webpack-compiler/lib/WatchedBundle.js:61-67 | reset is allowed with no watcher; a reset closes the watcher, and the next subscription opens a new watcher that is handed the path again |
| `Scenarios.RepeatedRenderReusesComponent` | test/index.js:104-143 | two renders with the same component options share one stored Component |
| `Scenarios.AgreeingOptionsShareComponent` | test/index.js:119-127 | on any store, two renders whose options agree on `component`, `path` and `noCache` return the same Component, whatever their props; only the first can append, and it appends exactly when the store held no Component with that key |
| `Scenarios.NoCacheNeverStores` | lib/index.js:23-24 | with `noCache`, each render makes its own Component and nothing is stored |

## Findings

| source | as written | input that shows it | evidently intended | confidence | as-written member | corrected member |
|---|---|---|---|---|---|---|
| webpack-compiler/lib/Bundle.js:33-40 | `this.config` is set to the option before `require` runs. When `require` throws, the catch returns without clearing it | a `config` path whose `require` throws, then a second `getConfig` | the failure caches nothing, so the second call loads again and reports again if it still fails. Instead it succeeds and hands out the path string as the configuration | not executed; high: lines 33 and 39 admit no other reading | `BundleConfig.AsWrittenFailedLoadYieldsPath` | `BundleConfig.FailedResolutionIsRetried` |

`BundleConfig.GetConfigAsWritten` models the code as written. `BundleConfig.ResolveConfig` is the corrected resolution, and `WebpackCompiler.Bundle.GetConfig` uses it. `BundleConfig.CorrectionOnlyChangesFailedLoad` proves that the two differ only in what stays cached after a failed `require`.

## Left out

- `WebpackCompiler.Bundle.GetConfig` follows the corrected resolution `BundleConfig.ResolveConfig`: after a `require` throw it keeps no configuration, so the next call loads again. The source as written keeps the path string in `this.config` (Bundle.js:33, 39), so its next `getConfig` succeeds with that string; a watched Bundle with `watchConfig` then subscribes to the path (WatchedBundle.js:17-19), and `getCompiler` calls `webpack` on the string (Bundle.js:54). `WebpackCompiler.Bundle.GetCompiler`, `WebpackCompiler.Bundle.Compile` and `WebpackCompiler.Bundle.OnceDone` inherit this difference. The as-written behaviour is modelled only by `BundleConfig.GetConfigAsWritten` (see Findings).
- The webpack compilation itself (`webpack(config)`, `compiler.run`): an external library. It appears as the opaque value `Webpack(config)` and the event `RunFinished`. Runs may finish in any order; webpack throwing from `webpack(config)` is not modelled.
- chokidar and real filesystem events: I/O. The watcher is the list of paths it was handed plus a `closed` flag, and a change event is a call of `OnFileChange`. A watch that fails to attach is not modelled.
- `require` and `require.cache`: the host's module loader. It is a `Loader` parameter, so the cache deletion in `invalidateConfig` appears only as the freedom of the next load to return a new value. Whether `opts.config` is the key under which `require.cache` holds the module is not modelled.
- Module exports that are falsy (`module.exports = 0`): configurations are objects here, so `if (this.config)` reads as "a configuration is cached".
- `new Bundle()` without options: the source throws a TypeError at `this.opts.config`. Options are always present here.
- `compile()` without a callback: the source throws a TypeError when resolution fails (Bundle.js:62) and skips the call on completion (Bundle.js:75). Here every run has a completion callback.
- Re-entrant calls made from inside a callback: each callback's effects are modelled as later method calls. A round is therefore dispatched as one step, and the log does not interleave a nested `onceDone`'s deliveries with the rest of its round. Every callback of the round still receives the same captured pair, and callbacks added during the round belong to the next queue.
- `WebpackCompiler.Bundle.InvalidateConfig`: callable on any Bundle here, while the source defines it only on WatchedBundle.
- lib/Component.js (component resolution by `require`, `createFactory`, rendering) is not part of this model. lib/index.js and its tests read an `opts` property of a Component, which lib/Component.js never sets. `ReactRender.Component` carries `opts` as lib/index.js expects.
- Rendering and markup (`renderToStaticMarkup`/`renderToString`), `JSON.parse` and error stacks: foreign calls. The parser is a parameter. After reporting a parse error, lib/index.js:38-40 goes on to render with no props and calls the callback a second time; the model stops at the props choice.
- `serializedProps` given as a non-string (test/index.js:129): serialized props are strings here.
- Deep equality: it is equality of key values. The partial match of lib/components.js compares values by equality, so lodash's nested partial matching of objects inside a query is not modelled.
- `this.onFileChange` registered unbound with the watcher (WatchedBundle.js:41): it reads only the shared registry, so the binding has no effect and is not modelled.
- Concurrency beyond the single cooperative thread: interleavings are orderings of method calls and `RunFinished`/`OnFileChange` events.
