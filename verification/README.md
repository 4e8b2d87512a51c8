# AspectF in Dafny

AspectF lets a C# caller wrap a piece of work in cross-cutting behaviour
("aspects") with a fluent chain: `Let.Us.Retry().Log("…").Cache<T>(key).Return(() => …)`.
Every decorator call appends one wrapper `Action<Action>` to the chain through
`Let.Combine`. `Do(work)` runs the chain around an action. `Return(work)`
runs it around a delegate slot (`WorkDelegate`) that the cache decorators
may replace, and returns the last value read from that slot.

This project models that core:

- **`Let`**: the constructor, `Us`, `Combine`, `Do` and `Return` (module `Chain`).
- **The decorators of `AspectExtensions`**, executed as a right fold over the
  appended layers (module `Aspects`):
  - `Retry` and its overloads (module `RetryOverloads`);
  - `Delay`, `MustBeNonDefault` and `MustBeNonNull`;
  - `Until`, `While` and `WhenTrue`;
  - both `Log` forms, `TrapLog`, `TrapLogThrow`, `Expected` and `Transaction`;
  - the cache-aside decorators `Cache`, `CacheRetry` and `CacheList`, with the
    private `Cache` helper and `GetListFromSource` (module `CacheAside`).
- **The cache store `ICache`**, as far as the decorators use it: `Get`, `Add`
  and `Set` (module `Store`).

Everything the work, the predicates, the logger and the cache do is made
explicit in one `State` value:

- **Scripts.** `work` is the scripted outcome of every call of the caller's
  work, either a value or an exception. `tests` is the scripted answer of
  every predicate evaluation. `faults` says which numbered cache call throws.
- **Trace.** `trace` records every observable effect in order: calls of the
  work, predicate evaluations, logger calls, the caller's handlers, sleeps and
  cache calls.
- **Cache and slot.** `store` is the cache's contents. `slot` is
  `WorkDelegate` and `ret` is `Return`'s result cell.
- **Exhausted scripts.** A run that needs more scripted answers than it was
  given ends `Stuck`. This stands for the program blocking or spinning beyond
  what the script determines.

The lemmas in `DecoratorLemmas` and `CacheLemmas` state what each decorator
does to the chain it wraps; those in `ReturnLemmas` state what `Return` yields
when a decorator skips or retries the work. The main properties:

- the number of attempts `Retry` makes;
- the scan order of the guards;
- how many predicate evaluations and runs the loops make;
- the onion order of the before/after logs;
- which failures each trapping layer lets through;
- the cache round trips and the partial-miss reload of `CacheList`;
- how `CacheRetry` relates to two plain `Cache` attempts.
- `default(T)` from `Return` when the work never runs, and the successful attempt's value under `Retry`.

Where the code and the design description of the library disagree, the model
follows the code:

- **Default logger and cache.** The parameterless overloads call the
  `Let.Logger()` and `Let.Cache()` factories when the decorator is appended,
  not when the chain runs (`AspectF/AspectExtensions.cs:32`, `:390`).
- **`Combine` mutates.** It changes the `Let` instance in place and returns
  it; decorators are not pure chain-to-chain transformations. In the model a
  `Let` is a value and `Combine` returns the extended value. For the fluent
  usage the two cannot be told apart.
- **`failHandler` is dropped.** The overloads `Retry(failHandler)` and
  `Retry(failHandler, logger)` never pass `failHandler` on (see Findings).

## Model

| member | source | states |
|---|---|---|
| Chain.Us | AspectF/Let.cs:29-32 | a new `Let` (what `Let.Us` returns, lines 109-116) has no chain and runs no layers |
| Chain.Unfold | AspectF/Let.cs:52-60 | the closure a chain holds runs at least one layer of its own, and the continuation it is called with runs after all of them, innermost |
| Chain.Layers | AspectF/Let.cs:52-55 | a `Let` runs no layer exactly when its chain is still null |
| Chain.Combine | AspectF/Let.cs:50-63 | the first wrapper becomes the whole chain; after that, the appended wrapper runs innermost, inside all earlier ones, whose order is kept |
| Chain.UnfoldAppends | AspectF/Let.cs:58-60 | calling the composed closure `work => existing(() => new(work))` on a longer continuation only extends the layers it runs |
| Chain.BuildLayers | AspectF/Let.cs:50-63 | a fluent expression `Let.Us.A1()…An()` runs `A1` outermost through `An` innermost, in the order written |
| Chain.Build | AspectF/Let.cs:50-63 | a fluent expression leaves the chain null exactly when it appends no decorator |
| Chain.Do | AspectF/Let.cs:70-80 | `Do` runs the work alone on an empty chain, otherwise the right fold of the layers around the work |
| Chain.Return | AspectF/Let.cs:89-104 | the work goes into the slot; an empty chain returns `work()` and its exception; otherwise the value returned is the one last stored in the result cell (what it is when the slot reader never runs is stated by the `ReturnLemmas` rows) |
| CacheLemmas.ReturnRunsLayers | AspectF/Let.cs:91-103 | on a non-empty chain `Return` runs the layers around the slot reader, starting from the work in the slot and `default(T)` in the result cell |
| ReturnLemmas.ReturnOfBuild | AspectF/Let.cs:91-103 | `Return` on a fluent expression with at least one decorator runs its layers, in the order written, around the slot reader, with `default(T)` in the result cell |
| ReturnLemmas.ReturnSkippedByWhenTrue | AspectF/Let.cs:97-103 | when a `WhenTrue` skips the work (first condition false, AspectExtensions.cs:204-205), `Return` ends normally and yields `default(T)`, with the work never called and only that condition evaluated |
| ReturnLemmas.ReturnSkippedByTrappedGuard | AspectF/Let.cs:97-103 | when `TrapLog` swallows the `ArgumentException` of a `MustBeNonNull` (AspectExtensions.cs:159-174, 319-339), `Return` ends normally and yields `default(T)`; the work is never called and the exception is logged |
| ReturnLemmas.ReturnAfterRetry | AspectF/Let.cs:97-103 | `Return` under `Retry` (AspectExtensions.cs:106-129) yields the value of the first attempt that returns within the allowed attempts, and `default(T)` when every attempt fails; it always ends normally |
| Aspects.Finish | AspectF/Let.cs:98-102 | the slot reader does nothing when the slot is null and returns the constant a cache decorator left there |
| Aspects.Exec | AspectF/AspectExtensions.cs:131-139 | running any chain, including the `Delay` and single-message `Log` layers (lines 211-221), consumes scripted answers only from the front, only appends to the trace, leaves the fault script alone and never lowers the cache-call count; their exact effect is stated by `DecoratorLemmas.DelayAndLogRunRestOnce` |
| DecoratorLemmas.AttemptOutcome | AspectF/Let.cs:70-80 | the terminal continuation calls the work once: under `Do` directly, under `Return` through the slot (lines 98-102), which keeps a returned value in the result cell |
| Model.Classes | AspectF/AspectExtensions.cs:118 | every exception is a `System.Exception`, so `catch (Exception)` in `Retry`, `TrapLog`, `TrapLogThrow` and `CacheRetry` catches every failure |
| Aspects.RetryLoop | AspectF/AspectExtensions.cs:106-129 | the retry loop never lets an exception out |
| Aspects.Handled | AspectF/AspectExtensions.cs:118-126 | a caught failure leaves two events, or three when the caller supplied an error handler; the handler event appears exactly when a handler was supplied |
| DecoratorLemmas.HandledInOrder | AspectF/AspectExtensions.cs:123-125 | a caught failure is logged first and slept on last, with the error handler called in between |
| DecoratorLemmas.FirstSuccess | AspectF/AspectExtensions.cs:111-127 | the number of scripted failures before the first normal return: all before it throw, the one at it returns |
| DecoratorLemmas.Attempts | AspectF/AspectExtensions.cs:111-127 | `do … while (retryCount-- > 0)` allows `retryCount + 1` attempts for a non-negative count and exactly one for a negative count |
| DecoratorLemmas.FailuresOf | AspectF/AspectExtensions.cs:120-122 | the list `errors` collects the exceptions of the failed attempts, in order |
| DecoratorLemmas.FailureEventsHaveNoReport | AspectF/AspectExtensions.cs:118-126 | handling failed attempts never calls `retryFailed` |
| DecoratorLemmas.RetryAttempt | AspectF/AspectExtensions.cs:113-127 | one attempt, under `Do` or `Return`: a return ends the loop (under `Return` with its value in the result cell); a failure is logged, handed to `errorHandler` and slept on, then either retried or, with no retries left, reported to `retryFailed` |
| DecoratorLemmas.RetryLoopRetries | AspectF/AspectExtensions.cs:118-127 | a failed attempt with retries left is handled and followed by the next attempt, around any inner chain |
| DecoratorLemmas.RetryLoopStops | AspectF/AspectExtensions.cs:115-116 | an attempt that does not throw ends the loop with its own outcome |
| DecoratorLemmas.RetryLoopGivesUp | AspectF/AspectExtensions.cs:118-128 | a failed last attempt is handled, then `retryFailed` is called with all collected exceptions, and the loop ends normally |
| DecoratorLemmas.RetryLoopLastAttempt | AspectF/AspectExtensions.cs:118-128 | a failing work on the last allowed attempt leaves call, log, handler and sleep in the trace, followed by the `retryFailed` call |
| DecoratorLemmas.RetryLoopSucceeds | AspectF/AspectExtensions.cs:111-127 | failures followed by a return within the allowed retries: each failure leaves call, log, handler and sleep in the trace; then the work's return ends the loop, and under `Return` its value is in the result cell |
| DecoratorLemmas.RetryLoopExhausted | AspectF/AspectExtensions.cs:111-128 | when every remaining attempt fails, the trace holds all the handled failures and then one `retryFailed` call with every exception collected |
| DecoratorLemmas.RetryLoopMatchesReference | AspectF/AspectExtensions.cs:106-129 | the loop, under `Do` or `Return`, agrees with a loop-free reference: it returns at the first success within `retryCount + 1` attempts, otherwise it reports all failures |
| DecoratorLemmas.RetryAroundWork | AspectF/AspectExtensions.cs:106-129 | `Retry` around the work, under `Do` or `Return`, calls it until its first normal return, at most `max(retryCount, 0) + 1` times; it logs and handles every failure in order; `retryFailed` runs only after all attempts fail, nothing is rethrown, and under `Return` the successful attempt's value is in the result cell |
| DecoratorLemmas.RetryNeverThrows | AspectF/AspectExtensions.cs:118-128 | whatever it wraps, a `Retry` layer never throws |
| RetryOverloads.RetryDefault | AspectF/AspectExtensions.cs:21-33 | `Retry()` and `Retry(logger)` append the core loop with 1000 ms, one retry and no-op handlers |
| RetryOverloads.RetryWithFailHandler | AspectF/AspectExtensions.cs:35-46 | `Retry(failHandler[, logger])` as written appends the same loop as `Retry()` whatever handler it is given; a caller-supplied handler never becomes the loop's `retryFailed` |
| RetryOverloads.RetryWithFailHandlerFixed | AspectF/AspectExtensions.cs:35-46 | the evidently intended overload passes the given `failHandler` on as the loop's `retryFailed` |
| RetryOverloads.RetryWithDuration | AspectF/AspectExtensions.cs:48-59 | `Retry(retryDuration[, logger])`: the given duration, one retry, no-op handlers |
| RetryOverloads.RetryWithErrorHandler | AspectF/AspectExtensions.cs:61-74 | `Retry(retryDuration, errorHandler[, logger])`: one retry, the caller's error handler, no-op `retryFailed` |
| RetryOverloads.RetryWithCount | AspectF/AspectExtensions.cs:76-89 | `Retry(retryDuration, retryCount, errorHandler[, logger])`: the caller's count and error handler, no-op `retryFailed` |
| RetryOverloads.RetryWithAllHandlers | AspectF/AspectExtensions.cs:91-104 | the six-argument form passes every argument to the core loop |
| RetryOverloads.FailHandlerIgnored | AspectF/AspectExtensions.cs:35-46 | as written, a work failing twice under `Retry(failHandler)` ends normally, and the caller's handler is never called |
| RetryOverloads.FailHandlerCalledWhenPassedOn | AspectF/AspectExtensions.cs:35-46 | with the handler passed on, the same run calls it once, last, with both exceptions in order |
| Aspects.FirstDefault | AspectF/AspectExtensions.cs:147-153 | the argument scan stops at the first index whose argument is null or `default(T)`; all before it are neither |
| Aspects.Guarded | AspectF/AspectExtensions.cs:145-156 | an offending index throws `ArgumentException` for that index with nothing else run or changed |
| DecoratorLemmas.MustBeNonNullScans | AspectF/AspectExtensions.cs:159-174 | `MustBeNonNull` throws for the first null argument, before the rest of the chain runs; with no null argument it is transparent |
| DecoratorLemmas.MustBeNonDefaultScans | AspectF/AspectExtensions.cs:141-157 | `MustBeNonDefault` throws for the first argument that is null or equals `default(T)`; otherwise it is transparent |
| Aspects.UntilSpin | AspectF/AspectExtensions.cs:179-186 | the predicate is evaluated before anything else happens, and with no true answer in the script the spin never ends |
| DecoratorLemmas.UntilCounts | AspectF/AspectExtensions.cs:181-185 | the spin evaluates the predicate until its first true answer, then runs the continuation once |
| DecoratorLemmas.UntilSpinsThenRunsOnce | AspectF/AspectExtensions.cs:176-187 | `Until` with its first true answer at evaluation `j + 1` makes `j + 1` evaluations and then runs the rest of the chain exactly once |
| Aspects.WhileLoop | AspectF/AspectExtensions.cs:192-196 | the predicate is evaluated before anything else happens, and the loop ends normally only right after a false answer |
| DecoratorLemmas.WhileIteration | AspectF/AspectExtensions.cs:194-195 | one iteration consumes a predicate answer, so the loop cannot iterate more often than the predicate answers true |
| DecoratorLemmas.WhileStep | AspectF/AspectExtensions.cs:194-195 | a true answer runs the work and tests again; a false answer ends the loop |
| DecoratorLemmas.WhileReachesEnd | AspectF/AspectExtensions.cs:189-197 | `n` true answers followed by a false one run `n` iterations and stop |
| DecoratorLemmas.WhileEndClosedForm | AspectF/AspectExtensions.cs:194-195 | after `n` iterations, `n` work outcomes and `n + 1` answers are consumed; under `Return` the last run's value is in the result cell |
| DecoratorLemmas.WhileRunsOncePerTrue | AspectF/AspectExtensions.cs:189-197 | `While` runs the work once per consecutive true answer, and not at all if the first is false; it evaluates the predicate once more than it runs the work and changes nothing else |
| Aspects.WhenAll | AspectF/AspectExtensions.cs:202-208 | with at least one condition, the first is evaluated before anything else; a false first answer ends the layer normally without calling the work |
| DecoratorLemmas.WhenAllCounts | AspectF/AspectExtensions.cs:204-207 | the conditions are evaluated left to right up to the first false one |
| DecoratorLemmas.WhenAllPasses | AspectF/AspectExtensions.cs:204-207 | with all `n` conditions true, the rest of the chain runs after exactly `n` evaluations |
| DecoratorLemmas.WhenAllStops | AspectF/AspectExtensions.cs:204-205 | the first false condition ends the layer normally; no later condition is evaluated and the rest of the chain does not run |
| DecoratorLemmas.WhenTrueAllOrNothing | AspectF/AspectExtensions.cs:199-209 | `WhenTrue` runs the rest of the chain exactly when all conditions are true; otherwise it stops after the first false one and runs nothing |
| DecoratorLemmas.DelayAndLogRunRestOnce | AspectF/AspectExtensions.cs:131-139 | `Delay` sleeps, and the single-message `Log` (lines 211-248) logs once, each before running the rest of the chain once |
| Aspects.LoggedAround | AspectF/AspectExtensions.cs:254-261 | the before-message is logged before anything else happens; a normal return ends with the after-message |
| DecoratorLemmas.LogAroundLayer | AspectF/AspectExtensions.cs:250-290 | the before/after `Log` logs before, runs what it wraps, and logs after only when that returned normally |
| DecoratorLemmas.UnwoundCons | AspectF/AspectExtensions.cs:256-260 | the after-messages of nested layers unwind innermost first |
| DecoratorLemmas.OnionStep | AspectF/AspectExtensions.cs:254-261 | adding an outer before/after layer keeps the onion order |
| DecoratorLemmas.OnionOrder | AspectF/AspectExtensions.cs:250-290 | nested before/after logs: before-messages in append order ahead of the inner chain; after-messages in reverse order, and only after a normal return |
| Aspects.Trapped | AspectF/AspectExtensions.cs:319-362 | `TrapLog` never lets an exception out |
| DecoratorLemmas.TrapLogSwallows | AspectF/AspectExtensions.cs:319-339 | `TrapLog` logs a failure of what it wraps and ends normally; it changes nothing else |
| DecoratorLemmas.TrapLogThrowRethrows | AspectF/AspectExtensions.cs:341-362 | `TrapLogThrow` logs a failure and rethrows the same exception; it is transparent otherwise |
| Aspects.Tolerated | AspectF/AspectExtensions.cs:520-534 | no instance of the expected exception class escapes `Expected` |
| DecoratorLemmas.ExpectedSwallowsOnlyItsClass | AspectF/AspectExtensions.cs:520-534 | `Expected<C>` swallows exactly the failures that are instances of `C` (or a subclass) and passes every other outcome through |
| DecoratorLemmas.TransactionCompletesOnlyOnReturn | AspectF/AspectExtensions.cs:536-546 | `scope.Complete()` is reached exactly when what the transaction wraps returns normally; failures propagate |
| Aspects.Transacted | AspectF/AspectExtensions.cs:538-545 | the transaction does not change the outcome of what it wraps, and a normal return ends with `scope.Complete()` |
| CacheAside.Eval | AspectF/AspectExtensions.cs:405-418 | calling the work consumes one scripted outcome and returns or throws it; a constant delegate returns its value; no delegate touches the slot, the result cell or the predicates, and a failed call yields no value |
| CacheAside.SetEach | AspectF/AspectExtensions.cs:410-414 | the item-storing loop touches only the trace, the store and the call counter, and ends normally or with a store failure |
| CacheAside.SetEachStoresAll | AspectF/AspectExtensions.cs:410-414 | without store failures, every item is `Set` under its own key, in list order, one call per item |
| CacheAside.ItemsFromCache | AspectF/AspectExtensions.cs:429-444 | the shaping hook reads without writing; it answers a list with one entry per item, or null |
| CacheAside.ShapeCached | AspectF/AspectExtensions.cs:506 | `Cache` and `CacheRetry` accept a cached value as is (`cached => cached`) |
| CacheAside.GetFromSource | AspectF/AspectExtensions.cs:548-559 | a null slot stays null and nothing is called; otherwise the value loaded is stored under the key and the slot returns that same value |
| CacheAside.Fetch | AspectF/AspectExtensions.cs:495-516 | the private helper always starts with `Get(key)`; a failure leaves the slot as it was; success with a non-null slot leaves a constant in it |
| Aspects.CacheAttempt | AspectF/AspectExtensions.cs:495-518 | the private helper with its continuation starts with `Get(key)` before anything else |
| Aspects.CacheRetried | AspectF/AspectExtensions.cs:463-485 | `CacheRetry` starts with `Get(key)`; when it throws, its last effect is logging that exception |
| Store.Get | AspectF/ICache.cs:13 | `Get` records one cache call and changes no stored value; it fails exactly when the fault script says so; it answers the stored value, null for a missing key or a failed call |
| Store.Add | AspectF/ICache.cs:7 | `Add` records one cache call and fails exactly when the fault script says so; on success the key then holds the value, on failure the store is unchanged |
| Store.Set | AspectF/ICache.cs:9 | `Set` records one cache call and fails exactly when the fault script says so; on success the key then holds the value, on failure the store is unchanged |
| Store.GetAfterWrite | AspectF/ICache.cs:7-13 | a `Get` right after a successful `Add` or `Set` answers the value written for that key, and the earlier value for any other key |
| CacheLemmas.FetchHit | AspectF/AspectExtensions.cs:498-514 | a hit makes one `Get` and puts the cached value in the slot; the source is not called |
| CacheLemmas.FetchMiss | AspectF/AspectExtensions.cs:498-501 | a miss calls the source once, `Add`s its value under the key and puts the value in the slot |
| CacheLemmas.FetchMissSourceFails | AspectF/AspectExtensions.cs:551-555 | a failing source on a miss propagates; nothing is added and the slot still holds the work |
| CacheLemmas.FetchMissWithoutSource | AspectF/AspectExtensions.cs:551-558 | with a null slot (under `Do`) a miss calls nothing and adds nothing |
| CacheLemmas.FetchGetFails | AspectF/AspectExtensions.cs:498 | a failing `Get` propagates before anything else is called |
| CacheLemmas.FetchOnMiss | AspectF/AspectExtensions.cs:499-502 | after a missing `Get` the helper is exactly the load from the source |
| CacheLemmas.FetchShapedHit | AspectF/AspectExtensions.cs:506-514 | a non-null shaped value goes into the slot and nothing is loaded |
| CacheLemmas.FetchShapedMiss | AspectF/AspectExtensions.cs:506-510 | a shaping hook that answers null makes the hit a miss |
| CacheLemmas.CacheHitSkipsSource | AspectF/AspectExtensions.cs:379-391 | `Cache(key)` on a hit runs the rest of the chain with the cached value in the slot and never calls the source |
| CacheLemmas.CacheMissLoadsOnce | AspectF/AspectExtensions.cs:379-391 | `Cache(key)` on a miss loads once, adds the value once, and runs the rest of the chain with it in the slot |
| CacheLemmas.CacheOnly | AspectF/AspectExtensions.cs:379-384 | the chain `Let.Us.Cache(key)` has exactly one cache layer |
| CacheLemmas.CacheRoundTrip | AspectF/AspectExtensions.cs:379-391 | the first `Return` misses, returns the source's value and caches it; the second returns the same value from the cache without calling the source |
| CacheLemmas.NullResultLoadsAgain | AspectF/AspectExtensions.cs:498-502 | a null result is cached as null, which the next `Get` cannot tell from a miss, so the source is called again |
| CacheLemmas.Rebuilt | AspectF/AspectExtensions.cs:429-444 | the rebuilt list has one entry per cached item |
| CacheLemmas.RebuiltLooksUpEachItem | AspectF/AspectExtensions.cs:430 | each entry of the rebuilt list is what the store holds under that item's key |
| CacheLemmas.ItemsFromCacheStep | AspectF/AspectExtensions.cs:430-435 | a found item is appended and the lookups continue with the next one |
| CacheLemmas.ItemsAllCached | AspectF/AspectExtensions.cs:429-444 | with every item cached, the hook looks each one up in order and answers the list of what it found |
| CacheLemmas.ItemsStopAtMissing | AspectF/AspectExtensions.cs:430-441 | the first missing item stops the lookups and the hook answers null |
| CacheLemmas.StoreEachSetsItems | AspectF/AspectExtensions.cs:405-418 | CacheList's replacement delegate calls the work once, `Set`s each item under its own key in order, and returns the untouched list |
| CacheLemmas.ListSourceLoad | AspectF/AspectExtensions.cs:548-559 | CacheList's load stores every item, then `Add`s the list under the list key |
| CacheLemmas.CacheListOnly | AspectF/AspectExtensions.cs:394-398 | the chain `Let.Us.CacheList(listKey, getItemKey)` has exactly one CacheList layer |
| CacheLemmas.CacheListWraps | AspectF/AspectExtensions.cs:398-423 | CacheList replaces the slot by the item-storing delegate before its cache-aside step |
| CacheLemmas.CacheAttemptReads | AspectF/AspectExtensions.cs:513-517 | once the helper has left a value in the slot, the continuation reads it |
| CacheLemmas.ReturnThroughCacheList | AspectF/AspectExtensions.cs:398-446 | `Return` through CacheList returns whatever value the cache-aside step left in the slot |
| CacheLemmas.FetchListMiss | AspectF/AspectExtensions.cs:394-447 | a list not in the cache is loaded, its items are `Set` one by one and the list is `Add`ed |
| CacheLemmas.FetchListHit | AspectF/AspectExtensions.cs:423-445 | a cached list with all items cached is rebuilt from the items; nothing is loaded or stored |
| CacheLemmas.ShapeStopsAtMissing | AspectF/AspectExtensions.cs:436-441 | the hook on a list with a missing item makes the lookups up to it and answers null |
| CacheLemmas.FetchListDiscards | AspectF/AspectExtensions.cs:426-441 | a cached list with a missing item is discarded, and the helper loads from the source |
| CacheLemmas.FetchListPartialMiss | AspectF/AspectExtensions.cs:423-445 | after the discard, the whole list is reloaded and every item and the list are stored again |
| CacheLemmas.ListMissStoresEachItem | AspectF/AspectExtensions.cs:394-447 | `Return` through CacheList on a miss returns the source's list; its trace, store and script are stated exactly |
| CacheLemmas.ListHitRebuildsFromItems | AspectF/AspectExtensions.cs:423-445 | `Return` through CacheList on a full hit returns the list rebuilt from the items, without calling the source or storing anything |
| CacheLemmas.ListPartialMissReloads | AspectF/AspectExtensions.cs:423-445 | the partial-miss law: one missing item makes the whole list reload from the source, storing all items and the list again |
| CacheLemmas.StoreAllHoldsItems | AspectF/AspectExtensions.cs:410-414 | with distinct item keys, every item is then held under its own key, and every other key is unchanged |
| CacheLemmas.ListRoundTrip | AspectF/AspectExtensions.cs:394-447 | round trip: a miss stores the list and its items; the next `Return` rebuilds the same list from the cache without calling the source or storing anything |
| CacheLemmas.CacheLayer | AspectF/AspectExtensions.cs:379-384 | a `Cache` layer is the private helper followed by the rest of the chain |
| CacheLemmas.CacheRetryLayer | AspectF/AspectExtensions.cs:457-486 | a `CacheRetry` layer is the retried helper around the rest of the chain |
| CacheLemmas.CacheLayers | AspectF/AspectExtensions.cs:379-486 | both cache layers, in front of any rest of the chain |
| CacheLemmas.CacheRetryWithoutFailure | AspectF/AspectExtensions.cs:465-468 | when a plain `Cache` attempt does not throw, `CacheRetry` behaves exactly like `Cache`: no log, no sleep, no second attempt |
| CacheLemmas.CacheRetryAfterFailure | AspectF/AspectExtensions.cs:469-484 | after a failed first attempt, the failure is logged, 1000 ms are slept and `Cache` runs exactly once more; its success is the outcome, and its failure is logged and rethrown |
| CacheLemmas.CacheRetryOnly | AspectF/AspectExtensions.cs:457-463 | the chain `Let.Us.CacheRetry(key)` has exactly one CacheRetry layer |
| CacheLemmas.CacheRetryGetFailureStep | AspectF/AspectExtensions.cs:465-478 | a failing first `Get` followed by a hit: log, sleep, second `Get`, cached value in the slot |
| CacheLemmas.CacheRetryOutlastsGetFailure | AspectF/AspectExtensions.cs:457-486 | when the cache is unavailable for the first `Get`, `CacheRetry` still returns the cached value, and the source is never called |
| CacheLemmas.CacheLoadFails | AspectF/AspectExtensions.cs:495-517 | `Cache` on a miss with a failing source throws that failure after one `Get` and one call |
| CacheLemmas.CacheLoadSucceeds | AspectF/AspectExtensions.cs:495-517 | `Cache` on a miss with a returning source adds and returns the value |
| CacheLemmas.RetriedCacheLoad | AspectF/AspectExtensions.cs:106-129 | `Retry` around `Cache`, with a source that fails once: the failed load adds nothing, and the retried cache-aside step loads and adds the value once |
| CacheLemmas.RetryRecoversCacheLoad | AspectF/AspectExtensions.cs:21-33 | `Let.Us.Retry().Cache(key).Return(work)` with a work that fails once returns the work's second value, added to the cache exactly once |

## Left out

- `HowLong` (AspectF/AspectExtensions.cs:292-317): it reads the clock. Its observable shape matches the before/after `Log`, but the elapsed-time formatting depends on `DateTime.Now`.
- `RunAsync` (AspectF/AspectExtensions.cs:364-377): it dispatches to another thread. Concurrency is not modelled; every run here is single-threaded.
- `Use` (AspectF/AspectExtensions.cs:569-577): it is `Return` around a caller callback, which is not a decorator.
- `DoNothing` (AspectF/AspectExtensions.cs:11-19): the no-op handler is the `DoNothing` callback value.
- Time: `Thread.Sleep` and `Delay` become a `Slept(ms)` event; no time passes. Negative durations are recorded as given, whereas .NET rejects negative sleeps other than -1.
- `string.Format`: the single-message `Log` with arguments is modelled with its message already formatted.
- `Expected`: its `Debug.WriteLine` output is not modelled.
- `Transaction`: ambient transactions are a single `TransactionCompleted` event. Nesting and rollback are not modelled.
- `Let.Logger` and `Let.Cache` (AspectF/Let.cs:37-41): the global factories are not modelled. Every decorator uses the single logger trace and the single store of the state, so it cannot be observed which logger or cache instance was used.
- Caller code: `work`, the predicates, `errorHandler`, `retryFailed` and the logger are scripted or recorded as events. They always return normally, except the scripted work, which may throw.
- `getItemKey`: it is a `KeyFunction`, a finite table of keys plus one key for every other item. One run applies it to finitely many items, so this loses nothing for a single run.
- Values: values are untyped. The `as Func<T>` casts in `Return`, `CacheList` and `GetListFromSource` never fail. The `(TReturnType)cachedData` cast of `Cache` does not fail either. `InvalidCastException` is raised in two places. CacheList's shaping of a non-list cached value raises it, as the source does. `CacheAside.Eval` also raises it in its `StoreEach` branch when the inner delegate returns a value that is neither null nor a list. That second path exists only in the model: in the source the inner delegate is a typed `Func<TListType>` (AspectExtensions.cs:400-416), so it can never return such a value.
- `Do` reuses the slot a previous `Return` left in a reused `Let`. The model starts `Do` from the state it is given and does not track this.
- Store.Add: assumed to overwrite an existing key, like `Set`. `ICache` does not say what `Add` does then (AspectF/ICache.cs:7).
- Reference identity (`Assert.Same`) is value equality here.
- A `Let` value is immutable here. Sharing one `Let` between two fluent expressions, which `Combine`'s in-place update makes observable, is not modelled.

## Findings

| source | as written | input that shows it | evidently intended | confidence | as-written member | corrected member |
|---|---|---|---|---|---|---|
| AspectF/AspectExtensions.cs:35-46 | `Retry(failHandler, logger)` hands `x => DoNothing()` to the core loop; the caller's `failHandler` is never called | `Let.Us.Retry(failHandler).Do(work)` with a work that throws on both attempts | `failHandler` receives both exceptions once all attempts fail, as `retryFailed` does in the six-argument overload | not executed | RetryOverloads.FailHandlerIgnored | RetryOverloads.FailHandlerCalledWhenPassedOn |
