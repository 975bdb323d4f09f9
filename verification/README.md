# Proofs about operator-utils

Dafny models of the stateful parts of operator-utils, and proofs of what they promise.
`dafny verify dfyconfig.toml` checks everything.

| files | what they model |
|---|---|
| `WatchModel`, `WatchLaws`, `WatchCalls`, `WatchRuns`, `WatchRegistry`, `WatchHistory` | The dynamic watch registry. `WatchRegistry.dfy` has the registry as a class over maps of entry objects, channels and contexts; every method is proved to do what a function of `WatchModel.dfy` does. The laws are proved about those functions: the books kept with the outside (`WatchLaws`), whole calls (`WatchCalls`), whole histories (`WatchRuns`). `WatchHistory` makes any sequence of calls on the object and shows that it is one of those histories. |
| `Lifecycle`, `LifecycleRuns`, `LifecycleEnds` | telemetry `Init`, `retire` and the shutdown closures: any number of calls that interleave step by step over the global providers, `initMu` and `initialized`. The steps and their invariant are in `Lifecycle`, what follows for every schedule in `LifecycleRuns`, how calls end, and that they do, in `LifecycleEnds`. |
| `Following` | The double-checked cache that follows the global MeterProvider, and the active-request count behind it, again as interleaved steps. The endpoint instruments use the same cache without the requests. |
| `Recovery` | Handlers under any nesting of recovery layers: which panics are counted, and who may answer 500. |
| `Logging` | The log handler with its fast path and its replay. |
| `NameTable` | The custom metrics' name table, as a class, and interleaved registrations against it. |
| `Bridge` | The Prometheus reader, the filter in front of the OTLP bridge, and the claim on controller-runtime's registry. |
| `Headers` | `parseHeaders`, its inverse, and the environment overrides. |
| `Wrappers` | The type of values that may be missing. |

## Where the source falls short of what it says

- `retire` is described as resetting the meter provider only when Init owned it, so that another component's keeps
  exporting (telemetry-web/telemetry.go:253-257). What decides is `Config.MeterProvider` of the Init in question and not
  whose provider is global. An Init without one that fails resets whatever is there, at any of its steps
  (`LifecycleEnds.SuppliedIsReset`), and so does the shutdown of its session after another component has published its own
  (`LifecycleEnds.SuppliedIsResetByShutdown`). A noop is written over the meter provider exactly when such a call retires
  (`LifecycleRuns.ResetExactly`, call by call `LifecycleRuns.RetiredResets`), and `LifecycleRuns.OverwrittenExactly` says when
  it is a supplied one that is lost; when every Init is given a provider, none ever
  is (`LifecycleRuns.SuppliedNeverReset`).
- Recovery is described as writing 500 if nothing has been written yet (telemetry-web/nethttp/nethttp.go:240-241). A layer
  knows only what passed through it, and its 500 goes over whatever was sent before it was entered: `Recovery.OverwritesExactly` has
  the condition for every nesting of layers, `Recovery.OverwritesOnce` an instance, and `Recovery.NeverOverPriorStatus` the
  shape of a chain in which it cannot happen.
- A rebuild is described as happening only on a swap (telemetry-web/nethttp/nethttp.go:141-142). A call in flight that may
  still build for an older provider can make two happen without one: `Following.StaleBuildsTwice`, and
  `Following.StaleReachable` for how that comes about. Without such a call there is at most one, and the condition is
  exact: `Following.BuildsExactly`.

## Model

| member | source | states |
|---|---|---|
| WatchRegistry.WatchRegistry.constructor | dynamicinformer/registry.go:209-223 | A new registry is empty and its invariant holds. |
| WatchRegistry.WatchRegistry.StopWatchLocked | dynamicinformer/registry.go:520-526 | Cancels the informer's context, forgets the key, gives the client back to a provider that takes it back; nothing else changes. |
| WatchRegistry.WatchRegistry.ForgetKey | dynamicinformer/registry.go:496-502 | The consumer's key set loses the key, and the consumer itself once the set is empty. |
| WatchRegistry.WatchRegistry.DropHandlerLocked | dynamicinformer/registry.go:493-507 | The handler goes, its channel is closed, the index follows, the handler is detached, in that order. |
| WatchRegistry.WatchRegistry.ReleaseWatchLocked | dynamicinformer/registry.go:482-514 | A missing entry or handler is a no-op; else the handler is dropped, and the watch stopped with its last one; an error of RemoveEventHandler is returned and changes nothing. |
| WatchRegistry.WatchRegistry.RunEntry | dynamicinformer/registry.go:418-428 | The new entry runs on a fresh context under the parent, with no handlers, and is stored under its key. |
| WatchRegistry.WatchRegistry.StartWatchLocked | dynamicinformer/registry.go:391-429 | Every outcome of ClientFor and the InformerFunc, panics and nils included: stored and running only on success, and a client that was acquired is given back otherwise. |
| WatchRegistry.WatchRegistry.AttachLocked | dynamicinformer/registry.go:355-370 | The consumer's handler is added with a channel of its own that no other registration has had. |
| WatchRegistry.WatchRegistry.AttachStep | dynamicinformer/registry.go:349-372 | A consumer already on the entry gets a handle for its present registration; a refused handler stops an informer that has none. |
| WatchRegistry.WatchRegistry.EnsureKey | dynamicinformer/registry.go:337-373 | One iteration of the loop is one step of the model's loop, and what it hands over stands for the model's handle, error or panic. |
| WatchRegistry.WatchRegistry.ReleaseKeys | dynamicinformer/registry.go:435-443 | The release loops (rollback, stale keys, releaseAllLocked) are the model's releases in order, with their errors. |
| WatchRegistry.WatchRegistry.StoreKeys | dynamicinformer/registry.go:383 | The consumer's key set is replaced. |
| WatchRegistry.WatchRegistry.ReleaseAllLocked | dynamicinformer/registry.go:455-475 | Releases the consumer's keys in the order in which the map yields them. |
| WatchRegistry.WatchRegistry.ReleaseAll | dynamicinformer/registry.go:448-453 | Keeps the registry's invariant; afterwards the consumer holds nothing. |
| WatchRegistry.WatchRegistry.AddWatches | dynamicinformer/registry.go:337-373 | The loop of EnsureWatchSet goes as far as the model's, with its registrations and newly added keys, or stops where that one fails or panics. |
| WatchRegistry.WatchRegistry.StopIfUnused | dynamicinformer/registry.go:355-361 | When AddEventHandler fails, an informer without handlers is stopped, and any other left alone. |
| WatchRegistry.WatchRegistry.EnsureWatchSet | dynamicinformer/registry.go:292-386 | Keeps the invariant, does what the model's call does, and returns what it returns; unless registrations are returned for a non-empty set, every key has the very entry object it had, each entry the handlers it had, and the reverse index is the same. Objects new to the registry are fresh, so a caller can go on using it. |
| WatchRegistry.WatchRegistry.EntriesRestored | dynamicinformer/registry.go:323-335 | Equal indexes in the model mean the same entry objects in the registry, with the handlers, channels and contexts they had. |
| WatchRegistry.WatchRegistry.GetIndexerServes | dynamicinformer/registry.go:79-109 | GetIndexer on a returned registration serves exactly when the model says its handle is served; that is, exactly while its released channel is open and neither the informer's context nor the parent, nor any context above that, is cancelled. |
| WatchRegistry.Collect | dynamicinformer/registry.go:314-321 | The stale keys, each once, in some order. |
| WatchRegistry.Keys | dynamicinformer/registry.go:305-309 | The keys asked for. |
| WatchRegistry.Channel.Close | dynamicinformer/registry.go:494 | A channel is closed only while it is open. |
| WatchRegistry.Outside.ClientFor | dynamicinformer/registry.go:392-400 | A call to the provider is on record, and a client it returned. |
| WatchRegistry.Outside.Release | dynamicinformer/registry.go:405-407 | Only a provider that takes clients back is told. |
| WatchHistory.Make | dynamicinformer/registry.go:292-453 | A call on the object is a step of a run, and its outcome stands for the step's result. |
| WatchHistory.Drive | dynamicinformer/registry.go:183-196 | Any sequence of EnsureWatchSet and ReleaseAll calls on a new registry is a run of the model that ends in the registry's state, so what is proved of runs holds of the object. |
| WatchHistory.HistoryServes | dynamicinformer/registry.go:70-87 | After any such sequence, GetIndexer on a registration that one of its calls returned serves the informer exactly while that registration is the one held for its key and consumer and no context above the informer's is cancelled. |
| WatchLaws.EmptyInv | dynamicinformer/registry.go:209-223 | The invariant of a new registry. |
| WatchLaws.StartKeepsCore | dynamicinformer/registry.go:391-429 | Starting a watch, however it ends, keeps the books: clients balance the watched keys, started informers are watched or stopped, every event was allowed when it happened. |
| WatchLaws.AttachKeepsCore | dynamicinformer/registry.go:355-370 | So does attaching a handler. |
| WatchLaws.DropKeepsCore | dynamicinformer/registry.go:488-507 | So does dropping one. |
| WatchLaws.StopKeepsCore | dynamicinformer/registry.go:520-526 | So does stopping a watch without handlers. |
| WatchLaws.ReleaseKeepsCore | dynamicinformer/registry.go:482-514 | So does a release. |
| WatchCalls.ReleasesPrune | dynamicinformer/registry.go:462-472 | A sequence of releases has a closed form that depends on the set of keys and not on their order. |
| WatchCalls.IterationStep | dynamicinformer/registry.go:337-373 | In the middle of the loop, taking the consumer off the newly added keys gives the registry of before the call; the loop goes on exactly when the first occurrence of a key is answered well. |
| WatchCalls.LoopOutcome | dynamicinformer/registry.go:337-373 | Whether the loop completes, fails or panics is decided by the answers to the first occurrences, wherever they stand. |
| WatchCalls.RollbackRestores | dynamicinformer/registry.go:435-443 | Releasing the newly added keys restores both indexes. |
| WatchCalls.FailureRestores | dynamicinformer/registry.go:323-363 | A call that is refused or panics, wherever in its list and with keys repeated, leaves both indexes as they were. |
| WatchCalls.FailureReports | dynamicinformer/registry.go:323-363 | A refused call reports what failed at the first request not answered well, the client, the informer or the handler, and then each handler it had added before that could not be removed again. |
| WatchCalls.SuccessCommits | dynamicinformer/registry.go:375-385 | A call answered well commits: the consumer holds exactly what it asked for, the handles are those now held, and only stale removal can have left errors. |
| WatchCalls.CommittedUntouched | dynamicinformer/registry.go:375-385 | A committed call changes nothing of any other consumer. |
| WatchCalls.ReleaseClears | dynamicinformer/registry.go:448-475 | After a release the consumer holds nothing and is not in the index; nobody else notices; the errors are those of the keys whose handler could not be removed. |
| WatchCalls.SweepLog | dynamicinformer/registry.go:462-472 | What the outside sees of a sweep is, key by key, what a single release would show. |
| WatchCalls.OrderIrrelevant | dynamicinformer/registry.go:314-321 | Whatever order the map yields, the indexes and handles are the same, and the errors and outside events are the same up to order. |
| WatchRuns.RunRefinesResults | dynamicinformer/registry.go:292-386 | After any history of calls, failures and panics included, the index is what the calls' results spell out: the last granted set, or nothing after a release. |
| WatchRuns.RunHoldsExactlyWanted | dynamicinformer/registry.go:188-196 | A key is watched, under the handlers of exactly the consumers that want it, if and only if one does; no consumer maps to an empty set. |
| WatchRuns.LawfulPrefix | dynamicinformer/registry.go:391-429 | Every event of a run was allowed at the moment it happened. |
| WatchRuns.RunConservesClients | dynamicinformer/registry.go:148-162 | At every call boundary each identity has as many outstanding clients as watched keys; at no moment has more been given back than acquired. |
| WatchRuns.FailureKeepsClients | dynamicinformer/registry.go:402-407 | A call that fails or panics has given back every client it acquired: each identity's balance is what it was before. |
| WatchRuns.RunStartsWhatItKeeps | dynamicinformer/registry.go:341-347 | A client is asked for, and an informer started, only while its key has none; the informers started and not stopped are those of the watched keys. |
| WatchRuns.ServesIffHeld | dynamicinformer/registry.go:79-87 | A handle is served if and only if its registration is still the one held and the parent context is not done. |
| WatchRuns.RunServesIffHeld | dynamicinformer/registry.go:79-87 | The same of every handle a history returned, at every later moment. |
| WatchRuns.RunStaysStopped | dynamicinformer/registry.go:70-72 | A handle that has stopped stays stopped, though its key be asked for again. |
| WatchRuns.RunSparesOthers | dynamicinformer/registry.go:482-514 | A call for one consumer leaves the others' handles as they were. |
| WatchRuns.RunClosesOnce | dynamicinformer/registry.go:493-507 | Over a whole history each released channel is closed, and its handler detached, at most once, and the one as often as the other. |
| WatchRuns.GoodCallsCommute | dynamicinformer/registry.go:292-386 | When all goes well outside, calls for distinct consumers commute on who holds what with which callback; each informer has the parent context of the call that started it, so these agree when one context is behind the calls and what is already watched. |
| WatchRuns.IndexDeterminesHolders | dynamicinformer/registry.go:188-196 | The two indexes agree, so equal key sets mean equal handlers. |
| Lifecycle.StepKeeps | telemetry-web/telemetry.go:92-202 | Every step of every call keeps the invariant that ties the mutex, the flag, the sessions, the globals and the providers to their owner. |
| Lifecycle.RunKeeps | telemetry-web/telemetry.go:92-202 | So the invariant holds after any interleaving of any number of calls. |
| Lifecycle.BuildView | telemetry-web/telemetry.go:118-181 | What the globals and an Init's own providers are, at each point of its way, on every branch. |
| Lifecycle.FailView | telemetry-web/telemetry.go:265-271 | What they are while a failure is put back. |
| Lifecycle.StopView | telemetry-web/telemetry.go:186-196 | What they are while the shutdown closure runs. |
| LifecycleRuns.OpenSessionOwnsGlobals | telemetry-web/telemetry.go:173-201 | From the return of an Init until its shutdown is called, the tracer and the service name are its own, its providers run, and the meter provider is the one it created or was given, unless another component has published one since. |
| LifecycleRuns.OpenSessionUndisturbed | telemetry-web/telemetry.go:103-107 | During that time no step of any call changes a global: no retire overwrites what a later Init installed, supplied or its own. |
| LifecycleRuns.OnlyOwnerWrites | telemetry-web/telemetry.go:103-116 | A global changes only by the Init past the guard, which holds initMu while no session is open, by the closure of the one open session, or, the meter provider, from outside. |
| LifecycleRuns.OnlyOwnerTakesDown | telemetry-web/telemetry.go:112-116 | A provider that an Init created and made global is replaced only by that Init failing, by its own shutdown, or, for meters, from outside. |
| LifecycleRuns.TurnedAwayWritesNothing | telemetry-web/telemetry.go:92-107 | An Init refused by the guard or its argument checks, and a repeated shutdown, have written no global. |
| LifecycleRuns.IdleMeansNoop | telemetry-web/telemetry.go:109-116 | When no Init is past the guard and no session is open, as after a failed Init or a completed shutdown, the tracer is the noop, the service name empty, and no meter of Init's is left. |
| LifecycleRuns.ProvidersShutOnce | telemetry-web/telemetry.go:175-201 | Every provider created is shut down at most once, and once nobody owns the globals exactly once; those still running are all of one Init. |
| LifecycleRuns.SuppliedNeverShut | telemetry-web/telemetry.go:204-212 | An Init with a supplied MeterProvider has none of its own, created or shut down, whether it failed, is at work or opened a session. |
| LifecycleRuns.RetiredResets | telemetry-web/telemetry.go:112-116 | A failed Init, and a completed shutdown, has put the noop over the meter provider exactly when the Init in question was given none. |
| LifecycleRuns.ResetExactly | telemetry-web/telemetry.go:265-271 | Over a whole run, a noop was written over the meter provider if and only if some call has retired, by failing or by shutdown, whose Init was given none. |
| LifecycleRuns.OverwrittenExactly | telemetry-web/telemetry.go:253-257 | What a reset is put over: a provider that another component supplied exactly when the Init had found one of these on passing the guard and had not come to create its own, unless one was published since. |
| LifecycleRuns.SuppliedNeverReset | telemetry-web/telemetry.go:253-257 | When every Init is given a MeterProvider, the global one is never reset and never Init's. |
| LifecycleEnds.InitEndsAsConfigured | telemetry-web/telemetry.go:92-171 | In every schedule an Init ends by its arguments and what works: rejected exactly on invalid ones, refused only on valid ones, failed only if something past the guard did not work, and else with a session of just these arguments. |
| LifecycleEnds.ShutdownEndsOnce | telemetry-web/telemetry.go:175-201 | One call alone runs the closure of a session; every other call of it that ends does so when that one has. |
| LifecycleEnds.SomeCallMoves | telemetry-web/telemetry.go:103-104 | No deadlock: in every reachable state with a call that has not ended, some call can take a step. |
| LifecycleEnds.StepsRunOut | telemetry-web/telemetry.go:92-202 | Every step that changes anything brings its call nearer to its end. |
| LifecycleEnds.AllCallsEnd | telemetry-web/telemetry.go:92-202 | So from every reachable state all calls come to an end, within the steps they have ahead of them. |
| LifecycleEnds.InitAlone | telemetry-web/telemetry.go:92-202 | An Init that nothing interrupts opens a session with its meter provider global, or fails with the noop, or the previous one if it was given one, by which of its steps work. |
| LifecycleEnds.ShutdownAlone | telemetry-web/telemetry.go:185-201 | A shutdown that nothing interrupts returns after ten steps, with nothing initialized, the mutex free, the globals noops, its closure done for good; the meter provider is reset, whoever published it, exactly when its Init was given none. |
| LifecycleEnds.InitAfterShutdown | telemetry-web/telemetry.go:86-88 | From any reachable state with an open session and the mutex free: after a shutdown an Init may be called again, and opens a session with the globals its own, or fails, as its configuration says. |
| LifecycleEnds.ShutdownAgain | telemetry-web/telemetry.go:87-88 | A shutdown may be called again: once its closure has run, a call ends at once and changes nothing else. |
| LifecycleEnds.SuppliedIsReset | telemetry-web/telemetry.go:112-116 | An Init that fails at any of its steps resets a provider another component published, unless it was given one too. |
| LifecycleEnds.SuppliedIsResetByShutdown | telemetry-web/telemetry.go:194 | So does the shutdown of a session that was open while the other component published, though no Init has failed. |
| Following.KnownStep | telemetry-web/nethttp/nethttp.go:158-171 | Each step of a lookup keeps: it goes by a provider that was global during the call, and what it gets was built from that one, and is numbered as the build that made it. |
| Following.RunKeeps | telemetry-web/endpoint/endpoint.go:59-73 | The invariant of the cache after any interleaving of lookups and swaps. |
| Following.RunOrigins | telemetry-web/nethttp/nethttp.go:154-171 | However things interleave, each request in flight is the one that arrived under its number, goes by a provider that was the global one at a step it took after arriving, and is counted under the attributes it arrived with. |
| Following.LookupIsCurrent | telemetry-web/nethttp/nethttp.go:154-171 | The cached pair is consistent; a request gets, and is served with, instruments of a provider that was global between its start and its lookup's return, as the swaps in the schedule have it. |
| Following.HitNeedsNoLock | telemetry-web/nethttp/nethttp.go:160-162 | A request that finds the present provider's instruments cached gets them without the lock, whoever holds it. |
| Following.AtMostOneBuild | telemetry-web/nethttp/nethttp.go:138-142 | Once no call in flight may build for an older provider, at most one build until the next swap, and none if the present one's instruments are cached to stay. |
| Following.BuildsExactly | telemetry-web/nethttp/nethttp.go:158-171 | That is exact: every continuation without a swap builds at most once if and only if no call in flight may build for an older provider. |
| Following.StaleBuildsTwice | telemetry-web/nethttp/nethttp.go:158-171 | From any reachable state with such a call, wherever it is and whoever holds the lock, a continuation builds twice. |
| Following.StaleReachable | telemetry-web/nethttp/nethttp.go:159-163 | A request that has read the provider just before a swap is such a call. |
| Following.ActiveRequestsBalance | telemetry-web/nethttp/nethttp.go:177-192 | In every reachable state each provider's active_requests, by attributes, is the number of requests that arrived with these, are not skipped, and are being served with its instruments. |
| Following.QuietMeansZero | telemetry-web/nethttp/nethttp.go:173-176 | When all requests are over, by return or panic and across swaps, every sum is zero. |
| Following.SomeRequestMoves | telemetry-web/nethttp/nethttp.go:163-164 | No deadlock: while a request is not over, some request can go on. |
| Following.AllRequestsEnd | telemetry-web/nethttp/nethttp.go:154-192 | From every reachable state all requests get their instruments and can be brought to their end, by return or panic, and then every sum is zero. |
| Recovery.Server.Pass | telemetry-web/nethttp/nethttp.go:214-238 | Every operation that commits a response marks all layers it passes through, and no other. |
| Recovery.Server.Record | telemetry-web/endpoint/panic.go:25-66 | http.ErrAbortHandler is handed back unrecorded; every other panic is recorded once. |
| Recovery.Server.Serve | telemetry-web/nethttp/nethttp.go:245-263 | Running a handler through real layers: it ends as its structure says, the connection gets the operations it comes to, in order, with the layers' answers where its trace has them, the panics whose nearest stop is a layer are counted, and each layer around it has responded exactly if something passed through. |
| Recovery.SendsWhatItReaches | telemetry-web/nethttp/nethttp.go:214-238 | A handler's trace holds exactly the operations that its structure comes to before a panic stops it, each of the five kinds, in order; and it is empty exactly if there are none and no layer answers. |
| Recovery.PanicsMeetTheirFate | telemetry-web/endpoint/panic.go:18-32 | In any handler the panics recorded, swallowed and escaping, each in order, are those whose nearest stop is a layer, a recover of the handler's own, or nothing; an abort is stopped by no layer. |
| Recovery.EachPanicOnce | telemetry-web/endpoint/panic.go:18-32 | In any handler, each panic raised is recorded once, swallowed by a recover of the handler's own, or escapes. |
| Recovery.CountedInOrder | telemetry-web/endpoint/panic.go:18-32 | Without such recovers, the panics raised are those recorded, in order, followed by the one that escapes. |
| Recovery.LayersCountOnce | telemetry-web/adapters/gin/gin.go:33-41 | Any number of layers counts a panic once and answers once; none counts nothing; an abort passes through all. |
| Recovery.PanicAnswered | telemetry-web/nethttp/nethttp.go:240-259 | A layer adds its 500 exactly when its body panics, not with an abort, having come to no operation and no answer of an inner layer; else the client gets what the body sent. |
| Recovery.LayerAnswers | telemetry-web/nethttp/nethttp.go:222-259 | Around a body without layers the client gets what the body's first operation says: its status, an implicit 200, or nothing more on a hijacked connection; without one 500 for a panic, and nothing for a return or an abort. |
| Recovery.NeverOverPriorStatus | telemetry-web/nethttp/nethttp.go:254-258 | If nothing is sent before a layer is entered, no layer writes over a status or a hijacked connection: all that is sent after the first is the handler's own. |
| Recovery.OverwritesExactly | telemetry-web/nethttp/nethttp.go:254-258 | For every handler, layers nested at will, and whatever was sent before: some layer's 500 goes over it exactly when a layer answers late, that is, its body panics, not with an abort, having sent nothing, after something was sent before the layer was entered. |
| Recovery.OverwritesMiddleware | telemetry-web/nethttp/nethttp.go:254-258 | The case of middleware around a layer, whose body may have layers of its own, as gin's does. |
| Recovery.OverwritesOnce | telemetry-web/nethttp/nethttp.go:254-258 | An instance. |
| Recovery.Configure | telemetry-web/nethttp/nethttp.go:100-128 | The options' effect is independent of their order and number. |
| Recovery.ChainsCountAlike | telemetry-web/adapters/gin/gin.go:32-41 | gin's two layers and Handler's one count and answer alike under the same options in any order: once, or not at all under WithoutRecovery. |
| Logging.ReplayStamped | telemetry-web/logging/logging.go:85-92 | Replaying on a stamped base opens the same groups and puts the stamps behind base's own attributes. |
| Logging.ReplayOpens | telemetry-web/logging/logging.go:110-126 | The path of what is written next differs from base's exactly when some group was opened. |
| Logging.StampsTell | telemetry-web/logging/logging.go:49-63 | The stamps are trace_id and span_id of the span, if there is one, and the service name, if it is set, each once, and nothing else. |
| Logging.ReplayWrites | telemetry-web/logging/logging.go:110-127 | Replaying a chain of calls and writing a record puts every attribute under base's groups and those opened before it in the chain. |
| Logging.SlowPath | telemetry-web/logging/logging.go:85-93 | The slow path is right for every chain of calls. |
| Logging.FastPathExactly | telemetry-web/logging/logging.go:70-76 | The fast path is right exactly when no group is open or there is nothing to stamp. |
| Logging.KeptReplays | telemetry-web/logging/logging.go:96-108 | Leaving out empty calls changes nothing. |
| Logging.LogHandler.Handle | telemetry-web/logging/logging.go:65-94 | All three branches write the stamps at base's level, each key with the scope's value, and every other attribute as often and where the calls on base put it. |
| Logging.LogHandler.Extend | telemetry-web/logging/logging.go:110-127 | A new handler with a fresh list one call longer, prepared consistently; no other handler changes. |
| Logging.LogHandler.WithAttrs | telemetry-web/logging/logging.go:96-101 | No attributes: the same handler; else one call longer. |
| Logging.LogHandler.WithGroup | telemetry-web/logging/logging.go:103-108 | Empty name: the same handler; else one call longer. |
| Logging.LogThrough | telemetry-web/logging/logging.go:38-43 | After any chain of calls on a new handler, a record is written as base would write it after the same calls, plus trace_id, span_id and service.name of the scope at base's level. |
| NameTable.ClaimedOn | observability/pkg/publisher/custom.go:112-119 | Tells whether the family is on the registry and leaves the registry as it was. |
| NameTable.CustomMetrics.Reserve | observability/pkg/publisher/custom.go:52-91 | The verdict, in the source's order of checks. A grant is for a valid, described, servable claim whose name and served name were both free, the latter on no registry, and takes both under the name; else nothing is taken. |
| NameTable.CustomMetrics.Release | observability/pkg/publisher/custom.go:95-105 | Exactly the claim's name and its served name, if it has one, are given back. |
| NameTable.CustomMetrics.Register | observability/pkg/publisher/custom.go:131-141 | An instrument the SDK refuses leaves table and registry as they were. |
| NameTable.TableOfRun | observability/pkg/publisher/custom.go:43-46 | However registrations interleave, the table is that of those that hold names, registered and served, each under its owner; these are pairwise disjoint, and all valid, described and servable. |
| NameTable.TableIsUnique | observability/pkg/publisher/custom.go:43-46 | The registrations determine the table. |
| NameTable.FamiliesDistinct | observability/pkg/publisher/custom.go:27-32 | No two registrations share a family on /metrics, nor a name, nor is one registered under the other's family. |
| NameTable.ReleaseLeavesOthers | observability/pkg/publisher/custom.go:93-105 | A release after any interleaving leaves the table and the registrations of the others. |
| NameTable.RefusedGivesBack | observability/pkg/publisher/custom.go:131-141 | A registration that the SDK refuses leaves the others' table once it is released, whatever happens meanwhile. |
| NameTable.AcceptedKeeps | observability/pkg/publisher/custom.go:122-141 | One that the SDK accepts keeps its name and its family for ever, whatever happens afterwards. |
| NameTable.VerdictExactly | observability/pkg/publisher/custom.go:52-91 | For every claim and after any interleaving, what each verdict means: the first check that fails, a registration of the very name, a registration that has one of the two names, a family on the registry, or none of these. |
| NameTable.StableExactly | observability/pkg/publisher/custom.go:59-62 | A common name means the same name or the same family exactly when the translator leaves alone what it has rewritten. |
| NameTable.TotalIsStable | observability/pkg/publisher/custom.go:59-62 | Appending _total to counters that lack it is such a translator. |
| NameTable.TotalRejects | observability/pkg/publisher/custom.go:27-32 | So with it the table rejects a claim exactly if its name, or its family, which is the name with _total added to a counter's that lacks it, is that of a registration. |
| NameTable.CounterCollides | observability/pkg/publisher/custom.go:27-32 | A counter named like another with _total appended is turned away as colliding with that one. |
| Bridge.Gather | observability/pkg/publisher/dedup.go:52-72 | Errors of either gathering are passed on; else the families of base without the names own has. |
| Bridge.ExceptContents | observability/pkg/publisher/dedup.go:61-71 | The filter keeps every family of another name as often as it was gathered, and none of the others. |
| Bridge.ExceptInOrder | observability/pkg/publisher/dedup.go:65-71 | The filter keeps the order in which the families were gathered. |
| Bridge.ForeignExactly | observability/pkg/publisher/dedup.go:42-50 | A filter that drops all our families yields the foreign ones, in order, exactly when no foreign one bears a dropped name. |
| Bridge.CapturingRegisterer.Register | observability/pkg/publisher/dedup.go:21-27 | What the registry accepts is remembered, and nothing else. |
| Bridge.CapturingRegisterer.MustRegister | observability/pkg/publisher/dedup.go:34-40 | Up to the first refusal, registry and record grow alike. |
| Bridge.Process.BuildPrometheusReader | observability/pkg/publisher/exporters.go:105-132 | Built exactly unless controller-runtime's registry is claimed already, the exporter fails, or its collector clashes; a failure gives the claim back and registers nothing, success has registered and captured exactly its collector. |
| Bridge.Process.BuildReaders | observability/pkg/publisher/publisher.go:64-92 | In every configuration (disabled, redirected, shared, failed, already claimed): exactly when the reader is built, its collector is registered, and the bridge filters exactly if that is on controller-runtime's registry; with bridgeGathererFor (dedup.go:90-99). |
| Bridge.ReadBridge | observability/pkg/publisher/dedup.go:90-99 | The plain bridge passes on what was gathered, the filtered one what the filter leaves. |
| Bridge.OursAreSkipped | observability/pkg/publisher/dedup.go:57-64 | The mirror, gathered later, names every family of ours that base yielded. |
| Bridge.ExactlyOnce | observability/pkg/publisher/publisher.go:67-85 | The bridge passes on every foreign family once, in the order gathered, and none of ours, exactly when no foreign family bears the name of a filtered one. |
| Bridge.AtMostOneReader | observability/pkg/publisher/exporters.go:21-34 | Of builds that race, at most one gets to read controller-runtime's registry; when all have failed the claim is free. |
| Bridge.ClaimDecides | observability/pkg/publisher/exporters.go:105-132 | After any race a build is refused exactly while another has the claim; else it reads if its exporter works, and gives the claim back if not. |
| Headers.TrimTrims | observability/pkg/publisher/config.go:170 | Trimming cuts off white space at both ends, all of it and nothing else, and leaves a trimmed string alone. |
| Headers.ParseHeaders | observability/pkg/publisher/config.go:163-173 | The loop computes the headers that the pairs, laid over one another, give. |
| Headers.ParsedJoined | observability/pkg/publisher/config.go:163-173 | Two lists joined by a comma parse to the first overlaid by the second, for all strings. |
| Headers.PieceParsed | observability/pkg/publisher/config.go:165-171 | A single pair parses to what is before its first = and what is after, each trimmed. |
| Headers.MalformedIgnored | observability/pkg/publisher/config.go:167-169 | A piece without = changes nothing, wherever it stands. |
| Headers.ParsedPrintable | observability/pkg/publisher/config.go:163-173 | What is parsed has trimmed keys without comma and =, and trimmed values without comma. |
| Headers.PrintParses | observability/pkg/publisher/config.go:163-173 | Printing headers as k=v,... in any order and parsing gives them back exactly when they are of that form. |
| Headers.ReprintParses | observability/pkg/publisher/config.go:163-173 | Every list means the same as what is printed of its parse. |
| Headers.Config.ApplyEnvOverrides | observability/pkg/publisher/config.go:133-161 | Variables that are set win; headers they do not name stay; a block appears only when one of its variables is set, and is then a new one. |

## Left out

- Watch registry: the mutex makes calls happen one after the other, so a history is a sequence of calls; identities, namespaces and keys are only compared.
- Watch registry: panics of AddEventHandler, RemoveEventHandler and Release, and providers that call back into the registry; the source handles neither.
- Watch registry: reflectors, caches and event delivery, `callbackToHandler`, `extractObject`, `singleClientProvider` and the registry options. An informer is a number with the handlers attached to it; `HasSynced` is not part of a handle.
- Watch registry: the text of errors; which call failed for which key is kept.
- Watch registry: long functions of the source are cut into several methods (such as AddWatches, EnsureKey and AttachStep for the loop of EnsureWatchSet), and one method, ReleaseKeys, stands for its three release loops.
- Lifecycle and Following are step relations over values and not classes, because their point is the interleaving; each step is one access to shared memory, or one call outside.
- Lifecycle: the propagator and the error handler, which `retire` leaves in place; the text of the service name, for which the number of the Init stands; what a provider's Shutdown returns, flush deadlines, and the joined errors.
- Lifecycle: other components that replace the tracer provider or the service name; a meter provider of theirs can come at any moment.
- Lifecycle: of `Config`, whether a MeterProvider is supplied and which of the things Init tries will work; endpoints, ratios, protocols and the resource's attributes are single-branch checks.
- Following: how `activeAttrs` names methods and schemes (a request carries the result), providers that are not comparable, and instruments that fail to be created, with their once-per-provider warning.
- Recovery: interim 1xx responses (section 15.2 of RFC 9110), gin's own response writer, what RecordPanic puts on spans and logs, route attributes, and handlers that panic in another goroutine.
- Logging: levels, `SetDefault`, attribute values that resolve or group themselves; slog's base handler is the one its documentation asks for.
- NameTable: `ValidateMetricName` and the translator are parameters, but for the suffix rule; instruments themselves; a second CustomMetrics on the same registry.
- Bridge: a second publisher in one process, wrapped registerers, client_golang metrics registered after a colliding custom one, and the periodic and stdout readers.
- Bridge: families of ours that vanish between the two gatherings; the OTel exporter keeps its families, which `ExactlyOnce` asks for.
- Headers: strings are characters, not bytes; the caller's header map is replaced and not updated in place, so a caller that kept it would not see the change; the OTLP timeouts, interval and compression.
- The rest of the repository: `util`, naming rules, deep copies, resources, examples, span names and route stamping.
