# Application bootstrap: builder and lifecycle sequencer

This project models the core of `bootstrap/boot.go` in Dafny and proves properties about it. That core is the `Bootstrap` builder and its `BootUp` method:

- The builder collects four ordered lists: boot options, start functions, shutdown functions and gin middleware.
- `BootUp` runs these lists through the application's lifecycle in a fixed order:
  1. register the boot options on the event bus and publish them;
  2. attach the middleware and set up the routes;
  3. register the start functions and publish them;
  4. start the HTTP server on `":" + port`;
  5. wait for SIGINT or SIGTERM;
  6. register the shutdown functions and publish them;
  7. drain the server with a 5-second timeout.

Modules, one per concern:

- `Events` (`events.dfy`) holds the event tags `bootup`, `startup` and `shutdown`; the three handler wrappers and their `OnEvent`; and `parseEvent`. It also holds `Wrap`, which wraps a list of functions for one tag the way `BootUp`'s loops do.
- `EventBus` (`event_bus.dfy`) holds the `mevent` registry that `BootUp` drives through `AddBlock` and `Publish`. That package's source is not part of this model, so this module states an assumption about it:
  - the bus holds one ordered list of handlers per event type;
  - `AddBlock` appends to that list;
  - `Publish` fires the whole list once, in order, and does not clear it.
- `Gin` (`gin.dfy`) holds the engine's middleware chain, which `Use` appends to.
- `Trace` (`trace.dfy`) holds the steps `BootUp` takes, as a sequence of `Action`s. Each action has a *stage* from 0 to 9, its place in the fixed order. The module also holds the general facts about traces that are joined segment by segment.
- `Boot` (`boot.dfy`) holds the `Bootstrap` class, its constructors and builder methods, and `BootUp`. It also holds the specification function `BootUpTrace` and the lemmas about it.
- `Decimal` (`decimal.dfy`) holds `strconv.Itoa` and a reference parser, and proves that they round-trip.
- `Serve` (`serve.dfy`) holds the serve goroutine's reaction when `ListenAndServe` returns, and the process exit status (see Findings).

Handler functions are opaque values (`UserFunc(id)`), except for the two closures that `Discovery` builds. These are named by what they do: `RegisterInstance(registry, instance)` and `DeregisterInstance(registry)`. A Go nil slice and an empty slice are both the empty sequence. A nil interface is `None`.

`BootUp` returns the trace of what it did, and its `ensures` says that this trace is `BootUpTrace` of the builder's state and the bus as they were before the call. The lemmas then state the order of the lifecycle and the contents of each stage about `BootUpTrace`.

## Model

| member | source | states |
|---|---|---|
| `Events.ParseEvent` | bootstrap/boot.go:60-70 | A result exists exactly when the tag is `bootup`, `shutdown` or `startup`. The result wraps exactly the given function, under that same tag. Any other tag gives nil (`None`). |
| `Events.ParseEventOfTag` | bootstrap/boot.go:60-70 | Every wrapper is what parseEvent returns for its own tag and function. |
| `Events.OnEvent` | bootstrap/boot.go:36-58 | Each wrapper's OnEvent calls the function it wraps, with the context it was given. |
| `Events.OnEventOfParsed` | bootstrap/boot.go:36-70 | For a lifecycle tag, dispatching the wrapper that parseEvent returns calls exactly the parsed function with the given context. |
| `Events.Wrap` | bootstrap/boot.go:192-194 | The wrappers BootUp's loop builds keep the list's length. Element i is what parseEvent gives for function i. |
| `Events.WrapConcat` | bootstrap/boot.go:192-194 | Wrapping two lists one after the other gives the two wrapped lists one after the other. |
| `Gin.Engine.New` | bootstrap/boot.go:98 | `gin.New()` gives an engine with an empty middleware chain, which newGin then extends. |
| `Gin.Engine.Use` | bootstrap/boot.go:198-200 | The engine's chain becomes the old chain followed by the given middleware. |
| `EventBus.Bus.AddBlock` | bootstrap/boot.go:192-195 | The handler is appended to the list of its event type. Every other event type keeps its list. |
| `EventBus.Bus.Publish` | bootstrap/boot.go:196 | Every handler registered under the type fires once, in registration order. Nothing fires when none is registered. |
| `EventBus.LookupAppend` | bootstrap/boot.go:192-195 | Appending handlers to one event type changes that type's list and no other. |
| `Boot.Bootstrap.NewApplication` | bootstrap/boot.go:106-113 | Keeps the given engine, boot list, start list and application. No shutdown functions, no middleware and no discovery. |
| `Boot.NewGin` | bootstrap/boot.go:97-104 | A fresh engine whose chain is the logger and then the recovery middleware. |
| `Boot.NewApplicationWithOpts` | bootstrap/boot.go:88-95 | A fresh Bootstrap on a fresh newGin engine, with the given boot options and empty start, shutdown and middleware lists. |
| `Boot.Default` | bootstrap/boot.go:83-86 | NewApplicationWithOpts with no boot options: every list is empty. |
| `Boot.Bootstrap.BootOpt` | bootstrap/boot.go:115-122 | Both branches make the boot list the old list followed by the arguments. Duplicates are kept. Every other field is unchanged. The receiver is returned. |
| `Boot.Bootstrap.StartFunc` | bootstrap/boot.go:124-131 | Both branches make the start list the old list followed by the arguments. Every other field is unchanged. The receiver is returned. |
| `Boot.Bootstrap.ShutDownFunc` | bootstrap/boot.go:133-140 | Both branches make the shutdown list the old list followed by the arguments. Every other field is unchanged. The receiver is returned. |
| `Boot.Bootstrap.Use` | bootstrap/boot.go:147-154 | Both branches make the middleware list the old list followed by the arguments. Every other field is unchanged. The receiver is returned. |
| `Boot.Bootstrap.Discovery` | bootstrap/boot.go:156-166 | Records the instance and the registry. Appends exactly one start hook that registers the instance and one shutdown hook that deregisters it. The boot and middleware lists are unchanged. The receiver is returned. |
| `Boot.RegisterAll` | bootstrap/boot.go:192-195 | The registration loop appends the wrapper of every function, in list order, to that tag's handlers on the bus. |
| `Boot.RegisterAndPublish` | bootstrap/boot.go:192-196 | One phase first fires the handlers the bus already held for the tag, then the new wrappers, in list order. |
| `Boot.Bootstrap.UseMiddleWares` | bootstrap/boot.go:198-200 | Every middleware is handed to the engine, in list order. |
| `Boot.Bootstrap.BootUp` | bootstrap/boot.go:188-238 | The trace is `BootUpTrace` of the state before the call. The bus ends with the three lists registered under their tags. The engine's chain ends with the middleware appended. |
| `Boot.BootUpPhaseOrder` | bootstrap/boot.go:189-235 | No step of a later stage comes before a step of an earlier one. So the order is: boot handlers; middleware; routes; startup handlers; server start; signal wait; shutdown handlers; signal release; drain. |
| `Boot.BootUpStageContents` | bootstrap/boot.go:189-235 | Each stage holds exactly its segment: the handlers the bus already had and then the list's own wrappers, in order; the middleware, in order; exactly one route setup, one server start on `Address(port)`, one signal wait, one release and one 5-second drain. No step falls outside the ten stages. |
| `Boot.FreshBusBootUp` | bootstrap/boot.go:192-227 | On an empty bus, the i-th boot, startup and shutdown firing wraps the i-th function of the matching list, and there are no other firings. |
| `Boot.BootUpBoundaries` | bootstrap/boot.go:189-235 | BootUp starts by trapping the signals. It ends by releasing them and then draining with a 5-second timeout. |
| `Boot.SameStage` | bootstrap/boot.go:192-227 | Each stage depends only on its own input: boot stage on the boot list, middleware stage on the middleware list, startup stage on the start list, server start on the port, shutdown stage on the shutdown list. |
| `Boot.PhaseGrows` | bootstrap/boot.go:192-196 | Registering more functions for a tag adds their firings at the end of that tag's publish. |
| `Boot.BootOptFiresLast` | bootstrap/boot.go:115-122 | A BootOpt call before BootUp adds exactly its options' firings at the end of the boot stage. It changes no other stage. |
| `Boot.DiscoveryHooksFireLast` | bootstrap/boot.go:156-166 | A Discovery call before BootUp adds one register firing at the end of the startup stage and one deregister firing at the end of the shutdown stage. It changes no other stage. |
| `Boot.Address` | bootstrap/boot.go:211 | The server address `":" + strconv.Itoa(port)` is a colon followed by text that parses back to exactly the configured port. |
| `Decimal.Itoa` | bootstrap/boot.go:211 | `strconv.Itoa` gives a non-empty string that starts with '-' exactly when the number is negative. |
| `Decimal.ParseItoa` | bootstrap/boot.go:211 | The decimal rendering of any int parses back to that int, so different ports give different addresses. |
| `Decimal.ItoaShape` | bootstrap/boot.go:211 | A non-negative number renders as digits only, with no leading zero unless it is 0. A negative one renders as '-' and then at least one digit, digits only, with no leading zero. |
| `Serve.DrainIsFatalAsWritten` | bootstrap/boot.go:215-220 | As written, the serve goroutine treats the `ErrServerClosed` that the graceful drain causes as fatal. |
| `Serve.OnServeReturn` | bootstrap/boot.go:215-220 | Corrected: the goroutine exits fatally exactly when listening really failed. |
| `Serve.ExitStatusZeroIff` | bootstrap/boot.go:215-235 | With the corrected goroutine, a run exits with 0 exactly when the drain closed the server and `server.Shutdown` succeeded. |
| `Serve.CleanShutdownFailsAsWritten` | bootstrap/boot.go:215-235 | After a clean shutdown, the as-written goroutine gives exit status 1 and the corrected one gives 0. |

## Left out

- Signal trapping (`signal.NotifyContext`, `stop`), the serve goroutine, `http.Server` and the real 5-second deadline of `server.Shutdown` are concurrency, networking and wall-clock behaviour. Each appears only as an opaque trace action (`TrapSignals`, `StartServer`, `AwaitSignal`, `ReleaseSignals`, `Drain(5)`). The second, deferred `stop()` does nothing and is not in the trace.
- Logging (lines 209, 229 and 237) is I/O, and the `log.Fatal` exits at lines 218 and 234 are process termination. Neither is modelled, except that the Findings model the serve goroutine's exit status.
- `Router` and `DefaultDiscovery` are left out. They call the `routes` and `cloud` packages, Consul and the global configuration, none of which is part of this model. `routes.SetupRouter` appears only as the `SetupRoutes` action.
- The package `init` and all of `bootstrap/config.go` are left out. That covers configuration loading with viper, file watching, and the `CONFIG_FILE` fallback to `config.yaml`.
- The `mevent` package is not part of this model. `EventBus.Bus` states the assumption about it listed above. In particular, the context `Publish` hands to each handler is unknown, so a `Fire` action records the wrapper that fired and `OnEvent` gives the call that follows.
- Handler bodies are opaque. A handler that changes the Bootstrap or the bus while a phase is being published is not modelled. One example is a boot option that calls `StartFunc` before the startup list is read at line 203.
- Slices are values. The nil branch of the builder methods stores the caller's slice, and `append` may share a backing array with it. That aliasing is not modelled; the contents are.
- A nil `globalApp` passed to `NewApplication` would panic at line 211. It is not modelled; `Application` is always a value.
- Boot.Bootstrap.BootUp: the server address is built from the port the Bootstrap holds when `BootUp` is entered. The source reads `app.globalApp.Config.App.Port` at line 211, after the boot and startup handlers have run. It reads it through the shared `*global.Application` reference, which for `NewApplicationWithOpts` and `Default` is the shared `global.App` (line 93). A handler that changes that port, or a configuration reload into `global.App.Config` before line 211, would make the server listen on the new port. The model does not capture that: `Application` is a value copied into the Bootstrap.
- `Config.App.Port` is a Go `int`. It is modelled as an unbounded integer, and `strconv.Itoa` renders every 64-bit value the same way.
- Failing handlers: the handler functions in `bootstrap/boot.go` have no error return, and `BootUp` does not recover panics. A panicking handler ends the process wherever it runs; for example, a panicking boot option ends it before the server starts. Handlers are modelled as always returning.
- Repeated signals: `BootUp` waits on `ctx.Done()` once (line 222). SIGINT and SIGTERM stay trapped by `signal.NotifyContext` (line 189) until `stop()` at line 228, so a repeated signal during the shutdown publish is absorbed. The trace records the wait and the release only as `AwaitSignal` and `ReleaseSignals`; individual signals are not modelled.
- Publishing leaves the registered handlers in place, so a function registered twice runs twice. This is the `EventBus` assumption about `mevent` stated above, not something `bootstrap/boot.go` shows.

## Findings

| source | as written | input that shows it | evidently intended | confidence | as-written member | corrected member |
|---|---|---|---|---|---|---|
| bootstrap/boot.go:215-220 | The serve goroutine calls `log.Fatal` on every non-nil error from `ListenAndServe`. | A clean shutdown: SIGINT, then `server.Shutdown` at line 233. That makes `ListenAndServe` return `http.ErrServerClosed`, the goroutine logs "application run failed!" and calls `os.Exit(1)`. | Treat `ErrServerClosed` as the normal end of serving, and exit fatally only when listening really fails. | medium, not executed: exit status 1 happens when the goroutine runs before `BootUp` returns | `Serve.DrainIsFatalAsWritten` | `Serve.OnServeReturn` |
