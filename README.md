# Graceful shutdown of a listener, in Dafny

This project models the core of a small Go package. The package runs an HTTP
server's `ListenAndServe` in the background. It then waits until the server fails
or the process receives a shutdown signal. On the first signal in the package's
allow-list it calls the server's `Shutdown` once and returns what that call
returns.

The model has six modules:

- `Signals` (signals.go): signals are Unix numbers, using the BSD numbering of
  the platform the tests name `SIGINFO` on. The module holds the default allow-list
  `[os.Interrupt, os.Kill, SIGTERM]` and `IsShutdownSignal`, a linear membership
  scan of a list that is passed in explicitly.
- `HttpServer`: Go errors (`None` is nil), the context given to `Shutdown`, and
  its deadline. It also holds `Server`, a stub of the `HTTPServer` interface. The
  stub counts `ListenAndServe` and `Shutdown` calls, remembers the context of the
  last `Shutdown`, and answers `Shutdown` with a fixed reply. This is the role the
  package's mock servers play.
- `ShutdownLoop`: the decision the `for`/`select` loop makes.
  - The race between the listener goroutine and the shutdown channel is an
    arbitrary trace: the events in the order the `select` receives them.
  - An event is a non-nil listener error (`ListenErr`) or a signal (`Sig`).
  - `Decide` is the specification: the first event that is a listener error or a
    qualifying signal decides, and every event before it is discarded.
  - `Race` builds the trace from a list of signals and the point at which the
    listener's `ListenAndServe` returns. Because of the goroutine's guard, a nil
    result adds no event.
  - `Ran` states what one run does to a server and what it returns.
- `ListenAndServe` (listen_and_serve.go): the loop `listenAndServe` (here
  `ListenAndServeOn`). It builds a context with a deadline from an optional
  timeout. The public wrapper `ListenAndServe` calls it.
- `GracefulShutdown` (graceful_shutdown.go): the variant of the loop that
  passes the caller's context to `Shutdown` unchanged. It leaves the `select`
  with `break` where the other variant uses `continue`, with the same effect.
- `Scenarios`: the situations the package's tests set up. Each one runs a loop
  on a fresh stub and proves what the test asserts.

The two loops are imperative methods with `while` loops over the trace. Each is
proved against `Decide` through `Ran`. When the trace runs out before anything
decides, the method returns `StillServing`; the Go loop would block there.

## Model

| member | source | states |
|---|---|---|
| `Signals.IsShutdownSignal` | signals.go:13-15 | a signal qualifies exactly when it is an element of the allow-list passed in; the answer depends only on the list's current contents, so replacing the list changes which signals qualify accordingly; asking changes nothing |
| `Signals.DefaultAllowList` | signals.go:11 | under the default list, SIGINT (os.Interrupt), SIGKILL (os.Kill) and SIGTERM qualify and no other signal does; SIGABRT, SIGINFO, SIGILL and SIGIOT do not |
| `Signals.KillEntryNeverDelivered` | signals.go:10-11 | among the signals a process can catch, only SIGINT and SIGTERM qualify under the default list, so its os.Kill entry can never fire |
| `HttpServer.Server.constructor` | mock_http_server.go:17-24 | a new stub has seen no calls and answers Shutdown with the given reply |
| `HttpServer.Server.ListenAndServe` | mock_http_server.go:26-29 | each call is counted and nothing else changes |
| `HttpServer.Server.Shutdown` | mock_http_server.go:31-34 | each call is counted, its context recorded and the configured reply returned |
| `ShutdownLoop.Decide` | listen_and_serve.go:29-45 | the run goes on serving exactly when no event is a listener error or a qualifying signal; otherwise the first such event decides: a listener error fails the run with that error, a qualifying signal requests shutdown; every earlier event is non-deciding |
| `ShutdownLoop.DecideAppend` | listen_and_serve.go:29-45 | once a prefix of the trace has decided, nothing after it changes the outcome; a prefix that decides nothing only delays what the rest decides |
| `ShutdownLoop.DiscardedSignals` | listen_and_serve.go:33-36 | N non-qualifying signals before any trace change nothing except that the outcome comes N events later |
| `ShutdownLoop.GoroutineSends` | listen_and_serve.go:24-28 | the listener goroutine sends at most one event; it sends nothing exactly when ListenAndServe returned nil, and otherwise it sends that very error |
| `ShutdownLoop.NilListenResultIsSilent` | listen_and_serve.go:24-28 | a ListenAndServe that returns nil, at any point, leaves the outcome as if the listener were still serving |
| `ShutdownLoop.ListenErrorFirst` | listen_and_serve.go:24-32 | a listener error received after only non-qualifying signals fails the run with exactly that error, on the event right after them |
| `ShutdownLoop.SignalFirst` | listen_and_serve.go:29-44 | when a qualifying signal comes before the listener's result, shutdown is requested and that result, nil or not, is never received |
| `ListenAndServe.ShutdownContext` | listen_and_serve.go:37-41 | without a timeout Shutdown gets the background context and no deadline; with one, its deadline is exactly the timeout |
| `ListenAndServe.ListenAndServeOn` | listen_and_serve.go:22-46 | ListenAndServe is called once. A listener error is returned verbatim and Shutdown is not called. A non-qualifying signal changes no state. The first qualifying signal causes exactly one Shutdown, with the timeout context, and its reply is returned verbatim. No event after the deciding one is received |
| `ListenAndServe.ListenAndServe` | listen_and_serve.go:18-20 | is listenAndServe on the signal source's channel with the same timeout, with the same effect |
| `GracefulShutdown.ListenAndServe` | graceful_shutdown.go:17-35 | as listenAndServe, except that Shutdown receives exactly the caller's shutdownCtx; a non-qualifying signal only leaves the select and the loop waits on |
| `Scenarios.InterruptShutsDown` | listen_and_serve_test.go:16-32 | an interrupt gives a nil result, one ListenAndServe call and one Shutdown call |
| `Scenarios.ListenErrorIsPropagated` | listen_and_serve_test.go:50-67 | a failing ListenAndServe's error is returned and Shutdown is never called, whatever signals follow |
| `Scenarios.ShutdownErrorIsPropagated` | listen_and_serve_test.go:69-87 | Shutdown's error is the result |
| `Scenarios.OnlyListedSignalsShutDown` | listen_and_serve_test.go:89-120 | one signal causes one Shutdown for SIGINT, SIGKILL and SIGTERM and none for any other signal, which leaves the run serving |
| `Scenarios.WrongSignalsThenShutdownSignal` | listen_and_serve_test.go:122-149 | N SIGIOTs and then a qualifying signal give exactly one Shutdown, made on event N+1 |
| `Scenarios.ShutdownGetsTimeoutDeadline` | listen_and_serve_test.go:151-199 | Shutdown's context has the timeout as its deadline, or no deadline without a timeout |
| `Scenarios.NilListenResultKeepsServing` | graceful_shutdown_test.go:81-106 | a nil ListenAndServe result does not end the run; a later interrupt gives one Shutdown and ListenAndServe stays at one call |
| `Scenarios.CallerContextIsPassed` | graceful_shutdown_test.go:227-247 | Shutdown receives the caller's context, once |
| `Scenarios.WrongSignalsThenShutdownSignalGraceful` | graceful_shutdown_test.go:189-225 | in the graceful variant, N SIGIOTs and then any qualifying signal (os.Interrupt, os.Kill, SIGINT, SIGKILL among them) give a nil result and exactly one Shutdown, made on event N+1 |

## Left out

- Goroutines, channels and `select` fairness are left out. The race is an
  arbitrary trace of received events, and the lemmas hold for every order.
- The order of the goroutine's `server.ListenAndServe()` call is left out. The
  model makes that call before the loop receives its first event, so
  `listenCalls` is already 1 when a run returns. In Go the goroutine
  (listen_and_serve.go:24, graceful_shutdown.go:19) may make the call only after
  `Shutdown`, or after the loop has returned.
- The goroutine leak is left out. When the listener fails after shutdown has
  begun, its send on the unbuffered `listenErr` channel (listen_and_serve.go:23,
  graceful_shutdown.go:18) blocks forever. This is a concurrency effect, and
  the model only shows that such an error is never received (`SignalFirst`).
- Wall-clock time is left out: the 15/20/22 ms tests, delivery of cancellation,
  and the deferred `cancel()` that releases the timeout context. The model
  records only whether `Shutdown`'s context has a deadline, and its value.
  Deadlines count from the moment the context is built. Overflow of `time.Time`
  arithmetic is not modelled.
- `NewShutdownChannel` and `signal.Notify` (signals.go:17-22) register with the
  operating system, so they are left out. The wrapper at
  listen_and_serve.go:19 calls `newShutdownChannel`, a name the package does not
  define. The model treats that call as an opaque source: the wrapper's `events`
  parameter, the trace of signals and listener errors as the `select` receives them.
- The allow-list is mutable package state, `SignalsToListenTo`. The model passes
  it to every member as a parameter. Changing it during a run is not modelled.
- os.Kill (SIGKILL) stays in the default list as written, and the tests expect it
  to qualify. No operating system delivers SIGKILL to a handler, so that entry
  never fires in practice (`KillEntryNeverDelivered`). The model does not drop it.
- Contexts built with `context.WithValue` are not modelled. The graceful variant
  takes any context value and is proved to pass that same value on.
- The stub's `ListenAndServe` returns nothing. What the real call returns
  reaches the loop as an event of the trace (`Race`, `GoroutineSends`).
- listen_and_serve.go and graceful_shutdown.go both declare `HTTPServer` and
  `ListenAndServe` in one package. They are two versions of the same code, so the
  model puts them in separate modules.
- The trace is finite. The Go loop's endless wait becomes the `StillServing`
  result when the trace runs out.
- Everything outside the three core files is not part of this model: the demo
  programs, the acceptance harness that builds binaries and polls ports, the
  assertion helpers, and the stub server.go.
