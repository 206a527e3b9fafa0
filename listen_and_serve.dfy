// The shutdown loop that builds its own deadline context from an optional
// timeout, and the public entry point that feeds it from the signal source.
module ListenAndServe {
  import opened Signals
  import opened HttpServer
  import opened ShutdownLoop

  /** The context Shutdown receives: no deadline without a timeout, otherwise a
      deadline of exactly the timeout. */
  function ShutdownContext(shutdownTimeout: Option<Duration>): (ctx: Context)
    ensures Deadline(ctx) == shutdownTimeout
    ensures shutdownTimeout.None? ==> ctx == Background
  {
    match shutdownTimeout
    case None => Background
    case Some(timeout) => WithTimeout(Background, timeout)
  }

  /** listenAndServe: starts the server, then receives `events` in order. A
      listener error is returned; a signal outside `signalsToListenTo` is skipped
      (`continue`); the first qualifying signal leads to one Shutdown call, whose
      result is returned. `consumed` counts the events received. */
  method ListenAndServeOn(server: Server, events: seq<Event>, signalsToListenTo: seq<Signal>,
                          shutdownTimeout: Option<Duration>)
    returns (result: RunResult, consumed: nat)
    modifies server
    ensures Ran(server, signalsToListenTo, events, ShutdownContext(shutdownTimeout), result, consumed)
  {
    server.ListenAndServe();
    var i := 0;
    while i < |events|
      invariant i <= |events|
      invariant forall j | 0 <= j < i :: !IsTerminal(signalsToListenTo, events[j])
      invariant server.listenCalls == old(server.listenCalls) + 1
      invariant server.shutdownCalls == old(server.shutdownCalls)
      invariant server.shutdownCtx == old(server.shutdownCtx)
    {
      match events[i]
      case ListenErr(err) =>
        return Returned(Some(err)), i + 1;
      case Sig(signal) =>
        if !IsShutdownSignal(signalsToListenTo, signal) {
          i := i + 1;
          continue;
        }
        var ctx := Background;
        if shutdownTimeout.Some? {
          ctx := WithTimeout(Background, shutdownTimeout.value);
        }
        var err := server.Shutdown(ctx);
        return Returned(err), i + 1;
    }
    return StillServing, i;
  }

  /** ListenAndServe: listenAndServe on the events the process's signal source
      and the listener deliver, with the same timeout. */
  method ListenAndServe(server: Server, events: seq<Event>, signalsToListenTo: seq<Signal>,
                        shutdownTimeout: Option<Duration>)
    returns (result: RunResult, consumed: nat)
    modifies server
    ensures Ran(server, signalsToListenTo, events, ShutdownContext(shutdownTimeout), result, consumed)
  {
    result, consumed := ListenAndServeOn(server, events, signalsToListenTo, shutdownTimeout);
  }
}
