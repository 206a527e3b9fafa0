// The shutdown loop variant that hands the caller's context to Shutdown as it is.
module GracefulShutdown {
  import opened Signals
  import opened HttpServer
  import opened ShutdownLoop

  /** ListenAndServe: starts the server, then receives `events` in
      order. A listener error is returned; a signal outside `signalsToListenTo`
      leaves only the `select` (`break`) and the loop waits on; the first
      qualifying signal leads to one Shutdown(shutdownCtx), whose result is
      returned. */
  method ListenAndServe(server: Server, events: seq<Event>, signalsToListenTo: seq<Signal>,
                        shutdownCtx: Context)
    returns (result: RunResult, consumed: nat)
    modifies server
    ensures Ran(server, signalsToListenTo, events, shutdownCtx, result, consumed)
  {
    server.ListenAndServe();
    var i := 0;
    while i < |events|
      invariant i <= |events|
      invariant forall j | 0 <= j < i :: !IsTerminal(signalsToListenTo, events[j])
      invariant server.listenCalls == old(server.listenCalls) + 1
      invariant server.shutdownCalls == old(server.shutdownCalls)
      invariant server.shutdownCtx == old(server.shutdownCtx)
    {
      var event := events[i];
      i := i + 1;
      if event.ListenErr? {
        return Returned(Some(event.err)), i;
      }
      if IsShutdownSignal(signalsToListenTo, event.signal) {
        var err := server.Shutdown(shutdownCtx);
        return Returned(err), i;
      }
    }
    return StillServing, i;
  }
}
