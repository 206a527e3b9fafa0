// The situations the package's tests set up, run against both loop variants
// with a fresh server stub, and what each run is proved to observe.
module Scenarios {
  import opened Signals
  import opened HttpServer
  import opened ShutdownLoop
  import ListenAndServe
  import GracefulShutdown

  /** An interrupt while serving: nil is returned, ListenAndServe and Shutdown
      are each called once. */
  method InterruptShutsDown() returns (result: RunResult, listenCalls: nat, shutdownCalls: nat)
    ensures result == Returned(None) && listenCalls == 1 && shutdownCalls == 1
  {
    var server := new Server(None);
    var consumed;
    result, consumed := ListenAndServe.ListenAndServeOn(server, [Sig(Interrupt)], DefaultSignalsToListenTo, None);
    listenCalls, shutdownCalls := server.listenCalls, server.shutdownCalls;
  }

  /** A listener whose ListenAndServe fails with err after `delivered` discarded
      signals: err is returned and Shutdown is never called, whatever signals
      were still to come. */
  method ListenErrorIsPropagated(err: Error, signals: seq<Signal>, delivered: nat)
    returns (result: RunResult, listenCalls: nat, shutdownCalls: nat)
    requires delivered <= |signals|
    requires forall i | 0 <= i < delivered :: !IsShutdownSignal(DefaultSignalsToListenTo, signals[i])
    ensures result == Returned(Some(err)) && listenCalls == 1 && shutdownCalls == 0
  {
    var server := new Server(None);
    var events := Race(signals, ReturnsAfter(delivered, Some(err)));
    ListenErrorFirst(DefaultSignalsToListenTo, signals, delivered, err);
    var consumed;
    result, consumed := ListenAndServe.ListenAndServeOn(server, events, DefaultSignalsToListenTo, None);
    listenCalls, shutdownCalls := server.listenCalls, server.shutdownCalls;
  }

  /** Shutdown's error is what the run returns. */
  method ShutdownErrorIsPropagated(shutdownErr: Error) returns (result: RunResult, shutdownCalls: nat)
    ensures result == Returned(Some(shutdownErr)) && shutdownCalls == 1
  {
    var server := new Server(Some(shutdownErr));
    var consumed;
    result, consumed := ListenAndServe.ListenAndServeOn(server, [Sig(Interrupt)], DefaultSignalsToListenTo, None);
    shutdownCalls := server.shutdownCalls;
  }

  /** One signal on the shutdown channel: Shutdown is called once for SIGINT,
      SIGKILL and SIGTERM, and never for any other signal, which leaves the run
      serving. */
  method OnlyListedSignalsShutDown(signal: Signal) returns (result: RunResult, shutdownCalls: nat)
    ensures shutdownCalls == (if signal == SIGINT || signal == SIGKILL || signal == SIGTERM then 1 else 0)
    ensures shutdownCalls == 0 <==> result == StillServing
  {
    DefaultAllowList(signal);
    var server := new Server(None);
    var consumed;
    result, consumed := ListenAndServe.ListenAndServeOn(server, [Sig(signal)], DefaultSignalsToListenTo, None);
    shutdownCalls := server.shutdownCalls;
  }

  /** N copies of SIGIOT, then a qualifying signal: exactly one Shutdown, made on
      the last event, after all N were discarded. */
  method WrongSignalsThenShutdownSignal(wrongSignalCount: nat, shutdownSignal: Signal)
    returns (result: RunResult, consumed: nat, shutdownCalls: nat)
    requires IsShutdownSignal(DefaultSignalsToListenTo, shutdownSignal)
    ensures result == Returned(None) && consumed == wrongSignalCount + 1 && shutdownCalls == 1
  {
    var wrong := seq(wrongSignalCount, _ => SIGIOT);
    DefaultAllowList(SIGIOT);
    DiscardedSignals(DefaultSignalsToListenTo, wrong, [Sig(shutdownSignal)]);
    var server := new Server(None);
    result, consumed := ListenAndServe.ListenAndServeOn(server, Sigs(wrong) + [Sig(shutdownSignal)],
                                                        DefaultSignalsToListenTo, None);
    shutdownCalls := server.shutdownCalls;
  }

  /** With a timeout, Shutdown's context carries exactly that deadline; without
      one, it carries none. */
  method ShutdownGetsTimeoutDeadline(shutdownTimeout: Option<Duration>) returns (deadline: Option<Duration>)
    ensures deadline == shutdownTimeout
  {
    var server := new Server(None);
    var result, consumed := ListenAndServe.ListenAndServeOn(server, [Sig(Interrupt)], DefaultSignalsToListenTo,
                                                            shutdownTimeout);
    deadline := Deadline(server.shutdownCtx.value);
  }

  /** ListenAndServe returning nil sends nothing, so the run goes on serving and
      a later interrupt still shuts down; ListenAndServe is not called again. */
  method NilListenResultKeepsServing(delivered: nat) returns (result: RunResult, listenCalls: nat, shutdownCalls: nat)
    ensures result == Returned(None) && listenCalls == 1 && shutdownCalls == 1
  {
    var signals := [Interrupt];
    NilListenResultIsSilent(DefaultSignalsToListenTo, signals, delivered);
    var server := new Server(None);
    var consumed;
    result, consumed := GracefulShutdown.ListenAndServe(server, Race(signals, ReturnsAfter(delivered, None)),
                                                        DefaultSignalsToListenTo, Background);
    listenCalls, shutdownCalls := server.listenCalls, server.shutdownCalls;
  }

  /** The caller's context is the one Shutdown receives. */
  method CallerContextIsPassed(shutdownCtx: Context) returns (got: Option<Context>, shutdownCalls: nat)
    ensures got == Some(shutdownCtx) && shutdownCalls == 1
  {
    var server := new Server(None);
    var result, consumed := GracefulShutdown.ListenAndServe(server, [Sig(Interrupt)], DefaultSignalsToListenTo,
                                                            shutdownCtx);
    got, shutdownCalls := server.shutdownCtx, server.shutdownCalls;
  }

  /** Under the graceful variant, N copies of SIGIOT and then a qualifying
      signal: every SIGIOT is discarded, and the qualifying signal causes exactly
      one Shutdown, on the last event. */
  method WrongSignalsThenShutdownSignalGraceful(wrongSignalCount: nat, shutdownSignal: Signal)
    returns (result: RunResult, consumed: nat, shutdownCalls: nat)
    requires IsShutdownSignal(DefaultSignalsToListenTo, shutdownSignal)
    ensures result == Returned(None) && consumed == wrongSignalCount + 1 && shutdownCalls == 1
  {
    var wrong := seq(wrongSignalCount, _ => SIGIOT);
    DefaultAllowList(SIGIOT);
    DiscardedSignals(DefaultSignalsToListenTo, wrong, [Sig(shutdownSignal)]);
    var server := new Server(None);
    result, consumed := GracefulShutdown.ListenAndServe(server, Sigs(wrong) + [Sig(shutdownSignal)],
                                                        DefaultSignalsToListenTo, Background);
    shutdownCalls := server.shutdownCalls;
  }
}
