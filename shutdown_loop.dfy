// The decision made by the shutdown loop, as a function of the order in which
// its `select` receives events. Both loop variants are proved against it.
module ShutdownLoop {
  import opened Signals
  import opened HttpServer

  /** What the `select` receives: a non-nil error from the listener goroutine, or
      a signal from the shutdown channel. */
  datatype Event = ListenErr(err: Error) | Sig(signal: Signal)

  /** Where a run stands after a trace: still serving (the Go loop would go on
      waiting), failed on a listener error, or asked to shut down by a qualifying
      signal. `at` is the position of the event that ended the wait. */
  datatype Outcome =
    | Serving
    | ListenFailed(at: nat, err: Error)
    | ShutdownRequested(at: nat, signal: Signal)

  /** An event that ends the wait. */
  predicate IsTerminal(signalsToListenTo: seq<Signal>, event: Event)
  {
    match event
    case ListenErr(_) => true
    case Sig(signal) => IsShutdownSignal(signalsToListenTo, signal)
  }

  /** The same outcome reached n events later. */
  function Delay(o: Outcome, n: nat): Outcome
  {
    if o.Serving? then o else o.(at := o.at + n)
  }

  /** The loop's decision: the first terminal event decides, every other event
      before it is discarded. */
  function Decide(signalsToListenTo: seq<Signal>, events: seq<Event>): (o: Outcome)
    ensures o.Serving? <==> forall j | 0 <= j < |events| :: !IsTerminal(signalsToListenTo, events[j])
    ensures !o.Serving? ==>
      o.at < |events| && forall j | 0 <= j < o.at :: !IsTerminal(signalsToListenTo, events[j])
    ensures o.ListenFailed? ==> events[o.at] == ListenErr(o.err)
    ensures o.ShutdownRequested? ==>
      events[o.at] == Sig(o.signal) && IsShutdownSignal(signalsToListenTo, o.signal)
    decreases |events|
  {
    if |events| == 0 then Serving
    else
      match events[0]
      case ListenErr(err) => ListenFailed(0, err)
      case Sig(signal) =>
        if IsShutdownSignal(signalsToListenTo, signal) then ShutdownRequested(0, signal)
        else Delay(Decide(signalsToListenTo, events[1..]), 1)
  }

  /** Running on a + b is running on a, then, only if a left the loop waiting,
      on b. In particular nothing after the deciding event is ever looked at. */
  lemma {:induction false} DecideAppend(signalsToListenTo: seq<Signal>, a: seq<Event>, b: seq<Event>)
    ensures Decide(signalsToListenTo, a + b) ==
      if Decide(signalsToListenTo, a).Serving? then Delay(Decide(signalsToListenTo, b), |a|)
      else Decide(signalsToListenTo, a)
  {
    if |a| == 0 {
      assert a + b == b;
    } else {
      assert (a + b)[0] == a[0];
      assert (a + b)[1..] == a[1..] + b;
      DecideAppend(signalsToListenTo, a[1..], b);
    }
  }

  /** Signals as the events they become on the shutdown channel. */
  function Sigs(signals: seq<Signal>): (events: seq<Event>)
    ensures |events| == |signals|
    ensures forall i | 0 <= i < |signals| :: events[i] == Sig(signals[i])
  {
    seq(|signals|, i requires 0 <= i < |signals| => Sig(signals[i]))
  }

  /** A signal outside the allow-list changes nothing: a run that starts with N of
      them decides exactly as the rest of the trace does, N events later. */
  lemma {:induction false} DiscardedSignals(signalsToListenTo: seq<Signal>, ignored: seq<Signal>, rest: seq<Event>)
    requires forall i | 0 <= i < |ignored| :: !IsShutdownSignal(signalsToListenTo, ignored[i])
    ensures Decide(signalsToListenTo, Sigs(ignored) + rest) == Delay(Decide(signalsToListenTo, rest), |ignored|)
  {
    assert Decide(signalsToListenTo, Sigs(ignored)).Serving?;
    DecideAppend(signalsToListenTo, Sigs(ignored), rest);
  }

  /** How the listener goroutine ends: it serves for good, or its ListenAndServe
      returns `result` after the loop has received `delivered` signals. */
  datatype Listener = ServesForever | ReturnsAfter(delivered: nat, result: GoError)

  /** The goroutine's guard: a nil result is not sent, a non-nil one is. */
  function GoroutineSends(result: GoError): (events: seq<Event>)
    ensures |events| <= 1
    ensures events == [] <==> result.None?
    ensures forall i | 0 <= i < |events| :: events[i] == ListenErr(result.value)
  {
    match result
    case None => []
    case Some(err) => [ListenErr(err)]
  }

  /** The order in which the `select` receives the signals and the listener's
      result. */
  function Race(signals: seq<Signal>, listener: Listener): seq<Event>
  {
    match listener
    case ServesForever => Sigs(signals)
    case ReturnsAfter(delivered, result) =>
      var k := if delivered <= |signals| then delivered else |signals|;
      Sigs(signals[..k]) + GoroutineSends(result) + Sigs(signals[k..])
  }

  /** A listener that returns nil ends nothing: the run decides exactly as if it
      were still serving, so a later qualifying signal still shuts down. */
  lemma NilListenResultIsSilent(signalsToListenTo: seq<Signal>, signals: seq<Signal>, delivered: nat)
    ensures Decide(signalsToListenTo, Race(signals, ReturnsAfter(delivered, None))) ==
            Decide(signalsToListenTo, Race(signals, ServesForever))
  {
    var k := if delivered <= |signals| then delivered else |signals|;
    assert Sigs(signals[..k]) + [] + Sigs(signals[k..]) == Sigs(signals);
  }

  /** A listener error that arrives before any qualifying signal is the outcome,
      received right after the discarded signals. */
  lemma ListenErrorFirst(signalsToListenTo: seq<Signal>, signals: seq<Signal>, delivered: nat, err: Error)
    requires delivered <= |signals|
    requires forall i | 0 <= i < delivered :: !IsShutdownSignal(signalsToListenTo, signals[i])
    ensures Decide(signalsToListenTo, Race(signals, ReturnsAfter(delivered, Some(err)))) ==
            ListenFailed(delivered, err)
  {
    var front := signals[..delivered];
    assert Race(signals, ReturnsAfter(delivered, Some(err))) ==
           Sigs(front) + ([ListenErr(err)] + Sigs(signals[delivered..]));
    DiscardedSignals(signalsToListenTo, front, [ListenErr(err)] + Sigs(signals[delivered..]));
  }

  /** A qualifying signal that arrives before the listener's result wins, and the
      result (nil or not) is never received. */
  lemma SignalFirst(signalsToListenTo: seq<Signal>, signals: seq<Signal>, delivered: nat, result: GoError)
    requires delivered <= |signals|
    requires Decide(signalsToListenTo, Sigs(signals[..delivered])).ShutdownRequested?
    ensures Decide(signalsToListenTo, Race(signals, ReturnsAfter(delivered, result))) ==
            Decide(signalsToListenTo, Sigs(signals[..delivered]))
  {
    var front, rest := Sigs(signals[..delivered]), GoroutineSends(result) + Sigs(signals[delivered..]);
    assert Race(signals, ReturnsAfter(delivered, result)) == front + GoroutineSends(result) + Sigs(signals[delivered..]);
    assert front + GoroutineSends(result) + Sigs(signals[delivered..]) == front + rest;
    DecideAppend(signalsToListenTo, front, rest);
  }

  /** What a run returns: it is still serving when the trace runs out (the Go
      loop blocks), or it has returned this error value. */
  datatype RunResult = StillServing | Returned(err: GoError)

  /** The observable effect of one run of the shutdown loop over `events` on a
      server, when Shutdown is to be called with `ctx`: ListenAndServe is called
      once; a listener error is returned as it is, with no Shutdown; a qualifying
      signal causes exactly one Shutdown(ctx), whose reply is returned as it is;
      `consumed` events are received, none after the deciding one. */
  twostate predicate Ran(server: Server, signalsToListenTo: seq<Signal>, events: seq<Event>, ctx: Context,
                         result: RunResult, consumed: nat)
    reads server
  {
    server.listenCalls == old(server.listenCalls) + 1 &&
    match Decide(signalsToListenTo, events)
    case Serving =>
      result == StillServing && consumed == |events| &&
      server.shutdownCalls == old(server.shutdownCalls) && server.shutdownCtx == old(server.shutdownCtx)
    case ListenFailed(at, err) =>
      result == Returned(Some(err)) && consumed == at + 1 &&
      server.shutdownCalls == old(server.shutdownCalls) && server.shutdownCtx == old(server.shutdownCtx)
    case ShutdownRequested(at, _) =>
      result == Returned(server.shutdownReply) && consumed == at + 1 &&
      server.shutdownCalls == old(server.shutdownCalls) + 1 && server.shutdownCtx == Some(ctx)
  }
}
