// The signal filter: the package-level allow-list of shutdown signals and the
// membership test the shutdown loop applies to every signal it receives.
module Signals {

  /** An OS signal, identified by its Unix number. Go's os.Interrupt and os.Kill
      are syscall.SIGINT and syscall.SIGKILL, so they compare equal to them. */
  type Signal = nat

  // Numbering of the BSD family (the platform the tests name SIGINFO on).
  const SIGINT: Signal := 2
  const SIGILL: Signal := 4
  const SIGABRT: Signal := 6
  const SIGIOT: Signal := 6
  const SIGKILL: Signal := 9
  const SIGTERM: Signal := 15
  const SIGSTOP: Signal := 17
  const SIGINFO: Signal := 29

  const Interrupt: Signal := SIGINT
  const Kill: Signal := SIGKILL

  /** The default contents of the mutable package variable SignalsToListenTo. */
  const DefaultSignalsToListenTo: seq<Signal> := [Interrupt, Kill, SIGTERM]

  /** isShutdownSignal: a linear scan of the allow-list (slices.Contains). The list
      is passed in explicitly, so the answer depends on nothing else and nothing
      is changed by asking. */
  function IsShutdownSignal(signalsToListenTo: seq<Signal>, signal: Signal): (b: bool)
    ensures b <==> signal in signalsToListenTo
  {
    |signalsToListenTo| > 0 &&
    (signalsToListenTo[0] == signal || IsShutdownSignal(signalsToListenTo[1..], signal))
  }

  /** Under the default list exactly SIGINT (os.Interrupt), SIGKILL (os.Kill) and
      SIGTERM qualify; SIGABRT, SIGINFO, SIGILL and SIGIOT do not. */
  lemma DefaultAllowList(signal: Signal)
    ensures IsShutdownSignal(DefaultSignalsToListenTo, signal) <==>
            signal == SIGINT || signal == SIGKILL || signal == SIGTERM
    ensures !IsShutdownSignal(DefaultSignalsToListenTo, SIGABRT)
    ensures !IsShutdownSignal(DefaultSignalsToListenTo, SIGINFO)
    ensures !IsShutdownSignal(DefaultSignalsToListenTo, SIGILL)
    ensures !IsShutdownSignal(DefaultSignalsToListenTo, SIGIOT)
  {
  }

  /** A process can install a handler for every signal except SIGKILL and SIGSTOP. */
  predicate Catchable(signal: Signal)
  {
    signal != SIGKILL && signal != SIGSTOP
  }

  /** The os.Kill entry of the default list can never fire: among the signals the
      operating system actually delivers to a handler, only SIGINT and SIGTERM
      qualify. */
  lemma KillEntryNeverDelivered(signal: Signal)
    requires Catchable(signal)
    ensures IsShutdownSignal(DefaultSignalsToListenTo, signal) <==> signal == SIGINT || signal == SIGTERM
  {
  }
}
