// The HTTPServer collaborator: Go's error values, the context handed to
// Shutdown, and a server stub that records how it was called.
module HttpServer {

  datatype Option<T> = None | Some(value: T)

  /** A non-nil Go error. Go compares errors.New values by identity; here two
      errors are equal exactly when their labels are, so distinct Go errors are
      modelled by distinct labels. */
  datatype Error = Error(message: string)

  /** A Go `error` result: None is nil. */
  type GoError = Option<Error>

  /** time.Duration in nanoseconds (a signed count in Go). */
  type Duration = int

  /** The context.Context values this core builds or forwards. Deadlines are
      measured from the moment the context is built. */
  datatype Context =
    | Background
    | WithTimeout(parent: Context, timeout: Duration)

  /** ctx.Deadline(): none for Background; WithTimeout keeps the earlier of the
      parent's deadline and its own. */
  function Deadline(ctx: Context): Option<Duration>
  {
    match ctx
    case Background => None
    case WithTimeout(parent, timeout) =>
      match Deadline(parent)
      case None => Some(timeout)
      case Some(d) => Some(if d < timeout then d else timeout)
  }

  /** A stub of the HTTPServer interface (ListenAndServe, Shutdown) that counts
      its calls, remembers the context of the latest Shutdown call and answers
      Shutdown with a fixed reply. What its ListenAndServe eventually returns is
      not a field: it reaches the shutdown loop as an event of the trace. */
  class Server {
    var listenCalls: nat
    var shutdownCalls: nat
    var shutdownCtx: Option<Context>
    const shutdownReply: GoError

    constructor (shutdownReply: GoError)
      ensures listenCalls == 0 && shutdownCalls == 0 && shutdownCtx == None
      ensures this.shutdownReply == shutdownReply
    {
      this.shutdownReply := shutdownReply;
      listenCalls, shutdownCalls, shutdownCtx := 0, 0, None;
    }

    /** Starts serving; records the call. */
    method ListenAndServe()
      modifies this
      ensures listenCalls == old(listenCalls) + 1
      ensures shutdownCalls == old(shutdownCalls) && shutdownCtx == old(shutdownCtx)
    {
      listenCalls := listenCalls + 1;
    }

    /** Stops serving under ctx; records the call and its context. */
    method Shutdown(ctx: Context) returns (err: GoError)
      modifies this
      ensures err == shutdownReply
      ensures shutdownCalls == old(shutdownCalls) + 1 && shutdownCtx == Some(ctx)
      ensures listenCalls == old(listenCalls)
    {
      shutdownCalls := shutdownCalls + 1;
      shutdownCtx := Some(ctx);
      err := shutdownReply;
    }
  }
}
