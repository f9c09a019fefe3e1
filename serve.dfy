/**
 * The goroutine BootUp starts to serve HTTP, how it reacts when
 * server.ListenAndServe returns, and the exit status of a run.
 */
module Serve {
  import opened Wrappers

  /**
   * The error server.ListenAndServe returns: ErrServerClosed once
   * server.Shutdown has begun, or a failure to listen (the port is taken,
   * say). The error is nil (None) only in the guard's own terms.
   */
  datatype ServeError = ErrServerClosed | ListenFailure(code: nat)

  /** What the serve goroutine does next: nothing, or log.Fatal, which exits with status 1. */
  datatype Reaction = Continue | FatalExit

  /** The goroutine as written: every non-nil error from ListenAndServe is fatal. */
  function OnServeReturnAsWritten(err: Option<ServeError>): Reaction
  {
    if err.Some? then FatalExit else Continue
  }

  /** The graceful drain makes ListenAndServe return ErrServerClosed, which the goroutine as written treats as fatal. */
  lemma DrainIsFatalAsWritten()
    ensures OnServeReturnAsWritten(Some(ErrServerClosed)) == FatalExit
  {
  }

  /** The goroutine as intended: only a real failure to serve is fatal; the close that Shutdown causes is not. */
  function OnServeReturn(err: Option<ServeError>): (r: Reaction)
    ensures r == FatalExit <==> err.Some? && err.value.ListenFailure?
  {
    if err.Some? && err.value != ErrServerClosed then FatalExit else Continue
  }

  /**
   * The exit status of a run whose serve goroutine ended with `serveErr` and
   * whose server.Shutdown returned without error exactly when `drained`:
   * 1 when the goroutine exits fatally or the drain fails (log.Fatal), else 0.
   */
  function ExitStatus(serveErr: ServeError, drained: bool): nat
  {
    if OnServeReturn(Some(serveErr)) == FatalExit || !drained then 1 else 0
  }

  /** The same exit status with the goroutine as written, when its log.Fatal runs before BootUp returns. */
  function ExitStatusAsWritten(serveErr: ServeError, drained: bool): nat
  {
    if OnServeReturnAsWritten(Some(serveErr)) == FatalExit || !drained then 1 else 0
  }

  /** A run exits with 0 exactly when the server was closed by the drain and the drain succeeded. */
  lemma ExitStatusZeroIff(serveErr: ServeError, drained: bool)
    ensures ExitStatus(serveErr, drained) == 0 <==> serveErr == ErrServerClosed && drained
  {
  }

  /** As written, even a clean shutdown can end with status 1. */
  lemma CleanShutdownFailsAsWritten()
    ensures ExitStatusAsWritten(ErrServerClosed, true) == 1
    ensures ExitStatus(ErrServerClosed, true) == 0
  {
  }
}
