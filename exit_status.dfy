/** Turning the protractor child's termination, an exit code or null plus a
    signal name or null, into the stream's outcome: normal completion or an
    error event. */
module ExitStatus {
  import opened Wrappers

  /** Why a run failed: the tool reported a failure through a non-zero exit
      code, or the process ended without any exit code (killed by a signal,
      out of memory). */
  datatype FailureReason =
    | ReportedFailure(code: int)
    | AbnormalTermination(signal: Option<string>)

  /** The stream's terminal event: completion, or an error carrying the reason. */
  datatype Verdict = Success | Failure(reason: FailureReason)

  /** Classifies a child's termination. */
  function Translate(code: Option<int>, signal: Option<string>): (v: Verdict)
    ensures v.Success? <==> code == Some(0)
    ensures v.Failure? && v.reason.ReportedFailure? <==> code.Some? && code.value != 0
    ensures v.Failure? && v.reason.AbnormalTermination? <==> code.None?
  {
    match code
    case Some(n) => if n == 0 then Success else Failure(ReportedFailure(n))
    case None => Failure(AbnormalTermination(signal))
  }

  /** The exit code a verdict stands for; null for an abnormal termination. */
  function ExitCode(v: Verdict): Option<int>
  {
    match v
    case Success => Some(0)
    case Failure(ReportedFailure(n)) => Some(n)
    case Failure(AbnormalTermination(_)) => None
  }

  /** The signal a verdict records; only an abnormal termination keeps one. */
  function Signal(v: Verdict): Option<string>
  {
    if v.Failure? && v.reason.AbnormalTermination? then v.reason.signal else None
  }

  /** A verdict that `Translate` can produce: a reported failure never carries 0. */
  predicate WellFormed(v: Verdict)
  {
    !(v.Failure? && v.reason.ReportedFailure? && v.reason.code == 0)
  }

  /** The verdict keeps the exit code: it can be read back unchanged, and for
      an abnormal termination the signal too. */
  lemma TranslateKeepsOutcome(code: Option<int>, signal: Option<string>)
    ensures WellFormed(Translate(code, signal))
    ensures ExitCode(Translate(code, signal)) == code
    ensures code.None? ==> Signal(Translate(code, signal)) == signal
  {
  }

  /** Conversely, every well-formed verdict is what its own exit code and
      signal translate to: no two outcomes that differ in code collapse. */
  lemma VerdictFromItsOutcome(v: Verdict)
    requires WellFormed(v)
    ensures Translate(ExitCode(v), Signal(v)) == v
  {
  }

  /** Exit code 255 is a reported failure, surfaced as an error event. */
  lemma ExitCode255Fails(signal: Option<string>)
    ensures Translate(Some(255), signal) == Failure(ReportedFailure(255))
  {
  }

  /** A null exit code with SIGABRT is an abnormal termination, an error
      event of its own kind. */
  lemma NullCodeSigabrtFails()
    ensures Translate(None, Some("SIGABRT")) == Failure(AbnormalTermination(Some("SIGABRT")))
  {
  }
}
