/** The decision after one observed turn. */
module TurnMonitor {
  import opened Statuses

  /** How the App Server reports the end of a turn; `Vague` is any label that is not terminal. */
  datatype TurnEnd = Done | Broke | WasInterrupted | WasCancelled | Vague

  /** `Rejected` stands for every verification status outside the accepted four. */
  datatype VerificationStatus = Verified | Review | LegacyUnverified | NotRequired | Rejected

  datatype Reason =
    | NonCompletedTerminal
    | FinalAnswerUnavailable
    | OutputUnverified
    | StopRequested
    | WorkerReportedBlocked
    | TurnBudgetConsumed
    | ContinuationDisabled
    | CompletedUnderBudget

  datatype Decision = Continue | Stop(result: Lifecycle, reason: Reason)

  /** The answers that the monitor collects about one turn. */
  datatype View = View(end: TurnEnd, answered: bool, verification: VerificationStatus, stop: bool, blocked: bool)

  datatype Terms = Terms(turnCount: int, maxTurns: int, continuation: bool, finalAnswer: bool)

  function Result(end: TurnEnd): Lifecycle {
    match end
    case Done => Completed
    case Broke => Failed
    case WasInterrupted => Interrupted
    case WasCancelled => Cancelled
    case Vague => Unknown
  }

  function Observe(v: View, t: Terms): Decision {
    if !v.end.Done? then Stop(Result(v.end), NonCompletedTerminal)
    else if t.finalAnswer && !v.answered then Stop(Blocked, FinalAnswerUnavailable)
    else if v.verification.Rejected? then Stop(Blocked, OutputUnverified)
    else if v.stop then Stop(Cancelled, StopRequested)
    else if v.blocked then Stop(Blocked, WorkerReportedBlocked)
    else if t.turnCount >= t.maxTurns then Stop(TurnLimitReached, TurnBudgetConsumed)
    else if !t.continuation then Stop(Completed, ContinuationDisabled)
    else Continue
  }

  /** What each final label tells about the turn and the session. */
  lemma StopMeans(v: View, t: Terms)
    requires Observe(v, t).Stop?
    ensures var result := Observe(v, t).result;
      && !result.Active?
      && (IsTerminal(result) <==> !v.end.Vague?)
      && (result.TurnLimitReached? ==> v.end.Done? && !v.verification.Rejected? && t.turnCount >= t.maxTurns)
      && (result.Completed? ==> v.end.Done? && !v.verification.Rejected? && !v.stop && !t.continuation)
      && (result.Blocked? ==> v.end.Done?)
  {
  }
}
