/** Identities and lifecycle labels shared by Hold, close report and Loop. */
module Statuses {
  type Id = nat
  type Turn = nat

  /** `Active` stands for accepted, holding and running; `Unknown` for any other non-terminal label. */
  datatype Lifecycle =
    | Active
    | Completed
    | Failed
    | Interrupted
    | Cancelled
    | TurnLimitReached
    | Blocked
    | Unknown

  predicate IsTerminal(l: Lifecycle) {
    !l.Active? && !l.Unknown?
  }

  /** What a holder knows about the start request of its current turn. */
  datatype Dispatch = NotSent | PossiblySent | Sent | Unclear
}
