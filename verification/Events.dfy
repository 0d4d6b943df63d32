/** The event vocabulary of the log, and the commits its merge events name. */
module Events {

  /** A git commit, identified as a SHA identifies it: by its whole history.
      `stamp` keeps two merges of the same parents apart. */
  datatype Commit =
    | NoCommit
    | Root(name: string)
    | Work(branch: string, attempt: nat)
    | Join(onto: Commit, side: string, stamp: nat)

  /** One attempt's spend, as the event that closed the attempt records it. */
  datatype Charge = Charge(tokens: int, model: string, costUsd: real)

  const NO_CHARGE := Charge(0, "", 0.0)

  datatype Body =
    // Front doors.
    | GoalSubmitted(goalId: string, text: string, source: string, key: string, ref: string, author: string)
    | GoalAmended(goalId: string, guidance: string)
    | GoalCancelled(goalId: string, author: string, reason: string)
    | ApprovalGranted(ticketId: string, author: string, reason: string)
    | ApprovalDenied(ticketId: string, author: string, reason: string)
    // Scheduler.
    | GoalBudgetExceeded(goalId: string)
    | BudgetExhausted(scope: string, day: string)
    | TicketReady(ticketId: string)
    | VerificationPassed(ticketId: string, worker: string)
    | VerificationFailed(ticketId: string, worker: string, reason: string, output: string)
    | ApprovalRequested(ticketId: string, worker: string, commit: Commit)
    | Merged(ticketId: string, worker: string, commit: Commit, branch: string)
    | RegressionEscaped(ticketId: string, worker: string, reason: string)
    | WorkerStalled(ticketId: string, worker: string)
    | Delivered(goalId: string, branch: string, commit: Commit, url: string)
    | DeliveryFailed(goalId: string, branch: string, reason: string)
    // Scheduler and workers.
    | TicketCreated(ticketId: string, goalId: string, title: string, dependsOn: seq<string>,
                    key: string, createdBy: string, depth: int)
    | TicketFailed(ticketId: string, worker: string, reason: string, worktree: string, charge: Charge)
    | WorkerRestarted(ticketId: string, worker: string, reason: string, charge: Charge)
    // Workers.
    | TicketClaimed(ticketId: string, worker: string)
    | WorkStarted(ticketId: string, worker: string)
    | Heartbeat(ticketId: string, worker: string)
    | TicketAmended(ticketId: string, worker: string, title: string, guidance: string)
    | TicketInvalidated(ticketId: string, worker: string, reason: string)
    | TicketDecomposed(ticketId: string, worker: string, children: seq<string>, charge: Charge)
    | ProposalSubmitted(ticketId: string, worker: string, branch: string, commit: Commit,
                        summary: string, trace: string, charge: Charge)

  /** The log envelope; `num` is the sequence number the ledger assigned. */
  datatype Event = Event(num: int, ts: int, actor: string, body: Body)

  predicate NamesTicket(b: Body) {
    !b.GoalSubmitted? && !b.GoalAmended? && !b.GoalCancelled? && !b.GoalBudgetExceeded? &&
    !b.BudgetExhausted? && !b.Delivered? && !b.DeliveryFailed?
  }

  /** The ticket a payload names, "" when it names none. */
  function TicketIdOf(b: Body): string {
    if NamesTicket(b) then b.ticketId else ""
  }

  datatype Option<+T> = None | Some(value: T) {
    function GetOr(default: T): T { if Some? then value else default }
  }
}
