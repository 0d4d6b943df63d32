/** What each step of a reconcile pass decides to append, given the state it read
    (ReconcileOnce and its helpers in internal/orchestrator/orchestrator.go). */
module Plans {
  import opened Events
  import opened Replay
  import opened TaskGraph

  datatype Options = Options(
    concurrency: nat, maxAttempts: nat, crashLoop: nat, requireApproval: bool, prMode: bool,
    retryBackoff: nat, stallTimeout: nat)

  function WorkerOf(id: string): string { "worker/" + id }

  function GoalBranch(goalId: string): string { "aoa/" + goalId }

  /** One step's appends: what it does for each id, in order. */
  ghost function Sweep(s: State, order: seq<string>, act: (State, string) -> seq<Body>): seq<Body> {
    if order == [] then [] else Sweep(s, order[..|order| - 1], act) + act(s, order[|order| - 1])
  }

  lemma {:induction false} SweepIsExact(s: State, order: seq<string>, act: (State, string) -> seq<Body>, b: Body)
    ensures b in Sweep(s, order, act) <==> exists id :: id in order && b in act(s, id)
  {
    if order != [] {
      SweepIsExact(s, order[..|order| - 1], act, b);
      assert order == order[..|order| - 1] + [order[|order| - 1]];
    }
  }

  // --- 1. Goals without a ticket -----------------------------------------------------------------

  function StartGoal(s: State, g: string): seq<Body> {
    if g in s.goals && !s.goals[g].cancelled && !GoalHasTickets(s, g)
    then [TicketCreated(g + "-impl", g, "Implement: " + s.goals[g].text, [], g + ":impl", "", 0)] else []
  }

  // --- 1b. Cancelled Goals -----------------------------------------------------------------------

  function Fails(t: Ticket, reason: string): Body {
    TicketFailed(t.origin.id, t.worker, reason, "", NO_CHARGE)
  }

  /** Work of a cancelled Goal that is not in flight. */
  predicate Doomed(s: State, id: string) {
    && id in s.tickets && !s.tickets[id].status.IsTerminal()
    && s.tickets[id].status != Claimed && s.tickets[id].status != Running && Withdrawn(s, s.tickets[id])
  }

  function Cancel(inFlight: set<string>): (State, string) -> seq<Body> {
    (s: State, id: string) => if Doomed(s, id) && id !in inFlight then [Fails(s.tickets[id], "goal cancelled")] else []
  }

  // --- 2. Promotion ------------------------------------------------------------------------------

  ghost function Promote(s: State, id: string): seq<Body> {
    if id in s.tickets && Promotable(s, s.tickets[id]) then [TicketReady(id)] else []
  }

  // --- 3. Dispatch -------------------------------------------------------------------------------

  /** Exponential in the attempts made, and at most 64 times the base. */
  function BackoffFor(base: nat, attempts: nat): (wait: nat)
    ensures wait <= 64 * base && (wait == 0 <==> base == 0 || attempts == 0)
    ensures attempts >= 7 ==> wait == 64 * base
  {
    if base == 0 || attempts == 0 then 0 else base * Shift(if attempts - 1 > 6 then 6 else attempts - 1)
  }

  /** Each retry waits twice as long as the one before, up to the seventh. */
  lemma BackoffDoubles(base: nat, attempts: nat)
    requires 0 < attempts < 7
    ensures BackoffFor(base, attempts + 1) == 2 * BackoffFor(base, attempts)
  {
    assert Shift(attempts) == 2 * Shift(attempts - 1);
    if base > 0 { assert base * (2 * Shift(attempts - 1)) == 2 * (base * Shift(attempts - 1)); }
  }

  function Shift(n: nat): (r: nat)
    requires n <= 6
    ensures 1 <= r <= 64 && (n == 6 ==> r == 64)
  {
    [1, 2, 4, 8, 16, 32, 64][n]
  }

  predicate BackingOff(opt: Options, t: Ticket, now: int) {
    BackoffFor(opt.retryBackoff, t.attempts) > 0 && now - t.lastActivity < BackoffFor(opt.retryBackoff, t.attempts)
  }

  predicate Dispatchable(opt: Options, s: State, id: string, inFlight: set<string>, now: int) {
    && id in s.tickets && Startable(s, s.tickets[id])
    && s.tickets[id].activeWorkers == [] && id !in inFlight && !BackingOff(opt, s.tickets[id], now)
  }

  // --- 4. The merge queue ------------------------------------------------------------------------

  /** What the queue reports of one proposal. */
  datatype Ruling = Passed(commit: Commit, tree: string, escaped: Option<string>) | Refused(reason: string,
          output: string)

  /** A refused proposal goes back for another attempt, unless its attempts are used
      up or it keeps failing the same way. */
  function RejectOrFail(opt: Options, t: Ticket, reason: string, output: string): (b: Body)
    ensures b.TicketFailed? <==> |t.activeWorkers| <= 1 && (LoopsOn(opt, t, reason) || t.attempts >= opt.maxAttempts)
    ensures b.TicketFailed? || b == VerificationFailed(t.origin.id, t.worker, reason, output)
    ensures b.ticketId == t.origin.id && b.worker == t.worker
  {
    var last := |t.activeWorkers| <= 1;
    if last && LoopsOn(opt, t, reason) then Fails(t, "crash loop: " + reason)
    else if last && t.attempts >= opt.maxAttempts then Fails(t, reason)
    else VerificationFailed(t.origin.id, t.worker, reason, output)
  }

  /** This refusal would be the crashLoop-th in a row with one reason. */
  predicate LoopsOn(opt: Options, t: Ticket, reason: string) {
    opt.crashLoop > 0 && reason != "" && reason == t.failure.reason && t.failure.same + 1 >= opt.crashLoop
  }

  predicate Parks(opt: Options, t: Ticket) {
    opt.requireApproval && !t.approved
  }

  /** What is appended for a proposal whose Goal still stands. */
  function Record(opt: Options, t: Ticket, r: Ruling): seq<Body> {
    match r
    case Refused(reason, output) => [RejectOrFail(opt, t, reason, output)]
    case Passed(commit, _, escaped) =>
      var id, w := t.origin.id, t.worker;
      if Parks(opt, t) then [VerificationPassed(id, w), ApprovalRequested(id, w, commit)]
      else [VerificationPassed(id, w), Merged(id, w, commit, if opt.prMode then GoalBranch(t.origin.goalId) else "")] +
           if escaped.Some? then [RegressionEscaped(id, w, escaped.value)] else []
  }

  predicate IsProposed(s: State, t: Ticket) { t.status == Proposed }

  // --- 5. Blocked tickets ------------------------------------------------------------------------

  ghost function FailBlocked(s: State, id: string): seq<Body> {
    if id in s.tickets && IsBlocked(s, s.tickets[id])
    then [Fails(s.tickets[id], "dependency " + FirstDead(s, s.tickets[id].origin.dependsOn) + " failed")] else []
  }

  // --- 6. Lost workers ---------------------------------------------------------------------------

  function Restart(opt: Options, now: int): (State, string) -> seq<Body> {
    (s: State, id: string) =>
      if id in s.tickets && (s.tickets[id].status == Claimed || s.tickets[id].status == Running) &&
         now - s.tickets[id].lastActivity > opt.stallTimeout
      then [WorkerStalled(id, s.tickets[id].worker), WorkerRestarted(id, s.tickets[id].worker, "", NO_CHARGE)] else []
  }
}
