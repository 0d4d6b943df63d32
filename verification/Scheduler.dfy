/** The control loop as a state machine (internal/orchestrator/orchestrator.go,
    deliver.go; the front doors of cmd/aoa/main.go): one Scheduler, its workers and
    the front doors, each appending to one log, with a crash possible anywhere. */
module Scheduler {
  import opened Events
  import opened Replay
  import opened TaskGraph
  import opened Plans
  import opened History
  import D = Decompose
  import Doors = FrontDoor

  /** `gov` bounds decomposition, and `gate` is the Gate's verdict on a commit. */
  datatype Config = Config(opt: Options, gov: D.Governors, gate: Commit -> bool)

  /** A dispatch goroutine past its claim. `Splitting` holds the decomposition it is
      appending. */
  datatype Job = Launched | Working | Splitting(plan: D.InFlight)

  /** How far the proposal at the head of the queue has come: the Gate passed it,
      its Goal branch was moved to it, the pass is on the log; or it is to be
      parked, before and after the pass is on the log. */
  datatype Stage =
    | Waiting
    | Landing(commit: Commit) | Kept(commit: Commit) | Recorded(commit: Commit)
    | Parking(commit: Commit) | Parked(commit: Commit)

  /** Where the Scheduler is. `Emitting` appends what a step decided on the state it
      read; `Draining` works through the proposals it read, of which the first
      `clear` were since found uncancelled; `Pushing` has pushed a branch tip. */
  datatype Phase =
    | Resting
    | Emitting(todo: seq<Body>)
    | Draining(queue: seq<Ticket>, clear: nat, stage: Stage)
    | Delivering(goals: seq<string>)
    | Pushing(goal: string, tip: Commit, goals: seq<string>)

  /** The Goal branches: their tips, the bases they were cut from, and the Goals that
      lost track of theirs: an error of the merge queue's own refused work that is on
      the branch, and no merge has been recorded for the Goal since. */
  datatype Branches = Branches(tips: map<string, Commit>, bases: map<string, Commit>, lost: set<string>)

  const NO_BRANCHES := Branches(map[], map[], {})

  /** The log with what replaying it gives, the goroutines, the Scheduler, and the
      Goal branches. */
  datatype Sys = Sys(
    log: seq<Event>, state: State, marks: Marks, lands: Landings, jobs: map<string, Job>, phase: Phase, br: Branches)

  const START := Sys([], EMPTY, NO_MARKS, NO_LANDINGS, map[], Resting, NO_BRANCHES)

  function Append(sys: Sys, ts: int, actor: string, b: Body): Sys {
    var e := Event(|sys.log| + 1, ts, actor, b);
    var s := Apply(sys.state, e);
    sys.(log := sys.log + [e], state := s, marks := Mark(sys.marks, e), lands := Land(sys.lands, s, e))
  }

  // --- Commits -----------------------------------------------------------------------------------

  /** The branch's work is in the commit already. */
  predicate HasBranch(c: Commit, branch: string) {
    c.Join? && (c.side == branch || HasBranch(c.onto, branch))
  }

  /** c is tip or one of the commits it was merged onto. */
  predicate Under(c: Commit, tip: Commit) {
    c == tip || (tip.Join? && Under(c, tip.onto))
  }

  /** Merging a branch that is already in gives the commit merged onto. */
  function MergeOn(tip: Commit, branch: string, stamp: nat): Commit {
    if HasBranch(tip, branch) then tip else Join(tip, branch, stamp)
  }

  // --- Steps -------------------------------------------------------------------------------------

  datatype FrontDoor =
    | Submit(goalId: string, text: string, source: string, key: string, ref: string, author: string)
    | Steer(goalId: string, guidance: string)
    | CancelGoal(goalId: string, author: string, reason: string)
    | Decide(ticketId: string, approve: bool, author: string, reason: string)

  datatype Worker =
    | Start
    | Beat
    | Retitle(title: string, guidance: string)
    | Invalidates(reason: string)
    | Proposes(branch: string, commit: Commit, summary: string, trace: string, charge: Charge)
    | Fails(terminal: bool, reason: string, worktree: string, charge: Charge)
    | Splits(subs: seq<D.Subtask>, charge: Charge)
    | AppendsPlan                        // the next append of its decomposition
    | Abandons                           // an append of its own failed

  datatype Outcome = Passes(stamp: nat, local: Commit) | Refuses(reason: string, output: string) | Errs(reason: string)

  datatype Move =
    | StartGoals(goals: seq<string>)     // 1
    | FailCancelled(skip: set<string>)   // 1b
    | StopGoal(goal: string)             // 1c: over its budget
    | Promotes                           // 2
    | Dispatches(id: string, base: string, now: int)   // 3: snapshot, launch and claim at once
    | Drains                             // 4
    | Clears                             // a proposal's Goal, on a fresh read
    | Judges(outcome: Outcome)
    | Proceeds                           // the next of a judged proposal's writes
    | DeliversReady(goals: seq<string>)  // 4b
    | TriesDelivery
    | Pushed(url: string)
    | PushFails(reason: string)
    | FailsBlocked                       // 5
    | RestartsLost(id: string)           // 6
    | Emits                              // the next append a step decided on
    | GivesUp                            // the pass ends in an error

  datatype Step =
    | Front(ts: int, door: FrontDoor)
    | Work(ts: int, id: string, deed: Worker)
    | Pass(ts: int, move: Move)
    | Observe(ts: int, b: Body)
    | Crash

  // --- Front doors -------------------------------------------------------------------------------

  /** What a front door's transaction appends, given the log it holds. */
  ghost function FrontDoorAppends(s: State, door: FrontDoor): Option<Body> {
    match door
    case Submit(g, text, source, key, ref, author) =>
      if D.Slashless(g) then Appended(Doors.Submit(s, Doors.Request(g, text, source, key, ref, author))) else None
    case Steer(g, guidance) => if g in s.goals then Some(GoalAmended(g, guidance)) else None
    case CancelGoal(g, author, reason) => Appended(Doors.CancelGoal(s, g, author, reason))
    case Decide(id, approve, author, reason) => Appended(Doors.DecideTicket(s, id, approve, author, reason))
  }

  function Appended(a: Doors.Answer): Option<Body> {
    if a.Appends? then Some(a.body) else None
  }

  // --- Workers -----------------------------------------------------------------------------------

  function EndJob(sys: Sys, ts: int, id: string, b: Body): Sys {
    Append(sys, ts, "orchestrator", b).(jobs := sys.jobs - {id})
  }

  /** What a dispatch knows of its ticket. */
  function DispatchedAs(s: State, id: string): D.Job
    requires id in s.tickets
  {
    D.Job(id, s.tickets[id].origin.goalId, s.tickets[id].origin.depth)
  }

  /** A decomposition the governors or the graph check reject fails its ticket. */
  ghost function SplitJob(cfg: Config, sys: Sys, ts: int, id: string, subs: seq<D.Subtask>, charge: Charge): Sys
    requires id in sys.state.tickets
  {
    var j := DispatchedAs(sys.state, id);
    if D.Accepts(sys.state, j, subs, cfg.gov)
    then sys.(jobs := sys.jobs[id := Splitting(D.Begun(sys.state, j, WorkerOf(id), subs, charge))])
    else EndJob(sys, ts, id, D.RefusedBody(j, WorkerOf(id), charge))
  }

  function AppendPlan(sys: Sys, ts: int, id: string, plan: D.InFlight): Sys {
    if plan.todo == [] then EndJob(sys, ts, id, D.NextBody(plan))
    else Append(sys, ts, "orchestrator", D.NextBody(plan)).(
           jobs := sys.jobs[id := Splitting(plan.(todo := plan.todo[1..]))])
  }

  ghost function WorkerDoes(cfg: Config, sys: Sys, ts: int, id: string, deed: Worker): Sys {
    if id !in sys.jobs then sys else
    var job, w := sys.jobs[id], WorkerOf(id);
    match deed
    case Start =>
      if job.Launched? then Append(sys, ts, "orchestrator", WorkStarted(id, w)).(jobs := sys.jobs[id := Working])
      else sys
    case Beat => if job.Working? then Append(sys, ts, "orchestrator", Heartbeat(id, w)) else sys
    case Retitle(title, guidance) =>
      if job.Working? then Append(sys, ts, "orchestrator", TicketAmended(id, w, title, guidance)) else sys
    case Invalidates(reason) => if job.Working? then EndJob(sys, ts, id, TicketInvalidated(id, w, reason)) else sys
    case Proposes(branch, commit, summary, trace, charge) =>
      if job.Working? then EndJob(sys, ts, id, ProposalSubmitted(id, w, branch, commit, summary, trace, charge))
      else sys
    case Fails(terminal, reason, worktree, charge) =>
      EndJob(sys, ts, id, if terminal then TicketFailed(id, w, reason, worktree, charge)
             else WorkerRestarted(id, w, reason, charge))
    case Splits(subs, charge) =>
      if job.Working? && id in sys.state.tickets then SplitJob(cfg, sys, ts, id, subs, charge) else sys
    case AppendsPlan => if job.Splitting? then AppendPlan(sys, ts, id, job.plan) else sys
    case Abandons => sys.(jobs := sys.jobs - {id})
  }

  // --- The Scheduler -----------------------------------------------------------------------------

  function OverBudget(goal: string): (State, string) -> seq<Body> {
    (s: State, id: string) =>
      if id in s.tickets && s.tickets[id].origin.goalId == goal &&
          (s.tickets[id].status == Pending || s.tickets[id].status == Ready)
      then [Plans.Fails(s.tickets[id], "goal budget exceeded")] else []
  }

  /** A claimed or running ticket with no goroutine behind it. */
  predicate Lost(sys: Sys, id: string) {
    id in sys.state.tickets && (sys.state.tickets[id].status == Claimed || sys.state.tickets[id].status == Running) &&
        id !in sys.jobs
  }

  function TipOf(sys: Sys, t: Ticket): Option<Commit> {
    if t.origin.goalId in sys.br.tips then Some(sys.br.tips[t.origin.goalId]) else None
  }

  /** The commit a passing proposal lands as. */
  function LandsAs(cfg: Config, sys: Sys, t: Ticket, stamp: nat, local: Commit): Commit {
    if cfg.opt.prMode then (
      match TipOf(sys, t)
      case Some(tip) => MergeOn(tip, t.candidate.branch, stamp)
      case None => NoCommit)
    else local
  }

  function Rejects(cfg: Config, sys: Sys, ts: int, t: Ticket, reason: string, output: string): Sys
    requires AtHead(sys)
  {
    Append(sys, ts, "orchestrator", RejectOrFail(cfg.opt, t, reason, output)).(
      phase := Draining(sys.phase.queue[1..], sys.phase.clear - 1, Waiting))
  }

  /** An error on this proposal makes its Goal lose track of its branch: the work is in
      the tip, and the tip is not the latest merge on the log. */
  predicate Loses(cfg: Config, sys: Sys, t: Ticket) {
    && cfg.opt.prMode && t.origin.goalId in sys.br.tips
    && HasBranch(sys.br.tips[t.origin.goalId], t.candidate.branch)
    && LastMerge(sys.lands, t.origin.goalId) != sys.br.tips[t.origin.goalId]
  }

  function AfterError(cfg: Config, sys: Sys, t: Ticket): Branches {
    if Loses(cfg, sys, t) then sys.br.(lost := sys.br.lost + {t.origin.goalId}) else sys.br
  }

  /** A proposal found uncancelled is at the head of the queue. */
  predicate AtHead(sys: Sys) {
    sys.phase.Draining? && sys.phase.queue != [] && sys.phase.clear > 0
  }

  /** The verdict on the head of the queue. A branch already in the tip merges to the
      tip itself, which the Gate has passed: it is refused only by an error. */
  function JudgeHead(cfg: Config, sys: Sys, ts: int, outcome: Outcome): Sys {
    if !AtHead(sys) || sys.phase.stage != Waiting then sys else
    var t := sys.phase.queue[0];
    if cfg.opt.prMode && TipOf(sys, t).None? then sys else
    match outcome
    case Passes(stamp, local) =>
      var c := LandsAs(cfg, sys, t, stamp, local);
      if cfg.gate(c) then sys.(phase := sys.phase.(stage := if Parks(cfg.opt, t) then Parking(c) else Landing(c)))
      else sys
    case Refuses(reason, output) =>
      if cfg.opt.prMode && HasBranch(TipOf(sys, t).value, t.candidate.branch) && cfg.gate(TipOf(sys, t).value) then sys
      else Rejects(cfg, sys, ts, t, reason, output)
    case Errs(reason) => Rejects(cfg, sys, ts, t, reason, "").(br := AfterError(cfg, sys, t))
  }

  function Advance(br: Branches, g: string, c: Commit): Branches { br.(tips := br.tips[g := c]) }

  function Found(br: Branches, g: string): Branches { br.(lost := br.lost - {g}) }

  /** A Goal's branch is cut at its first dispatch. */
  function Cut(br: Branches, g: string, base: string): Branches {
    if g in br.tips then br else br.(tips := br.tips[g := Root(base)], bases := br.bases[g := Root(base)])
  }

  /** The Goal branch moves before Merged is on the log. */
  function ProceedHead(cfg: Config, sys: Sys, ts: int): Sys {
    if !AtHead(sys) then sys else
    var t, g := sys.phase.queue[0], sys.phase.queue[0].origin.goalId;
    var id, w, rest := t.origin.id, t.worker, Draining(sys.phase.queue[1..], sys.phase.clear - 1, Waiting);
    match sys.phase.stage
    case Waiting => sys
    case Landing(c) =>
      sys.(br := if cfg.opt.prMode then Advance(sys.br, g, c) else sys.br, phase := sys.phase.(stage := Kept(c)))
    case Kept(c) =>
      Append(sys, ts, "orchestrator", VerificationPassed(id, w)).(phase := sys.phase.(stage := Recorded(c)))
    case Recorded(c) =>
      Append(sys, ts, "orchestrator", Merged(id, w, c, if cfg.opt.prMode then GoalBranch(g) else "")).(
        phase := rest, br := Found(sys.br, g))
    case Parking(c) =>
      Append(sys, ts, "orchestrator", VerificationPassed(id, w)).(phase := sys.phase.(stage := Parked(c)))
    case Parked(c) => Append(sys, ts, "orchestrator", ApprovalRequested(id, w, c)).(phase := rest)
  }

  /** The next proposal's Goal, read afresh: its work is failed if it was cancelled. */
  function ClearNext(sys: Sys, ts: int): Sys {
    if !sys.phase.Draining? || sys.phase.clear >= |sys.phase.queue| || sys.phase.stage != Waiting then sys else
    var q, k := sys.phase.queue, sys.phase.clear;
    if Withdrawn(sys.state, q[k])
    then Append(sys, ts, "orchestrator", Plans.Fails(q[k], "goal cancelled")).(
           phase := Draining(q[..k] + q[k + 1..], k, Waiting))
    else sys.(phase := Draining(q, k + 1, Waiting))
  }

  /** Snapshot, eligibility, launch and claim of one ticket. */
  function DispatchOne(cfg: Config, sys: Sys, ts: int, id: string, base: string, now: int): Sys {
    if !sys.phase.Resting? || !Dispatchable(cfg.opt, sys.state, id, sys.jobs.Keys, now) then sys else
    var g := sys.state.tickets[id].origin.goalId;
    Append(sys, ts, "orchestrator", TicketClaimed(id, WorkerOf(id))).(
      jobs := sys.jobs[id := Launched],
      br := if cfg.opt.prMode then Cut(sys.br, g, base) else sys.br)
  }

  /** What a step decides to append, on the state it reads. */
  ghost function Decision(sys: Sys, move: Move): seq<Body> {
    var s, order := sys.state, sys.state.ticketOrder;
    match move
    case StartGoals(goals) => Sweep(s, goals, StartGoal)
    case FailCancelled(skip) => Sweep(s, order, Plans.Cancel(skip))
    case StopGoal(g) => [GoalBudgetExceeded(g)] + Sweep(s, order, OverBudget(g))
    case Promotes => Sweep(s, order, Promote)
    case FailsBlocked => Sweep(s, order, FailBlocked)
    case RestartsLost(id) =>
      if !Lost(sys, id) then []
      else [WorkerStalled(id, s.tickets[id].worker), WorkerRestarted(id, s.tickets[id].worker, "", NO_CHARGE)]
    case _ => []
  }

  predicate IsDecision(move: Move) {
    move.StartGoals? || move.FailCancelled? || move.StopGoal? || move.Promotes? || move.FailsBlocked? ||
        move.RestartsLost?
  }

  ghost function SchedulerDoes(cfg: Config, sys: Sys, ts: int, move: Move): Sys {
    if IsDecision(move) then (if sys.phase.Resting? then sys.(phase := Emitting(Decision(sys, move))) else sys)
    else match move
      case Dispatches(id, base, now) => DispatchOne(cfg, sys, ts, id, base, now)
      case Drains =>
        if sys.phase.Resting?
        then sys.(phase := Draining(InOrder(sys.state, sys.state.ticketOrder, IsProposed), 0, Waiting))
        else sys
      case Clears => ClearNext(sys, ts)
      case Judges(outcome) => JudgeHead(cfg, sys, ts, outcome)
      case Proceeds => ProceedHead(cfg, sys, ts)
      case DeliversReady(goals) => if sys.phase.Resting? && cfg.opt.prMode then sys.(phase := Delivering(goals))
          else sys
      case TriesDelivery => TryDelivery(sys)
      case Pushed(url) => Push(sys, ts, Some(url), "")
      case PushFails(reason) => Push(sys, ts, None, reason)
      case Emits => EmitNext(sys, ts)
      case _ => sys.(phase := Resting)  // GivesUp
  }

  function EmitNext(sys: Sys, ts: int): Sys {
    if !sys.phase.Emitting? then sys
    else if sys.phase.todo == [] then sys.(phase := Resting)
    else Append(sys, ts, "orchestrator", sys.phase.todo[0]).(phase := Emitting(sys.phase.todo[1..]))
  }

  ghost function TryDelivery(sys: Sys): Sys {
    if !sys.phase.Delivering? then sys
    else if sys.phase.goals == [] then sys.(phase := Resting)
    else
      var g, rest := sys.phase.goals[0], sys.phase.goals[1..];
      sys.(phase := if Deliverable(sys.state, g) && g in sys.br.tips then Pushing(g, sys.br.tips[g], rest)
           else Delivering(rest))
  }

  function Push(sys: Sys, ts: int, url: Option<string>, reason: string): Sys {
    if !sys.phase.Pushing? then sys else
    var g := sys.phase.goal;
    var b := if url.Some? then Delivered(g, GoalBranch(g), sys.phase.tip, url.value)
        else DeliveryFailed(g, GoalBranch(g), reason);
    Append(sys, ts, "orchestrator", b).(phase := Delivering(sys.phase.goals))
  }

  ghost function Next(cfg: Config, sys: Sys, step: Step): Sys {
    match step
    case Front(ts, door) => (
      match FrontDoorAppends(sys.state, door)
      case Some(b) => Append(sys, ts, "human", b)
      case None => sys)
    case Work(ts, id, deed) => WorkerDoes(cfg, sys, ts, id, deed)
    case Pass(ts, move) => SchedulerDoes(cfg, sys, ts, move)
    case Observe(ts, b) =>
      if (b.RegressionEscaped? && b.ticketId in sys.state.tickets) || b.BudgetExhausted?
      then Append(sys, ts, "orchestrator", b) else sys
    case Crash => sys.(jobs := map[], phase := Resting)
  }

  ghost function Run(cfg: Config, steps: seq<Step>): Sys {
    if steps == [] then START else Next(cfg, Run(cfg, steps[..|steps| - 1]), steps[|steps| - 1])
  }
}
