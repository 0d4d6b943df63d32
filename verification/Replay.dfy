/** The state derived by replaying the event log (internal/state/state.go). */
module Replay {
  import opened Events
  import opened Spending

  datatype Status = Pending | Ready | Claimed | Running | Proposed | Awaiting | MergedIn | Failed | Decomposed {
    predicate IsTerminal() { MergedIn? || Failed? || Decomposed? }
    predicate BeforeProposal() { Pending? || Ready? || Claimed? || Running? }
  }

  datatype Goal = Goal(
    id: string, text: string, source: string, ref: string, author: string,
    submittedAt: int, submittedSeq: int, amendments: seq<string>, spend: Spend,
    budgetExceeded: bool, cancelled: bool, cancelledSeq: int, branch: string,
    delivered: bool, prUrl: string, deliveryError: string, deliveryFailedSeq: int)

  /** What a ticket was created with; nothing rewrites it. */
  datatype Origin = Origin(id: string, goalId: string, dependsOn: seq<string>, key: string, depth: int)

  /** The proposal a ticket holds, blank when it holds none. */
  datatype Candidate = Candidate(branch: string, commit: Commit, summary: string, trace: string)

  /** The latest failure, and how many in a row had its reason. */
  datatype Failure = Failure(reason: string, output: string, same: nat)

  datatype Ticket = Ticket(
    origin: Origin, title: string, amendments: seq<string>, children: seq<string>,
    status: Status, worker: string, activeWorkers: seq<string>, attempts: nat, candidate: Candidate,
    approved: bool, rejected: bool, decidedSeq: int, failedSeq: int, lastActivity: int,
    failure: Failure, worktree: string, spend: Spend)

  datatype State = State(
    goals: map<string, Goal>, tickets: map<string, Ticket>, ticketOrder: seq<string>,
    keyToTicket: map<string, string>, keyToGoal: map<string, string>,
    lastSeq: int, spend: Spend, budgetsExhausted: map<string, int>)

  const EMPTY := State(map[], map[], [], map[], map[], 0, NO_SPEND, map[])

  // --- One event, one ticket ---------------------------------------------------------------------

  function RemoveWorker(workers: seq<string>, worker: string): seq<string> {
    if workers == [] then []
    else if workers[0] == worker then RemoveWorker(workers[1..], worker)
    else [workers[0]] + RemoveWorker(workers[1..], worker)
  }

  const NO_CANDIDATE := Candidate("", NoCommit, "", "")

  function Note(f: Failure, reason: string): Failure {
    if reason != "" && reason == f.reason then f.(same := f.same + 1) else f.(reason := reason, same := 1)
  }

  function Propose(t: Ticket, e: Event): Ticket
    requires e.body.ProposalSubmitted?
  {
    var b := e.body;
    var t1 := t.(activeWorkers := RemoveWorker(t.activeWorkers, b.worker), lastActivity := e.ts);
    if t.status.BeforeProposal()
    then t1.(status := Proposed, worker := b.worker, candidate := Candidate(b.branch, b.commit, b.summary, b.trace))
    else t1
  }

  /** Back for another attempt; the Scheduler caps attempts. */
  function Reject(t: Ticket, e: Event): Ticket
    requires e.body.VerificationFailed?
  {
    var b := e.body;
    var active := RemoveWorker(t.activeWorkers, b.worker);
    var back := (t.status == Proposed && t.worker == b.worker) || t.status.BeforeProposal();
    t.(activeWorkers := active, status := if !back then t.status else if active == [] then Ready else Running,
       failure := Note(t.failure, b.reason).(output := b.output), worker := "", candidate := NO_CANDIDATE,
       lastActivity := e.ts)
  }

  /** Terminal unless other workers are still active; overrides the proposal from
      this worker, parked or not. */
  function Fail(t: Ticket, e: Event): Ticket
    requires e.body.TicketFailed?
  {
    var b := e.body;
    var active := RemoveWorker(t.activeWorkers, b.worker);
    var hit := ((t.status == Proposed || t.status == Awaiting) && t.worker == b.worker) || t.status.BeforeProposal();
    var t1 := if !hit then t else if active == [] then t.(status := Failed, failedSeq := e.num)
        else t.(status := Running);
    t1.(activeWorkers := active, lastActivity := e.ts, worktree := b.worktree,
        failure := if b.reason != "" then t.failure.(reason := b.reason) else t.failure)
  }

  function Restart(t: Ticket, e: Event): Ticket
    requires e.body.WorkerRestarted?
  {
    var b := e.body;
    var active := RemoveWorker(t.activeWorkers, b.worker);
    t.(activeWorkers := active, worker := "", candidate := NO_CANDIDATE.(summary := t.candidate.summary),
       lastActivity := e.ts,
       status := if active == [] && t.status.BeforeProposal() then Ready else t.status,
       failure := if b.reason != "" then Note(t.failure, b.reason).(output := b.reason) else t.failure)
  }

  function Invalidate(t: Ticket, e: Event): Ticket
    requires e.body.TicketInvalidated?
  {
    var b := e.body;
    t.(activeWorkers := RemoveWorker(t.activeWorkers, b.worker), worker := "",
       candidate := NO_CANDIDATE.(summary := t.candidate.summary), lastActivity := e.ts,
       status := if t.status == Ready || t.status == Claimed || t.status == Running then Pending else t.status,
       failure := if b.reason != "" then t.failure.(reason := "invalidated: " + b.reason) else t.failure)
  }

  function Amend(t: Ticket, e: Event): Ticket
    requires e.body.TicketAmended?
  {
    var b := e.body;
    t.(title := if b.title != "" then b.title else t.title, lastActivity := e.ts,
       amendments := if b.guidance != "" then t.amendments + [b.guidance] else t.amendments)
  }

  /** How the one ticket an event names moves. Every other ticket stays as it is. */
  function StepTicket(t: Ticket, e: Event): (t': Ticket)
    ensures t'.origin == t.origin && t'.spend == t.spend
  {
    match e.body
    case TicketReady(_) => if t.status == Pending then t.(status := Ready) else t
    case TicketClaimed(_, w) =>
      t.(status := Claimed, worker := w, activeWorkers := t.activeWorkers + [w], attempts := t.attempts + 1,
         lastActivity := e.ts)
    case WorkStarted(_, _) => t.(status := Running, lastActivity := e.ts)
    case Heartbeat(_, _) => t.(lastActivity := e.ts)
    case TicketAmended(_, _, _, _) => Amend(t, e)
    case TicketInvalidated(_, _, _) => Invalidate(t, e)
    case TicketDecomposed(_, _, children, _) =>
      t.(status := Decomposed, activeWorkers := [], children := children, lastActivity := e.ts)
    case ProposalSubmitted(_, _, _, _, _, _, _) => Propose(t, e)
    case WorkerRestarted(_, _, _, _) => Restart(t, e)
    case VerificationFailed(_, _, _, _) => Reject(t, e)
    case TicketFailed(_, _, _, _, _) => Fail(t, e)
    case Merged(_, _, commit, _) =>
      t.(status := MergedIn, activeWorkers := [], candidate := t.candidate.(commit := commit), lastActivity := e.ts)
    case ApprovalRequested(_, _, _) =>
      if t.status == Proposed then t.(status := Awaiting, lastActivity := e.ts) else t
    case ApprovalGranted(_, _, _) =>
      if t.status == Awaiting
      then t.(status := Proposed, approved := true, decidedSeq := e.num, lastActivity := e.ts) else t
    case ApprovalDenied(_, _, _) =>
      if t.status == Awaiting
      then t.(status := Failed, rejected := true, decidedSeq := e.num, failedSeq := e.num, lastActivity := e.ts) else t
    case _ => t  // VerificationPassed, RegressionEscaped, WorkerStalled: observational
  }

  // --- One event, one Goal -----------------------------------------------------------------------

  function StepGoal(g: Goal, e: Event): Goal {
    match e.body
    case GoalBudgetExceeded(_) => g.(budgetExceeded := true)
    case GoalAmended(_, guidance) =>
      if guidance != "" then g.(amendments := g.amendments + [guidance]) else g
    case GoalCancelled(_, _, _) =>
      if !g.cancelled then g.(cancelled := true, cancelledSeq := e.num) else g
    case Delivered(_, _, _, url) =>
      g.(delivered := true, prUrl := url, deliveryError := "", deliveryFailedSeq := 0)
    case DeliveryFailed(_, _, reason) => g.(deliveryError := reason, deliveryFailedSeq := e.num)
    case _ => g
  }

  function NewGoal(e: Event): Goal
    requires e.body.GoalSubmitted?
  {
    var b := e.body;
    Goal(b.goalId, b.text, b.source, b.ref, b.author, e.ts, e.num, [], NO_SPEND,
         false, false, 0, "", false, "", "", 0)
  }

  function NewTicket(e: Event): Ticket
    requires e.body.TicketCreated?
  {
    var b := e.body;
    Ticket(Origin(b.ticketId, b.goalId, b.dependsOn, b.key, b.depth), b.title, [], [], Pending, "", [], 0,
           NO_CANDIDATE, false, false, 0, 0, e.ts, Failure("", "", 0), "", NO_SPEND)
  }

  /** Idempotency: a Goal whose key or id is already on the log is not a second Goal. */
  function SubmitGoal(s: State, e: Event): State
    requires e.body.GoalSubmitted?
  {
    var b := e.body;
    if b.key != "" && b.key in s.keyToGoal then s else
    var s1 := if b.key != "" then s.(keyToGoal := s.keyToGoal[b.key := b.goalId]) else s;
    if b.goalId in s.goals then s1 else s1.(goals := s.goals[b.goalId := NewGoal(e)])
  }

  function CreateTicket(s: State, e: Event): State
    requires e.body.TicketCreated?
  {
    var b := e.body;
    if b.key != "" && b.key in s.keyToTicket then s else
    var s1 := if b.key != "" then s.(keyToTicket := s.keyToTicket[b.key := b.ticketId]) else s;
    if b.ticketId in s.tickets then s1
    else s1.(tickets := s.tickets[b.ticketId := NewTicket(e)], ticketOrder := s.ticketOrder + [b.ticketId])
  }

  function BudgetWindow(scope: string, day: string): string {
    if scope == "day" then scope + ":" + day else scope
  }

  /** In pull-request mode a merge landed on the Goal's own branch. */
  function NoteBranch(s: State, goalId: string, branch: string): State {
    if goalId in s.goals && branch != "" then s.(goals := s.goals[goalId := s.goals[goalId].(branch := branch)]) else s
  }

  function OnTicket(s: State, e: Event): State
    requires NamesTicket(e.body)
  {
    var id := e.body.ticketId;
    if id !in s.tickets then s else
    var s1 := s.(tickets := s.tickets[id := StepTicket(s.tickets[id], e)]);
    if e.body.Merged? then NoteBranch(s1, s.tickets[id].origin.goalId, e.body.branch) else s1
  }

  function OnGoal(s: State, e: Event): State
    requires !NamesTicket(e.body) && !e.body.BudgetExhausted?
  {
    var g := e.body.goalId;
    if g in s.goals then s.(goals := s.goals[g := StepGoal(s.goals[g], e)]) else s
  }

  /** An event's transition, before what it spent is charged. */
  function Transition(s: State, e: Event): State {
    if e.body.GoalSubmitted? then SubmitGoal(s, e)
    else if e.body.TicketCreated? then CreateTicket(s, e)
    else if e.body.BudgetExhausted? then
      s.(budgetsExhausted := s.budgetsExhausted[BudgetWindow(e.body.scope, e.body.day) := e.num])
    else if NamesTicket(e.body) then OnTicket(s, e)
    else OnGoal(s, e)
  }

  function ChargeTicket(t: Ticket, c: Charge): Ticket { t.(spend := Add(t.spend, c)) }

  function ChargeGoal(s: State, g: string, c: Charge): State {
    if g in s.goals then s.(goals := s.goals[g := s.goals[g].(spend := Add(s.goals[g].spend, c))]) else s
  }

  /** Adds a charge to its ticket, the whole log, and the ticket's Goal. */
  function ChargeTo(s: State, id: string, c: Charge): State {
    if id !in s.tickets then s else
    var s1 := s.(tickets := s.tickets[id := ChargeTicket(s.tickets[id], c)], spend := Add(s.spend, c));
    ChargeGoal(s1, s.tickets[id].origin.goalId, c)
  }

  /** Charges what an event spent, once its transition is made. */
  function Settle(s: State, e: Event): State {
    var s1 := match ChargeOf(e.body)
      case Some(c) => ChargeTo(s, TicketIdOf(e.body), c)
      case None => s;
    s1.(lastSeq := e.num)
  }

  function Apply(s: State, e: Event): State {
    Settle(Transition(s, e), e)
  }

  function Fold(events: seq<Event>): State {
    if events == [] then EMPTY else Apply(Fold(events[..|events| - 1]), events[|events| - 1])
  }

  /** The creation order lists every ticket, once. */
  ghost predicate Listed(s: State) {
    && (forall id :: id in s.tickets <==> id in s.ticketOrder)
    && forall i, j :: 0 <= i < j < |s.ticketOrder| ==> s.ticketOrder[i] != s.ticketOrder[j]
  }

  // --- What an event can change ------------------------------------------------------------------

  predicate Moves(e: Event, id: string) {
    NamesTicket(e.body) && !e.body.TicketCreated? && e.body.ticketId == id
  }

  /** The ticket an event puts on the log, if it does. */
  function Creates(s: State, e: Event): Option<string> {
    if e.body.TicketCreated? && !(e.body.key != "" && e.body.key in s.keyToTicket) && e.body.ticketId !in s.tickets
    then Some(e.body.ticketId) else None
  }

  ghost predicate TicketsAfter(s: State, e: Event, s1: State) {
    && s1.spend == s.spend
    && (match Creates(s, e)
        case None => s1.ticketOrder == s.ticketOrder && s1.tickets.Keys == s.tickets.Keys
        case Some(id) => s1.ticketOrder == s.ticketOrder + [id] && s1.tickets == s.tickets[id := NewTicket(e)])
    && forall id :: id in s.tickets ==> id in s1.tickets && TicketAfter(s.tickets[id], e, id, s1.tickets[id])
  }

  ghost predicate TicketAfter(t: Ticket, e: Event, id: string, t': Ticket) {
    t' == if Moves(e, id) then StepTicket(t, e) else t
  }

  /** A transition touches at most one ticket: the one the event names moves, or the
      one it creates appears. */
  lemma TransitionIsLocal(s: State, e: Event)
    ensures TicketsAfter(s, e, Transition(s, e))
  {
    if e.body.TicketCreated? {
      CreateTicketIsLocal(s, e);
    } else if NamesTicket(e.body) {
      OnTicketIsLocal(s, e);
    } else {
      GoalEventIsLocal(s, e);
    }
  }

  lemma CreateTicketIsLocal(s: State, e: Event)
    requires e.body.TicketCreated?
    ensures TicketsAfter(s, e, CreateTicket(s, e))
  {
    assert forall id :: !Moves(e, id);
  }

  lemma GoalEventIsLocal(s: State, e: Event)
    requires !NamesTicket(e.body)
    ensures TicketsAfter(s, e, Transition(s, e))
  {
    assert forall id :: !Moves(e, id);
    var s1 := Transition(s, e);
    assert s1.tickets == s.tickets && s1.ticketOrder == s.ticketOrder && s1.spend == s.spend;
  }

  lemma OnTicketIsLocal(s: State, e: Event)
    requires NamesTicket(e.body) && !e.body.TicketCreated?
    ensures TicketsAfter(s, e, OnTicket(s, e))
  {
    var id, s1 := e.body.ticketId, OnTicket(s, e);
    if id in s.tickets {
      var t' := StepTicket(s.tickets[id], e);
      assert s1.tickets == s.tickets[id := t'];
      assert TicketAfter(s.tickets[id], e, id, t');
    }
  }

  lemma GoalChargeIsLocal(s: State, g: string, c: Charge)
    ensures var s1 := ChargeGoal(s, g, c);
            && s1 == s.(goals := s1.goals) && s1.goals.Keys == s.goals.Keys
            && forall x :: x in s.goals ==> s1.goals[x] == s.goals[x].(spend := s1.goals[x].spend)
  {
  }

  /** Charging moves no figure but the spend. */
  ghost predicate OnlySpends(s: State, id: string, s1: State) {
    && s1 == s.(tickets := s1.tickets, goals := s1.goals, spend := s1.spend)
    && s1.tickets.Keys == s.tickets.Keys && s1.goals.Keys == s.goals.Keys
    && (forall x :: x in s.tickets ==> s1.tickets[x] == if x == id then s.tickets[x].(spend := s1.tickets[x].spend)
        else s.tickets[x])
    && (forall g :: g in s.goals ==> s1.goals[g] == s.goals[g].(spend := s1.goals[g].spend))
  }

  lemma ChargeIsLocal(s: State, id: string, c: Charge)
    ensures OnlySpends(s, id, ChargeTo(s, id, c))
  {
    if id in s.tickets {
      var s1 := s.(tickets := s.tickets[id := ChargeTicket(s.tickets[id], c)], spend := Add(s.spend, c));
      GoalChargeIsLocal(s1, s.tickets[id].origin.goalId, c);
      assert ChargeTo(s, id, c) == ChargeGoal(s1, s.tickets[id].origin.goalId, c);
    }
  }

  /** A ticket after an event, up to what the event charged it. */
  ghost predicate TicketBecomes(t: Ticket, e: Event, id: string, t': Ticket) {
    if !Moves(e, id) then t' == t
    else t' == StepTicket(t, e).(spend := t'.spend) && (ChargeOf(e.body).None? ==> t'.spend == t.spend)
  }

  ghost predicate Becomes(s: State, e: Event, s': State) {
    && s'.lastSeq == e.num
    && (!e.body.TicketCreated? ==> s'.keyToTicket == s.keyToTicket)
    && (match Creates(s, e)
        case None => s'.ticketOrder == s.ticketOrder && s'.tickets.Keys == s.tickets.Keys
        case Some(id) => s'.ticketOrder == s.ticketOrder + [id] && s'.tickets == s.tickets[id := NewTicket(e)])
    && forall id :: id in s.tickets ==> id in s'.tickets && TicketBecomes(s.tickets[id], e, id, s'.tickets[id])
  }

  /** An event moves the one ticket it names, or creates one, and no other. */
  lemma ApplyIsLocal(s: State, e: Event)
    ensures Becomes(s, e, Apply(s, e))
  {
    var s1 := Transition(s, e);
    TransitionIsLocal(s, e);
    assert !e.body.TicketCreated? ==> s1.keyToTicket == s.keyToTicket;
    if ChargeOf(e.body).Some? {
      var id, c := TicketIdOf(e.body), ChargeOf(e.body).value;
      ChargeIsLocal(s1, id, c);
      var s2 := ChargeTo(s1, id, c);
      assert Apply(s, e) == s2.(lastSeq := e.num);
      ChargedBecomes(s, e, s1, s2);
    } else {
      assert Apply(s, e) == s1.(lastSeq := e.num);
      forall x | x in s.tickets ensures TicketBecomes(s.tickets[x], e, x, s1.tickets[x]) {
        assert TicketAfter(s.tickets[x], e, x, s1.tickets[x]);
      }
    }
  }

  lemma ChargedBecomes(s: State, e: Event, s1: State, s2: State)
    requires ChargeOf(e.body).Some? && TicketsAfter(s, e, s1) && s1.keyToTicket == s.keyToTicket
    requires OnlySpends(s1, TicketIdOf(e.body), s2)
    ensures Becomes(s, e, s2.(lastSeq := e.num))
  {
    forall x | x in s.tickets ensures TicketBecomes(s.tickets[x], e, x, s2.tickets[x]) {
      assert TicketAfter(s.tickets[x], e, x, s1.tickets[x]);
    }
  }

  predicate Names(e: Event, g: string) { !NamesTicket(e.body) && !e.body.BudgetExhausted? && e.body.goalId == g }

  /** What an event does to the Goals' lasting marks. */
  ghost predicate GoalsBecome(s: State, e: Event, s': State) {
    && s.goals.Keys <= s'.goals.Keys
    && (forall g :: g in s'.goals && g !in s.goals ==>
          e.body.GoalSubmitted? && e.body.goalId == g && !s'.goals[g].cancelled && !s'.goals[g].delivered &&
              s'.goals[g].branch == "")
    && forall g :: g in s.goals ==> GoalBecomes(s, e, g, s'.goals[g])
  }

  ghost predicate GoalBecomes(s: State, e: Event, g: string, g': Goal)
    requires g in s.goals
  {
    && g'.cancelled == (s.goals[g].cancelled || (e.body.GoalCancelled? && e.body.goalId == g))
    && g'.delivered == (s.goals[g].delivered || (e.body.Delivered? && e.body.goalId == g))
    && (g'.branch == s.goals[g].branch || (e.body.Merged? && e.body.ticketId in s.tickets &&
                                           s.tickets[e.body.ticketId].origin.goalId == g))
  }

  lemma TransitionOnGoals(s: State, e: Event)
    ensures GoalsBecome(s, e, Transition(s, e))
  {
    if e.body.GoalSubmitted? {
      SubmitOnGoals(s, e);
    } else if e.body.TicketCreated? || e.body.BudgetExhausted? {
      assert Transition(s, e).goals == s.goals;
    } else if NamesTicket(e.body) {
      TicketOnGoals(s, e);
    } else {
      GoalOnGoals(s, e);
    }
  }

  lemma SubmitOnGoals(s: State, e: Event)
    requires e.body.GoalSubmitted?
    ensures GoalsBecome(s, e, SubmitGoal(s, e))
  {
  }

  lemma TicketOnGoals(s: State, e: Event)
    requires NamesTicket(e.body) && !e.body.TicketCreated?
    ensures GoalsBecome(s, e, OnTicket(s, e))
  {
    var s1 := OnTicket(s, e);
    if !e.body.Merged? { assert s1.goals == s.goals; }
  }

  lemma GoalOnGoals(s: State, e: Event)
    requires !NamesTicket(e.body) && !e.body.BudgetExhausted? && !e.body.GoalSubmitted?
    ensures GoalsBecome(s, e, OnGoal(s, e))
  {
    var g := e.body.goalId;
    if g in s.goals {
      var g' := StepGoal(s.goals[g], e);
      assert OnGoal(s, e).goals == s.goals[g := g'];
      assert GoalBecomes(s, e, g, g');
    }
  }

  lemma ApplyOnGoals(s: State, e: Event)
    ensures GoalsBecome(s, e, Apply(s, e))
  {
    var s1 := Transition(s, e);
    TransitionOnGoals(s, e);
    if ChargeOf(e.body).Some? {
      var id, c := TicketIdOf(e.body), ChargeOf(e.body).value;
      ChargeIsLocal(s1, id, c);
      assert Apply(s, e) == ChargeTo(s1, id, c).(lastSeq := e.num);
      forall g | g in s.goals ensures GoalBecomes(s, e, g, Apply(s, e).goals[g]) {
        assert GoalBecomes(s, e, g, s1.goals[g]);
      }
    } else {
      assert Apply(s, e) == s1.(lastSeq := e.num);
    }
  }

  /** The event leaves this Goal's record alone, up to what it is charged. */
  predicate Spares(s: State, e: Event, g: string) {
    && !Names(e, g)
    && !(NamesTicket(e.body) && !e.body.TicketCreated? && e.body.ticketId in s.tickets &&
         s.tickets[e.body.ticketId].origin.goalId == g)
  }

  lemma TransitionSpares(s: State, e: Event, g: string)
    requires g in s.goals && Spares(s, e, g)
    ensures g in Transition(s, e).goals && Transition(s, e).goals[g] == s.goals[g]
  {
    if e.body.GoalSubmitted? || e.body.TicketCreated? || e.body.BudgetExhausted? {
    } else if NamesTicket(e.body) {
      assert g in OnTicket(s, e).goals && OnTicket(s, e).goals[g] == s.goals[g];
    } else {
      assert OnGoal(s, e).goals[g] == s.goals[g];
    }
  }

  lemma ApplySpares(s: State, e: Event, g: string)
    requires g in s.goals && Spares(s, e, g)
    ensures g in Apply(s, e).goals && Apply(s, e).goals[g] == s.goals[g].(spend := Apply(s, e).goals[g].spend)
  {
    var s1 := Transition(s, e);
    TransitionSpares(s, e, g);
    if ChargeOf(e.body).Some? {
      var id, c := TicketIdOf(e.body), ChargeOf(e.body).value;
      ChargeIsLocal(s1, id, c);
      assert Apply(s, e) == ChargeTo(s1, id, c).(lastSeq := e.num);
    } else {
      assert Apply(s, e) == s1.(lastSeq := e.num);
    }
  }
}
