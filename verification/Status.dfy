/** The status projection (cmd/aoa/status.go, and GoalConditions in
    internal/state/state.go): a Goal's conditions, and why recomputing only the
    Goals an event moved is enough. */
module Status {
  import opened Events
  import opened Spending
  import opened Replay
  import opened TaskGraph
  import opened Digraph

  datatype Kind = IsAccepted | IsVerified | IsDelivered | IsComplete

  datatype Truth = Yes | No | Unknown

  datatype Condition = Condition(kind: Kind, truth: Truth, reason: string, message: string)

  /** A condition with the time its status last changed. */
  datatype Stamped = Stamped(cond: Condition, at: int)

  /** All that a Goal's conditions depend on. */
  datatype Summary = Summary(
    any: bool, awaiting: bool, inFlight: bool, verified: bool, outcome: Option<Result>,
    failed: Option<(string, string)>, rejected: Option<(string, string)>,
    goal: Goal)

  predicate IsFailed(t: Ticket, rejectedOnly: bool) {
    t.status == Failed && (rejectedOnly ==> t.rejected)
  }

  /** The first of the Goal's failed tickets in creation order, and its reason. */
  function FirstFailed(s: State, order: seq<string>, g: string, rejectedOnly: bool): Option<(string, string)> {
    if order == [] then None else
    var id := order[|order| - 1];
    match FirstFailed(s, order[..|order| - 1], g, rejectedOnly)
    case Some(first) => Some(first)
    case None =>
      if Owns(s, g, id) && IsFailed(s.tickets[id], rejectedOnly) then Some((id, s.tickets[id].failure.reason)) else None
  }

  ghost function Summarize(s: State, g: string): Summary
    requires g in s.goals
  {
    Summary(
      GoalHasTickets(s, g),
      GoalAwaits(s, g), GoalInFlight(s, g),
      GoalComplete(s, g), GoalOutcome(s, g),
      FirstFailed(s, s.ticketOrder, g, false), FirstFailed(s, s.ticketOrder, g, true),
      s.goals[g].(spend := NO_SPEND))
  }

  // --- The four conditions -----------------------------------------------------------------------

  function AcceptedOf(m: Summary): Condition {
    if m.any then Condition(IsAccepted, Yes, "TasksCreated", "")
    else if m.goal.cancelled then Condition(IsAccepted, No, "Cancelled", "")
    else Condition(IsAccepted, No, "Queued", "")
  }

  function VerifiedOf(m: Summary): Condition {
    if m.verified then Condition(IsVerified, Yes, "AllMerged", "")
    else if m.goal.cancelled then Condition(IsVerified, No, "Cancelled", "")
    else if !m.any then Condition(IsVerified, No, "Queued", "")
    else if m.awaiting then Condition(IsVerified, No, "AwaitingApproval", "")
    else if m.inFlight then Condition(IsVerified, No, "WorkInProgress", "")
    else if m.goal.budgetExceeded then Condition(IsVerified, No, "BudgetExceeded", "")
    else if m.rejected.Some? then Condition(IsVerified, No, "ApprovalDenied",
                                            m.rejected.value.0 + " was rejected at the approval gate")
    else if m.failed.Some? then
      Condition(IsVerified, No, "TaskFailed",
                if m.failed.value.1 != "" then m.failed.value.0 + ": " + m.failed.value.1
                else m.failed.value.0 + " failed")
    else Condition(IsVerified, No, "WorkInProgress", "")
  }

  function DeliveredOf(m: Summary): Condition {
    if m.goal.delivered && m.goal.prUrl != "" then Condition(IsDelivered, Yes, "PullRequestOpened", m.goal.prUrl)
    else if m.goal.delivered then Condition(IsDelivered, Yes, "BranchPushed", "pushed " + m.goal.branch)
    else if m.goal.cancelled then Condition(IsDelivered, No, "Cancelled", "")
    else if m.goal.deliveryError != "" then Condition(IsDelivered, No, "DeliveryFailed", m.goal.deliveryError)
    else if m.goal.branch == "" then Condition(IsDelivered, Unknown, "NoGoalBranch", "")
    else if m.verified then Condition(IsDelivered, No, "DeliveryPending", "")
    else Condition(IsDelivered, No, "NotVerified", "")
  }

  function CompleteOf(m: Summary): Condition {
    if m.outcome == Some(CancelledOutcome) && (m.inFlight || m.awaiting)
    then Condition(IsComplete, No, "Cancelling", "")
    else if m.outcome == Some(Landed) then Condition(IsComplete, Yes, "Merged", "")
    else if m.outcome == Some(DeliveredOutcome) then Condition(IsComplete, Yes, "Delivered", "")
    else if m.outcome == Some(FailedOutcome) then Condition(IsComplete, Yes, "Failed", "")
    else if m.outcome == Some(CancelledOutcome) then Condition(IsComplete, Yes, "Cancelled", "")
    else if m.outcome == Some(Queued) then Condition(IsComplete, No, "Queued", "")
    else if m.outcome == Some(AwaitingApproval) then Condition(IsComplete, No, "AwaitingApproval", "")
    else if m.verified && m.goal.branch != "" && m.goal.deliveryError != ""
        then Condition(IsComplete, No, "DeliveryFailed", "")
    else if m.verified && m.goal.branch != "" then Condition(IsComplete, No, "DeliveryPending", "")
    else Condition(IsComplete, No, "WorkInProgress", "")
  }

  function ConditionsOf(m: Summary): seq<Condition> {
    [AcceptedOf(m), VerifiedOf(m), DeliveredOf(m), CompleteOf(m)]
  }

  ghost function GoalConditions(s: State, g: string): seq<Condition> {
    if g in s.goals then ConditionsOf(Summarize(s, g)) else []
  }

  // --- Stamping ----------------------------------------------------------------------------------

  predicate SameStatus(p: Stamped, c: Condition) { p.cond.kind == c.kind && p.cond.truth == c.truth }

  /** When a status last changed, given what was recorded before the event at `at`. */
  function Since(prev: seq<Stamped>, c: Condition, at: int): int {
    if prev == [] then at
    else if SameStatus(prev[|prev| - 1], c) then prev[|prev| - 1].at else Since(prev[..|prev| - 1], c, at)
  }

  ghost function Restamped(prev: seq<Stamped>, next: seq<Condition>, at: int): seq<Stamped> {
    seq(|next|, i requires 0 <= i < |next| => Stamped(next[i], Since(prev, next[i], at)))
  }

  method Restamp(prev: seq<Stamped>, next: seq<Condition>, at: int) returns (out: seq<Stamped>)
    ensures out == Restamped(prev, next, at)
  {
    out := [];
    for i := 0 to |next|
      invariant |out| == i && forall k :: 0 <= k < i ==> out[k] == Stamped(next[k], Since(prev, next[k], at))
    {
      var time := at;
      for j := 0 to |prev|
        invariant time == Since(prev[..j], next[i], at)
      {
        assert prev[..j + 1][..j] == prev[..j];
        if SameStatus(prev[j], next[i]) { time := prev[j].at; }
      }
      assert prev[..|prev|] == prev;
      out := out + [Stamped(next[i], time)];
    }
  }

  /** One condition of each kind. */
  ghost predicate OneEach(prev: seq<Stamped>) {
    forall a, b :: 0 <= a < b < |prev| ==> prev[a].cond.kind != prev[b].cond.kind
  }

  /** A condition keeps its time if its status is what it was, whatever became of its
      reason, and otherwise has the time of the event. */
  lemma {:induction false} SinceIsExact(prev: seq<Stamped>, i: nat, c: Condition, at: int)
    requires i < |prev| && OneEach(prev) && prev[i].cond.kind == c.kind
    ensures Since(prev, c, at) == if prev[i].cond.truth == c.truth then prev[i].at else at
  {
    var init, last := prev[..|prev| - 1], prev[|prev| - 1];
    if i < |prev| - 1 {
      assert init[i] == prev[i] && prev[i].cond.kind != last.cond.kind;
      SinceIsExact(init, i, c, at);
    } else if prev[i].cond.truth != c.truth {
      NeverStamped(init, c, at);
    }
  }

  lemma {:induction false} NeverStamped(prev: seq<Stamped>, c: Condition, at: int)
    requires forall p :: p in prev ==> p.cond.kind != c.kind
    ensures Since(prev, c, at) == at
  {
    if prev != [] { NeverStamped(prev[..|prev| - 1], c, at); }
  }

  ghost predicate Stamps(prev: seq<Stamped>, conds: seq<Condition>) {
    |prev| == |conds| && forall i :: 0 <= i < |conds| ==> prev[i].cond == conds[i]
  }

  /** Restamping what has not changed changes nothing. */
  lemma RestampSame(prev: seq<Stamped>, m: Summary, at: int)
    requires Stamps(prev, ConditionsOf(m))
    ensures Restamped(prev, ConditionsOf(m), at) == prev
  {
    var next := ConditionsOf(m);
    forall a, b | 0 <= a < b < |prev| ensures prev[a].cond.kind != prev[b].cond.kind {
      assert next[a].kind != next[b].kind;
    }
    forall i | 0 <= i < |next| ensures Restamped(prev, next, at)[i] == prev[i] {
      SinceIsExact(prev, i, next[i], at);
    }
  }

  // --- The Goals an event moves ------------------------------------------------------------------

  function PayloadGoal(b: Body): string {
    if b.TicketCreated? || (!NamesTicket(b) && !b.BudgetExhausted?) then b.goalId else ""
  }

  /** The Goal the payload names, else the Goal of the ticket it names. */
  function GoalMoved(s: State, e: Event): Option<string> {
    if PayloadGoal(e.body) != "" then Some(PayloadGoal(e.body))
    else if TicketIdOf(e.body) in s.tickets then Some(s.tickets[TicketIdOf(e.body)].origin.goalId) else None
  }

  /** Every child that is on the log belongs to its parent's Goal. */
  ghost predicate OwnChildren(s: State) {
    forall id, c |
      id in s.tickets && s.tickets[id].status == Decomposed && c in s.tickets[id].children && c in s.tickets ::
      s.tickets[c].origin.goalId == s.tickets[id].origin.goalId
  }

  /** The Goal's tickets are the same in both states, up to spend. */
  ghost predicate SameTickets(s: State, s': State, g: string) {
    forall id :: (Owns(s, g, id) <==> Owns(s', g, id)) &&
                 (Owns(s, g, id) ==> s'.tickets[id] == s.tickets[id].(spend := s'.tickets[id].spend))
  }

  lemma {:induction false} CompleteSameTo(s: State, s': State, g: string, id: string, k: nat)
    requires SameTickets(s, s', g) && OwnChildren(s) && Owns(s, g, id) && Complete#[k](s, id)
    ensures Complete(s', id)
    decreases k
  {
    assert Owns(s', g, id);
    if s.tickets[id].status == Decomposed {
      forall c | c in s.tickets[id].children ensures Complete(s', c) {
        assert Owns(s, g, c);
        CompleteSameTo(s, s', g, c, k - 1);
      }
    }
  }

  lemma {:induction false} DeadSameTo(s: State, s': State, g: string, id: string, k: nat)
    requires SameTickets(s, s', g) && OwnChildren(s) && Owns(s, g, id) && Dead#[k](s, id)
    ensures Dead(s', id)
    decreases k
  {
    assert Owns(s', g, id);
    if s.tickets[id].status == Decomposed {
      var c :| c in s.tickets[id].children && Dead#[k - 1](s, c);
      assert Owns(s, g, c);
      DeadSameTo(s, s', g, c, k - 1);
    }
  }

  lemma VerdictsSame(s: State, s': State, g: string, id: string)
    requires SameTickets(s, s', g) && SameTickets(s', s, g) && OwnChildren(s) && OwnChildren(s') && Owns(s, g, id)
    ensures (Complete(s, id) <==> Complete(s', id)) && (Dead(s, id) <==> Dead(s', id))
  {
    assert Owns(s', g, id);
    if Complete(s, id) { var k: nat :| Complete#[k](s, id); CompleteSameTo(s, s', g, id, k); }
    if Complete(s', id) { var k: nat :| Complete#[k](s', id); CompleteSameTo(s', s, g, id, k); }
    if Dead(s, id) { var k: nat :| Dead#[k](s, id); DeadSameTo(s, s', g, id, k); }
    if Dead(s', id) { var k: nat :| Dead#[k](s', id); DeadSameTo(s', s, g, id, k); }
  }

  lemma {:induction false} FirstSame(s: State, s': State, order: seq<string>, g: string, rejectedOnly: bool)
    requires SameTickets(s, s', g)
    ensures FirstFailed(s, order, g, rejectedOnly) == FirstFailed(s', order, g, rejectedOnly)
  {
    if order != [] {
      FirstSame(s, s', order[..|order| - 1], g, rejectedOnly);
      assert Owns(s, g, order[|order| - 1]) <==> Owns(s', g, order[|order| - 1]);
    }
  }

  /** The creation order has grown by at most a ticket of another Goal. */
  predicate OrderGrew(s: State, s': State, g: string) {
    s'.ticketOrder == s.ticketOrder ||
    (|s'.ticketOrder| == |s.ticketOrder| + 1 && s'.ticketOrder[..|s.ticketOrder|] == s.ticketOrder &&
     !Owns(s', g, s'.ticketOrder[|s.ticketOrder|]))
  }

  lemma FirstStays(s: State, s': State, g: string, rejectedOnly: bool)
    requires SameTickets(s, s', g) && OrderGrew(s, s', g)
    ensures FirstFailed(s, s.ticketOrder, g, rejectedOnly) == FirstFailed(s', s'.ticketOrder, g, rejectedOnly)
  {
    FirstSame(s, s', s.ticketOrder, g, rejectedOnly);
  }

  ghost predicate Unmoved(s: State, s': State, g: string) {
    && g in s.goals && g in s'.goals && s'.goals[g] == s.goals[g].(spend := s'.goals[g].spend)
    && SameTickets(s, s', g) && SameTickets(s', s, g) && OrderGrew(s, s', g)
  }

  lemma SameTicketed(s: State, s': State, g: string)
    requires Unmoved(s, s', g)
    ensures GoalHasTickets(s, g) <==> GoalHasTickets(s', g)
  {
    if GoalHasTickets(s, g) {
      var id :| id in s.tickets && s.tickets[id].origin.goalId == g;
      assert Owns(s, g, id) && Owns(s', g, id);
    }
    if GoalHasTickets(s', g) {
      var id :| id in s'.tickets && s'.tickets[id].origin.goalId == g;
      assert Owns(s', g, id) && Owns(s, g, id);
    }
  }

  lemma SameProgress(s: State, s': State, g: string)
    requires Unmoved(s, s', g)
    ensures (GoalAwaits(s, g) <==> GoalAwaits(s', g)) && (GoalInFlight(s, g) <==> GoalInFlight(s', g))
  {
    if id :| Owns(s, g, id) && s.tickets[id].status == Awaiting { assert Owns(s', g, id); }
    if id :| Owns(s', g, id) && s'.tickets[id].status == Awaiting { assert Owns(s, g, id); }
    if id :| Owns(s, g, id) && Moving(s.tickets[id].status) { assert Owns(s', g, id); }
    if id :| Owns(s', g, id) && Moving(s'.tickets[id].status) { assert Owns(s, g, id); }
  }

  /** What settles a Goal's outcome, if not whether one of its tickets is dead. */
  ghost predicate Undecided(s: State, g: string)
    requires g in s.goals
  {
    && !s.goals[g].cancelled && !s.goals[g].delivered && !s.goals[g].budgetExceeded
    && GoalHasTickets(s, g) && !GoalAwaits(s, g) && !GoalInFlight(s, g) && !GoalComplete(s, g)
  }

  /** Whether all of a Goal's tickets are complete stays the same, and, where nothing else
      settles its outcome, whether one of them is dead. */
  ghost predicate VerdictsStand(s: State, s': State, g: string)
    requires g in s.goals
  {
    && (GoalComplete(s, g) <==> GoalComplete(s', g))
    && (Undecided(s, g) ==> (GoalHasDead(s, g) <==> GoalHasDead(s', g)))
  }

  lemma OutcomeStands(s: State, s': State, g: string)
    requires Unmoved(s, s', g) && (GoalComplete(s, g) <==> GoalComplete(s', g))
    ensures GoalOutcome(s, g) == GoalOutcome(s', g) <==>
            (Undecided(s, g) ==> (GoalHasDead(s, g) <==> GoalHasDead(s', g)))
  {
    SameTicketed(s, s', g);
    SameProgress(s, s', g);
    var r, r' := s.goals[g], s'.goals[g];
    assert r.cancelled == r'.cancelled && r.delivered == r'.delivered && r.branch == r'.branch &&
           r.budgetExceeded == r'.budgetExceeded;
  }

  lemma SummaryStands(s: State, s': State, g: string)
    requires Unmoved(s, s', g)
    ensures var m, m' := Summarize(s, g), Summarize(s', g);
            m' == m.(verified := m'.verified, outcome := m'.outcome)
  {
    SameTicketed(s, s', g);
    SameProgress(s, s', g);
    FirstStays(s, s', g, false);
    FirstStays(s, s', g, true);
  }

  lemma OutcomeShows(m: Summary, m': Summary)
    requires m' == m.(outcome := m'.outcome) && m.outcome != m'.outcome
    requires m.outcome == Some(InProgress) || m'.outcome == Some(InProgress)
    requires m.outcome == Some(FailedOutcome) || m'.outcome == Some(FailedOutcome)
    ensures ConditionsOf(m) != ConditionsOf(m')
  {
    assert ConditionsOf(m)[3] == CompleteOf(m) && ConditionsOf(m')[3] == CompleteOf(m');
    assert CompleteOf(m).truth != CompleteOf(m').truth;
  }

  /** A Goal whose record and tickets are untouched keeps its conditions exactly if its
      verdicts stand. */
  lemma ConditionsStand(s: State, s': State, g: string)
    requires Unmoved(s, s', g)
    ensures GoalConditions(s, g) == GoalConditions(s', g) <==> VerdictsStand(s, s', g)
  {
    var m, m' := Summarize(s, g), Summarize(s', g);
    SummaryStands(s, s', g);
    if m.verified != m'.verified {
      assert GoalConditions(s, g)[1] == VerifiedOf(m) && GoalConditions(s', g)[1] == VerifiedOf(m');
    } else {
      OutcomeStands(s, s', g);
      if m.outcome != m'.outcome {
        UndecidedOutcomes(s, s', g);
        OutcomeShows(m, m');
      }
    }
  }

  lemma UndecidedOutcomes(s: State, s': State, g: string)
    requires Unmoved(s, s', g) && (GoalComplete(s, g) <==> GoalComplete(s', g))
    requires GoalOutcome(s, g) != GoalOutcome(s', g)
    ensures GoalOutcome(s, g) == Some(if GoalHasDead(s, g) then FailedOutcome else InProgress)
    ensures GoalOutcome(s', g) == Some(if GoalHasDead(s, g) then InProgress else FailedOutcome)
  {
    OutcomeStands(s, s', g);
    SameTicketed(s, s', g);
    SameProgress(s, s', g);
  }

  // --- Verdicts change only from outside ---------------------------------------------------------

  /** What tickets were split into. */
  function SplitInto(s: State): Graph {
    map id | id in s.tickets && s.tickets[id].status == Decomposed :: s.tickets[id].children
  }

  /** x is the ticket, or was split off it, directly or not. */
  ghost predicate Reaches(s: State, id: string, x: string) {
    exists p :: p != [] && p[0] == id && p[|p| - 1] == x && IsPath(SplitInto(s), p)
  }

  lemma ReachesItself(s: State, x: string)
    ensures Reaches(s, x, x)
  {
    var p := [x];
    assert p[0] == x && p[|p| - 1] == x && IsPath(SplitInto(s), p);
  }

  lemma ReachesVia(s: State, id: string, c: string, x: string)
    requires IsSplit(s, id) && c in s.tickets[id].children && Reaches(s, c, x)
    ensures Reaches(s, id, x)
  {
    var p :| p != [] && p[0] == c && p[|p| - 1] == x && IsPath(SplitInto(s), p);
    var more := [id] + p;
    assert more[0] == id && more[|more| - 1] == x;
    forall i | 0 < i < |more| ensures Edge(SplitInto(s), more[i - 1], more[i]) {
      if i > 1 { assert Edge(SplitInto(s), p[i - 2], p[i - 1]); }
    }
  }

  /** The states differ in ticket x alone. */
  ghost predicate SameBut(s: State, s': State, x: string) {
    forall id :: id != x ==>
      (id in s.tickets <==> id in s'.tickets) &&
      (id in s.tickets ==> s'.tickets[id].status == s.tickets[id].status &&
                           s'.tickets[id].children == s.tickets[id].children)
  }

  lemma {:induction false} CompleteFrom(s: State, s': State, x: string, id: string, k: nat)
    requires SameBut(s, s', x) && Complete#[k](s, id) && !Complete(s', id)
    ensures Reaches(s, id, x)
    decreases k
  {
    if id == x {
      ReachesItself(s, x);
    } else {
      var c :| c in s.tickets[id].children && !Complete(s', c);
      CompleteFrom(s, s', x, c, k - 1);
      ReachesVia(s, id, c, x);
    }
  }

  lemma {:induction false} DeadFrom(s: State, s': State, x: string, id: string, k: nat)
    requires SameBut(s, s', x) && Dead#[k](s, id) && !Dead(s', id)
    ensures Reaches(s, id, x)
    decreases k
  {
    if id == x {
      ReachesItself(s, x);
    } else {
      var c :| c in s.tickets[id].children && Dead#[k - 1](s, c);
      assert !Dead(s', c);
      DeadFrom(s, s', x, c, k - 1);
      ReachesVia(s, id, c, x);
    }
  }

  /** A ticket's verdicts change only by way of the ticket an event is about. */
  lemma VerdictComesFrom(s: State, s': State, x: string, id: string, q: Query)
    requires SameBut(s, s', x) && Verdict(s, q, id) != Verdict(s', q, id)
    ensures Reaches(s, id, x) || Reaches(s', id, x)
  {
    if q.AskComplete? {
      if Complete(s, id) { var k: nat :| Complete#[k](s, id); CompleteFrom(s, s', x, id, k); }
      else { var k: nat :| Complete#[k](s', id); CompleteFrom(s', s, x, id, k); }
    } else {
      if Dead(s, id) { var k: nat :| Dead#[k](s, id); DeadFrom(s, s', x, id, k); }
      else { var k: nat :| Dead#[k](s', id); DeadFrom(s', s, x, id, k); }
    }
  }

  ghost predicate SameVerdicts(s: State, s': State, id: string) {
    (Complete(s, id) <==> Complete(s', id)) && (Dead(s, id) <==> Dead(s', id))
  }

  lemma SameVerdictsStand(s: State, s': State, g: string)
    requires Unmoved(s, s', g) && forall id :: Owns(s, g, id) ==> SameVerdicts(s, s', id)
    ensures VerdictsStand(s, s', g)
  {
    SameTicketed(s, s', g);
    forall id | Owns(s, g, id) ensures Owns(s', g, id) && SameVerdicts(s, s', id) {}
    forall id | Owns(s', g, id) ensures Owns(s, g, id) {}
    assert forall id :: id in s'.tickets && s'.tickets[id].origin.goalId == g ==> Owns(s', g, id) && Owns(s, g, id);
    assert forall id :: id in s.tickets && s.tickets[id].origin.goalId == g ==> Owns(s, g, id);
  }

  /** They stand too where children are their Goal's own. */
  lemma OwnChildrenStand(s: State, s': State, g: string)
    requires Unmoved(s, s', g) && OwnChildren(s) && OwnChildren(s')
    ensures VerdictsStand(s, s', g)
  {
    forall id | Owns(s, g, id) ensures SameVerdicts(s, s', id) { VerdictsSame(s, s', g, id); }
    SameVerdictsStand(s, s', g);
  }

  /** No ticket of the Goal has x among its descendants, before or after. */
  ghost predicate OutOfReach(s: State, s': State, g: string, x: string) {
    forall id :: Owns(s, g, id) ==> !Reaches(s, id, x) && !Reaches(s', id, x)
  }

  /** So they stand unless the event is about a descendant of one of the Goal's tickets. */
  lemma OutOfReachStands(s: State, s': State, g: string, x: string)
    requires Unmoved(s, s', g) && SameBut(s, s', x) && OutOfReach(s, s', g, x)
    ensures VerdictsStand(s, s', g)
  {
    forall id | Owns(s, g, id) ensures SameVerdicts(s, s', id) {
      if Complete(s, id) != Complete(s', id) { VerdictComesFrom(s, s', x, id, AskComplete); }
      if Dead(s, id) != Dead(s', id) { VerdictComesFrom(s, s', x, id, AskDead); }
    }
    SameVerdictsStand(s, s', g);
  }

  lemma EventIsAboutOne(s: State, e: Event)
    ensures SameBut(s, Apply(s, e), TicketIdOf(e.body))
  {
    var s' := Apply(s, e);
    ApplyIsLocal(s, e);
    forall id | id in s.tickets && id != TicketIdOf(e.body)
      ensures s'.tickets[id].status == s.tickets[id].status && s'.tickets[id].children == s.tickets[id].children
    {
      assert TicketBecomes(s.tickets[id], e, id, s'.tickets[id]);
    }
  }

  /** An event leaves every Goal but the one it moves as it was. */
  lemma OthersUnmoved(s: State, e: Event, g: string)
    requires g in s.goals && g != "" && GoalMoved(Apply(s, e), e) != Some(g)
    ensures Unmoved(s, Apply(s, e), g)
  {
    var s' := Apply(s, e);
    ApplyIsLocal(s, e);
    assert Spares(s, e, g) by {
      if NamesTicket(e.body) && e.body.ticketId in s.tickets {
        assert TicketBecomes(s.tickets[e.body.ticketId], e, e.body.ticketId, s'.tickets[e.body.ticketId]);
      }
    }
    ApplySpares(s, e, g);
    forall id ensures (Owns(s, g, id) <==> Owns(s', g, id)) && (Owns(s, g, id) ==> s'.tickets[id] == s.tickets[id]) {
      if id in s.tickets { assert TicketBecomes(s.tickets[id], e, id, s'.tickets[id]); }
    }
  }

  // --- The replay --------------------------------------------------------------------------------

  function StampsFor(m: map<string, seq<Stamped>>, g: string): seq<Stamped> {
    if g in m then m[g] else []
  }

  ghost function Update(m: map<string, seq<Stamped>>, s: State, e: Event): map<string, seq<Stamped>> {
    match GoalMoved(s, e)
    case Some(g) => m[g := Restamped(StampsFor(m, g), GoalConditions(s, g), e.ts)]
    case None => m
  }

  /** What the projection keeps: after each event, only the Goal it moved restamped. */
  ghost function Incremental(log: seq<Event>): map<string, seq<Stamped>> {
    if log == [] then map[] else Update(Incremental(log[..|log| - 1]), Fold(log), log[|log| - 1])
  }

  ghost function UpdateAll(m: map<string, seq<Stamped>>, s: State, e: Event): map<string, seq<Stamped>> {
    map g | g in s.goals :: Restamped(StampsFor(m, g), GoalConditions(s, g), e.ts)
  }

  /** The meaning it is to have: every Goal restamped after every event. */
  ghost function Full(log: seq<Event>): map<string, seq<Stamped>> {
    if log == [] then map[] else UpdateAll(Full(log[..|log| - 1]), Fold(log), log[|log| - 1])
  }

  /** Every state along the log: children of their own Goal, and no nameless Goal. */
  ghost predicate WellKept(log: seq<Event>) {
    forall k :: 0 <= k <= |log| ==> KeptAt(log, k)
  }

  ghost predicate KeptAt(log: seq<Event>, k: nat)
    requires k <= |log|
  {
    OwnChildren(Fold(log[..k])) && "" !in Fold(log[..k]).goals
  }

  /** What is recorded of a Goal is what restamping everything would give. */
  ghost predicate InStep(m: map<string, seq<Stamped>>, full: map<string, seq<Stamped>>, s: State) {
    forall g :: g in s.goals ==> g in m && g in full && m[g] == full[g]
  }

  ghost predicate InStepAt(log: seq<Event>, k: nat)
    requires k <= |log|
  {
    InStep(Incremental(log[..k]), Full(log[..k]), Fold(log[..k]))
  }

  /** An event moves the Goal, or leaves its conditions as they were. */
  ghost predicate StandsStill(s: State, e: Event, s': State, g: string) {
    GoalMoved(s', e) == Some(g) || (g in s.goals && GoalConditions(s, g) == GoalConditions(s', g))
  }

  ghost predicate LocalAt(log: seq<Event>, k: nat)
    requires 0 < k <= |log|
  {
    forall g :: g in Fold(log[..k]).goals ==> StandsStill(Fold(log[..k - 1]), log[k - 1], Fold(log[..k]), g)
  }

  /** The event moves the Goal, or leaves the verdicts on its tickets that show. A Goal
      without a name, which no event is counted as moving, must keep its conditions. */
  ghost predicate Steady(s: State, e: Event, s': State, g: string) {
    || GoalMoved(s', e) == Some(g)
    || (g in s.goals && if g == "" then GoalConditions(s, g) == GoalConditions(s', g) else VerdictsStand(s, s', g))
  }

  ghost predicate SteadyAt(log: seq<Event>, k: nat)
    requires 0 < k <= |log|
  {
    forall g :: g in Fold(log[..k]).goals ==> Steady(Fold(log[..k - 1]), log[k - 1], Fold(log[..k]), g)
  }

  lemma SteadyIsLocal(log: seq<Event>, k: nat)
    requires 0 < k <= |log|
    ensures SteadyAt(log, k) <==> LocalAt(log, k)
  {
    var s, e, s' := Fold(log[..k - 1]), log[k - 1], Fold(log[..k]);
    assert log[..k][..k - 1] == log[..k - 1];
    forall g | g in s'.goals ensures Steady(s, e, s', g) <==> StandsStill(s, e, s', g) {
      if GoalMoved(s', e) != Some(g) && g in s.goals && g != "" {
        OthersUnmoved(s, e, g);
        ConditionsStand(s, s', g);
      }
    }
  }

  /** A Goal not on the log has no stamps worth keeping. */
  ghost predicate Blank(m: map<string, seq<Stamped>>, s: State) {
    forall g :: g !in s.goals ==> StampsFor(m, g) == []
  }

  /** Restamping everything keeps every Goal's stamps current. */
  lemma FullIsCurrent(log: seq<Event>, g: string)
    ensures g in Full(log) <==> g in Fold(log).goals
    ensures g in Full(log) ==> Stamps(Full(log)[g], GoalConditions(Fold(log), g))
  {
  }

  lemma UpdateIsBlank(m: map<string, seq<Stamped>>, s: State, e: Event, s': State)
    requires Blank(m, s) && s.goals.Keys <= s'.goals.Keys
    ensures Blank(Update(m, s', e), s')
  {
    forall g | g !in s'.goals ensures StampsFor(Update(m, s', e), g) == [] {
      assert g !in s.goals && GoalConditions(s', g) == [];
    }
  }

  lemma {:induction false} IncrementalIsBlank(log: seq<Event>)
    ensures Blank(Incremental(log), Fold(log))
  {
    if log != [] {
      var init, e := log[..|log| - 1], log[|log| - 1];
      IncrementalIsBlank(init);
      ApplyOnGoals(Fold(init), e);
      UpdateIsBlank(Incremental(init), Fold(init), e, Fold(log));
    }
  }

  lemma SameStamps(prev: seq<Stamped>, conds: seq<Condition>, next: seq<Condition>, at: int)
    requires Stamps(prev, conds) && Restamped(prev, next, at) == prev
    ensures conds == next
  {
    forall i | 0 <= i < |next| ensures conds[i] == next[i] { assert Restamped(prev, next, at)[i].cond == next[i]; }
  }

  /** Current stamps stay as they are exactly if the conditions do. */
  lemma RestampExactly(prev: seq<Stamped>, m: Summary, next: seq<Condition>, at: int)
    requires Stamps(prev, ConditionsOf(m))
    ensures Restamped(prev, next, at) == prev <==> ConditionsOf(m) == next
  {
    RestampSame(prev, m, at);
    if Restamped(prev, next, at) == prev { SameStamps(prev, ConditionsOf(m), next, at); }
  }

  /** The two maps after an event, for one Goal. */
  lemma UpdatesAt(m: map<string, seq<Stamped>>, full: map<string, seq<Stamped>>, s': State, e: Event, g: string)
    requires g in s'.goals
    ensures g in UpdateAll(full, s', e)
    ensures UpdateAll(full, s', e)[g] == Restamped(StampsFor(full, g), GoalConditions(s', g), e.ts)
    ensures GoalMoved(s', e) == Some(g) ==>
              g in Update(m, s', e) && Update(m, s', e)[g] == Restamped(StampsFor(m, g), GoalConditions(s', g), e.ts)
    ensures GoalMoved(s', e) != Some(g) ==>
      ((g in Update(m, s', e) <==> g in m) && StampsFor(Update(m, s', e), g) == StampsFor(m, g))
  {
  }

  /** One event: in step after it exactly if it left alone what it did not move. */
  lemma StepInStep(m: map<string, seq<Stamped>>, full: map<string, seq<Stamped>>, s: State, e: Event, s': State,
                   g: string)
    requires InStep(m, full, s) && Blank(m, s) && g in s'.goals
    requires (g in full <==> g in s.goals) && (g in s.goals ==> Stamps(full[g], GoalConditions(s, g)))
    ensures StandsStill(s, e, s', g) <==> g in Update(m, s', e) && Update(m, s', e)[g] == UpdateAll(full, s', e)[g]
  {
    UpdatesAt(m, full, s', e, g);
    if g in s.goals {
      assert m[g] == full[g];
      if GoalMoved(s', e) != Some(g) { RestampExactly(full[g], Summarize(s, g), GoalConditions(s', g), e.ts); }
    } else {
      assert StampsFor(m, g) == [] && StampsFor(full, g) == [];
      assert |UpdateAll(full, s', e)[g]| == |GoalConditions(s', g)| > 0;
    }
  }

  /** Replay event by event is in step after an event, having been before it, exactly if
      the event left alone every Goal it did not move. */
  lemma OneMoreInStep(log: seq<Event>)
    requires log != [] && InStepAt(log, |log| - 1)
    ensures InStepAt(log, |log|) <==> LocalAt(log, |log|)
  {
    var init, e := log[..|log| - 1], log[|log| - 1];
    assert log[..|log|] == log;
    IncrementalIsBlank(init);
    forall g | g in Fold(log).goals
      ensures StandsStill(Fold(init), e, Fold(log), g) <==>
              g in Incremental(log) && g in Full(log) && Incremental(log)[g] == Full(log)[g]
    {
      FullIsCurrent(init, g);
      FullIsCurrent(log, g);
      StepInStep(Incremental(init), Full(init), Fold(init), e, Fold(log), g);
    }
  }

  lemma InPrefix(log: seq<Event>, n: nat, k: nat)
    requires k <= n <= |log|
    ensures InStepAt(log[..n], k) == InStepAt(log, k) && (k > 0 ==> LocalAt(log[..n], k) == LocalAt(log, k))
  {
    assert log[..n][..k] == log[..k];
    assert k > 0 ==> log[..n][..k - 1] == log[..k - 1];
  }

  lemma InStepAfter(log: seq<Event>, k: nat)
    requires 0 < k <= |log| && InStepAt(log, k - 1)
    ensures InStepAt(log, k) <==> LocalAt(log, k)
  {
    InPrefix(log, k, k - 1);
    InPrefix(log, k, k);
    OneMoreInStep(log[..k]);
  }

  lemma {:induction false} Chain(a: seq<bool>, b: seq<bool>)
    requires |a| == |b| > 0 && a[0] && b[0] && forall k :: 0 < k < |a| && a[k - 1] ==> a[k] == b[k]
    ensures false in a <==> false in b
  {
    if |a| > 1 {
      var n := |a| - 1;
      Chain(a[..n], b[..n]);
      assert a == a[..n] + [a[n]] && b == b[..n] + [b[n]] && a[n - 1] in a[..n];
    }
  }

  ghost function InSteps(log: seq<Event>): seq<bool> {
    seq(|log| + 1, k requires 0 <= k <= |log| => InStepAt(log, k))
  }

  ghost function Locals(log: seq<Event>): seq<bool> {
    seq(|log| + 1, k requires 0 <= k <= |log| => k == 0 || LocalAt(log, k))
  }

  lemma NoneFalse(log: seq<Event>)
    ensures false !in InSteps(log) <==> forall k :: 0 <= k <= |log| ==> InStepAt(log, k)
    ensures false !in Locals(log) <==> forall k :: 0 < k <= |log| ==> LocalAt(log, k)
  {
    if false !in InSteps(log) { forall k | 0 <= k <= |log| ensures InStepAt(log, k) {
      assert InSteps(log)[k] in InSteps(log); }
    }
    if false !in Locals(log) { forall k | 0 < k <= |log| ensures LocalAt(log, k) {
      assert Locals(log)[k] in Locals(log); }
    }
  }

  /** Restamping only what each event moved gives, all along the log, what restamping
      everything would exactly if every event leaves alone the verdicts that show of the
      Goals it does not move. */
  lemma InStepExactly(log: seq<Event>)
    ensures (forall k :: 0 <= k <= |log| ==> InStepAt(log, k)) <==> (forall k :: 0 < k <= |log| ==> SteadyAt(log, k))
  {
    InStepIfLocal(log);
    forall k | 0 < k <= |log| ensures SteadyAt(log, k) <==> LocalAt(log, k) { SteadyIsLocal(log, k); }
  }

  lemma InStepIfLocal(log: seq<Event>)
    ensures (forall k :: 0 <= k <= |log| ==> InStepAt(log, k)) <==> (forall k :: 0 < k <= |log| ==> LocalAt(log, k))
  {
    var a, b := InSteps(log), Locals(log);
    assert log[..0] == [];
    forall k | 0 < k < |a| && a[k - 1] ensures a[k] == b[k] { InStepAfter(log, k); }
    Chain(a, b);
    NoneFalse(log);
  }

  lemma NewGoalIsMoved(s: State, e: Event, g: string)
    requires g in Apply(s, e).goals && g != "" && GoalMoved(Apply(s, e), e) != Some(g)
    ensures g in s.goals
  {
    ApplyOnGoals(s, e);
  }

  lemma KeptIsLocal(log: seq<Event>, k: nat)
    requires 0 < k <= |log| && KeptAt(log, k - 1) && KeptAt(log, k)
    ensures LocalAt(log, k)
  {
    var s, e, s' := Fold(log[..k - 1]), log[k - 1], Fold(log[..k]);
    assert log[..k][..k - 1] == log[..k - 1];
    assert s' == Apply(s, e);
    forall g | g in s'.goals ensures StandsStill(s, e, s', g) {
      if GoalMoved(s', e) != Some(g) {
        NewGoalIsMoved(s, e, g);
        OthersUnmoved(s, e, g);
        OwnChildrenStand(s, s', g);
        ConditionsStand(s, s', g);
      }
    }
  }

  /** So it is whenever children are their Goal's own: every Goal has the conditions,
      and the times, that restamping everything would give. */
  lemma IncrementalIsFull(log: seq<Event>, g: string)
    requires WellKept(log) && g in Fold(log).goals
    ensures g in Incremental(log) && Incremental(log)[g] == Full(log)[g]
    ensures Stamps(Full(log)[g], GoalConditions(Fold(log), g))
  {
    forall k | 0 < k <= |log| ensures LocalAt(log, k) {
      assert KeptAt(log, k - 1) && KeptAt(log, k);
      KeptIsLocal(log, k);
    }
    InStepIfLocal(log);
    assert InStepAt(log, |log|) && log[..|log|] == log;
    FullIsCurrent(log, g);
  }

  /** An event that takes the projection out of step for a Goal it is not counted as moving
      is about a ticket that is no ticket of the Goal, but was split off one. */
  lemma FallsBehindBySplit(s: State, e: Event, g: string)
    requires g in s.goals && g != "" && !Steady(s, e, Apply(s, e), g)
    ensures var s', x := Apply(s, e), TicketIdOf(e.body);
            !Owns(s', g, x) && exists id :: Owns(s, g, id) && (Reaches(s, id, x) || Reaches(s', id, x))
  {
    OthersUnmoved(s, e, g);
    EventIsAboutOne(s, e);
    if OutOfReach(s, Apply(s, e), g, TicketIdOf(e.body)) {
      OutOfReachStands(s, Apply(s, e), g, TicketIdOf(e.body));
    }
    if Owns(Apply(s, e), g, TicketIdOf(e.body)) {
      CreatedBefore(s, e, g);
      SameTicketsStand(s, Apply(s, e), g);
    }
  }

  /** The one event about a Goal's own ticket that does not move the Goal: the ticket is
      created again, for another Goal. */
  lemma CreatedBefore(s: State, e: Event, g: string)
    requires g != "" && GoalMoved(Apply(s, e), e) != Some(g) && Owns(Apply(s, e), g, TicketIdOf(e.body))
    ensures Apply(s, e).tickets == s.tickets
  {
    var s' := Apply(s, e);
    ApplyIsLocal(s, e);
    forall id | id in s.tickets ensures s'.tickets[id] == s.tickets[id] {
      assert TicketBecomes(s.tickets[id], e, id, s'.tickets[id]);
    }
  }

  lemma SameTicketsStand(s: State, s': State, g: string)
    requires Unmoved(s, s', g) && s'.tickets == s.tickets
    ensures VerdictsStand(s, s', g)
  {
    VerdictsStay(s, s');
    VerdictsStay(s', s);
    SameVerdictsStand(s, s', g);
  }

  // --- Why children must be their Goal's own -----------------------------------------------------

  /** A Goal whose one ticket was split into a single child, adopted by its key from
      another Goal. */
  ghost predicate Adopted(s: State, g: string, p: string, c: string) {
    && g in s.goals && p in s.tickets && c in s.tickets && p != c
    && s.tickets[p].origin.goalId == g && s.tickets[p].status == Decomposed && s.tickets[p].children == [c]
    && s.tickets[c].origin.goalId != g && s.tickets[c].status == Proposed
    && forall id :: Owns(s, g, id) ==> id == p
  }

  lemma AdoptedIsIncomplete(s: State, g: string, p: string, c: string)
    requires Adopted(s, g, p, c)
    ensures !GoalComplete(s, g)
  {
    assert !Complete(s, c) && c in s.tickets[p].children;
  }

  lemma MergedChildCompletes(s: State, s': State, g: string, p: string, c: string)
    requires Adopted(s, g, p, c) && s'.tickets.Keys == s.tickets.Keys && s'.tickets[p] == s.tickets[p]
    requires s'.tickets[c].status == MergedIn
    requires forall id :: id in s.tickets ==> s'.tickets[id].origin == s.tickets[id].origin
    ensures GoalComplete(s', g)
  {
    assert Complete(s', c);
    forall x | x in s'.tickets[p].children ensures Complete(s', x) { assert x == c; }
    assert Complete(s', p);
    forall id | id in s'.tickets && s'.tickets[id].origin.goalId == g
        ensures Complete(s', id) { assert Owns(s, g, id); }
    assert s'.tickets[p].origin.goalId == g;
  }

  lemma MergeBecomes(s: State, g: string, p: string, c: string, e: Event, s': State)
    requires Adopted(s, g, p, c) && e.body.Merged? && e.body.ticketId == c && Becomes(s, e, s')
    ensures s'.tickets.Keys == s.tickets.Keys && s'.tickets[p] == s.tickets[p]
    ensures s'.tickets[c].status == MergedIn
    ensures forall id :: id in s.tickets ==> s'.tickets[id].origin == s.tickets[id].origin
  {
    assert TicketBecomes(s.tickets[p], e, p, s'.tickets[p]) && TicketBecomes(s.tickets[c], e, c, s'.tickets[c]);
    forall id | id in s.tickets ensures s'.tickets[id].origin == s.tickets[id].origin {
      assert TicketBecomes(s.tickets[id], e, id, s'.tickets[id]);
    }
  }

  lemma MergeOnAdopted(s: State, g: string, p: string, c: string, e: Event) returns (s': State)
    requires Adopted(s, g, p, c) && e.body.Merged? && e.body.ticketId == c
    ensures s' == Apply(s, e) && Becomes(s, e, s') && g in s'.goals
  {
    s' := Apply(s, e);
    ApplyIsLocal(s, e);
    ApplyOnGoals(s, e);
  }

  /** Merging the adopted child verifies the Goal, and the event is not counted as
      moving it: its recorded conditions are out of date from here on. */
  lemma AdoptedChildIsMissed(s: State, g: string, p: string, c: string, e: Event)
    requires Adopted(s, g, p, c) && e.body.Merged? && e.body.ticketId == c
    ensures GoalMoved(Apply(s, e), e) != Some(g) && g in Apply(s, e).goals
    ensures VerifiedOf(Summarize(s, g)).truth != Yes && VerifiedOf(Summarize(Apply(s, e), g)).truth == Yes
  {
    var s' := MergeOnAdopted(s, g, p, c, e);
    MergeBecomes(s, g, p, c, e, s');
    AdoptedIsIncomplete(s, g, p, c);
    MergedChildCompletes(s, s', g, p, c);
  }

  /** So on a log that leads there, replaying event by event is out of step by the time
      the adopted child is merged. */
  lemma AdoptedFallsBehind(log: seq<Event>, e: Event, g: string, p: string, c: string)
    requires Adopted(Fold(log), g, p, c) && e.body.Merged? && e.body.ticketId == c
    ensures var more := log + [e];
            g in Fold(more).goals && (InStepAt(more, |log|) ==> !InStepAt(more, |more|))
  {
    var more := log + [e];
    assert more[..|log|] == log;
    AdoptedChildIsMissed(Fold(log), g, p, c, e);
    assert VerifiedOf(Summarize(Fold(log), g)) == GoalConditions(Fold(log), g)[1];
    assert VerifiedOf(Summarize(Fold(more), g)) == GoalConditions(Fold(more), g)[1];
    assert !StandsStill(Fold(log), e, Fold(more), g);
    assert more[..|more|] == more;
    if InStepAt(more, |log|) { OneMoreInStep(more); }
  }

  // --- And a log that leads there ----------------------------------------------------------------

  function Logged(num: int, b: Body): Event { Event(num, 0, "orchestrator", b) }

  function AdoptingBodies(g: string, h: string, p: string, c: string): seq<Body> {
    [GoalSubmitted(g, "", "", "", "", ""), GoalSubmitted(h, "", "", "", "", ""), TicketCreated(c, h, "", [], "", "", 0),
     TicketCreated(p, g, "", [], "", "", 0), ProposalSubmitted(c, "", "", NoCommit, "", "", NO_CHARGE),
     TicketDecomposed(p, "", [c], NO_CHARGE)]
  }

  function AdoptingLog(g: string, h: string, p: string, c: string): seq<Event> {
    var bs := AdoptingBodies(g, h, p, c);
    [Logged(1, bs[0]), Logged(2, bs[1]), Logged(3, bs[2]), Logged(4, bs[3]), Logged(5, bs[4]), Logged(6, bs[5])]
  }

  lemma FoldOne(log: seq<Event>, e: Event)
    ensures Fold(log + [e]) == Apply(Fold(log), e)
  {
    assert (log + [e])[..|log|] == log;
  }

  /** The state before anything happens: two tickets of different Goals. */
  lemma BothCreated(g: string, h: string, p: string, c: string) returns (s: State)
    requires g != h && p != c
    ensures s == Fold(AdoptingLog(g, h, p, c)[..4])
    ensures s.goals.Keys == {g, h} && s.tickets.Keys == {p, c} && s.tickets[p].origin.goalId == g
    ensures s.tickets[c].origin.goalId == h && s.tickets[c].status == Pending
  {
    var log := AdoptingLog(g, h, p, c);
    var s2 := BothSubmitted(g, h, p, c);
    var s3 := CreateTicket(s2, log[2]).(lastSeq := 3);
    s := CreateTicket(s3, log[3]).(lastSeq := 4);
    assert log[..3] == log[..2] + [log[2]] && log[..4] == log[..3] + [log[3]];
    FoldOne(log[..2], log[2]);
    FoldOne(log[..3], log[3]);
    assert Apply(s2, log[2]) == s3 && Apply(s3, log[3]) == s;
  }

  lemma BothSubmitted(g: string, h: string, p: string, c: string) returns (s: State)
    requires g != h
    ensures s == Fold(AdoptingLog(g, h, p, c)[..2]) && s.goals.Keys == {g, h} && s.tickets == map[]
    ensures s.keyToTicket == map[]
  {
    var log := AdoptingLog(g, h, p, c);
    var s1 := SubmitGoal(EMPTY, log[0]).(lastSeq := 1);
    s := SubmitGoal(s1, log[1]).(lastSeq := 2);
    assert log[..1] == [] + [log[0]] && log[..2] == log[..1] + [log[1]];
    FoldOne([], log[0]);
    FoldOne(log[..1], log[1]);
    assert Apply(EMPTY, log[0]) == s1 && Apply(s1, log[1]) == s;
  }

  lemma ProposedStays(s: State, e: Event, s': State, g: string, p: string, c: string)
    requires s' == Apply(s, e) && e.body.ProposalSubmitted? && e.body.ticketId == c && g in s.goals
    requires s.tickets.Keys == {p, c} && p != c && s.tickets[c].status == Pending
    ensures g in s'.goals && s'.tickets.Keys == {p, c} && s'.tickets[p].origin == s.tickets[p].origin
    ensures s'.tickets[c].status == Proposed && s'.tickets[c].origin == s.tickets[c].origin
  {
    ApplyIsLocal(s, e);
    ApplyOnGoals(s, e);
    assert TicketBecomes(s.tickets[p], e, p, s'.tickets[p]) && TicketBecomes(s.tickets[c], e, c, s'.tickets[c]);
  }

  lemma SplitAdopts(s: State, e: Event, s': State, g: string, p: string, c: string)
    requires s' == Apply(s, e) && e.body.TicketDecomposed? && e.body.ticketId == p && e.body.children == [c]
    requires g in s.goals && s.tickets.Keys == {p, c} && p != c && s.tickets[p].origin.goalId == g
    requires s.tickets[c].status == Proposed && s.tickets[c].origin.goalId != g
    ensures Adopted(s', g, p, c)
  {
    ApplyIsLocal(s, e);
    ApplyOnGoals(s, e);
    assert TicketBecomes(s.tickets[p], e, p, s'.tickets[p]) && TicketBecomes(s.tickets[c], e, c, s'.tickets[c]);
  }

  lemma AdoptingLeadsThere(g: string, h: string, p: string, c: string)
    requires g != h && p != c
    ensures Adopted(Fold(AdoptingLog(g, h, p, c)), g, p, c)
  {
    var log := AdoptingLog(g, h, p, c);
    var s4 := BothCreated(g, h, p, c);
    assert log[..5] == log[..4] + [log[4]] && log == log[..5] + [log[5]];
    FoldOne(log[..4], log[4]);
    FoldOne(log[..5], log[5]);
    ProposedStays(s4, log[4], Fold(log[..5]), g, p, c);
    SplitAdopts(Fold(log[..5]), log[5], Fold(log), g, p, c);
  }

  /** What is recorded of a Goal the last event moved is current. */
  lemma {:induction false} CurrentWhenMoved(log: seq<Event>, last: Event, g: string)
    requires GoalMoved(Fold(log + [last]), last) == Some(g)
    ensures g in Incremental(log + [last])
    ensures Stamps(Incremental(log + [last])[g], GoalConditions(Fold(log + [last]), g))
  {
    assert (log + [last])[..|log|] == log;
    assert Incremental(log + [last]) == Update(Incremental(log), Fold(log + [last]), last);
  }

  lemma {:induction false} KeptWhenNotMoved(log: seq<Event>, e: Event, g: string)
    requires GoalMoved(Fold(log + [e]), e) != Some(g) && g in Incremental(log)
    ensures g in Incremental(log + [e]) && Incremental(log + [e])[g] == Incremental(log)[g]
  {
    assert (log + [e])[..|log|] == log;
    assert Incremental(log + [e]) == Update(Incremental(log), Fold(log + [e]), e);
  }

  /** The event before last is the adoption, the last the merge of what was adopted. */
  lemma {:induction false} StaleAfter(log: seq<Event>, last: Event, e: Event, g: string, p: string, c: string)
    requires Adopted(Fold(log + [last]), g, p, c) && e.body.Merged? && e.body.ticketId == c
    requires GoalMoved(Fold(log + [last]), last) == Some(g)
    ensures var s, all := Fold(log + [last]), log + [last] + [e];
            && g in s.goals && g in Fold(all).goals && g in Incremental(all) && g in Full(all)
            && VerifiedOf(Summarize(s, g)).truth != Yes && VerifiedOf(Summarize(Fold(all), g)).truth == Yes
            && Stamps(Incremental(all)[g], GoalConditions(s, g)) && Stamps(Full(all)[g], GoalConditions(Fold(all), g))
  {
    var before := log + [last];
    FoldOne(before, e);
    AdoptedChildIsMissed(Fold(before), g, p, c, e);
    CurrentWhenMoved(log, last, g);
    KeptWhenNotMoved(before, e, g);
    FullIsCurrent(before + [e], g);
  }

  /** A log, then, on which the Goal whose ticket adopted another's is recorded as not
      verified, although it is. */
  lemma {:induction false} ReplaysDiffer(g: string, h: string, p: string, c: string) returns (log: seq<Event>)
    requires g != h && g != "" && p != c
    ensures g in Incremental(log) && g in Full(log) && |Incremental(log)[g]| == |Full(log)[g]| == 4
    ensures Incremental(log)[g][1].cond.kind == IsVerified && Incremental(log)[g][1].cond.truth != Yes
    ensures Full(log)[g][1].cond.kind == IsVerified && Full(log)[g][1].cond.truth == Yes
  {
    var all, e := AdoptingLog(g, h, p, c), Logged(7, Merged(c, "", NoCommit, ""));
    var before, last := all[..5], all[5];
    assert all == before + [last];
    AdoptingLeadsThere(g, h, p, c);
    SplitMoves(before, last, g, p, c);
    StaleAfter(before, last, e, g, p, c);
    log := all + [e];
    VerifiedIsSecond(Fold(all), g, Incremental(log)[g]);
    VerifiedIsSecond(Fold(log), g, Full(log)[g]);
  }

  lemma {:induction false} SplitMoves(log: seq<Event>, last: Event, g: string, p: string, c: string)
    requires Adopted(Fold(log + [last]), g, p, c) && last.body.TicketDecomposed? && last.body.ticketId == p
    ensures GoalMoved(Fold(log + [last]), last) == Some(g)
  {
  }

  lemma VerifiedIsSecond(s: State, g: string, stamps: seq<Stamped>)
    requires g in s.goals && Stamps(stamps, GoalConditions(s, g))
    ensures |stamps| == 4 && stamps[1].cond == VerifiedOf(Summarize(s, g)) && stamps[1].cond.kind == IsVerified
  {
  }

  // --- The projection itself ---------------------------------------------------------------------

  method FindFailed(s: State, g: string, rejectedOnly: bool) returns (first: Option<(string, string)>)
    ensures first == FirstFailed(s, s.ticketOrder, g, rejectedOnly)
  {
    first := None;
    for i := 0 to |s.ticketOrder|
      invariant first == FirstFailed(s, s.ticketOrder[..i], g, rejectedOnly)
    {
      assert s.ticketOrder[..i + 1][..i] == s.ticketOrder[..i];
      var id := s.ticketOrder[i];
      if first.None? && Owns(s, g, id) && IsFailed(s.tickets[id], rejectedOnly) {
        first := Some((id, s.tickets[id].failure.reason));
      }
    }
    assert s.ticketOrder[..|s.ticketOrder|] == s.ticketOrder;
  }

  /** Whether the Goal has tickets, any parked, any in flight. */
  method FindWork(s: State, g: string) returns (any: bool, awaiting: bool, inFlight: bool)
    ensures any == GoalHasTickets(s, g) && awaiting == GoalAwaits(s, g) && inFlight == GoalInFlight(s, g)
  {
    any, awaiting, inFlight := false, false, false;
    var rest := s.tickets.Keys;
    while rest != {}
      invariant rest <= s.tickets.Keys
      invariant any <==> exists id :: id in s.tickets && id !in rest && s.tickets[id].origin.goalId == g
      invariant awaiting <==> exists id :: Owns(s, g, id) && id !in rest && s.tickets[id].status == Awaiting
      invariant inFlight <==> exists id :: Owns(s, g, id) && id !in rest && Moving(s.tickets[id].status)
      decreases rest
    {
      var id :| id in rest;
      rest := rest - {id};
      if Owns(s, g, id) {
        any := true;
        awaiting := awaiting || s.tickets[id].status == Awaiting;
        inFlight := inFlight || Moving(s.tickets[id].status);
      }
    }
  }

  /** The calls that computing a Goal's conditions makes return. */
  ghost predicate ConditionsReturn(s: State, g: string) {
    g in s.goals ==> OutcomeReturns(s, g) && CompletionReturns(s, g)
  }

  method ComputeConditions(s: State, g: string) returns (cs: seq<Condition>)
    requires ConditionsReturn(s, g)
    ensures cs == GoalConditions(s, g)
  {
    if g !in s.goals { return []; }
    var outcome := ComputeOutcome(s, g);
    var verified := IsGoalComplete(s, g);
    var any, awaiting, inFlight := FindWork(s, g);
    var failed := FindFailed(s, g, false);
    var rejected := FindFailed(s, g, true);
    cs := ConditionsOf(Summary(any, awaiting, inFlight, verified, outcome, failed, rejected,
                               s.goals[g].(spend := NO_SPEND)));
  }

  lemma ReplayStep(events: seq<Event>, i: nat)
    requires i < |events|
    ensures Fold(events[..i + 1]) == Apply(Fold(events[..i]), events[i])
    ensures Incremental(events[..i + 1]) == Update(Incremental(events[..i]), Fold(events[..i + 1]), events[i])
  {
    assert events[..i + 1][..i] == events[..i];
  }

  ghost predicate RefreshReturns(s: State, e: Event) {
    GoalMoved(s, e).Some? ==> ConditionsReturn(s, GoalMoved(s, e).value)
  }

  method Refresh(conditions: map<string, seq<Stamped>>, s: State, e: Event) returns (out: map<string, seq<Stamped>>)
    requires RefreshReturns(s, e)
    ensures out == Update(conditions, s, e)
  {
    out := conditions;
    var moved := GoalMoved(s, e);
    if moved.Some? {
      var next := ComputeConditions(s, moved.value);
      var stamped := Restamp(StampsFor(conditions, moved.value), next, e.ts);
      out := conditions[moved.value := stamped];
    }
  }

  /** Replays the log event by event, recomputing the conditions of the Goal each moved. */
  method Project(events: seq<Event>) returns (s: State, conditions: map<string, seq<Stamped>>)
    requires forall m :: 0 <= m < |events| ==> RefreshReturns(Fold(events[..m + 1]), events[m])
    ensures s == Fold(events) && conditions == Incremental(events)
    ensures WellKept(events) ==> forall g :: g in s.goals ==> g in conditions && conditions[g] == Full(events)[g]
  {
    s, conditions := EMPTY, map[];
    for i := 0 to |events|
      invariant s == Fold(events[..i]) && conditions == Incremental(events[..i])
    {
      ReplayStep(events, i);
      s := Apply(s, events[i]);
      conditions := Refresh(conditions, s, events[i]);
    }
    assert events[..|events|] == events;
    if WellKept(events) {
      forall g | g in s.goals ensures g in conditions && conditions[g] == Full(events)[g] {
        IncrementalIsFull(events, g);
      }
    }
  }
}
