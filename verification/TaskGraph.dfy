/** The task graph's queries (internal/state/state.go): what is complete, dead,
    ready or blocked, and why a quiet Scheduler is a finished one. */
module TaskGraph {
  import opened Events
  import opened Replay

  // --- Complete and dead -------------------------------------------------------------------------

  /** Merged, or decomposed with every child complete. */
  least predicate Complete[nat](s: State, id: string) {
    id in s.tickets &&
    (s.tickets[id].status == MergedIn ||
     (s.tickets[id].status == Decomposed && forall c :: c in s.tickets[id].children ==> Complete(s, c)))
  }

  /** Failed, or decomposed with a dead child. An id not on the log is not dead: it
      may still be created. */
  least predicate Dead[nat](s: State, id: string) {
    id in s.tickets &&
    (s.tickets[id].status == Failed ||
     (s.tickets[id].status == Decomposed && exists c :: c in s.tickets[id].children && Dead(s, c)))
  }

  lemma {:induction false} NotBothTo(s: State, id: string, k: nat)
    requires Complete#[k](s, id)
    ensures !Dead(s, id)
    decreases k
  {
    if s.tickets[id].status == Decomposed {
      forall c | c in s.tickets[id].children ensures !Dead(s, c) {
        NotBothTo(s, c, k - 1);
      }
    }
  }

  /** No ticket is both complete and dead. */
  lemma NeverBoth(s: State, id: string)
    ensures !(Complete(s, id) && Dead(s, id))
  {
    if Complete(s, id) {
      var k: nat :| Complete#[k](s, id);
      NotBothTo(s, id, k);
    }
  }

  /** What terminal tickets keep from s to s': they stay, as they ended. */
  ghost predicate Settles(s: State, s': State) {
    forall id :: id in s.tickets && s.tickets[id].status.IsTerminal() ==>
      && id in s'.tickets && s'.tickets[id].status == s.tickets[id].status
      && (s.tickets[id].status == Decomposed ==> s'.tickets[id].children == s.tickets[id].children)
  }

  lemma {:induction false} CompleteStaysTo(s: State, s': State, id: string, k: nat)
    requires Settles(s, s') && Complete#[k](s, id)
    ensures Complete(s', id)
    decreases k
  {
    if s.tickets[id].status == Decomposed {
      forall c | c in s.tickets[id].children ensures Complete(s', c) {
        CompleteStaysTo(s, s', c, k - 1);
      }
    }
  }

  lemma {:induction false} DeadStaysTo(s: State, s': State, id: string, k: nat)
    requires Settles(s, s') && Dead#[k](s, id)
    ensures Dead(s', id)
    decreases k
  {
    if s.tickets[id].status == Decomposed {
      var c :| c in s.tickets[id].children && Dead#[k - 1](s, c);
      DeadStaysTo(s, s', c, k - 1);
    }
  }

  /** Complete and dead are for good, as long as terminal tickets stay as they are. */
  lemma VerdictsStay(s: State, s': State)
    requires Settles(s, s')
    ensures forall id :: Complete(s, id) ==> Complete(s', id)
    ensures forall id :: Dead(s, id) ==> Dead(s', id)
  {
    forall id | Complete(s, id) ensures Complete(s', id) {
      var k: nat :| Complete#[k](s, id);
      CompleteStaysTo(s, s', id, k);
    }
    forall id | Dead(s, id) ensures Dead(s', id) {
      var k: nat :| Dead#[k](s, id);
      DeadStaysTo(s, s', id, k);
    }
  }

  // --- The recursions ----------------------------------------------------------------------------

  /** ticketComplete and ticketDead: both follow a decomposed ticket to its children in
      turn, the one until a child is not complete, the other until a child is dead. */
  datatype Query = AskComplete | AskDead {
    /** What the answer for a child must be to end the loop over its siblings. */
    predicate Stop() { AskDead? }
  }

  ghost predicate Verdict(s: State, q: Query, id: string) {
    match q
    case AskComplete => Complete(s, id)
    case AskDead => Dead(s, id)
  }

  predicate IsSplit(s: State, id: string) { id in s.tickets && s.tickets[id].status == Decomposed }

  /** The answer for a ticket that is not decomposed, or not on the log. */
  function Leaf(s: State, q: Query, id: string): bool {
    id in s.tickets && s.tickets[id].status == if q.AskComplete? then MergedIn else Failed
  }

  /** A call on `id` returns `r`: the loop over its children ends at the first answer that
      ends it, or runs through all of them. */
  least predicate Answers[nat](s: State, q: Query, id: string, r: bool) {
    if !IsSplit(s, id) then r == Leaf(s, q, id)
    else
      var cs := s.tickets[id].children;
      if r == q.Stop() then
        exists k :: 0 <= k < |cs| && Answers(s, q, cs[k], r) && forall j :: 0 <= j < k ==> Answers(s, q, cs[j], !r)
      else forall k :: 0 <= k < |cs| ==> Answers(s, q, cs[k], r)
  }

  ghost predicate Returns(s: State, q: Query, id: string) { exists r :: Answers(s, q, id, r) }

  lemma {:induction false} AnswersTo(s: State, q: Query, id: string, r: bool, n: nat)
    requires Answers#[n](s, q, id, r)
    ensures r <==> Verdict(s, q, id)
    decreases n
  {
    if IsSplit(s, id) {
      var cs := s.tickets[id].children;
      if r == q.Stop() {
        var k :| 0 <= k < |cs| && Answers#[n - 1](s, q, cs[k], r);
        AnswersTo(s, q, cs[k], r, n - 1);
        assert cs[k] in cs;
      } else {
        forall c | c in cs ensures Verdict(s, q, c) <==> r {
          var k :| 0 <= k < |cs| && cs[k] == c;
          AnswersTo(s, q, cs[k], r, n - 1);
        }
      }
    }
  }

  /** What a call returns is the verdict. */
  lemma AnswersTruly(s: State, q: Query, id: string, r: bool)
    requires Answers(s, q, id, r)
    ensures r <==> Verdict(s, q, id)
  {
    var n: nat :| Answers#[n](s, q, id, r);
    AnswersTo(s, q, id, r, n);
  }

  /** The loop over `cs` comes to position k: no answer before it ended it. */
  ghost predicate ComesTo(s: State, q: Query, cs: seq<string>, k: int) {
    0 <= k < |cs| && forall j :: 0 <= j < k ==> Verdict(s, q, cs[j]) != q.Stop()
  }

  /** Every call the loop over `cs` makes returns. */
  ghost predicate LoopReturns(s: State, q: Query, cs: seq<string>) {
    forall k :: ComesTo(s, q, cs, k) ==> Returns(s, q, cs[k])
  }

  ghost predicate AnswersIn(s: State, q: Query, id: string, n: nat) { exists r :: Answers#[n](s, q, id, r) }

  ghost predicate IsDepth(s: State, q: Query, id: string, n: nat) {
    AnswersIn(s, q, id, n) && forall m: nat :: m < n ==> !AnswersIn(s, q, id, m)
  }

  lemma {:induction false} HasDepth(s: State, q: Query, id: string, n: nat)
    requires AnswersIn(s, q, id, n)
    ensures exists m: nat :: IsDepth(s, q, id, m)
  {
    if m: nat :| m < n && AnswersIn(s, q, id, m) { HasDepth(s, q, id, m); } else { assert IsDepth(s, q, id, n); }
  }

  /** How deep a call that returns goes. */
  ghost function Depth(s: State, q: Query, id: string): (n: nat)
    requires Returns(s, q, id)
    ensures IsDepth(s, q, id, n)
  {
    SomeDepth(s, q, id);
    var n: nat :| IsDepth(s, q, id, n);
    n
  }

  lemma SomeDepth(s: State, q: Query, id: string)
    requires Returns(s, q, id)
    ensures exists n: nat :: IsDepth(s, q, id, n)
  {
    var r :| Answers(s, q, id, r);
    var n: nat :| Answers#[n](s, q, id, r);
    HasDepth(s, q, id, n);
  }

  /** A call that returns calls only what returns, and less deep. */
  lemma CallsLessDeep(s: State, q: Query, id: string, k: int)
    requires Returns(s, q, id) && IsSplit(s, id) && ComesTo(s, q, s.tickets[id].children, k)
    ensures var c := s.tickets[id].children[k]; Returns(s, q, c) && Depth(s, q, c) < Depth(s, q, id)
  {
    var n, cs := Depth(s, q, id), s.tickets[id].children;
    var r :| Answers#[n](s, q, id, r);
    var a := ChildAnswers(s, q, id, r, n, k);
    assert AnswersIn(s, q, cs[k], n - 1);
    assert Answers(s, q, cs[k], a);
  }

  lemma ChildAnswers(s: State, q: Query, id: string, r: bool, n: nat, k: int) returns (a: bool)
    requires Answers#[n](s, q, id, r) && IsSplit(s, id) && ComesTo(s, q, s.tickets[id].children, k)
    ensures n > 0 && Answers#[n - 1](s, q, s.tickets[id].children[k], a)
  {
    var cs := s.tickets[id].children;
    a := r;
    if r == q.Stop() {
      var e :| 0 <= e < |cs| && Answers#[n - 1](s, q, cs[e], r) &&
               forall j :: 0 <= j < e ==> Answers#[n - 1](s, q, cs[j], !r);
      AnswersTo(s, q, cs[e], r, n - 1);
      a := if e == k then r else !r;
    }
  }

  /** And one all of whose calls return, returns. */
  lemma LoopAnswers(s: State, q: Query, id: string)
    requires IsSplit(s, id) ==> LoopReturns(s, q, s.tickets[id].children)
    ensures Returns(s, q, id)
  {
    if !IsSplit(s, id) {
      assert Answers(s, q, id, Leaf(s, q, id));
    } else {
      var cs := s.tickets[id].children;
      var e := LoopEnd(s, q, cs, 0);
      forall j | 0 <= j < |cs| && j <= e ensures Answers(s, q, cs[j], Verdict(s, q, cs[j])) {
        assert ComesTo(s, q, cs, j);
        var r :| Answers(s, q, cs[j], r);
        AnswersTruly(s, q, cs[j], r);
      }
      assert Answers(s, q, id, if e < |cs| then q.Stop() else !q.Stop());
    }
  }

  ghost function LoopEnd(s: State, q: Query, cs: seq<string>, k: nat): (e: nat)
    requires k <= |cs|
    ensures k <= e <= |cs| && (e < |cs| ==> Verdict(s, q, cs[e]) == q.Stop())
    ensures forall j :: k <= j < e ==> Verdict(s, q, cs[j]) != q.Stop()
    decreases |cs| - k
  {
    if k == |cs| || Verdict(s, q, cs[k]) == q.Stop() then k else LoopEnd(s, q, cs, k + 1)
  }

  function TicketComplete(s: State, id: string): (r: bool)
    requires Returns(s, AskComplete, id)
    ensures r <==> Complete(s, id)
    decreases Depth(s, AskComplete, id), 0
  {
    if id !in s.tickets then false
    else match s.tickets[id].status
      case MergedIn => true
      case Decomposed => ChildrenComplete(s, id, 0)
      case _ => false
  }

  /** The loop over a ticket's children, from the i-th on. */
  function ChildrenComplete(s: State, id: string, i: nat): (r: bool)
    requires Returns(s, AskComplete, id) && IsSplit(s, id) && i <= |s.tickets[id].children|
    requires forall j :: 0 <= j < i ==> Complete(s, s.tickets[id].children[j])
    ensures r <==> forall c :: c in s.tickets[id].children ==> Complete(s, c)
    decreases Depth(s, AskComplete, id), 0, |s.tickets[id].children| - i
  {
    var cs := s.tickets[id].children;
    if i == |cs| then true
    else
      CallsLessDeep(s, AskComplete, id, i);
      assert cs[i] in cs;
      if TicketComplete(s, cs[i]) then ChildrenComplete(s, id, i + 1) else false
  }

  function TicketDead(s: State, id: string): (r: bool)
    requires Returns(s, AskDead, id)
    ensures r <==> Dead(s, id)
    decreases Depth(s, AskDead, id), 0
  {
    if id !in s.tickets then false
    else match s.tickets[id].status
      case Failed => true
      case Decomposed => SomeChildDead(s, id, 0)
      case _ => false
  }

  function SomeChildDead(s: State, id: string, i: nat): (r: bool)
    requires Returns(s, AskDead, id) && IsSplit(s, id) && i <= |s.tickets[id].children|
    requires forall j :: 0 <= j < i ==> !Dead(s, s.tickets[id].children[j])
    ensures r <==> exists c :: c in s.tickets[id].children && Dead(s, c)
    decreases Depth(s, AskDead, id), 0, |s.tickets[id].children| - i
  {
    var cs := s.tickets[id].children;
    if i == |cs| then false
    else
      CallsLessDeep(s, AskDead, id, i);
      assert cs[i] in cs;
      if TicketDead(s, cs[i]) then true else SomeChildDead(s, id, i + 1)
  }

  // --- Queries -----------------------------------------------------------------------------------

  ghost predicate DepsSatisfied(s: State, t: Ticket) {
    forall d :: d in t.origin.dependsOn ==> Complete(s, d)
  }

  ghost predicate HasDeadDependency(s: State, t: Ticket) {
    exists d :: d in t.origin.dependsOn && Dead(s, d)
  }

  predicate Withdrawn(s: State, t: Ticket) {
    t.origin.goalId in s.goals && s.goals[t.origin.goalId].cancelled
  }

  ghost predicate Promotable(s: State, t: Ticket) {
    t.status == Pending && DepsSatisfied(s, t) && !Withdrawn(s, t)
  }

  predicate Startable(s: State, t: Ticket) {
    (t.status == Ready || t.status == Claimed || t.status == Running) && !Withdrawn(s, t)
  }

  ghost predicate IsBlocked(s: State, t: Ticket) {
    !t.status.IsTerminal() && HasDeadDependency(s, t)
  }

  /** The tickets that satisfy `keep`, in creation order. */
  ghost function InOrder(s: State, order: seq<string>, keep: (State, Ticket) -> bool): seq<Ticket> {
    if order == [] then [] else
    var id := order[|order| - 1];
    InOrder(s, order[..|order| - 1], keep) +
    if id in s.tickets && keep(s, s.tickets[id]) then [s.tickets[id]] else []
  }

  /** A listing misses nothing it should name, and names nothing else. */
  lemma {:induction false} InOrderIsExact(s: State, order: seq<string>, keep: (State, Ticket) -> bool, t: Ticket)
    ensures t in InOrder(s, order, keep) <==>
      (exists id :: id in order && id in s.tickets && s.tickets[id] == t && keep(s, t))
  {
    if order != [] {
      InOrderIsExact(s, order[..|order| - 1], keep, t);
      assert order == order[..|order| - 1] + [order[|order| - 1]];
    }
  }

  /** The calls on a ticket's dependencies that a query makes, in turn, return. */
  ghost predicate DepsReturn(s: State, q: Query, id: string)
    requires id in s.tickets
  {
    LoopReturns(s, q, s.tickets[id].origin.dependsOn)
  }

  /** Every call that looking for tickets to promote makes returns. */
  ghost predicate PromotionReturns(s: State) {
    forall id :: id in s.ticketOrder && id in s.tickets && s.tickets[id].status == Pending ==>
      DepsReturn(s, AskComplete, id)
  }

  /** Every call that looking for blocked tickets makes returns. */
  ghost predicate BlockingReturns(s: State) {
    forall id :: id in s.ticketOrder && id in s.tickets && !s.tickets[id].status.IsTerminal() ==>
      DepsReturn(s, AskDead, id)
  }

  method DepsAreDone(s: State, t: Ticket) returns (done: bool)
    requires LoopReturns(s, AskComplete, t.origin.dependsOn)
    ensures done <==> DepsSatisfied(s, t)
  {
    var deps := t.origin.dependsOn;
    for j := 0 to |deps|
      invariant forall d :: d in deps[..j] ==> Complete(s, d)
    {
      assert ComesTo(s, AskComplete, deps, j);
      if !TicketComplete(s, deps[j]) { return false; }
    }
    return true;
  }

  method NewlyReady(s: State) returns (out: seq<Ticket>)
    requires PromotionReturns(s)
    ensures out == InOrder(s, s.ticketOrder, Promotable)
  {
    out := [];
    for i := 0 to |s.ticketOrder|
      invariant out == InOrder(s, s.ticketOrder[..i], Promotable)
    {
      assert s.ticketOrder[..i + 1][..i] == s.ticketOrder[..i];
      var id := s.ticketOrder[i];
      if id in s.tickets {
        var t := s.tickets[id];
        if t.status == Pending {
          assert DepsReturn(s, AskComplete, id);
          var satisfied := DepsAreDone(s, t);
          if satisfied && !Withdrawn(s, t) { out := out + [t]; }
        }
      }
    }
    assert s.ticketOrder[..|s.ticketOrder|] == s.ticketOrder;
  }

  /** The first dead dependency. */
  ghost function FirstDead(s: State, deps: seq<string>): string {
    if deps == [] then "" else if Dead(s, deps[0]) then deps[0] else FirstDead(s, deps[1..])
  }

  method DeadDependency(s: State, t: Ticket) returns (dead: Option<string>)
    requires LoopReturns(s, AskDead, t.origin.dependsOn)
    ensures dead.Some? <==> HasDeadDependency(s, t)
    ensures dead.Some? ==> dead.value in t.origin.dependsOn && dead.value == FirstDead(s, t.origin.dependsOn)
  {
    var deps := t.origin.dependsOn;
    for j := 0 to |deps|
      invariant (forall d :: d in deps[..j] ==> !Dead(s, d)) && FirstDead(s, deps) == FirstDead(s, deps[j..])
    {
      assert ComesTo(s, AskDead, deps, j);
      if TicketDead(s, deps[j]) { return Some(deps[j]); }
    }
    return None;
  }

  method Blocked(s: State) returns (out: seq<Ticket>)
    requires BlockingReturns(s)
    ensures out == InOrder(s, s.ticketOrder, IsBlocked)
  {
    out := [];
    for i := 0 to |s.ticketOrder|
      invariant out == InOrder(s, s.ticketOrder[..i], IsBlocked)
    {
      assert s.ticketOrder[..i + 1][..i] == s.ticketOrder[..i];
      var id := s.ticketOrder[i];
      if id !in s.tickets || s.tickets[id].status.IsTerminal() { continue; }
      assert DepsReturn(s, AskDead, id);
      var dead := DeadDependency(s, s.tickets[id]);
      if dead.Some? { out := out + [s.tickets[id]]; }
    }
    assert s.ticketOrder[..|s.ticketOrder|] == s.ticketOrder;
  }

  // --- Goals -------------------------------------------------------------------------------------

  predicate GoalHasTickets(s: State, goalId: string) {
    exists id :: id in s.tickets && s.tickets[id].origin.goalId == goalId
  }

  ghost predicate GoalComplete(s: State, goalId: string) {
    && GoalHasTickets(s, goalId)
    && forall id :: id in s.tickets && s.tickets[id].origin.goalId == goalId ==> Complete(s, id)
  }

  ghost predicate Deliverable(s: State, goalId: string) {
    goalId in s.goals && !s.goals[goalId].cancelled && !s.goals[goalId].delivered && s.goals[goalId].branch != "" &&
    GoalComplete(s, goalId)
  }

  predicate Settled(s: State) {
    forall id :: id in s.tickets ==> s.tickets[id].status.IsTerminal()
  }

  predicate AllGoalsDecomposed(s: State) {
    forall g :: g in s.goals && !s.goals[g].cancelled ==> GoalHasTickets(s, g)
  }

  datatype Result =
    | Queued | AwaitingApproval | InProgress | FailedOutcome | Landed | DeliveredOutcome | CancelledOutcome

  predicate Owns(s: State, goalId: string, id: string) {
    id in s.tickets && s.tickets[id].origin.goalId == goalId
  }

  predicate Moving(status: Status) { !status.IsTerminal() && status != Awaiting }

  ghost predicate GoalAwaits(s: State, goalId: string) {
    exists id :: Owns(s, goalId, id) && s.tickets[id].status == Awaiting
  }

  ghost predicate GoalInFlight(s: State, goalId: string) {
    exists id :: Owns(s, goalId, id) && Moving(s.tickets[id].status)
  }

  ghost predicate GoalHasDead(s: State, goalId: string) {
    exists id :: Owns(s, goalId, id) && Dead(s, id)
  }

  /** Where a Goal stands; nothing when the id names none. */
  ghost function GoalOutcome(s: State, goalId: string): Option<Result> {
    if goalId !in s.goals then None else
    var g := s.goals[goalId];
    if g.cancelled then Some(CancelledOutcome)
    else if g.delivered then Some(DeliveredOutcome)
    else if !GoalHasTickets(s, goalId) then Some(Queued)
    else if GoalAwaits(s, goalId) then Some(AwaitingApproval)
    else if GoalInFlight(s, goalId) then Some(InProgress)
    else if GoalComplete(s, goalId) then Some(if g.branch != "" then InProgress else if g.budgetExceeded
                                              then FailedOutcome else Landed)
    else if g.budgetExceeded || GoalHasDead(s, goalId) then Some(FailedOutcome)
    else Some(InProgress)
  }

  /** What a Goal's tickets among `seen` amount to. */
  datatype Standing = Standing(any: bool, awaiting: bool, inFlight: bool, dead: bool, complete: bool)

  ghost predicate Sums(s: State, goalId: string, seen: set<string>, st: Standing) {
    && (st.any <==> exists id :: id in seen && Owns(s, goalId, id))
    && (st.awaiting <==> exists id :: id in seen && Owns(s, goalId, id) && s.tickets[id].status == Awaiting)
    && (st.inFlight <==> exists id :: id in seen && Owns(s, goalId, id) && Moving(s.tickets[id].status))
    && (st.dead <==> exists id :: id in seen && Owns(s, goalId, id) && Dead(s, id))
    && (st.complete <==> forall id :: id in seen && Owns(s, goalId, id) ==> Complete(s, id))
  }

  /** Every call on a Goal's tickets, whichever comes first, returns. */
  ghost predicate CompletionReturns(s: State, goalId: string) {
    forall id :: Owns(s, goalId, id) ==> Returns(s, AskComplete, id)
  }

  ghost predicate OutcomeReturns(s: State, goalId: string) {
    goalId in s.goals && !s.goals[goalId].cancelled && !s.goals[goalId].delivered ==>
      forall id :: Owns(s, goalId, id) ==> CallsOn(s, id)
  }

  /** The calls a Goal's outcome makes on one of its tickets return. */
  ghost predicate CallsOn(s: State, id: string)
    requires id in s.tickets
  {
    Returns(s, AskComplete, id) && (s.tickets[id].status.IsTerminal() ==> Returns(s, AskDead, id))
  }

  function AddTicket(s: State, st: Standing, id: string): Standing
    requires id in s.tickets && CallsOn(s, id)
  {
    var status := s.tickets[id].status;
    Standing(true, st.awaiting || status == Awaiting, st.inFlight || Moving(status),
             st.dead || (status.IsTerminal() && TicketDead(s, id)), TicketComplete(s, id) && st.complete)
  }

  lemma AddTicketSums(s: State, goalId: string, seen: set<string>, st: Standing, id: string)
    requires id in s.tickets && (Owns(s, goalId, id) ==> CallsOn(s, id)) && Sums(s, goalId, seen, st)
    ensures Sums(s, goalId, seen + {id}, if Owns(s, goalId, id) then AddTicket(s, st, id) else st)
  {
    assert forall x :: x in seen + {id} <==> x in seen || x == id;
  }

  lemma SumsDecide(s: State, goalId: string, st: Standing)
    requires Sums(s, goalId, s.tickets.Keys, st)
    ensures st.any <==> GoalHasTickets(s, goalId)
    ensures (st.awaiting <==> GoalAwaits(s, goalId)) && (st.inFlight <==> GoalInFlight(s, goalId))
    ensures (st.dead <==> GoalHasDead(s, goalId))
    ensures st.any && st.complete <==> GoalComplete(s, goalId)
    ensures !(st.complete && st.dead)
  {
    if st.any { var id :| Owns(s, goalId, id); }
    if GoalHasTickets(s, goalId) {
      var id :| id in s.tickets && s.tickets[id].origin.goalId == goalId;
      assert Owns(s, goalId, id);
    }
    if st.complete && st.dead {
      var id :| Owns(s, goalId, id) && Dead(s, id);
      NeverBoth(s, id);
    }
    if GoalComplete(s, goalId) {
      forall id | id in s.tickets.Keys && Owns(s, goalId, id) ensures Complete(s, id) {}
    }
    if st.complete {
      forall id | id in s.tickets && s.tickets[id].origin.goalId == goalId
          ensures Complete(s, id) { assert Owns(s, goalId, id); }
    }
  }

  const NO_TICKETS := Standing(false, false, false, false, true)

  ghost function StandingOf(s: State, goalId: string, visited: seq<string>): Standing
    requires forall id :: id in visited ==> id in s.tickets && (Owns(s, goalId, id) ==> CallsOn(s, id))
  {
    if visited == [] then NO_TICKETS else
    var st, id := StandingOf(s, goalId, visited[..|visited| - 1]), visited[|visited| - 1];
    if Owns(s, goalId, id) then AddTicket(s, st, id) else st
  }

  lemma {:induction false} StandingSums(s: State, goalId: string, visited: seq<string>)
    requires forall id :: id in visited ==> id in s.tickets && (Owns(s, goalId, id) ==> CallsOn(s, id))
    ensures Sums(s, goalId, (set id | id in visited), StandingOf(s, goalId, visited))
  {
    if visited != [] {
      var init, id := visited[..|visited| - 1], visited[|visited| - 1];
      StandingSums(s, goalId, init);
      AddTicketSums(s, goalId, (set x | x in init), StandingOf(s, goalId, init), id);
      assert visited == init + [id];
      assert (set x | x in visited) == (set x | x in init) + {id};
    }
  }

  method Stand(s: State, goalId: string) returns (st: Standing)
    requires forall id :: Owns(s, goalId, id) ==> CallsOn(s, id)
    ensures Sums(s, goalId, s.tickets.Keys, st)
  {
    st := NO_TICKETS;
    var rest := s.tickets.Keys;
    ghost var visited: seq<string> := [];
    while rest != {}
      invariant rest <= s.tickets.Keys && forall id :: id in visited <==> id in s.tickets && id !in rest
      invariant st == StandingOf(s, goalId, visited)
      decreases rest
    {
      var id :| id in rest;
      assert (visited + [id])[..|visited|] == visited;
      st := if Owns(s, goalId, id) then AddTicket(s, st, id) else st;
      rest, visited := rest - {id}, visited + [id];
    }
    StandingSums(s, goalId, visited);
    assert (set id | id in visited) == s.tickets.Keys;
  }

  method ComputeOutcome(s: State, goalId: string) returns (out: Option<Result>)
    requires OutcomeReturns(s, goalId)
    ensures out == GoalOutcome(s, goalId)
  {
    if goalId !in s.goals { return None; }
    var g := s.goals[goalId];
    if g.cancelled { return Some(CancelledOutcome); }
    if g.delivered { return Some(DeliveredOutcome); }
    var st := Stand(s, goalId);
    SumsDecide(s, goalId, st);
    if !st.any { return Some(Queued); }
    if st.awaiting { return Some(AwaitingApproval); }
    if st.inFlight { return Some(InProgress); }
    if st.complete && g.branch != "" { return Some(InProgress); }
    if st.dead || g.budgetExceeded { return Some(FailedOutcome); }
    return Some(if st.complete then Landed else InProgress);
  }

  method IsGoalComplete(s: State, goalId: string) returns (complete: bool)
    requires CompletionReturns(s, goalId)
    ensures complete <==> GoalComplete(s, goalId)
  {
    var has := false;
    var rest := s.tickets.Keys;
    while rest != {}
      invariant rest <= s.tickets.Keys
      invariant has <==> exists id :: id in s.tickets && id !in rest && s.tickets[id].origin.goalId == goalId
      invariant forall id :: id in s.tickets && id !in rest && s.tickets[id].origin.goalId == goalId ==> Complete(s, id)
      decreases rest
    {
      var id :| id in rest;
      rest := rest - {id};
      if s.tickets[id].origin.goalId == goalId {
        assert Owns(s, goalId, id);
        if !TicketComplete(s, id) { return false; }
        has := true;
      }
    }
    return has;
  }
}
