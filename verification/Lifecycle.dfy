/** What one legal event does to one ticket, and to the log as a whole. */
module Lifecycle {
  import opened Events
  import opened Replay
  import opened TaskGraph
  import opened Plans
  import opened History

  // --- Ids ---------------------------------------------------------------------------------------

  /** The part of an id before its first slash: the Goal's first ticket. */
  function RootOf(id: string): string {
    if id == "" || id[0] == '/' then "" else [id[0]] + RootOf(id[1..])
  }

  lemma {:induction false} RootOfSlashless(id: string)
    requires '/' !in id
    ensures RootOf(id) == id
  {
    if id != "" {
      assert id[0] in id && forall c :: c in id[1..] ==> c in id;
      RootOfSlashless(id[1..]);
    }
  }

  lemma {:induction false} RootOfChild(id: string, child: string)
    requires |child| > |id| && child[..|id| + 1] == id + "/"
    ensures RootOf(child) == RootOf(id)
  {
    if id == "" {
      assert child[0] == (id + "/")[0] == '/';
    } else {
      assert child[0] == child[..|id| + 1][0] == (id + "/")[0] == id[0];
      assert child[1..][..|id[1..]| + 1] == child[..|id| + 1][1..] == (id + "/")[1..] == id[1..] + "/";
      RootOfChild(id[1..], child[1..]);
    }
  }

  predicate OfGoal(id: string, goalId: string) { RootOf(id) == goalId + "-impl" }

  lemma OneGoal(id: string, g: string, h: string)
    requires OfGoal(id, g) && OfGoal(id, h)
    ensures g == h
  {
    assert |g| == |h|;
    assert (g + "-impl")[..|g|] == g && (h + "-impl")[..|h|] == h;
  }

  // --- One ticket --------------------------------------------------------------------------------

  predicate InHand(t: Ticket) { t.status == Claimed || t.status == Running }

  predicate Beyond(t: Ticket) { t.status != Pending && t.status != Failed }

  /** One attempt at a time: the worker is active exactly while the ticket is in hand.
      A parked ticket is undecided, and a rejected one failed. */
  predicate TicketOk(id: string, t: Ticket) {
    && t.origin.id == id && OfGoal(id, t.origin.goalId)
    && t.activeWorkers == (if InHand(t) then [WorkerOf(id)] else [])
    && (InHand(t) ==> t.worker == WorkerOf(id))
    && (t.status == Awaiting ==> !t.approved && !t.rejected) && (t.rejected ==> t.status == Failed)
  }

  /** When an event may be appended about a ticket on the log. */
  ghost predicate LegalOn(s: State, t: Ticket, a: Marks, b: Body)
    requires NamesTicket(b)
  {
    && (b.TicketReady? ==> DepsSatisfied(s, t))
    && (b.TicketClaimed? ==> t.status == Ready && b.worker == WorkerOf(t.origin.id))
    && (b.WorkStarted? ==> InHand(t))
    && (b.TicketInvalidated? || b.ProposalSubmitted? || b.WorkerRestarted? || b.TicketDecomposed? ==>
          InHand(t) && b.worker == WorkerOf(t.origin.id))
    && (b.TicketFailed? && InHand(t) ==> b.worker == WorkerOf(t.origin.id))
    && (b.VerificationFailed? || b.ApprovalRequested? ==> t.status == Proposed)
    && (b.VerificationFailed? ==> b.worker == t.worker)
    && (b.ApprovalRequested? ==> !t.approved)
    && (b.Merged? ==> t.status == Proposed && PassedSince(a, t.origin.id) && !MovedAfterCancel(a, t.origin.id))
    && (b.ApprovalGranted? || b.ApprovalDenied? ==> t.status == Awaiting)
  }

  /** The proposal is still to be merged, or its ticket failed. */
  predicate StillProposes(t: Ticket, t': Ticket) {
    t'.status == Failed || ((t'.status == Proposed || t'.status == Awaiting) && t'.candidate == t.candidate)
  }

  /** What an event does to a legal ticket's standing. */
  ghost predicate Moved(id: string, t: Ticket, b: Body, t': Ticket) {
    && TicketOk(id, t') && t'.origin == t.origin
    && (t.status.IsTerminal() ==> t'.status == t.status && t'.children == t.children)
    && (Beyond(t') && !Beyond(t) ==> b.TicketReady?)
    && (t'.status == MergedIn ==> t.status == MergedIn || b.Merged?)
    && (b.Merged? ==> t'.status == MergedIn && t'.candidate.commit == b.commit)
    && (t.status == Awaiting ==> t'.status == Awaiting || t'.status == Failed || b.ApprovalGranted?)
    && (b.ApprovalRequested? ==> t'.status == Awaiting)
    && (InHand(t') && !InHand(t) ==> b.TicketClaimed?)
    && (b.ApprovalGranted? ==> t'.status == Proposed && t'.candidate == t.candidate)
    && (b.ApprovalDenied? ==> t'.status == Failed)
    && (b.TicketFailed? ==> t'.status == Failed || t'.status == t.status)
    && (b.ApprovalRequested? || b.TicketFailed? ==> t'.candidate == t.candidate)
    && (b.VerificationPassed? || b.RegressionEscaped? || b.WorkerStalled? ==> t' == t)
    && (b.WorkStarted? || b.Heartbeat? || b.TicketAmended? ==> (InHand(t) ==> InHand(t')))
    && (b.TicketReady? && t.status != Pending ==> t' == t)
    && (b.TicketClaimed? ==> InHand(t'))
    && (t.status == Proposed || t.status == Awaiting ==> b.Merged? || b.VerificationFailed? || StillProposes(t, t'))
  }

  /** Events that leave a ticket's status alone, or touch it only before it is in hand. */
  lemma MovedQuietly(id: string, s: State, t: Ticket, a: Marks, e: Event)
    requires TicketOk(id, t) && NamesTicket(e.body) && e.body.ticketId == id && LegalOn(s, t, a, e.body)
    requires e.body.TicketReady? || e.body.TicketClaimed? || e.body.WorkStarted? || e.body.Heartbeat? ||
             e.body.TicketAmended? ||
             e.body.VerificationPassed? || e.body.RegressionEscaped? || e.body.WorkerStalled?
    ensures Moved(id, t, e.body, StepTicket(t, e))
  {
  }

  /** Events that end an attempt. */
  lemma MovedByWorker(id: string, s: State, t: Ticket, a: Marks, e: Event)
    requires TicketOk(id, t) && NamesTicket(e.body) && e.body.ticketId == id && LegalOn(s, t, a, e.body)
    requires e.body.TicketInvalidated? || e.body.ProposalSubmitted? || e.body.WorkerRestarted? ||
             e.body.TicketDecomposed?
    ensures Moved(id, t, e.body, StepTicket(t, e))
  {
    var w := WorkerOf(id);
    assert [w][1..] == [] && RemoveWorker([w], w) == RemoveWorker([], w) == [];
  }

  lemma MovedByFailure(id: string, s: State, t: Ticket, a: Marks, e: Event)
    requires TicketOk(id, t) && NamesTicket(e.body) && e.body.ticketId == id && LegalOn(s, t, a, e.body)
    requires e.body.TicketFailed? || e.body.VerificationFailed?
    ensures Moved(id, t, e.body, StepTicket(t, e))
  {
    var w := WorkerOf(id);
    assert [w][1..] == [] && RemoveWorker([w], w) == RemoveWorker([], w) == [];
  }

  lemma MovedByQueue(id: string, s: State, t: Ticket, a: Marks, e: Event)
    requires TicketOk(id, t) && NamesTicket(e.body) && e.body.ticketId == id && LegalOn(s, t, a, e.body)
    requires e.body.Merged? || e.body.ApprovalRequested? || e.body.ApprovalGranted? || e.body.ApprovalDenied?
    ensures Moved(id, t, e.body, StepTicket(t, e))
  {
  }

  lemma LegalMoves(id: string, s: State, t: Ticket, a: Marks, e: Event)
    requires TicketOk(id, t) && NamesTicket(e.body) && !e.body.TicketCreated? && e.body.ticketId == id
    requires LegalOn(s, t, a, e.body)
    ensures Moved(id, t, e.body, StepTicket(t, e))
  {
    var b := e.body;
    if b.TicketInvalidated? || b.ProposalSubmitted? || b.WorkerRestarted? || b.TicketDecomposed? {
      MovedByWorker(id, s, t, a, e);
    } else if b.TicketFailed? || b.VerificationFailed? {
      MovedByFailure(id, s, t, a, e);
    } else if b.Merged? || b.ApprovalRequested? || b.ApprovalGranted? || b.ApprovalDenied? {
      MovedByQueue(id, s, t, a, e);
    } else {
      MovedQuietly(id, s, t, a, e);
    }
  }

  // --- The whole log -----------------------------------------------------------------------------

  predicate TicketMarks(id: string, t: Ticket, a: Marks) {
    && (id in a.merged <==> t.status == MergedIn)
    && (id in a.requested && id !in a.granted ==> t.status == Awaiting || t.status == Failed)
    && id in a.goalOf && a.goalOf[id] == t.origin.goalId
  }

  ghost predicate Fits(id: string, s: State, t: Ticket, a: Marks) {
    TicketOk(id, t) && TicketMarks(id, t, a) && (Beyond(t) ==> DepsSatisfied(s, t))
  }

  ghost predicate Dated(n: int, a: Marks) {
    && (forall id :: 0 <= At(a.proposedAt, id) <= n)
    && (forall id :: 0 <= At(a.passedAt, id) <= n)
    && (forall id :: 0 <= At(a.movedAt, id) <= n)
    && (forall g :: 0 <= At(a.cancelledAt, g) <= n)
  }

  predicate Marked(s: State, g: string, a: Marks) {
    && (At(a.cancelledAt, g) > 0 <==> g in s.goals && s.goals[g].cancelled)
    && (g in a.delivered <==> g in s.goals && s.goals[g].delivered)
  }

  /** What holds of every log of n events the system writes. */
  ghost predicate Core(n: int, s: State, a: Marks) {
    && n >= 0 && Listed(s) && Dated(n, a)
    && (forall id :: id in s.tickets ==> Fits(id, s, s.tickets[id], a))
    && (forall id :: id in a.merged || id in a.requested ==> id in s.tickets)
    && forall g :: Marked(s, g, a)
  }

  /** When an event may be appended. */
  ghost predicate Legal(s: State, a: Marks, b: Body) {
    && (b.TicketCreated? ==> OfGoal(b.ticketId, b.goalId))
    && (b.GoalCancelled? || b.Delivered? ==> b.goalId in s.goals)
    && (b.Delivered? ==> !s.goals[b.goalId].delivered && GoalComplete(s, b.goalId))
    && (NamesTicket(b) && !b.TicketCreated? ==> b.ticketId in s.tickets && LegalOn(s, s.tickets[b.ticketId], a, b))
  }

  /** `s'` is the state after e, in the terms the proofs use. */
  ghost predicate After(s: State, e: Event, s': State) {
    Becomes(s, e, s') && GoalsBecome(s, e, s')
  }

  lemma ApplyIsAfter(s: State, e: Event)
    ensures After(s, e, Apply(s, e))
  {
    ApplyIsLocal(s, e);
    ApplyOnGoals(s, e);
  }

  /** Everything an event's ticket may do, whether or not the event names it. */
  lemma TicketMoves(id: string, n: int, s: State, a: Marks, e: Event, s': State)
    requires Core(n, s, a) && Legal(s, a, e.body) && After(s, e, s') && id in s.tickets
    ensures id in s'.tickets
    ensures if Moves(e, id) then Moved(id, s.tickets[id], e.body, s'.tickets[id]) else s'.tickets[id] == s.tickets[id]
  {
    assert Fits(id, s, s.tickets[id], a);
    assert TicketBecomes(s.tickets[id], e, id, s'.tickets[id]);
    if Moves(e, id) { LegalMoves(id, s, s.tickets[id], a, e); }
  }

  /** Every ticket after an event, whether or not the event names it. */
  ghost predicate Onward(s: State, e: Event, s': State) {
    && Settles(s, s')
    && forall id :: id in s.tickets ==> OnwardAt(s, e, s', id)
  }

  ghost predicate OnwardAt(s: State, e: Event, s': State, id: string)
    requires id in s.tickets
  {
    id in s'.tickets && if Moves(e, id) then Moved(id, s.tickets[id], e.body, s'.tickets[id])
        else s'.tickets[id] == s.tickets[id]
  }

  /** Terminal tickets stay as they ended. */
  lemma StepSettles(n: int, s: State, a: Marks, e: Event, s': State)
    requires Core(n, s, a) && Legal(s, a, e.body) && After(s, e, s')
    ensures Settles(s, s')
  {
    forall id | id in s.tickets && s.tickets[id].status.IsTerminal()
      ensures id in s'.tickets && s'.tickets[id].status == s.tickets[id].status
      ensures s'.tickets[id].children == s.tickets[id].children
    {
      TicketMoves(id, n, s, a, e, s');
    }
  }

  lemma StepDates(n: int, a: Marks, e: Event)
    requires Dated(n, a) && e.num == n + 1
    ensures Dated(n + 1, Mark(a, e))
  {
    forall id ensures 0 <= At(Mark(a, e).proposedAt, id) <= n + 1 { assert 0 <= At(a.proposedAt, id) <= n; }
    forall id ensures 0 <= At(Mark(a, e).passedAt, id) <= n + 1 { assert 0 <= At(a.passedAt, id) <= n; }
    forall id ensures 0 <= At(Mark(a, e).movedAt, id) <= n + 1 { assert 0 <= At(a.movedAt, id) <= n; }
    forall g ensures 0 <= At(Mark(a, e).cancelledAt, g) <= n + 1 { assert 0 <= At(a.cancelledAt, g) <= n; }
  }

  lemma StepLists(s: State, e: Event, s': State)
    requires Listed(s) && After(s, e, s')
    ensures Listed(s')
  {
  }

  /** Dependencies that were complete stay so, and promotion checks them. */
  lemma DepsKept(s: State, s': State, t: Ticket, t': Ticket)
    requires Settles(s, s') && t'.origin == t.origin && DepsSatisfied(s, t)
    ensures DepsSatisfied(s', t')
  {
    VerdictsStay(s, s');
  }

  lemma MarksKept(id: string, t: Ticket, a: Marks, e: Event, t': Ticket)
    requires TicketOk(id, t) && TicketMarks(id, t, a)
    requires if Moves(e, id) then Moved(id, t, e.body, t') else t' == t
    requires e.body.TicketCreated? && e.body.ticketId == id ==> e.body.goalId == t.origin.goalId
    ensures TicketMarks(id, t', Mark(a, e))
  {
  }

  lemma StepFits(id: string, n: int, s: State, a: Marks, e: Event, s': State)
    requires Core(n, s, a) && Legal(s, a, e.body) && After(s, e, s') && Settles(s, s') && id in s.tickets
    ensures id in s'.tickets && Fits(id, s', s'.tickets[id], Mark(a, e))
  {
    TicketMoves(id, n, s, a, e, s');
    var t, t' := s.tickets[id], s'.tickets[id];
    assert Fits(id, s, t, a);
    if e.body.TicketCreated? && e.body.ticketId == id { OneGoal(id, e.body.goalId, t.origin.goalId); }
    MarksKept(id, t, a, e, t');
    if Beyond(t') { DepsKept(s, s', t, t'); }
  }

  lemma NewFits(id: string, n: int, s: State, a: Marks, e: Event, s': State)
    requires Core(n, s, a) && Legal(s, a, e.body) && After(s, e, s') && id in s'.tickets && id !in s.tickets
    ensures Fits(id, s', s'.tickets[id], Mark(a, e))
  {
    assert Creates(s, e) == Some(id) && s'.tickets[id] == NewTicket(e);
    assert id !in a.merged && id !in a.requested;
  }

  lemma StepMarks(g: string, n: int, s: State, a: Marks, e: Event, s': State)
    requires Core(n, s, a) && Legal(s, a, e.body) && After(s, e, s') && e.num == n + 1
    ensures Marked(s', g, Mark(a, e))
  {
    assert Marked(s, g, a);
    if g in s.goals { assert GoalBecomes(s, e, g, s'.goals[g]); }
  }

  /** A legal event keeps the invariant, and every terminal ticket as it is. */
  lemma CoreKept(n: int, s: State, a: Marks, e: Event, s': State)
    requires Core(n, s, a) && Legal(s, a, e.body) && After(s, e, s') && e.num == n + 1
    ensures Core(n + 1, s', Mark(a, e)) && Onward(s, e, s')
  {
    StepSettles(n, s, a, e, s');
    forall id | id in s.tickets ensures OnwardAt(s, e, s', id) { TicketMoves(id, n, s, a, e, s'); }
    StepDates(n, a, e);
    StepLists(s, e, s');
    forall id | id in s'.tickets ensures Fits(id, s', s'.tickets[id], Mark(a, e)) {
      if id in s.tickets { StepFits(id, n, s, a, e, s'); } else { NewFits(id, n, s, a, e, s'); }
    }
    forall g ensures Marked(s', g, Mark(a, e)) { StepMarks(g, n, s, a, e, s'); }
  }

  /** A legal event keeps every rule. */
  lemma LegalIsLawful(n: int, s: State, a: Marks, e: Event)
    requires Core(n, s, a) && Legal(s, a, e.body) && (e.body.Merged? ==> e.actor == "orchestrator")
    ensures Lawful(a, s, e)
  {
    if e.body.Merged? {
      assert Fits(e.body.ticketId, s, s.tickets[e.body.ticketId], a);
    }
    if e.body.Delivered? { assert Marked(s, e.body.goalId, a); }
  }

  // --- What the invariant says -------------------------------------------------------------------

  /** A ticket past pending and not failed has every dependency complete, so only
      pending tickets are ever blocked. */
  lemma OnlyPendingIsBlocked(n: int, s: State, a: Marks, id: string)
    requires Core(n, s, a) && id in s.tickets && IsBlocked(s, s.tickets[id])
    ensures s.tickets[id].status == Pending
  {
    var t := s.tickets[id];
    assert Fits(id, s, t, a);
    var d :| d in t.origin.dependsOn && Dead(s, d);
    NeverBoth(s, d);
  }

  // --- Leaving a terminal status -----------------------------------------------------------------

  lemma AttemptsKeepTerminal(t: Ticket, e: Event)
    requires t.status.IsTerminal()
    requires e.body.ProposalSubmitted? || e.body.WorkerRestarted? || e.body.VerificationFailed? ||
             e.body.TicketFailed? || e.body.TicketInvalidated?
    ensures StepTicket(t, e).status == t.status
  {
  }

  /** Replay itself lets exactly these events move a terminal ticket: a claim or a
      start, a decomposition, a merge. Everything else must be kept off the log. */
  lemma TerminalLeftExactly(t: Ticket, e: Event)
    requires t.status.IsTerminal()
    ensures StepTicket(t, e).status != t.status <==>
              e.body.TicketClaimed? || e.body.WorkStarted? || (e.body.TicketDecomposed? && t.status != Decomposed) ||
              (e.body.Merged? && t.status != MergedIn)
  {
    if e.body.ProposalSubmitted? || e.body.WorkerRestarted? || e.body.VerificationFailed? ||
       e.body.TicketFailed? || e.body.TicketInvalidated? {
      AttemptsKeepTerminal(t, e);
    }
  }
}
