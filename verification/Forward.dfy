/** What a pass appends never takes a call of the recursions further: so those its later
    steps make return if they would have returned at its start. */
module Forward {
  import opened Events
  import opened Replay
  import opened TaskGraph
  import opened Lifecycle
  import opened Recursion

  /** Tickets wait on what they waited on, what has ended stays, and nothing is split. */
  ghost predicate Onwards(s: State, s': State) {
    && Settles(s, s')
    && (forall id :: id in s.tickets ==> id in s'.tickets && s'.tickets[id].origin == s.tickets[id].origin)
    && (forall id :: IsSplit(s', id) ==> IsSplit(s, id))
    && forall id :: id in s'.tickets && id !in s.tickets ==> s'.tickets[id].origin.dependsOn == []
  }

  /** What would have ended a loop still does. */
  ghost predicate StillStops(s: State, s': State, q: Query) {
    forall id :: Verdict(s, q, id) == q.Stop() ==> Verdict(s', q, id) == q.Stop()
  }

  lemma LoopOnwards(s: State, s': State, q: Query, cs: seq<string>, k: int)
    requires StillStops(s, s', q) && ComesTo(s', q, cs, k)
    ensures ComesTo(s, q, cs, k)
  {
    forall j | 0 <= j < k ensures Verdict(s, q, cs[j]) != q.Stop() {
      assert Verdict(s', q, cs[j]) != q.Stop();
    }
  }

  lemma {:induction false} ReturnsOnwards(s: State, s': State, q: Query, id: string)
    requires Onwards(s, s') && StillStops(s, s', q) && Returns(s, q, id)
    ensures Returns(s', q, id)
    decreases Depth(s, q, id)
  {
    if IsSplit(s', id) {
      var cs := s'.tickets[id].children;
      forall k | ComesTo(s', q, cs, k) ensures Returns(s', q, cs[k]) {
        LoopOnwards(s, s', q, cs, k);
        CallsLessDeep(s, q, id, k);
        ReturnsOnwards(s, s', q, cs[k]);
      }
    }
    LoopAnswers(s', q, id);
  }

  lemma DepsOnwards(s: State, s': State, q: Query, id: string)
    requires Onwards(s, s') && StillStops(s, s', q) && id in s'.tickets
    requires id in s.tickets ==> DepsReturn(s, q, id)
    ensures DepsReturn(s', q, id)
  {
    var deps := s'.tickets[id].origin.dependsOn;
    forall k | ComesTo(s', q, deps, k) ensures Returns(s', q, deps[k]) {
      LoopOnwards(s, s', q, deps, k);
      ReturnsOnwards(s, s', q, deps[k]);
    }
  }

  /** What is dead stays so, so looking for blocked tickets still returns. */
  lemma BlockingOnwards(s: State, s': State)
    requires Onwards(s, s') && BlockingReturns(s) && Listed(s)
    ensures BlockingReturns(s')
  {
    VerdictsStay(s, s');
    forall id | id in s'.ticketOrder && id in s'.tickets && !s'.tickets[id].status.IsTerminal()
      ensures DepsReturn(s', AskDead, id)
    {
      assert id in s.tickets ==> !s.tickets[id].status.IsTerminal();
      DepsOnwards(s, s', AskDead, id);
    }
  }

  /** Nothing is merged. */
  ghost predicate NoneMerged(s: State, s': State) {
    forall id :: id in s'.tickets && s'.tickets[id].status == MergedIn ==>
      id in s.tickets && s.tickets[id].status == MergedIn
  }

  lemma {:induction false} CompleteBefore(s: State, s': State, id: string, n: nat)
    requires Onwards(s, s') && NoneMerged(s, s') && Complete#[n](s', id)
    ensures Complete(s, id)
    decreases n
  {
    if IsSplit(s', id) {
      forall c | c in s.tickets[id].children ensures Complete(s, c) { CompleteBefore(s, s', c, n - 1); }
    }
  }

  /** What is incomplete stays so while nothing is merged. */
  lemma PromotionOnwards(s: State, s': State)
    requires Onwards(s, s') && NoneMerged(s, s') && PromotionReturns(s) && Listed(s)
    requires forall id :: id in s'.tickets && id in s.tickets && s'.tickets[id].status == Pending ==>
               s.tickets[id].status == Pending
    ensures PromotionReturns(s')
  {
    forall id | Complete(s', id) ensures Complete(s, id) {
      var n: nat :| Complete#[n](s', id);
      CompleteBefore(s, s', id, n);
    }
    forall id | id in s'.ticketOrder && id in s'.tickets && s'.tickets[id].status == Pending
      ensures DepsReturn(s', AskComplete, id)
    {
      DepsOnwards(s, s', AskComplete, id);
    }
  }

  // --- The appends of a pass ---------------------------------------------------------------------

  /** An append that reopens nothing, splits nothing, and has no dependencies if it is a
      new ticket. Only a merge can still reach a ticket that has ended. */
  predicate Harmless(b: Body) {
    && !b.TicketClaimed? && !b.WorkStarted? && !b.TicketDecomposed? && !b.TicketInvalidated?
    && (b.TicketCreated? ==> b.dependsOn == [])
  }

  lemma EventOnwards(s: State, e: Event)
    requires Harmless(e.body)
    requires e.body.Merged? && e.body.ticketId in s.tickets ==> !s.tickets[e.body.ticketId].status.IsTerminal()
    ensures Onwards(s, Apply(s, e)) && (!e.body.Merged? ==> Calmly(s, Apply(s, e)))
  {
    ApplyIsLocal(s, e);
    BecomesOnwards(s, e, Apply(s, e));
  }

  lemma BecomesOnwards(s: State, e: Event, s': State)
    requires Harmless(e.body) && Becomes(s, e, s')
    requires e.body.Merged? && e.body.ticketId in s.tickets ==> !s.tickets[e.body.ticketId].status.IsTerminal()
    ensures Onwards(s, s') && (!e.body.Merged? ==> Calmly(s, s'))
  {
    forall id | id in s.tickets ensures TicketOnwards(s.tickets[id], s'.tickets[id], e.body.Merged?) {
      assert TicketBecomes(s.tickets[id], e, id, s'.tickets[id]);
      if Moves(e, id) { StepOnwards(s.tickets[id], e); }
    }
  }

  /** No ticket comes to be pending. */
  ghost predicate NoneWaits(s: State, s': State) {
    forall id :: id in s.tickets && id in s'.tickets && s'.tickets[id].status == Pending ==>
      s.tickets[id].status == Pending
  }

  predicate TicketOnwards(t: Ticket, t': Ticket, merges: bool) {
    && t'.origin == t.origin && t'.children == t.children
    && (t.status.IsTerminal() ==> t'.status == t.status)
    && (t'.status == Decomposed ==> t.status == Decomposed)
    && (t'.status == MergedIn && !merges ==> t.status == MergedIn)
    && (t'.status == Pending ==> t.status == Pending)
  }

  lemma StepOnwards(t: Ticket, e: Event)
    requires Harmless(e.body) && (e.body.Merged? ==> !t.status.IsTerminal())
    ensures TicketOnwards(t, StepTicket(t, e), e.body.Merged?)
  {
    if t.status.IsTerminal() { TerminalLeftExactly(t, e); }
    StepKeepsChildren(t, e);
    if e.body.ProposalSubmitted? || e.body.WorkerRestarted? || e.body.VerificationFailed? || e.body.TicketFailed? {
      AttemptOnwards(t, e);
    }
  }

  lemma AttemptOnwards(t: Ticket, e: Event)
    requires e.body.ProposalSubmitted? || e.body.WorkerRestarted? || e.body.VerificationFailed? || e.body.TicketFailed?
    ensures var t' := StepTicket(t, e);
            && (t'.status == MergedIn ==> t.status == MergedIn) && (t'.status == Pending ==> t.status == Pending)
  {
  }

  /** Onwards, with nothing merged and nothing newly pending. */
  ghost predicate Calmly(s: State, s': State) { Onwards(s, s') && NoneMerged(s, s') && NoneWaits(s, s') }

  lemma OnwardsTwice(s: State, s1: State, s2: State)
    requires Onwards(s, s1) && Onwards(s1, s2)
    ensures Onwards(s, s2) && (Calmly(s, s1) && Calmly(s1, s2) ==> Calmly(s, s2))
  {
    forall id | id in s2.tickets && id !in s.tickets ensures s2.tickets[id].origin.dependsOn == [] {
      if id in s1.tickets { assert s2.tickets[id].origin == s1.tickets[id].origin; }
    }
  }

  /** Appends none of which is a merge. */
  lemma {:induction false} AppendsOnwards(log: seq<Event>, more: seq<Event>)
    requires forall e :: e in more ==> Harmless(e.body) && !e.body.Merged?
    ensures Calmly(Fold(log), Fold(log + more))
  {
    if more == [] {
      assert log + more == log;
    } else {
      var init, e := more[..|more| - 1], more[|more| - 1];
      AppendsOnwards(log, init);
      assert (log + more)[..|log + more| - 1] == log + init;
      EventOnwards(Fold(log + init), e);
      OnwardsTwice(Fold(log), Fold(log + init), Fold(log + more));
    }
  }

  /** Tickets the appends are not about. */
  lemma {:induction false} StatusKept(log: seq<Event>, more: seq<Event>, id: string)
    requires id in Fold(log).tickets && forall e :: e in more ==> !Moves(e, id)
    ensures id in Fold(log + more).tickets && Fold(log + more).tickets[id].status == Fold(log).tickets[id].status
  {
    if more == [] {
      assert log + more == log;
    } else {
      var init, e := more[..|more| - 1], more[|more| - 1];
      StatusKept(log, init, id);
      assert (log + more)[..|log + more| - 1] == log + init;
      ApplyIsLocal(Fold(log + init), e);
      assert TicketBecomes(Fold(log + init).tickets[id], e, id, Fold(log + more).tickets[id]);
    }
  }

  /** A merge recorded right after its pass, and what may follow it. */
  lemma MergeOnwards(log: seq<Event>, pass: Event, merge: Event, more: seq<Event>)
    requires pass.body.VerificationPassed? && merge.body.Merged? && pass.body.ticketId == merge.body.ticketId
    requires merge.body.ticketId in Fold(log).tickets
    requires !Fold(log).tickets[merge.body.ticketId].status.IsTerminal()
    requires forall e :: e in more ==> Harmless(e.body) && !e.body.Merged?
    ensures Onwards(Fold(log), Fold(log + [pass, merge] + more))
  {
    PassKeepsStatus(log, pass, merge.body.ticketId);
    OneOnwards(log, pass);
    OneOnwards(log + [pass], merge);
    assert log + [pass] + [merge] == log + [pass, merge];
    OnwardsTwice(Fold(log), Fold(log + [pass]), Fold(log + [pass, merge]));
    AppendsOnwards(log + [pass, merge], more);
    OnwardsTwice(Fold(log), Fold(log + [pass, merge]), Fold(log + [pass, merge] + more));
  }

  lemma OneOnwards(log: seq<Event>, e: Event)
    requires Harmless(e.body)
    requires e.body.Merged? && e.body.ticketId in Fold(log).tickets ==>
               !Fold(log).tickets[e.body.ticketId].status.IsTerminal()
    ensures Onwards(Fold(log), Fold(log + [e]))
  {
    assert (log + [e])[..|log|] == log;
    EventOnwards(Fold(log), e);
  }

  lemma PassKeepsStatus(log: seq<Event>, pass: Event, id: string)
    requires pass.body.VerificationPassed? && id in Fold(log).tickets
    ensures id in Fold(log + [pass]).tickets && Fold(log + [pass]).tickets[id].status == Fold(log).tickets[id].status
  {
    assert (log + [pass])[..|log|] == log;
    ApplyIsLocal(Fold(log), pass);
    assert TicketBecomes(Fold(log).tickets[id], pass, id, Fold(log + [pass]).tickets[id]);
  }

  /** A ticket is on the log under its own name. */
  lemma {:induction false} FoldNames(log: seq<Event>, id: string)
    requires id in Fold(log).tickets
    ensures Fold(log).tickets[id].origin.id == id
  {
    var n := |log| - 1;
    ApplyIsLocal(Fold(log[..n]), log[n]);
    if id in Fold(log[..n]).tickets {
      FoldNames(log[..n], id);
      assert TicketBecomes(Fold(log[..n]).tickets[id], log[n], id, Fold(log).tickets[id]);
    }
  }
}
