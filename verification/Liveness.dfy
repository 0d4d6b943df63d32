/** When a pass appends nothing and launches nothing, is the run over? What Run
    concludes after such a pass (internal/orchestrator/orchestrator.go). */
module Liveness {
  import opened Replay
  import opened Digraph
  import opened TaskGraph
  import opened Plans

  // --- The waiting graph -------------------------------------------------------------------------

  /** A ticket waits on its dependencies, and a decomposed one on its children. */
  function WaitsOn(t: Ticket): seq<string> {
    t.origin.dependsOn + if t.status == Decomposed then t.children else []
  }

  function Waiting(s: State): Graph {
    map id | id in s.tickets :: WaitsOn(s.tickets[id])
  }

  /** Nothing waits on a ticket that is not on the log. */
  ghost predicate Closed(s: State) {
    forall id, d :: id in s.tickets && d in WaitsOn(s.tickets[id]) ==> d in s.tickets
  }

  // --- A quiet pass ------------------------------------------------------------------------------

  /** Every step of a pass over s finds nothing to do, with no worker live and no
      budget set. */
  ghost predicate Quiet(opt: Options, s: State, now: int) {
    && (forall g :: g in s.goals ==> StartGoal(s, g) == [])
    && forall id :: id in s.tickets ==> QuietOn(opt, s, id, now)
  }

  ghost predicate QuietOn(opt: Options, s: State, id: string, now: int)
    requires id in s.tickets
  {
    && Cancel({})(s, id) == [] && Promote(s, id) == [] && !Dispatchable(opt, s, id, {}, now)
    && !IsProposed(s, s.tickets[id]) && FailBlocked(s, id) == []
  }

  /** No attempt is live: no ticket is claimed or running. */
  ghost predicate NoneLive(s: State) {
    forall id :: id in s.tickets ==>
      s.tickets[id].activeWorkers == [] && s.tickets[id].status != Claimed && s.tickets[id].status != Running
  }

  predicate HasStatus(s: State, id: string, status: Status) {
    id in s.tickets && s.tickets[id].status == status
  }

  ghost predicate AnyTicket(s: State, status: Status) {
    exists id :: HasStatus(s, id, status)
  }

  /** What a quiet pass leaves unsettled: a parked ticket, a retry serving its
      backoff, or a pending ticket with a dependency neither complete nor dead. */
  lemma QuietLeaves(opt: Options, s: State, now: int, id: string)
    requires Quiet(opt, s, now) && NoneLive(s) && id in s.tickets && !s.tickets[id].status.IsTerminal()
    ensures var t := s.tickets[id];
            || t.status == Awaiting
            || (t.status == Ready && BackingOff(opt, t, now))
            || (t.status == Pending && exists d :: d in t.origin.dependsOn && !Complete(s, d) && !Dead(s, d))
  {
    var t := s.tickets[id];
    assert QuietOn(opt, s, id, now);
    assert !Doomed(s, id);
    if t.status == Pending {
      assert !DepsSatisfied(s, t) && !HasDeadDependency(s, t);
      var d :| d in t.origin.dependsOn && !Complete(s, d);
    }
  }

  /** Neither complete nor dead, with nothing parked or backing off: then something
      it waits on is in the same state. */
  ghost predicate Hangs(s: State, id: string) {
    id in s.tickets && !Complete(s, id) && !Dead(s, id)
  }

  lemma HangsOnAnother(opt: Options, s: State, now: int, id: string)
    requires Quiet(opt, s, now) && NoneLive(s) && Closed(s) && Hangs(s, id)
    requires !AnyTicket(s, Awaiting) && !AnyTicket(s, Ready)
    ensures exists d :: Hangs(s, d) && Edge(Waiting(s), id, d)
  {
    var t := s.tickets[id];
    if t.status.IsTerminal() {
      var c :| c in t.children && !Complete(s, c);
      assert c in WaitsOn(t);
      assert Hangs(s, c) && Edge(Waiting(s), id, c);
    } else {
      QuietLeaves(opt, s, now, id);
      assert !HasStatus(s, id, Awaiting) && !HasStatus(s, id, Ready);
      var d :| d in t.origin.dependsOn && !Complete(s, d) && !Dead(s, d);
      assert d in WaitsOn(t);
      assert Hangs(s, d) && Edge(Waiting(s), id, d);
    }
  }

  /** A pending ticket left by a quiet pass, with nothing serving a backoff, is behind a
      parked ticket, or something waits on an id that is not on the log, as after a
      decomposition cut short, or tickets wait on one another in a circle. */
  lemma PendingIsBehindSomething(opt: Options, s: State, now: int)
    requires Quiet(opt, s, now) && NoneLive(s) && AnyTicket(s, Pending) && !AnyTicket(s, Ready)
    ensures AnyTicket(s, Awaiting) || !Closed(s) || Cyclic(Waiting(s))
  {
    if !AnyTicket(s, Awaiting) && Closed(s) {
      var id :| HasStatus(s, id, Pending);
      var hanging := set x | x in s.tickets && Hangs(s, x);
      forall x | x in hanging ensures HasNext(Waiting(s), hanging, x) {
        HangsOnAnother(opt, s, now, x);
        var d :| Hangs(s, d) && Edge(Waiting(s), x, d);
      }
      assert Hangs(s, id);
      EndlessIsCyclic(Waiting(s), hanging, [id]);
    }
  }

  // --- What Run concludes ------------------------------------------------------------------------

  datatype Verdict = Done | NextPass | WaitForWorkers | PausedForApproval | PausedForBudget | WaitForBackoff | Stuck

  /** Only parked tickets are left. */
  predicate OnlyParked(s: State) {
    && (exists id :: id in s.tickets && HasStatus(s, id, Awaiting))
    && forall id :: id in s.tickets ==> s.tickets[id].status.IsTerminal() || s.tickets[id].status == Awaiting
  }

  /** Backoff is all that holds the ready tickets back. */
  predicate BackoffBlocks(opt: Options, s: State, now: int) {
    && opt.retryBackoff > 0
    && (exists id :: id in s.tickets && Startable(s, s.tickets[id]) && s.tickets[id].activeWorkers == [])
    && forall id :: id in s.tickets && Startable(s, s.tickets[id]) && s.tickets[id].activeWorkers == [] ==>
         BackingOff(opt, s.tickets[id], now)
  }

  function AfterPass(opt: Options, s: State, before: int, inFlight: bool, budgetPaused: bool, now: int): Verdict {
    if Settled(s) && AllGoalsDecomposed(s) then Done
    else if s.lastSeq != before then NextPass
    else if inFlight || exists id :: id in s.tickets && s.tickets[id].activeWorkers != [] then WaitForWorkers
    else if OnlyParked(s) then PausedForApproval
    else if budgetPaused then PausedForBudget
    else if BackoffBlocks(opt, s, now) then WaitForBackoff
    else Stuck
  }

  /** A retry whose backoff ran out after the pass looked at it and before Run did. */
  predicate BackoffRanOut(opt: Options, s: State, id: string, later: int) {
    HasStatus(s, id, Ready) && !BackingOff(opt, s.tickets[id], later)
  }

  /** What is unsettled after a quiet pass. */
  ghost predicate Leftover(opt: Options, s: State, now: int) {
    && AllGoalsDecomposed(s)
    && forall id :: id in s.tickets ==> s.tickets[id].activeWorkers == [] && LeftTicket(opt, s, s.tickets[id], now)
  }

  ghost predicate LeftTicket(opt: Options, s: State, t: Ticket, now: int) {
    || t.status.IsTerminal() || t.status == Awaiting || t.status == Pending
    || (t.status == Ready && BackingOff(opt, t, now) && Startable(s, t))
  }

  lemma QuietLeavesOnly(opt: Options, s: State, now: int)
    requires Quiet(opt, s, now) && NoneLive(s)
    ensures Leftover(opt, s, now)
  {
    forall id | id in s.tickets ensures LeftTicket(opt, s, s.tickets[id], now) {
      if !s.tickets[id].status.IsTerminal() {
        QuietLeaves(opt, s, now, id);
        assert QuietOn(opt, s, id, now);
        assert !Doomed(s, id);
      }
    }
    forall g | g in s.goals && !s.goals[g].cancelled ensures GoalHasTickets(s, g) { assert StartGoal(s, g) == []; }
  }

  lemma LeftoverIsStuck(opt: Options, s: State, now: int, later: int)
    requires Leftover(opt, s, now)
    ensures AfterPass(opt, s, s.lastSeq, false, false, later) == Stuck <==>
              (AnyTicket(s, Pending) && !AnyTicket(s, Ready)) || exists id :: BackoffRanOut(opt, s, id, later)
  {
    if r :| HasStatus(s, r, Ready) {
      assert LeftTicket(opt, s, s.tickets[r], now);
      assert !Settled(s) && !OnlyParked(s);
      if id :| BackoffRanOut(opt, s, id, later) {
        assert LeftTicket(opt, s, s.tickets[id], now);
        assert !BackoffBlocks(opt, s, later);
      } else {
        forall id | id in s.tickets && Startable(s, s.tickets[id]) ensures BackingOff(opt, s.tickets[id], later) {
          assert LeftTicket(opt, s, s.tickets[id], now);
          assert HasStatus(s, id, Ready) && !BackoffRanOut(opt, s, id, later);
        }
        assert BackoffBlocks(opt, s, later);
      }
    } else {
      forall id | id in s.tickets ensures !Startable(s, s.tickets[id]) {
        assert LeftTicket(opt, s, s.tickets[id], now) && !HasStatus(s, id, Ready);
      }
      assert !BackoffBlocks(opt, s, later);
      NoneReady(opt, s, now);
    }
  }

  lemma NoneReady(opt: Options, s: State, now: int)
    requires Leftover(opt, s, now) && !AnyTicket(s, Ready)
    ensures AnyTicket(s, Pending) ==> !Settled(s) && !OnlyParked(s)
    ensures !AnyTicket(s, Pending) ==> Settled(s) || OnlyParked(s)
  {
    if AnyTicket(s, Pending) {
      var p :| HasStatus(s, p, Pending);
    } else {
      forall id | id in s.tickets ensures s.tickets[id].status.IsTerminal() || HasStatus(s, id, Awaiting) {
        assert LeftTicket(opt, s, s.tickets[id], now) && !HasStatus(s, id, Ready) && !HasStatus(s, id, Pending);
      }
    }
  }

  /** Run's "made no progress" error, exactly. After a quiet pass it is reported in two
      cases only: a ticket is left pending with none ready, so not all that is left is
      parked; or a backoff runs out between the pass and the check that would have
      waited for it. */
  lemma StuckExactly(opt: Options, s: State, now: int, later: int)
    requires Quiet(opt, s, now) && NoneLive(s)
    ensures AfterPass(opt, s, s.lastSeq, false, false, later) == Stuck <==>
              (AnyTicket(s, Pending) && !AnyTicket(s, Ready)) || exists id :: BackoffRanOut(opt, s, id, later)
  {
    QuietLeavesOnly(opt, s, now);
    LeftoverIsStuck(opt, s, now, later);
  }

  /** With the approval gate never used and no backoff, a pass that does nothing is
      the last: the error is out of reach. */
  lemma QuietIsFinished(opt: Options, s: State, now: int, later: int)
    requires Quiet(opt, s, now) && NoneLive(s) && Closed(s) && !Cyclic(Waiting(s))
    requires opt.retryBackoff == 0 && !AnyTicket(s, Awaiting)
    ensures AfterPass(opt, s, s.lastSeq, false, false, later) == Done
  {
    QuietLeavesOnly(opt, s, now);
    forall id | id in s.tickets ensures !HasStatus(s, id, Ready) {
      assert LeftTicket(opt, s, s.tickets[id], now);
    }
    if AnyTicket(s, Pending) { PendingIsBehindSomething(opt, s, now); }
    forall id | id in s.tickets ensures s.tickets[id].status.IsTerminal() {
      assert LeftTicket(opt, s, s.tickets[id], now);
      assert !HasStatus(s, id, Ready) && !HasStatus(s, id, Awaiting) && !HasStatus(s, id, Pending);
    }
  }
}
