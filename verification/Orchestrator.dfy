/** One reconcile pass as the program runs it (ReconcileOnce and the in-flight map of
    internal/orchestrator/orchestrator.go), with nothing else appending meanwhile. */
module Orchestrator {
  import opened Events
  import opened Replay
  import opened TaskGraph
  import opened Plans
  import opened Liveness
  import opened Forward
  import opened Sequences
  import Usage

  // --- Appending ---------------------------------------------------------------------------------

  ghost function Stamped(from: nat, bodies: seq<Body>, now: int): seq<Event> {
    seq(|bodies|, i requires 0 <= i < |bodies| => Event(from + i + 1, now, "orchestrator", bodies[i]))
  }

  /** The log has these appends more. */
  ghost predicate Wrote(before: seq<Event>, after: seq<Event>, bodies: seq<Body>, now: int) {
    after == before + Stamped(|before|, bodies, now)
  }

  lemma WroteMore(a: seq<Event>, b: seq<Event>, c: seq<Event>, x: seq<Body>, y: seq<Body>, now: int)
    requires Wrote(a, b, x, now) && Wrote(b, c, y, now)
    ensures Wrote(a, c, x + y, now)
  {
    assert Stamped(|a|, x + y, now) == Stamped(|a|, x, now) + Stamped(|b|, y, now);
  }

  lemma Unwritten(a: seq<Event>, b: seq<Event>, bodies: seq<Body>, now: int)
    requires Wrote(a, b, bodies, now)
    ensures a <= b && (a == b <==> bodies == [])
  {
  }

  lemma SweepTo(s: State, order: seq<string>, act: (State, string) -> seq<Body>, i: nat)
    requires i < |order|
    ensures Sweep(s, order[..i + 1], act) == Sweep(s, order[..i], act) + act(s, order[i])
  {
    assert order[..i + 1][..i] == order[..i];
  }

  function Count(m: map<string, nat>, id: string): nat { if id in m then m[id] else 0 }

  /** Attempts in progress: per ticket, the larger of what the log and the in-flight map say. */
  function Active(order: seq<string>, s: State, dispatching: map<string, nat>): nat {
    if order == [] then 0 else
    var id := order[|order| - 1];
    var logged := if id in s.tickets then |s.tickets[id].activeWorkers| else 0;
    Active(order[..|order| - 1], s, dispatching) + if logged > Count(dispatching, id) then logged
        else Count(dispatching, id)
  }

  /** On the log, and not ended. */
  predicate Unended(s: State, id: string) { id in s.tickets && !s.tickets[id].status.IsTerminal() }

  lemma InOrderProposed(s: State, order: seq<string>)
    ensures forall t :: t in InOrder(s, order, IsProposed) ==> t.status == Proposed
  {
    forall t | t in InOrder(s, order, IsProposed) ensures t.status == Proposed {
      InOrderIsExact(s, order, IsProposed, t);
    }
  }

  /** What each step does about one ticket. */
  method FailIfDoomed(s: State, inFlight: set<string>, id: string) returns (bodies: seq<Body>)
    ensures bodies == Cancel(inFlight)(s, id) && forall b :: b in bodies ==> b.TicketFailed?
  {
    bodies := if Doomed(s, id) && id !in inFlight then [Plans.Fails(s.tickets[id], "goal cancelled")] else [];
  }

  method PromoteIfDone(s: State, id: string) returns (bodies: seq<Body>)
    requires PromotionReturns(s) && id in s.ticketOrder
    ensures bodies == Promote(s, id) && forall b :: b in bodies ==> b.TicketReady?
  {
    bodies := [];
    if id in s.tickets && s.tickets[id].status == Pending {
      assert DepsReturn(s, AskComplete, id);
      var done := DepsAreDone(s, s.tickets[id]);
      if done && !Withdrawn(s, s.tickets[id]) { bodies := [TicketReady(id)]; }
    }
  }

  method FailIfBlocked(s: State, id: string) returns (bodies: seq<Body>)
    requires BlockingReturns(s) && id in s.ticketOrder
    ensures bodies == FailBlocked(s, id) && forall b :: b in bodies ==> b.TicketFailed?
  {
    bodies := [];
    if id in s.tickets && !s.tickets[id].status.IsTerminal() {
      assert DepsReturn(s, AskDead, id);
      var dead := TaskGraph.DeadDependency(s, s.tickets[id]);
      if dead.Some? { bodies := [Plans.Fails(s.tickets[id], "dependency " + dead.value + " failed")]; }
    }
  }

  method RestartIfStalled(opt: Options, now: int, s: State, id: string) returns (bodies: seq<Body>)
    ensures bodies == Plans.Restart(opt, now)(s, id)
    ensures forall b :: b in bodies ==> b.WorkerStalled? || b.WorkerRestarted?
  {
    bodies := Plans.Restart(opt, now)(s, id);
  }

  class Scheduler {
    const opt: Options
    var log: seq<Event>
    var dispatching: map<string, nat>

    constructor (opt: Options, log: seq<Event>)
      ensures this.opt == opt && this.log == log && dispatching == map[]
    {
      this.opt, this.log, dispatching := opt, log, map[];
    }

    /** Adjusts the in-flight count of a ticket; a count of zero is forgotten. */
    method MarkDispatching(id: string, delta: int)
      modifies this`dispatching
      ensures Count(dispatching, id) == if Count(old(dispatching), id) + delta > 0
              then Count(old(dispatching), id) + delta else 0
      ensures forall x :: x != id ==> Count(dispatching, x) == Count(old(dispatching), x)
      ensures (forall x :: x in old(dispatching) ==> old(dispatching)[x] > 0) ==> forall x :: x in dispatching ==>
              dispatching[x] > 0
    {
      var n := Count(dispatching, id) + delta;
      dispatching := if n <= 0 then dispatching - {id} else dispatching[id := n];
    }

    method ActiveAttempts(s: State) returns (n: nat)
      ensures n == Active(s.ticketOrder, s, dispatching)
    {
      n := 0;
      for i := 0 to |s.ticketOrder|
        invariant n == Active(s.ticketOrder[..i], s, dispatching)
      {
        assert s.ticketOrder[..i + 1][..i] == s.ticketOrder[..i];
        var id := s.ticketOrder[i];
        var logged := if id in s.tickets then |s.tickets[id].activeWorkers| else 0;
        n := n + if logged > Count(dispatching, id) then logged else Count(dispatching, id);
      }
      assert s.ticketOrder[..|s.ticketOrder|] == s.ticketOrder;
    }

    method LoadState() returns (s: State)
      ensures s == Fold(log)
    {
      s := EMPTY;
      for i := 0 to |log|
        invariant s == Fold(log[..i])
      {
        assert log[..i + 1][..i] == log[..i];
        s := Apply(s, log[i]);
      }
      assert log[..|log|] == log;
    }

    method Emit(now: int, b: Body)
      modifies this`log
      ensures Wrote(old(log), log, [b], now)
    {
      var e := Event(|log| + 1, now, "orchestrator", b);
      log := log + [e];
      assert Stamped(|old(log)|, [b], now) == [e];
    }

    method EmitAll(now: int, bodies: seq<Body>)
      modifies this`log
      ensures Wrote(old(log), log, bodies, now)
    {
      assert Stamped(|log|, [], now) == [];
      for i := 0 to |bodies|
        invariant Wrote(old(log), log, bodies[..i], now)
      {
        ghost var before := log;
        Emit(now, bodies[i]);
        WroteMore(old(log), before, log, bodies[..i], [bodies[i]], now);
        assert bodies[..i] + [bodies[i]] == bodies[..i + 1];
      }
      assert bodies[..|bodies|] == bodies;
    }

    /** 1. A first ticket for every Goal that has none and is not cancelled. */
    method StartGoals(now: int) returns (ghost order: seq<string>)
      modifies this`log
      ensures forall g :: g in order <==> g in Fold(old(log)).goals
      ensures Wrote(old(log), log, Sweep(Fold(old(log)), order, StartGoal), now)
    {
      var s := LoadState();
      var rest := s.goals.Keys;
      order := [];
      assert Stamped(|log|, [], now) == [];
      while rest != {}
        invariant rest <= s.goals.Keys && forall g :: g in order <==> g in s.goals && g !in rest
        invariant Wrote(old(log), log, Sweep(s, order, StartGoal), now)
        decreases rest
      {
        var g :| g in rest;
        ghost var before := log;
        EmitAll(now, StartGoal(s, g));
        assert (order + [g])[..|order|] == order;
        WroteMore(old(log), before, log, Sweep(s, order, StartGoal), StartGoal(s, g), now);
        rest, order := rest - {g}, order + [g];
      }
    }

    /** 1b. Work of cancelled Goals that is not in flight fails. */
    method EnforceCancellations(now: int)
      modifies this`log
      ensures Wrote(old(log), log, Sweep(Fold(old(log)), Fold(old(log)).ticketOrder, Cancel(dispatching.Keys)), now)
    {
      var s := LoadState();
      ghost var act := Cancel(dispatching.Keys);
      assert Stamped(|log|, [], now) == [];
      for i := 0 to |s.ticketOrder|
        invariant Wrote(old(log), log, Sweep(s, s.ticketOrder[..i], act), now)
      {
        ghost var before := log;
        var bodies := FailIfDoomed(s, dispatching.Keys, s.ticketOrder[i]);
        ghost var done := Sweep(s, s.ticketOrder[..i], act);
        EmitAll(now, bodies);
        WroteMore(old(log), before, log, done, bodies, now);
        SweepTo(s, s.ticketOrder, act, i);
      }
      assert s.ticketOrder[..|s.ticketOrder|] == s.ticketOrder;
    }

    /** 2. Tickets whose dependencies are complete become ready. */
    method PromoteReady(now: int)
      requires PromotionReturns(Fold(log))
      modifies this`log
      ensures Wrote(old(log), log, Sweep(Fold(old(log)), Fold(old(log)).ticketOrder, Promote), now)
    {
      var s := LoadState();
      ghost var act := Promote;
      assert Stamped(|log|, [], now) == [];
      for i := 0 to |s.ticketOrder|
        invariant Wrote(old(log), log, Sweep(s, s.ticketOrder[..i], act), now)
      {
        ghost var before := log;
        var bodies := PromoteIfDone(s, s.ticketOrder[i]);
        ghost var done := Sweep(s, s.ticketOrder[..i], act);
        EmitAll(now, bodies);
        WroteMore(old(log), before, log, done, bodies, now);
        SweepTo(s, s.ticketOrder, act, i);
      }
      assert s.ticketOrder[..|s.ticketOrder|] == s.ticketOrder;
    }

    method ReadyIds(s: State, now: int) returns (ready: seq<string>)
      ensures Distinct(s.ticketOrder) ==> Distinct(ready)
      ensures forall id :: id in ready <==> id in s.ticketOrder && Dispatchable(opt, s, id, dispatching.Keys, now)
    {
      ready := [];
      for i := 0 to |s.ticketOrder|
        invariant forall id :: id in ready <==>
          (id in s.ticketOrder[..i] && Dispatchable(opt, s, id, dispatching.Keys, now))
        invariant Distinct(s.ticketOrder) ==> Distinct(ready)
      {
        assert Distinct(s.ticketOrder) ==> s.ticketOrder[i] !in s.ticketOrder[..i];
        if Dispatchable(opt, s, s.ticketOrder[i], dispatching.Keys, now) { ready := ready + [s.ticketOrder[i]]; }
      }
      assert s.ticketOrder[..|s.ticketOrder|] == s.ticketOrder;
    }

    /** 3. Launches into the free slots. */
    method DispatchReady(now: int) returns (launched: seq<string>)
      modifies this`dispatching
      ensures forall x :: Count(dispatching, x) == Count(old(dispatching), x) + if x in launched then 1 else 0
      ensures var s := Fold(log);
              var slots := opt.concurrency - Active(s.ticketOrder, s, old(dispatching));
              && |launched| <= (if slots > 0 then slots else 0)
              && (forall id :: id in launched ==> Dispatchable(opt, s, id, old(dispatching).Keys, now))
              && (launched == [] ==> slots <= 0 || forall id :: id in s.ticketOrder ==>
                  !Dispatchable(opt, s, id, old(dispatching).Keys, now))
    {
      var s := LoadState();
      var active := ActiveAttempts(s);
      var slots := opt.concurrency - active;
      var ready := ReadyIds(s, now);
      launched := if slots <= 0 then [] else if slots < |ready| then ready[..slots] else ready;
      assert launched == [] && slots > 0 ==> forall id :: id in s.ticketOrder ==> id !in ready;
      Usage.TotalIsTicketSum(log, Usage.Tokens);
      LaunchAll(launched);
    }

    method LaunchAll(launched: seq<string>)
      requires Distinct(launched)
      modifies this`dispatching
      ensures forall x :: Count(dispatching, x) == Count(old(dispatching), x) + if x in launched then 1 else 0
    {
      for i := 0 to |launched|
        invariant forall x :: Count(dispatching, x) == Count(old(dispatching), x) + if x in launched[..i] then 1 else 0
      {
        assert launched[i] !in launched[..i];
        MarkDispatching(launched[i], 1);
      }
      assert launched[..|launched|] == launched;
    }

    /** What the queue appends for one proposal, its Goal read afresh. */
    method ProcessProposal(now: int, t: Ticket, r: Ruling)
      modifies this`log
      ensures Wrote(old(log), log, Handled(opt, Fold(old(log)), t, r), now)
    {
      var s := LoadState();
      var bodies := Handled(opt, s, t, r);
      EmitAll(now, bodies);
    }

    /** 4. The proposals waiting, one at a time; `rule` is what the queue reports of each. */
    method Drain(now: int, rule: Ticket -> Ruling)
      modifies this`log
      ensures old(log) <= log && Onwards(Fold(old(log)), Fold(log))
      ensures (log == old(log) <==> InOrder(Fold(old(log)), Fold(old(log)).ticketOrder, IsProposed) == [])
    {
      var s := LoadState();
      var proposed: seq<Ticket> := [];
      for i := 0 to |s.ticketOrder|
        invariant proposed == InOrder(s, s.ticketOrder[..i], IsProposed)
      {
        assert s.ticketOrder[..i + 1][..i] == s.ticketOrder[..i];
        var id := s.ticketOrder[i];
        if id in s.tickets && IsProposed(s, s.tickets[id]) { proposed := proposed + [s.tickets[id]]; }
      }
      assert s.ticketOrder[..|s.ticketOrder|] == s.ticketOrder;
      Usage.TotalIsTicketSum(log, Usage.Tokens);
      forall id | id in s.tickets ensures s.tickets[id].origin.id == id { FoldNames(log, id); }
      ProposedOnce(s, s.ticketOrder);
      InOrderProposed(s, s.ticketOrder);
      ProcessAll(now, proposed, rule);
    }

    method ProcessAll(now: int, proposed: seq<Ticket>, rule: Ticket -> Ruling)
      requires forall i, j :: 0 <= i < j < |proposed| ==> proposed[i].origin.id != proposed[j].origin.id
      requires forall i :: 0 <= i < |proposed| ==> Unended(Fold(log), proposed[i].origin.id)
      modifies this`log
      ensures old(log) <= log && |log| >= |old(log)| + |proposed| && (proposed == [] ==> log == old(log))
      ensures Onwards(Fold(old(log)), Fold(log))
    {
      for i := 0 to |proposed|
        invariant old(log) <= log && |log| >= |old(log)| + i && (i == 0 ==> log == old(log))
        invariant Onwards(Fold(old(log)), Fold(log))
        invariant forall j :: i <= j < |proposed| ==> Unended(Fold(log), proposed[j].origin.id)
      {
        ghost var before := log;
        ProcessProposal(now, proposed[i], rule(proposed[i]));
        HandledOnwards(opt, before, log, proposed[i], rule(proposed[i]), now);
        OnwardsTwice(Fold(old(log)), Fold(before), Fold(log));
      }
    }

    /** 5. Tickets behind dead work fail. */
    method FailBlockedTickets(now: int)
      requires BlockingReturns(Fold(log))
      modifies this`log
      ensures Wrote(old(log), log, Sweep(Fold(old(log)), Fold(old(log)).ticketOrder, FailBlocked), now)
    {
      var s := LoadState();
      ghost var act := FailBlocked;
      assert Stamped(|log|, [], now) == [];
      for i := 0 to |s.ticketOrder|
        invariant Wrote(old(log), log, Sweep(s, s.ticketOrder[..i], act), now)
      {
        ghost var before := log;
        var bodies := FailIfBlocked(s, s.ticketOrder[i]);
        ghost var done := Sweep(s, s.ticketOrder[..i], act);
        EmitAll(now, bodies);
        WroteMore(old(log), before, log, done, bodies, now);
        SweepTo(s, s.ticketOrder, act, i);
      }
      assert s.ticketOrder[..|s.ticketOrder|] == s.ticketOrder;
    }

    /** 6. Lost workers are restarted. */
    method RestartStalled(now: int)
      modifies this`log
      ensures Wrote(old(log), log, Sweep(Fold(old(log)), Fold(old(log)).ticketOrder, Plans.Restart(opt, now)), now)
    {
      var s := LoadState();
      ghost var act := Plans.Restart(opt, now);
      assert Stamped(|log|, [], now) == [];
      for i := 0 to |s.ticketOrder|
        invariant Wrote(old(log), log, Sweep(s, s.ticketOrder[..i], act), now)
      {
        ghost var before := log;
        var bodies := RestartIfStalled(opt, now, s, s.ticketOrder[i]);
        ghost var done := Sweep(s, s.ticketOrder[..i], act);
        EmitAll(now, bodies);
        WroteMore(old(log), before, log, done, bodies, now);
        SweepTo(s, s.ticketOrder, act, i);
      }
      assert s.ticketOrder[..|s.ticketOrder|] == s.ticketOrder;
    }

    /** One full pass, with no budget and no pull requests. A pass over a log with no
        attempt live that appends nothing and launches nothing has found nothing to
        do: what is then unsettled is what Liveness says. */
    method ReconcileOnce(now: int, rule: Ticket -> Ruling) returns (launched: seq<string>)
      requires opt.concurrency > 0 && PassReturns(Fold(log))
      modifies this
      ensures old(log) <= log
      ensures log == old(log) && launched == [] && old(dispatching) == map[] && NoneLive(Fold(log)) ==>
                Quiet(opt, Fold(log), now)
    {
      ghost var l0 := log;
      ghost var s := Fold(l0);
      Usage.TotalIsTicketSum(l0, Usage.Tokens);
      ghost var goals := StartAndCancel(now);
      ghost var l1 := log;
      PromotionOnwards(s, Fold(l1));
      launched := PromoteAndDispatch(now);
      ghost var l2 := log;
      OnwardsTwice(s, Fold(l1), Fold(l2));
      BlockingOnwards(s, Fold(l2));
      DrainAndFail(now, rule);
      if log == l0 && launched == [] && old(dispatching) == map[] && NoneLive(s) {
        assert l1 == l0 && l2 == l0;
        PassIsQuiet(opt, s, goals, old(dispatching), now);
      }
    }

    method StartAndCancel(now: int) returns (ghost goals: seq<string>)
      modifies this`log
      ensures old(log) <= log && Calmly(Fold(old(log)), Fold(log))
      ensures log == old(log) ==>
                var s := Fold(old(log));
                && (forall g :: g in goals <==> g in s.goals)
                && Sweep(s, goals, StartGoal) == [] && Sweep(s, s.ticketOrder, Cancel(dispatching.Keys)) == []
    {
      ghost var l0, s := log, Fold(log);
      goals := StartGoals(now);
      ghost var l1 := log;
      StartsCalmly(l0, l1, goals, now);
      EnforceCancellations(now);
      CancelsCalmly(l1, log, dispatching.Keys, now);
      OnwardsTwice(s, Fold(l1), Fold(log));
    }

    method PromoteAndDispatch(now: int) returns (launched: seq<string>)
      requires PromotionReturns(Fold(log))
      modifies this
      ensures old(log) <= log && Calmly(Fold(old(log)), Fold(log))
      ensures log == old(log) && launched == [] ==>
                var s := Fold(old(log));
                && Sweep(s, s.ticketOrder, Promote) == []
                && (opt.concurrency <= Active(s.ticketOrder, s, old(dispatching)) ||
                    forall id :: id in s.ticketOrder ==> !Dispatchable(opt, s, id, old(dispatching).Keys, now))
    {
      ghost var l0, s := log, Fold(log);
      PromoteReady(now);
      SweptOnwards(l0, log, s.ticketOrder, Promote, now);
      launched := DispatchReady(now);
    }

    method DrainAndFail(now: int, rule: Ticket -> Ruling)
      requires BlockingReturns(Fold(log))
      modifies this`log
      ensures old(log) <= log
      ensures log == old(log) ==>
                var s := Fold(old(log));
                InOrder(s, s.ticketOrder, IsProposed) == [] && Sweep(s, s.ticketOrder, FailBlocked) == []
    {
      Usage.TotalIsTicketSum(log, Usage.Tokens);
      Drain(now, rule);
      ghost var l1 := log;
      BlockingOnwards(Fold(old(log)), Fold(l1));
      FailBlockedTickets(now);
      Unwritten(l1, log, Sweep(Fold(l1), Fold(l1).ticketOrder, FailBlocked), now);
      ghost var l2 := log;
      RestartStalled(now);
      Unwritten(l2, log, Sweep(Fold(l2), Fold(l2).ticketOrder, Plans.Restart(opt, now)), now);
    }
  }

  lemma {:induction false} NoneActive(order: seq<string>, s: State)
    requires NoneLive(s)
    ensures Active(order, s, map[]) == 0
  {
    if order != [] { NoneActive(order[..|order| - 1], s); }
  }

  lemma NothingSwept(s: State, order: seq<string>, act: (State, string) -> seq<Body>, id: string)
    requires Sweep(s, order, act) == [] && id in order
    ensures act(s, id) == []
  {
    if act(s, id) != [] { SweepIsExact(s, order, act, act(s, id)[0]); }
  }

  /** Every step found nothing. */
  lemma PassIsQuiet(opt: Options, s: State, goals: seq<string>, dispatching: map<string, nat>, now: int)
    requires Listed(s) && NoneLive(s) && opt.concurrency > 0 && dispatching == map[]
    requires forall g :: g in goals <==> g in s.goals
    requires Sweep(s, goals, StartGoal) == [] && Sweep(s, s.ticketOrder, Cancel(dispatching.Keys)) == []
    requires Sweep(s, s.ticketOrder, Promote) == [] && Sweep(s, s.ticketOrder, FailBlocked) == []
    requires InOrder(s, s.ticketOrder, IsProposed) == []
    requires opt.concurrency <= Active(s.ticketOrder, s, dispatching) ||
             forall id :: id in s.ticketOrder ==> !Dispatchable(opt, s, id, dispatching.Keys, now)
    ensures Quiet(opt, s, now)
  {
    assert dispatching.Keys == {};
    NoneActive(s.ticketOrder, s);
    forall g | g in s.goals ensures StartGoal(s, g) == [] { NothingSwept(s, goals, StartGoal, g); }
    forall id | id in s.tickets ensures QuietOn(opt, s, id, now) {
      NothingSwept(s, s.ticketOrder, Cancel({}), id);
      NothingSwept(s, s.ticketOrder, Promote, id);
      NothingSwept(s, s.ticketOrder, FailBlocked, id);
      InOrderIsExact(s, s.ticketOrder, IsProposed, s.tickets[id]);
    }
  }

  /** A withdrawn Goal's proposal fails; any other's verdict is recorded. */
  function Handled(opt: Options, s: State, t: Ticket, r: Ruling): (bodies: seq<Body>)
    ensures bodies != [] && MergesFirst(bodies) && forall b :: b in bodies ==> About(b, t.origin.id)
  {
    if Withdrawn(s, t) then [Plans.Fails(t, "goal cancelled")] else Record(opt, t, r)
  }

  predicate About(b: Body, id: string) {
    Harmless(b) && NamesTicket(b) && !b.TicketCreated? && b.ticketId == id
  }

  /** Handling a proposal moves its own ticket only, and no call any further. */
  lemma HandledOnwards(opt: Options, log: seq<Event>, log': seq<Event>, t: Ticket, r: Ruling, now: int)
    requires Wrote(log, log', Handled(opt, Fold(log), t, r), now)
    requires t.origin.id in Fold(log).tickets && !Fold(log).tickets[t.origin.id].status.IsTerminal()
    ensures Onwards(Fold(log), Fold(log'))
    ensures forall id :: id in Fold(log).tickets && id != t.origin.id ==>
              id in Fold(log').tickets && Fold(log').tickets[id].status == Fold(log).tickets[id].status
  {
    var bodies := Handled(opt, Fold(log), t, r);
    var more := Stamped(|log|, bodies, now);
    forall e | e in more ensures About(e.body, t.origin.id) {
      var i :| 0 <= i < |more| && more[i] == e;
      assert bodies[i] in bodies;
    }
    forall id | id in Fold(log).tickets && id != t.origin.id
      ensures id in Fold(log').tickets && Fold(log').tickets[id].status == Fold(log).tickets[id].status
    {
      StatusKept(log, more, id);
    }
    assert seq(|more|, i requires 0 <= i < |more| => more[i].body) == bodies;
    VerdictOnwards(log, more, t.origin.id);
  }

  /** A merge, if there is one, comes right after its pass, and nothing else is a merge. */
  predicate MergesFirst(bodies: seq<Body>) {
    if |bodies| > 1 && bodies[1].Merged?
    then bodies[0].VerificationPassed? && forall b :: b in bodies[2..] ==> !b.Merged?
    else forall b :: b in bodies ==> !b.Merged?
  }

  lemma VerdictOnwards(log: seq<Event>, more: seq<Event>, id: string)
    requires MergesFirst(seq(|more|, i requires 0 <= i < |more| => more[i].body))
    requires (forall e :: e in more ==> About(e.body, id)) && Unended(Fold(log), id)
    ensures Onwards(Fold(log), Fold(log + more))
  {
    var bodies := seq(|more|, i requires 0 <= i < |more| => more[i].body);
    if |more| > 1 && more[1].body.Merged? {
      assert more == [more[0], more[1]] + more[2..];
      assert log + more == log + [more[0], more[1]] + more[2..];
      forall e | e in more[2..] ensures Harmless(e.body) && !e.body.Merged? {
        var i :| 0 <= i < |more[2..]| && more[2..][i] == e;
        assert bodies[2..][i] == e.body;
      }
      MergeOnwards(log, more[0], more[1], more[2..]);
    } else {
      forall e | e in more ensures Harmless(e.body) && !e.body.Merged? {
        var i :| 0 <= i < |more| && more[i] == e;
        assert bodies[i] in bodies;
      }
      AppendsOnwards(log, more);
    }
  }

  /** Every call the later steps of a pass make returns. */
  ghost predicate PassReturns(s: State) { PromotionReturns(s) && BlockingReturns(s) }

  /** A step that merges nothing. */
  lemma WroteOnwards(log: seq<Event>, log': seq<Event>, bodies: seq<Body>, now: int)
    requires Wrote(log, log', bodies, now) && forall b :: b in bodies ==> Harmless(b) && !b.Merged?
    ensures Calmly(Fold(log), Fold(log'))
  {
    var more := Stamped(|log|, bodies, now);
    forall e | e in more ensures Harmless(e.body) && !e.body.Merged? {
      var i :| 0 <= i < |more| && more[i] == e;
      assert bodies[i] in bodies;
    }
    AppendsOnwards(log, more);
  }

  lemma SweptOnwards(log: seq<Event>, log': seq<Event>, order: seq<string>, act: (State, string) -> seq<Body>, now: int)
    requires Wrote(log, log', Sweep(Fold(log), order, act), now)
    requires forall id, b :: b in act(Fold(log), id) ==> Harmless(b) && !b.Merged?
    ensures Calmly(Fold(log), Fold(log')) && log <= log' && (log == log' <==> Sweep(Fold(log), order, act) == [])
  {
    forall b | b in Sweep(Fold(log), order, act) ensures Harmless(b) && !b.Merged? {
      SweepIsExact(Fold(log), order, act, b);
    }
    Unwritten(log, log', Sweep(Fold(log), order, act), now);
    WroteOnwards(log, log', Sweep(Fold(log), order, act), now);
  }

  lemma StartsCalmly(log: seq<Event>, log': seq<Event>, goals: seq<string>, now: int)
    requires Wrote(log, log', Sweep(Fold(log), goals, StartGoal), now)
    ensures Calmly(Fold(log), Fold(log')) && log <= log' && (log == log' <==> Sweep(Fold(log), goals, StartGoal) == [])
  {
    SweptOnwards(log, log', goals, StartGoal, now);
  }

  lemma CancelsCalmly(log: seq<Event>, log': seq<Event>, inFlight: set<string>, now: int)
    requires Wrote(log, log', Sweep(Fold(log), Fold(log).ticketOrder, Cancel(inFlight)), now)
    ensures Calmly(Fold(log), Fold(log')) && log <= log'
    ensures log == log' <==> Sweep(Fold(log), Fold(log).ticketOrder, Cancel(inFlight)) == []
  {
    var bodies := Sweep(Fold(log), Fold(log).ticketOrder, Cancel(inFlight));
    CancelIsHarmless(Fold(log), Fold(log).ticketOrder, inFlight);
    Unwritten(log, log', bodies, now);
    WroteOnwards(log, log', bodies, now);
  }

  lemma CancelIsHarmless(s: State, order: seq<string>, inFlight: set<string>)
    ensures forall b :: b in Sweep(s, order, Cancel(inFlight)) ==> Harmless(b) && !b.Merged?
  {
    var act := Cancel(inFlight);
    forall b | b in Sweep(s, order, act) ensures Harmless(b) && !b.Merged? {
      SweepIsExact(s, order, act, b);
    }
  }

  lemma {:induction false} ProposedOnce(s: State, order: seq<string>)
    requires (forall id :: id in s.tickets ==> s.tickets[id].origin.id == id) && Distinct(order)
    ensures var q := InOrder(s, order, IsProposed);
            && (forall t :: t in q ==> t.origin.id in order && t.origin.id in s.tickets && s.tickets[t.origin.id] == t)
            && forall i, j :: 0 <= i < j < |q| ==> q[i].origin.id != q[j].origin.id
  {
    if order != [] {
      var n := |order| - 1;
      ProposedOnce(s, order[..n]);
      assert order == order[..n] + [order[n]];
      assert order[n] !in order[..n];
    }
  }
}
