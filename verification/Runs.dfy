/** What every run of the Scheduler machine satisfies. */
module Runs {
  import opened Events
  import opened Replay
  import opened TaskGraph
  import opened Plans
  import opened History
  import opened Lifecycle
  import opened Scheduler
  import opened Safety
  import opened Checkers
  import Doors = FrontDoor

  // --- The state is what replaying the log gives -------------------------------------------------

  ghost predicate Replayed(sys: Sys) {
    sys.state == Fold(sys.log) && sys.marks == MarksOf(sys.log) && sys.lands == LandingsOf(sys.log) && Gapless(sys.log)
  }

  lemma AppendReplays(sys: Sys, ts: int, actor: string, b: Body)
    requires Replayed(sys)
    ensures Replayed(Append(sys, ts, actor, b))
  {
    var e := Event(|sys.log| + 1, ts, actor, b);
    var more := sys.log + [e];
    assert more[..|sys.log|] == sys.log;
    assert Append(sys, ts, actor, b).log == more;
  }

  /** Two systems with one log. */
  predicate SameLog(a: Sys, b: Sys) {
    a.log == b.log && a.state == b.state && a.marks == b.marks && a.lands == b.lands
  }

  /** A step changes the log by at most one append. */
  ghost predicate AppendsOnce(sys: Sys, sys': Sys) {
    SameLog(sys, sys') || exists ts, actor, b :: SameLog(Append(sys, ts, actor, b), sys')
  }

  lemma EndAppendsOnce(sys: Sys, ts: int, id: string, b: Body)
    ensures AppendsOnce(sys, EndJob(sys, ts, id, b))
  {
    assert SameLog(Append(sys, ts, "orchestrator", b), EndJob(sys, ts, id, b));
  }

  lemma CarryAppendsOnce(cfg: Config, sys: Sys, ts: int, id: string, deed: Worker)
    requires deed.Start? || deed.Beat? || deed.Retitle?
    ensures AppendsOnce(sys, WorkerDoes(cfg, sys, ts, id, deed))
  {
  }

  lemma PlanAppendsOnce(cfg: Config, sys: Sys, ts: int, id: string, deed: Worker)
    requires deed.Splits? || deed.AppendsPlan? || deed.Abandons?
    ensures AppendsOnce(sys, WorkerDoes(cfg, sys, ts, id, deed))
  {
  }

  lemma WorkAppendsOnce(cfg: Config, sys: Sys, ts: int, id: string, deed: Worker)
    ensures AppendsOnce(sys, WorkerDoes(cfg, sys, ts, id, deed))
  {
    var w := WorkerOf(id);
    if deed.Start? || deed.Beat? || deed.Retitle? {
      CarryAppendsOnce(cfg, sys, ts, id, deed);
    } else if deed.Splits? || deed.AppendsPlan? || deed.Abandons? {
      PlanAppendsOnce(cfg, sys, ts, id, deed);
    } else if deed.Invalidates? {
      EndAppendsOnce(sys, ts, id, TicketInvalidated(id, w, deed.reason));
    } else if deed.Proposes? {
      EndAppendsOnce(sys, ts, id,
                     ProposalSubmitted(id, w, deed.branch, deed.commit, deed.summary, deed.trace, deed.charge));
    } else {
      EndAppendsOnce(sys, ts, id, if deed.terminal then TicketFailed(id, w, deed.reason, deed.worktree, deed.charge)
                                  else WorkerRestarted(id, w, deed.reason, deed.charge));
    }
  }

  lemma EmitAppendsOnce(sys: Sys, ts: int)
    ensures AppendsOnce(sys, EmitNext(sys, ts))
  {
  }

  lemma ClearAppendsOnce(sys: Sys, ts: int)
    ensures AppendsOnce(sys, ClearNext(sys, ts))
  {
  }

  lemma JudgeAppendsOnce(cfg: Config, sys: Sys, ts: int, outcome: Outcome)
    ensures AppendsOnce(sys, JudgeHead(cfg, sys, ts, outcome))
  {
  }

  lemma ProceedAppendsOnce(cfg: Config, sys: Sys, ts: int)
    ensures AppendsOnce(sys, ProceedHead(cfg, sys, ts))
  {
    if AtHead(sys) && (sys.phase.stage.Kept? || sys.phase.stage.Parking?) {
      PassAppendsOneVerdict(cfg, sys, ts);
    }
  }

  lemma PassAppendsOneVerdict(cfg: Config, sys: Sys, ts: int)
    requires AtHead(sys) && (sys.phase.stage.Kept? || sys.phase.stage.Parking?)
    ensures AppendsOnce(sys, ProceedHead(cfg, sys, ts))
  {
    var b := VerificationPassed(sys.phase.queue[0].origin.id, sys.phase.queue[0].worker);
    assert SameLog(Append(sys, ts, "orchestrator", b), ProceedHead(cfg, sys, ts));
  }

  lemma PushAppendsOnce(sys: Sys, ts: int, url: Option<string>, reason: string)
    ensures AppendsOnce(sys, Push(sys, ts, url, reason))
  {
  }

  lemma DispatchAppendsOnce(cfg: Config, sys: Sys, ts: int, id: string, base: string, now: int)
    ensures AppendsOnce(sys, DispatchOne(cfg, sys, ts, id, base, now))
  {
  }

  lemma PassAppendsOnce(cfg: Config, sys: Sys, ts: int, move: Move)
    ensures AppendsOnce(sys, SchedulerDoes(cfg, sys, ts, move))
  {
    if IsDecision(move) {
    } else if move.Judges? {
      JudgeAppendsOnce(cfg, sys, ts, move.outcome);
    } else if move.Proceeds? {
      ProceedAppendsOnce(cfg, sys, ts);
    } else if move.Dispatches? {
      DispatchAppendsOnce(cfg, sys, ts, move.id, move.base, move.now);
    } else if move.Pushed? {
      PushAppendsOnce(sys, ts, Some(move.url), "");
    } else if move.PushFails? {
      PushAppendsOnce(sys, ts, None, move.reason);
    } else {
      QuietAppendsOnce(cfg, sys, ts, move);
    }
  }

  lemma QuietAppendsOnce(cfg: Config, sys: Sys, ts: int, move: Move)
    requires move.Drains? || move.Clears? || move.DeliversReady? || move.TriesDelivery? || move.Emits? || move.GivesUp?
    ensures AppendsOnce(sys, SchedulerDoes(cfg, sys, ts, move))
  {
    if move.Clears? {
      assert SchedulerDoes(cfg, sys, ts, move) == ClearNext(sys, ts);
      ClearAppendsOnce(sys, ts);
    } else if move.Emits? {
      assert SchedulerDoes(cfg, sys, ts, move) == EmitNext(sys, ts);
      EmitAppendsOnce(sys, ts);
    } else if move.TriesDelivery? {
      assert SchedulerDoes(cfg, sys, ts, move) == TryDelivery(sys);
    } else {
      assert SameLog(sys, SchedulerDoes(cfg, sys, ts, move));
    }
  }

  lemma OutsideAppendsOnce(cfg: Config, sys: Sys, step: Step)
    requires step.Observe? || step.Crash?
    ensures AppendsOnce(sys, Next(cfg, sys, step))
  {
  }

  lemma FrontAppendsOnce(cfg: Config, sys: Sys, step: Step)
    requires step.Front?
    ensures AppendsOnce(sys, Next(cfg, sys, step))
  {
  }

  lemma NextAppendsOnce(cfg: Config, sys: Sys, step: Step)
    ensures AppendsOnce(sys, Next(cfg, sys, step))
  {
    if step.Work? {
      WorkAppendsOnce(cfg, sys, step.ts, step.id, step.deed);
    } else if step.Pass? {
      PassAppendsOnce(cfg, sys, step.ts, step.move);
    } else if step.Front? {
      FrontAppendsOnce(cfg, sys, step);
    } else {
      OutsideAppendsOnce(cfg, sys, step);
    }
  }

  lemma NextReplays(cfg: Config, sys: Sys, step: Step)
    requires Replayed(sys)
    ensures Replayed(Next(cfg, sys, step))
  {
    NextAppendsOnce(cfg, sys, step);
    var sys' := Next(cfg, sys, step);
    if !SameLog(sys, sys') {
      var ts, actor, b :| SameLog(Append(sys, ts, actor, b), sys');
      AppendReplays(sys, ts, actor, b);
    }
  }

  // --- Every history keeps every rule ------------------------------------------------------------

  lemma WritesKeepRules(sys: Sys, sys': Sys, w: Option<Event>)
    requires Replayed(sys) && Obeys(sys.log) && Writes(sys, sys', w)
    ensures Obeys(sys'.log)
  {
    if w.Some? { ObeysOneMore(sys.log, w.value); }
  }

  /** All that holds of a run. */
  ghost predicate Holds(cfg: Config, sys: Sys) {
    Inv(cfg, sys) && Replayed(sys) && Obeys(sys.log)
  }

  lemma NextHolds(cfg: Config, sys: Sys, step: Step) returns (sys': Sys)
    requires Holds(cfg, sys)
    ensures sys' == Next(cfg, sys, step) && Holds(cfg, sys') && Settles(sys.state, sys'.state)
  {
    sys' := Next(cfg, sys, step);
    var w := NextKeepsInv(cfg, sys, step);
    WritesKeepRules(sys, sys', w);
    NextReplays(cfg, sys, step);
  }

  lemma {:induction false} RunHolds(cfg: Config, steps: seq<Step>)
    ensures Holds(cfg, Run(cfg, steps))
  {
    if steps == [] {
      StartIsOk(cfg);
    } else {
      RunHolds(cfg, steps[..|steps| - 1]);
      var sys' := NextHolds(cfg, Run(cfg, steps[..|steps| - 1]), steps[|steps| - 1]);
    }
  }

  lemma LastStepWrites(cfg: Config, steps: seq<Step>) returns (before: Sys, after: Sys, w: Option<Event>)
    requires steps != []
    ensures before == Run(cfg, steps[..|steps| - 1]) && after == Run(cfg, steps) && Writes(before, after, w)
  {
    before, after := Run(cfg, steps[..|steps| - 1]), Run(cfg, steps);
    RunHolds(cfg, steps[..|steps| - 1]);
    w := NextKeepsInv(cfg, before, steps[|steps| - 1]);
  }

  /** The step that put an event on the log, and the system it found. */
  lemma {:induction false} WrittenBy(cfg: Config, steps: seq<Step>, m: nat) returns (k: nat, before: Sys, after: Sys)
    requires m < |Run(cfg, steps).log|
    ensures k < |steps| && before == Run(cfg, steps[..k]) && before.log == Run(cfg, steps).log[..m]
    ensures Writes(before, after, Some(Run(cfg, steps).log[m]))
  {
    var init := steps[..|steps| - 1];
    var w;
    before, after, w := LastStepWrites(cfg, steps);
    if m < |before.log| {
      assert before.log[m] == after.log[m] && before.log[..m] == after.log[..m];
      var first;
      k, first, after := WrittenBy(cfg, init, m);
      assert init[..k] == steps[..k];
      before := first;
    } else {
      k := |steps| - 1;
      assert after.log[..m] == before.log;
    }
  }

  /** Whatever the workers, the front doors and the Scheduler do, and wherever it
      crashes, every merge is sound. */
  lemma MergesAreSound(cfg: Config, steps: seq<Step>, m: nat)
    requires m < |Run(cfg, steps).log| && Run(cfg, steps).log[m].body.Merged?
    ensures SoundMerge(Run(cfg, steps).log, m)
  {
    var log, id := Run(cfg, steps).log, Run(cfg, steps).log[m].body.ticketId;
    var k, before, after := WrittenBy(cfg, steps, m);
    RunHolds(cfg, steps);
    RunHolds(cfg, steps[..k]);
    assert LawfulAt(log, m);
    assert Fits(id, before.state, before.state.tickets[id], before.marks);
    SoundMeans(log, m);
  }

  /** The checkers of merges find nothing on any run. */
  lemma CheckersFindNothing(cfg: Config, steps: seq<Step>, m: nat)
    requires m < |Run(cfg, steps).log|
    ensures var log := Run(cfg, steps).log;
            && Gapless(log)
            && !Unverified(log, m) && !Repeated(log, m) && !Unapproved(log, m) && !Dishonoured(log, m)
  {
    RunHolds(cfg, steps);
    assert LawfulAt(Run(cfg, steps).log, m);
  }

  // --- Tickets -----------------------------------------------------------------------------------

  lemma SettlesChain(a: State, b: State, c: State)
    requires Settles(a, b) && Settles(b, c)
    ensures Settles(a, c)
  {
  }

  lemma LastStepSettles(cfg: Config, steps: seq<Step>) returns (before: State, after: State)
    requires steps != []
    ensures before == Run(cfg, steps[..|steps| - 1]).state && after == Run(cfg, steps).state && Settles(before, after)
  {
    var init := Run(cfg, steps[..|steps| - 1]);
    RunHolds(cfg, steps[..|steps| - 1]);
    var sys' := NextHolds(cfg, init, steps[|steps| - 1]);
    before, after := init.state, sys'.state;
  }

  /** Merged, failed and decomposed tickets stay so for the rest of the run, with
      the children they decomposed into. */
  lemma {:induction false} TerminalForGood(cfg: Config, steps: seq<Step>, k: nat) returns (early: State, late: State)
    requires k <= |steps|
    ensures early == Run(cfg, steps[..k]).state && late == Run(cfg, steps).state && Settles(early, late)
  {
    if k == |steps| {
      assert steps[..k] == steps;
      early := Run(cfg, steps).state;
      late := early;
    } else {
      var init := steps[..|steps| - 1];
      assert init[..k] == steps[..k];
      var before, mid;
      early, mid := TerminalForGood(cfg, init, k);
      before, late := LastStepSettles(cfg, steps);
      SettlesChain(early, mid, late);
    }
  }

  /** So complete and dead are for good, and never both. */
  lemma VerdictsForGood(cfg: Config, steps: seq<Step>, k: nat, id: string)
    requires k <= |steps|
    ensures Complete(Run(cfg, steps[..k]).state, id) ==>
      (Complete(Run(cfg, steps).state, id) && !Dead(Run(cfg, steps).state, id))
    ensures Dead(Run(cfg, steps[..k]).state, id) ==>
      (Dead(Run(cfg, steps).state, id) && !Complete(Run(cfg, steps).state, id))
  {
    var early, late := TerminalForGood(cfg, steps, k);
    VerdictsStay(early, late);
    NeverBoth(late, id);
  }

  /** A ticket beyond pending and not failed has every dependency complete, one
      attempt is active exactly while it is claimed or running, and only pending
      tickets are ever blocked. */
  lemma TicketsInOrder(cfg: Config, steps: seq<Step>, id: string)
    requires id in Run(cfg, steps).state.tickets
    ensures var s := Run(cfg, steps).state;
            var t := s.tickets[id];
            && (Beyond(t) ==> DepsSatisfied(s, t))
            && (t.activeWorkers != [] <==> InHand(t))
            && (IsBlocked(s, t) ==> t.status == Pending)
  {
    var sys := Run(cfg, steps);
    RunHolds(cfg, steps);
    assert Fits(id, sys.state, sys.state.tickets[id], sys.marks);
    if IsBlocked(sys.state, sys.state.tickets[id]) { OnlyPendingIsBlocked(|sys.log|, sys.state, sys.marks, id); }
  }

  // --- Decisions ---------------------------------------------------------------------------------

  /** In every run a parked ticket is undecided, so a decision that goes through is
      reported to whoever repeats it, and refused to whoever contradicts it. */
  lemma DecisionsAreOnce(cfg: Config, steps: seq<Step>, id: string, approve: bool, author: string, reason: string,
                         e: Event,
                         author': string, reason': string)
    requires Doors.DecideTicket(Run(cfg, steps).state, id, approve, author, reason).Appends?
    requires e.body == Doors.DecideTicket(Run(cfg, steps).state, id, approve, author, reason).body
    ensures var s' := Apply(Run(cfg, steps).state, e);
            && Doors.DecideTicket(s', id, approve, author', reason') == Doors.Already(id, e.num)
            && Doors.DecideTicket(s', id, !approve, author', reason').Refused?
  {
    var sys := Run(cfg, steps);
    RunHolds(cfg, steps);
    assert Fits(id, sys.state, sys.state.tickets[id], sys.marks);
    Doors.DecideOnce(sys.state, id, approve, author, reason, e, author', reason');
  }
}
