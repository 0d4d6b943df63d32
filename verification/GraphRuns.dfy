/** Every run of the Scheduler machine grows the task graph as GraphGrowth has it, so
    what is proved there of the graph holds of every run. */
module GraphRuns {
  import opened Events
  import opened Replay
  import opened Digraph
  import opened Plans
  import opened Scheduler
  import opened Safety
  import opened Runs
  import D = Decompose
  import G = GraphGrowth
  import Recursion
  import TaskGraph

  /** The decompositions being appended. */
  function PlansOf(jobs: map<string, Job>): map<string, D.InFlight> {
    map id | id in jobs && jobs[id].Splitting? :: jobs[id].plan
  }

  // --- Steps that are no decomposition's ---------------------------------------------------------

  /** A worker hands in its subtasks, or appends the next of its decomposition. */
  predicate IsPlans(sys: Sys, step: Step) {
    && step.Work? && step.id in sys.jobs
    && (if step.deed.Splits? then sys.jobs[step.id].Working? && step.id in sys.state.tickets
        else step.deed.AppendsPlan? && sys.jobs[step.id].Splitting?)
  }

  predicate Routine(e: Event) {
    !e.body.TicketDecomposed? && (e.body.TicketCreated? ==> IsSeed(e.body) && e.actor == "orchestrator")
  }

  /** The decompositions in flight are as before, or some ended. */
  ghost predicate PlansEnd(jobs: map<string, Job>, jobs': map<string, Job>) {
    && (forall id :: id in jobs' && jobs'[id].Splitting? ==> id in jobs && jobs'[id] == jobs[id])
    && forall id :: id in jobs && jobs[id].Splitting? && id in jobs' ==> jobs'[id] == jobs[id]
  }

  lemma EndedPlans(jobs: map<string, Job>, jobs': map<string, Job>)
    requires PlansEnd(jobs, jobs')
    ensures PlansOf(jobs') == PlansOf(jobs) - (jobs.Keys - jobs'.Keys)
  {
  }

  ghost predicate RoutineStep(sys: Sys, sys': Sys) {
    && PlansEnd(sys.jobs, sys'.jobs)
    && (|sys'.log| == |sys.log| + 1 ==>
          Routine(sys'.log[|sys.log|]) && (sys'.log[|sys.log|].body.TicketCreated? ==> sys'.jobs == sys.jobs))
  }

  lemma AppendIsRoutine(sys: Sys, ts: int, actor: string, b: Body, sys': Sys)
    requires sys'.log == Append(sys, ts, actor, b).log && PlansEnd(sys.jobs, sys'.jobs)
    requires !b.TicketDecomposed?
    requires (b.TicketCreated? ==> IsSeed(b) && actor == "orchestrator" && sys'.jobs == sys.jobs)
    ensures RoutineStep(sys, sys')
  {
  }

  lemma FrontIsRoutine(cfg: Config, sys: Sys, ts: int, door: FrontDoor)
    ensures RoutineStep(sys, Next(cfg, sys, Front(ts, door)))
  {
    if FrontDoorAppends(sys.state, door).Some? { DoorAppends(sys.state, door); }
  }

  lemma EndIsRoutine(sys: Sys, ts: int, id: string, b: Body)
    requires !b.TicketDecomposed? && !b.TicketCreated?
    ensures RoutineStep(sys, EndJob(sys, ts, id, b))
  {
    AppendIsRoutine(sys, ts, "orchestrator", b, EndJob(sys, ts, id, b));
  }

  lemma CarryIsRoutine(cfg: Config, sys: Sys, ts: int, id: string, deed: Worker)
    requires deed.Start? || deed.Beat? || deed.Retitle?
    ensures RoutineStep(sys, WorkerDoes(cfg, sys, ts, id, deed))
  {
  }

  lemma WorkIsRoutine(cfg: Config, sys: Sys, ts: int, id: string, deed: Worker)
    requires !IsPlans(sys, Step.Work(ts, id, deed))
    ensures RoutineStep(sys, WorkerDoes(cfg, sys, ts, id, deed))
  {
    if deed.Start? || deed.Beat? || deed.Retitle? {
      CarryIsRoutine(cfg, sys, ts, id, deed);
    } else if id in sys.jobs {
      var job, w := sys.jobs[id], WorkerOf(id);
      if deed.Invalidates? {
        if job.Working? { EndIsRoutine(sys, ts, id, TicketInvalidated(id, w, deed.reason)); }
      } else if deed.Proposes? {
        if job.Working? {
          EndIsRoutine(sys, ts, id,
                       ProposalSubmitted(id, w, deed.branch, deed.commit, deed.summary, deed.trace, deed.charge));
        }
      } else if deed.Fails? {
        EndIsRoutine(sys, ts, id, if deed.terminal then TicketFailed(id, w, deed.reason, deed.worktree, deed.charge)
                                  else WorkerRestarted(id, w, deed.reason, deed.charge));
      }
    }
  }

  lemma EmitIsRoutine(cfg: Config, sys: Sys, ts: int)
    requires Inv(cfg, sys)
    ensures RoutineStep(sys, EmitNext(sys, ts))
  {
    if sys.phase.Emitting? && sys.phase.todo != [] {
      assert Due(sys.state, sys.jobs, sys.phase.todo[0]);
      AppendIsRoutine(sys, ts, "orchestrator", sys.phase.todo[0], EmitNext(sys, ts));
    }
  }

  lemma JudgeIsRoutine(cfg: Config, sys: Sys, ts: int, outcome: Outcome)
    ensures RoutineStep(sys, JudgeHead(cfg, sys, ts, outcome))
  {
  }

  lemma ProceedIsRoutine(cfg: Config, sys: Sys, ts: int)
    ensures RoutineStep(sys, ProceedHead(cfg, sys, ts))
  {
  }

  lemma ClearIsRoutine(sys: Sys, ts: int)
    ensures RoutineStep(sys, ClearNext(sys, ts))
  {
  }

  lemma DispatchIsRoutine(cfg: Config, sys: Sys, ts: int, id: string, base: string, now: int)
    ensures RoutineStep(sys, DispatchOne(cfg, sys, ts, id, base, now))
  {
  }

  lemma PushIsRoutine(sys: Sys, ts: int, url: Option<string>, reason: string)
    ensures RoutineStep(sys, Push(sys, ts, url, reason))
  {
  }

  /** Moves that append nothing. */
  lemma SilentIsRoutine(cfg: Config, sys: Sys, ts: int, move: Move)
    requires IsDecision(move) || move.Drains? || move.DeliversReady? || move.TriesDelivery? || move.GivesUp?
    ensures RoutineStep(sys, SchedulerDoes(cfg, sys, ts, move))
  {
    assert SchedulerDoes(cfg, sys, ts, move).log == sys.log && SchedulerDoes(cfg, sys, ts, move).jobs == sys.jobs;
  }

  lemma QueueIsRoutine(cfg: Config, sys: Sys, ts: int, move: Move)
    requires move.Judges? || move.Proceeds? || move.Clears? || move.Dispatches? || move.Pushed? || move.PushFails?
    ensures RoutineStep(sys, SchedulerDoes(cfg, sys, ts, move))
  {
    if move.Judges? {
      JudgeIsRoutine(cfg, sys, ts, move.outcome);
    } else if move.Proceeds? {
      ProceedIsRoutine(cfg, sys, ts);
    } else if move.Clears? {
      ClearIsRoutine(sys, ts);
    } else if move.Dispatches? {
      DispatchIsRoutine(cfg, sys, ts, move.id, move.base, move.now);
    } else if move.Pushed? {
      PushIsRoutine(sys, ts, Some(move.url), "");
    } else {
      PushIsRoutine(sys, ts, None, move.reason);
    }
  }

  lemma PassIsRoutine(cfg: Config, sys: Sys, ts: int, move: Move)
    requires Inv(cfg, sys)
    ensures RoutineStep(sys, SchedulerDoes(cfg, sys, ts, move))
  {
    if move.Judges? || move.Proceeds? || move.Clears? || move.Dispatches? || move.Pushed? || move.PushFails? {
      QueueIsRoutine(cfg, sys, ts, move);
    } else if move.Emits? {
      assert SchedulerDoes(cfg, sys, ts, move) == EmitNext(sys, ts);
      EmitIsRoutine(cfg, sys, ts);
    } else {
      SilentIsRoutine(cfg, sys, ts, move);
    }
  }

  lemma NextIsRoutine(cfg: Config, sys: Sys, step: Step)
    requires Inv(cfg, sys) && !IsPlans(sys, step)
    ensures RoutineStep(sys, Next(cfg, sys, step))
  {
    if step.Front? {
      FrontIsRoutine(cfg, sys, step.ts, step.door);
    } else if step.Work? {
      WorkIsRoutine(cfg, sys, step.ts, step.id, step.deed);
    } else if step.Pass? {
      PassIsRoutine(cfg, sys, step.ts, step.move);
    }
  }

  // --- Every step is a step of the graph's growth ------------------------------------------------

  /** What a step does to the task graph. */
  ghost function AsGrowth(cfg: Config, sys: Sys, step: Step): G.Step {
    var sys' := Next(cfg, sys, step);
    if IsPlans(sys, step) then (
      if step.deed.AppendsPlan? then G.Emit(step.id, step.ts)
      else G.Begin(DispatchedAs(sys.state, step.id), WorkerOf(step.id), step.deed.subs, cfg.gov, step.deed.charge,
                   step.ts))
    else if |sys'.log| != |sys.log| + 1 then G.Drop(sys.jobs.Keys - sys'.jobs.Keys)
    else
      var e := sys'.log[|sys.log|];
      if e.body.TicketCreated? then G.Seed(e.body.goalId, e.body.title, e.ts)
      else G.Other(e, sys.jobs.Keys - sys'.jobs.Keys)
  }

  ghost predicate Shadows(sys: Sys, shadow: G.Sys) {
    shadow.state == sys.state && shadow.plans == PlansOf(sys.jobs)
  }

  lemma LastSeqCounts(sys: Sys)
    requires Replayed(sys)
    ensures sys.state.lastSeq == |sys.log|
  {
    if sys.log != [] {
      var n := |sys.log| - 1;
      assert Fold(sys.log) == Apply(Fold(sys.log[..n]), sys.log[n]);
    }
  }

  lemma OneMoreEvent(sys: Sys, sys': Sys)
    requires Replayed(sys) && Replayed(sys') && |sys'.log| == |sys.log| + 1 && sys'.log[..|sys.log|] == sys.log
    ensures sys'.state == Apply(sys.state, sys'.log[|sys.log|]) && sys'.log[|sys.log|].num == |sys.log| + 1
  {
  }

  lemma RoutineShadows(sys: Sys, sys': Sys, shadow: G.Sys)
    requires Replayed(sys) && Replayed(sys') && Shadows(sys, shadow) && RoutineStep(sys, sys')
    requires |sys'.log| == |sys.log| + 1 && sys'.log[..|sys.log|] == sys.log
    ensures var e := sys'.log[|sys.log|];
            Shadows(sys', G.Next(shadow, if e.body.TicketCreated? then G.Seed(e.body.goalId, e.body.title, e.ts)
                                         else G.Other(e, sys.jobs.Keys - sys'.jobs.Keys)))
  {
    EndedPlans(sys.jobs, sys'.jobs);
    OneMoreEvent(sys, sys');
    LastSeqCounts(sys);
    var e := sys'.log[|sys.log|];
    if e.body.TicketCreated? {
      assert e == Event(sys.state.lastSeq + 1, e.ts, "orchestrator", G.SeedBody(e.body.goalId, e.body.title));
    }
  }

  lemma SilentShadows(sys: Sys, sys': Sys, shadow: G.Sys)
    requires Replayed(sys) && Replayed(sys') && Shadows(sys, shadow) && RoutineStep(sys, sys') && sys'.log == sys.log
    ensures Shadows(sys', G.Next(shadow, G.Drop(sys.jobs.Keys - sys'.jobs.Keys)))
  {
    EndedPlans(sys.jobs, sys'.jobs);
  }

  lemma AcceptShadows(cfg: Config, sys: Sys, ts: int, id: string, subs: seq<D.Subtask>, charge: Charge, shadow: G.Sys)
    requires Shadows(sys, shadow) && id in sys.jobs && sys.jobs[id].Working? && id in sys.state.tickets
    requires D.Accepts(sys.state, DispatchedAs(sys.state, id), subs, cfg.gov)
    ensures Shadows(SplitJob(cfg, sys, ts, id, subs, charge),
                    G.Next(shadow, G.Begin(DispatchedAs(sys.state, id), WorkerOf(id), subs, cfg.gov, charge, ts)))
  {
    var plan := D.Begun(sys.state, DispatchedAs(sys.state, id), WorkerOf(id), subs, charge);
    assert PlansOf(sys.jobs[id := Splitting(plan)]) == PlansOf(sys.jobs)[id := plan];
  }

  lemma RefuseShadows(cfg: Config, sys: Sys, ts: int, id: string, subs: seq<D.Subtask>, charge: Charge, shadow: G.Sys)
    requires Replayed(sys) && Shadows(sys, shadow) && id in sys.jobs && sys.jobs[id].Working? && id in sys.state.tickets
    requires !D.Accepts(sys.state, DispatchedAs(sys.state, id), subs, cfg.gov)
    ensures Shadows(SplitJob(cfg, sys, ts, id, subs, charge),
                    G.Next(shadow, G.Begin(DispatchedAs(sys.state, id), WorkerOf(id), subs, cfg.gov, charge, ts)))
  {
    LastSeqCounts(sys);
    assert PlansOf(sys.jobs - {id}) == PlansOf(sys.jobs);
  }

  lemma AppendPlanShadows(sys: Sys, ts: int, id: string, plan: D.InFlight, shadow: G.Sys)
    requires Replayed(sys) && Shadows(sys, shadow) && id in sys.jobs && sys.jobs[id] == Splitting(plan)
    ensures Shadows(AppendPlan(sys, ts, id, plan), G.Next(shadow, G.Emit(id, ts)))
  {
    LastSeqCounts(sys);
    assert PlansOf(AppendPlan(sys, ts, id, plan).jobs) == G.Rest(PlansOf(sys.jobs), id);
  }

  lemma SplitShadows(cfg: Config, sys: Sys, step: Step, shadow: G.Sys)
    requires Replayed(sys) && Shadows(sys, shadow) && IsPlans(sys, step) && step.deed.Splits?
    ensures Shadows(Next(cfg, sys, step), G.Next(shadow, AsGrowth(cfg, sys, step)))
  {
    var id, deed := step.id, step.deed;
    assert Next(cfg, sys, step) == SplitJob(cfg, sys, step.ts, id, deed.subs, deed.charge);
    if D.Accepts(sys.state, DispatchedAs(sys.state, id), deed.subs, cfg.gov) {
      AcceptShadows(cfg, sys, step.ts, id, deed.subs, deed.charge, shadow);
    } else {
      RefuseShadows(cfg, sys, step.ts, id, deed.subs, deed.charge, shadow);
    }
  }

  lemma PlansShadow(cfg: Config, sys: Sys, step: Step, shadow: G.Sys)
    requires Replayed(sys) && Shadows(sys, shadow) && IsPlans(sys, step)
    ensures Shadows(Next(cfg, sys, step), G.Next(shadow, AsGrowth(cfg, sys, step)))
  {
    if step.deed.Splits? {
      SplitShadows(cfg, sys, step, shadow);
    } else {
      assert Next(cfg, sys, step) == AppendPlan(sys, step.ts, step.id, sys.jobs[step.id].plan);
      AppendPlanShadows(sys, step.ts, step.id, sys.jobs[step.id].plan, shadow);
    }
  }

  lemma NextShadows(cfg: Config, sys: Sys, step: Step, shadow: G.Sys)
    requires Holds(cfg, sys) && Shadows(sys, shadow)
    ensures Shadows(Next(cfg, sys, step), G.Next(shadow, AsGrowth(cfg, sys, step)))
  {
    if IsPlans(sys, step) {
      PlansShadow(cfg, sys, step, shadow);
    } else {
      var sys' := Next(cfg, sys, step);
      NextIsRoutine(cfg, sys, step);
      NextReplays(cfg, sys, step);
      var w := NextKeepsInv(cfg, sys, step);
      if w.Some? { RoutineShadows(sys, sys', shadow); } else { SilentShadows(sys, sys', shadow); }
    }
  }

  /** A run, as the growth of its task graph. */
  ghost function GrowthOf(cfg: Config, steps: seq<Step>): (grown: seq<G.Step>)
    ensures |grown| == |steps|
  {
    if steps == [] then [] else
    var init := steps[..|steps| - 1];
    GrowthOf(cfg, init) + [AsGrowth(cfg, Run(cfg, init), steps[|steps| - 1])]
  }

  lemma {:induction false} RunGrows(cfg: Config, steps: seq<Step>)
    ensures Shadows(Run(cfg, steps), G.Run(GrowthOf(cfg, steps)))
  {
    if steps != [] {
      var n := |steps| - 1;
      RunGrows(cfg, steps[..n]);
      RunHolds(cfg, steps[..n]);
      NextShadows(cfg, Run(cfg, steps[..n]), steps[n], G.Run(GrowthOf(cfg, steps[..n])));
      assert GrowthOf(cfg, steps)[..n] == GrowthOf(cfg, steps[..n]);
    }
  }

  /** In every run whose decompositions use plain handles, and in which a ticket is split
      again only while no other decomposition is being appended, the dependency graph
      never has a cycle. */
  lemma GraphIsAcyclic(cfg: Config, steps: seq<Step>)
    requires G.AllCareful(GrowthOf(cfg, steps))
    ensures !Cyclic(D.DependsOn(Run(cfg, steps).state))
  {
    RunGrows(cfg, steps);
    G.AlwaysAcyclic(GrowthOf(cfg, steps));
  }

  /** In every run in which no decomposition adopts a ticket, the recursions over
      decomposed tickets return. */
  lemma RecursionsReturn(cfg: Config, steps: seq<Step>, q: TaskGraph.Query, id: string)
    requires Recursion.NeverAdopts(GrowthOf(cfg, steps))
    ensures TaskGraph.Returns(Run(cfg, steps).state, q, id)
  {
    RunGrows(cfg, steps);
    Recursion.NonAdoptingReturns(GrowthOf(cfg, steps), q, id);
  }
}
