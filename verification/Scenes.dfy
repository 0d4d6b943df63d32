/** Runs of the Scheduler machine, step by step, for the ones that show a property fail. */
module Scenes {
  import opened Events
  import opened Spending
  import opened Replay
  import opened TaskGraph
  import opened Plans
  import opened History
  import opened Lifecycle
  import opened Scheduler
  import opened Safety
  import opened Runs
  import opened LiteralPlans
  import D = Decompose
  import G = GraphGrowth

  /** What matters of a ticket. Every event of these runs is at time 0. */
  datatype Brief = Brief(
    deps: seq<string>, depth: int, status: Status, children: seq<string>, branch: string, attempts: nat, approved: bool)

  function BriefOf(t: Ticket): Brief {
    Brief(t.origin.dependsOn, t.origin.depth, t.status, t.children, t.candidate.branch, t.attempts, t.approved)
  }

  function NewBrief(deps: seq<string>, depth: int): Brief { Brief(deps, depth, Pending, [], "", 0, false) }

  /** Where a run of one Goal stands. `merged` is its latest merge, if `landed`. */
  datatype Scene = Scene(
    goal: string, order: seq<string>, tickets: map<string, Brief>, keys: map<string, string>,
    merged: Commit, landed: bool, jobs: map<string, Job>, br: Branches, phase: Phase)

  predicate LooksLike(t: Ticket, g: string, b: Brief) {
    BriefOf(t) == b && t.origin.goalId == g && t.lastActivity == 0
  }

  ghost predicate TicketsLook(s: State, sc: Scene) {
    && s.ticketOrder == sc.order && s.tickets.Keys == sc.tickets.Keys && s.keyToTicket == sc.keys
    && forall id :: id in sc.tickets ==> LooksLike(s.tickets[id], sc.goal, sc.tickets[id])
  }

  predicate GoalLooks(s: State, sc: Scene) {
    && s.goals.Keys == {sc.goal} && !s.goals[sc.goal].cancelled && !s.goals[sc.goal].delivered
    && (s.goals[sc.goal].branch != "" <==> sc.landed)
  }

  ghost predicate LogLooks(s: State, lands: Landings, sc: Scene) {
    TicketsLook(s, sc) && GoalLooks(s, sc) && (sc.landed ==> LastMerge(lands, sc.goal) == sc.merged)
  }

  ghost predicate Sees(sys: Sys, sc: Scene) {
    LogLooks(sys.state, sys.lands, sc) && sys.jobs == sc.jobs && sys.br == sc.br && sys.phase == sc.phase
  }

  /** The systems a run goes through. */
  ghost predicate IsTrace(cfg: Config, trace: seq<Sys>, steps: seq<Step>) {
    && |trace| == |steps| + 1 && trace[0] == START
    && forall i {:trigger steps[i]} :: 0 <= i < |steps| ==> trace[i + 1] == Next(cfg, trace[i], steps[i])
  }

  ghost predicate Reachable(cfg: Config, sys: Sys) {
    exists trace, steps :: IsTrace(cfg, trace, steps) && trace[|steps|] == sys
  }

  /** Some run stands there. */
  ghost predicate Reached(cfg: Config, sys: Sys, sc: Scene) {
    Reachable(cfg, sys) && Sees(sys, sc)
  }

  lemma {:induction false} TraceIsRun(cfg: Config, trace: seq<Sys>, steps: seq<Step>)
    requires IsTrace(cfg, trace, steps)
    ensures trace[|steps|] == Run(cfg, steps)
  {
    if steps != [] {
      var n := |steps| - 1;
      forall i | 0 <= i < n ensures trace[..n + 1][i + 1] == Next(cfg, trace[..n + 1][i], steps[..n][i]) {
        assert steps[..n][i] == steps[i];
      }
      TraceIsRun(cfg, trace[..n + 1], steps[..n]);
      assert trace[n + 1] == Next(cfg, trace[n], steps[n]);
    }
  }

  lemma Reaches(cfg: Config, sys: Sys, step: Step, sys': Sys)
    requires Reachable(cfg, sys) && sys' == Next(cfg, sys, step)
    ensures Reachable(cfg, sys')
  {
    var trace, steps :| IsTrace(cfg, trace, steps) && trace[|steps|] == sys;
    var more, trail := steps + [step], trace + [sys'];
    forall i | 0 <= i < |more| ensures trail[i + 1] == Next(cfg, trail[i], more[i]) {
      if i < |steps| { assert more[i] == steps[i]; }
    }
    assert IsTrace(cfg, trail, more);
  }

  lemma ReachableRuns(cfg: Config, sys: Sys) returns (steps: seq<Step>)
    requires Reachable(cfg, sys)
    ensures Run(cfg, steps) == sys && Holds(cfg, sys)
  {
    var trace;
    trace, steps :| IsTrace(cfg, trace, steps) && trace[|steps|] == sys;
    TraceIsRun(cfg, trace, steps);
    RunHolds(cfg, steps);
  }

  lemma Did(cfg: Config, sys: Sys, step: Step, sc: Scene) returns (sys': Sys)
    requires Reachable(cfg, sys) && Sees(Next(cfg, sys, step), sc)
    ensures Reached(cfg, sys', sc)
  {
    sys' := Next(cfg, sys, step);
    Reaches(cfg, sys, step, sys');
  }

  // --- What an event makes of a ticket -----------------------------------------------------------

  /** The events of these runs that move a ticket. */
  function BriefStep(t: Brief, b: Body): Brief {
    if b.TicketReady? then t.(status := Ready)
    else if b.TicketClaimed? then t.(status := Claimed, attempts := t.attempts + 1)
    else if b.WorkStarted? then t.(status := Running)
    else if b.ProposalSubmitted? then t.(status := Proposed, branch := b.branch)
    else if b.Merged? then t.(status := MergedIn)
    else if b.VerificationFailed? then t.(status := Ready, branch := "")
    else if b.TicketDecomposed? then t.(status := Decomposed, children := b.children)
    else if b.ApprovalRequested? then t.(status := Awaiting)
    else if b.WorkerRestarted? then t.(status := Ready, branch := "")
    else t
  }

  predicate Applies(t: Brief, b: Body) {
    || (b.TicketReady? && t.status == Pending)
    || (b.TicketClaimed? && t.status == Ready)
    || b.WorkStarted? || b.VerificationPassed? || b.Merged? || b.TicketDecomposed? || b.WorkerStalled?
    || ((b.ProposalSubmitted? || b.WorkerRestarted?) && (t.status == Claimed || t.status == Running))
    || ((b.VerificationFailed? || b.ApprovalRequested?) && t.status == Proposed)
  }

  lemma StepLooks(id: string, t: Ticket, g: string, b: Brief, e: Event)
    requires TicketOk(id, t) && LooksLike(t, g, b) && Applies(b, e.body) && e.ts == 0
    requires e.body.VerificationFailed? || e.body.WorkerRestarted? ==> e.body.worker == t.worker
    ensures LooksLike(StepTicket(t, e), g, BriefStep(b, e.body))
  {
    if e.body.WorkerRestarted? { RestartLooks(id, t, e); }
  }

  lemma RestartLooks(id: string, t: Ticket, e: Event)
    requires TicketOk(id, t) && InHand(t) && e.body.WorkerRestarted? && e.body.worker == t.worker
    ensures Replay.Restart(t, e).status == Ready && Replay.Restart(t, e).candidate.branch == ""
    ensures Replay.Restart(t, e) == t.(status := Ready, activeWorkers := [], worker := "", lastActivity := e.ts,
                                candidate := Replay.Restart(t, e).candidate, failure := Replay.Restart(t, e).failure)
  {
    var w := t.worker;
    assert [w][1..] == [] && RemoveWorker([], w) == [];
    assert RemoveWorker([w], w) == [];
  }

  /** Its own ticket is all an event changes of what a scene shows. */
  lemma TicketLooks(s: State, sc: Scene, e: Event, s': State, id: string)
    requires TicketsLook(s, sc) && After(s, e, s') && Moves(e, id) && id in sc.tickets && ChargeOf(e.body).None?
    requires e.ts == 0
    requires TicketOk(id, s.tickets[id]) && Applies(sc.tickets[id], e.body)
    requires e.body.VerificationFailed? || e.body.WorkerRestarted? ==> e.body.worker == s.tickets[id].worker
    ensures TicketsLook(s', sc.(tickets := sc.tickets[id := BriefStep(sc.tickets[id], e.body)]))
  {
    forall x | x in sc.tickets
      ensures LooksLike(s'.tickets[x], sc.goal, if x == id then BriefStep(sc.tickets[id], e.body) else sc.tickets[x])
    {
      assert TicketBecomes(s.tickets[x], e, x, s'.tickets[x]);
      if x == id { StepLooks(id, s.tickets[id], sc.goal, sc.tickets[id], e); }
    }
  }

  lemma GoalStays(s: State, sc: Scene, e: Event, s': State)
    requires GoalLooks(s, sc) && After(s, e, s') && NamesTicket(e.body) && !e.body.Merged?
    ensures GoalLooks(s', sc)
  {
    assert GoalBecomes(s, e, sc.goal, s'.goals[sc.goal]);
  }

  lemma TicketIsOk(cfg: Config, sys: Sys, id: string)
    requires Reachable(cfg, sys) && id in sys.state.tickets
    ensures TicketOk(id, sys.state.tickets[id])
  {
    var steps := ReachableRuns(cfg, sys);
    assert Fits(id, sys.state, sys.state.tickets[id], sys.marks);
  }

  lemma AppendLooks(sys: Sys, b: Body, id: string, sc: Scene)
    requires LogLooks(sys.state, sys.lands, sc) && id in sc.tickets && TicketOk(id, sys.state.tickets[id])
    requires NamesTicket(b) && !b.TicketCreated? && !b.Merged? && b.ticketId == id
    requires ChargeOf(b).None? && Applies(sc.tickets[id], b)
    requires b.VerificationFailed? || b.WorkerRestarted? ==> b.worker == sys.state.tickets[id].worker
    ensures var sys' := Append(sys, 0, "orchestrator", b);
            LogLooks(sys'.state, sys'.lands, sc.(tickets := sc.tickets[id := BriefStep(sc.tickets[id], b)]))
  {
    var e := AppendGrows(sys, 0, "orchestrator", b);
    var s' := Append(sys, 0, "orchestrator", b).state;
    TicketLooks(sys.state, sc, e, s', id);
    GoalStays(sys.state, sc, e, s');
  }

  /** A step that appends an event about a ticket, as a scene shows it. */
  lemma Appends(cfg: Config, sys: Sys, step: Step, b: Body, id: string, sc: Scene, sc': Scene) returns (sys': Sys)
    requires Reached(cfg, sys, sc) && id in sc.tickets && NamesTicket(b) && !b.TicketCreated? && !b.Merged?
    requires b.ticketId == id
    requires ChargeOf(b).None? && Applies(sc.tickets[id], b)
    requires b.VerificationFailed? || b.WorkerRestarted? ==> b.worker == sys.state.tickets[id].worker
    requires sc' == sc.(tickets := sc.tickets[id := BriefStep(sc.tickets[id], b)], jobs := sc'.jobs, br := sc'.br,
                        phase := sc'.phase)
    requires Next(cfg, sys, step) ==
             Append(sys, 0, "orchestrator", b).(jobs := sc'.jobs, br := sc'.br, phase := sc'.phase)
    ensures Reached(cfg, sys', sc')
  {
    TicketIsOk(cfg, sys, id);
    AppendLooks(sys, b, id, sc);
    sys' := Did(cfg, sys, step, sc');
  }

  /** A step that appends nothing. */
  lemma Turns(cfg: Config, sys: Sys, step: Step, sc: Scene, sc': Scene) returns (sys': Sys)
    requires Reached(cfg, sys, sc) && sc' == sc.(jobs := sc'.jobs, br := sc'.br, phase := sc'.phase)
    requires Next(cfg, sys, step) == sys.(jobs := sc'.jobs, br := sc'.br, phase := sc'.phase)
    ensures Reached(cfg, sys', sc')
  {
    sys' := Did(cfg, sys, step, sc');
  }

  // --- Creating a ticket -------------------------------------------------------------------------

  function WithTicket(sc: Scene, b: Body): Scene
    requires b.TicketCreated?
  {
    sc.(order := sc.order + [b.ticketId], tickets := sc.tickets[b.ticketId := NewBrief(b.dependsOn, b.depth)],
        keys := if b.key == "" then sc.keys else sc.keys[b.key := b.ticketId])
  }

  lemma CreationLooks(s: State, sc: Scene, e: Event)
    requires TicketsLook(s, sc) && e.body.TicketCreated? && e.body.goalId == sc.goal && e.ts == 0
    requires e.body.ticketId !in sc.tickets && (e.body.key == "" || e.body.key !in sc.keys)
    ensures TicketsLook(Apply(s, e), WithTicket(sc, e.body))
  {
    var s' := CreateTicket(s, e);
    assert Apply(s, e) == s'.(lastSeq := e.num);
  }

  lemma Creates(cfg: Config, sys: Sys, step: Step, b: Body, sc: Scene, sc': Scene) returns (sys': Sys)
    requires Reached(cfg, sys, sc) && b.TicketCreated? && b.goalId == sc.goal
    requires b.ticketId !in sc.tickets && (b.key == "" || b.key !in sc.keys)
    requires sc' == WithTicket(sc, b).(jobs := sc'.jobs, phase := sc'.phase)
    requires Next(cfg, sys, step) == Append(sys, 0, "orchestrator", b).(jobs := sc'.jobs, phase := sc'.phase)
    ensures Reached(cfg, sys', sc')
  {
    var e := AppendGrows(sys, 0, "orchestrator", b);
    CreationLooks(sys.state, sc, e);
    GoalStays(sys.state, sc, e, Apply(sys.state, e));
    sys' := Did(cfg, sys, step, sc');
  }

  // --- Recording a merge -------------------------------------------------------------------------

  lemma MergedBranch(s: State, sc: Scene, e: Event)
    requires GoalLooks(s, sc) && e.body.Merged? && e.body.ticketId in s.tickets
    requires s.tickets[e.body.ticketId].origin.goalId == sc.goal && e.body.branch != ""
    ensures GoalLooks(Apply(s, e), sc.(landed := true))
  {
    var s' := OnTicket(s, e);
    assert Apply(s, e) == s'.(lastSeq := e.num);
    assert s'.goals == s.goals[sc.goal := s.goals[sc.goal].(branch := e.body.branch)];
  }

  function Merging(sc: Scene, id: string, b: Body): Scene
    requires b.Merged? && id in sc.tickets
  {
    sc.(tickets := sc.tickets[id := BriefStep(sc.tickets[id], b)], merged := b.commit, landed := true)
  }

  lemma MergeLogLooks(s: State, lands: Landings, sc: Scene, e: Event, id: string)
    requires LogLooks(s, lands, sc) && e.body.Merged? && e.body.ticketId == id && id in sc.tickets
    requires e.body.branch != "" && e.ts == 0
    requires TicketOk(id, s.tickets[id])
    ensures LogLooks(Apply(s, e), Land(lands, Apply(s, e), e), Merging(sc, id, e.body))
  {
    ApplyIsAfter(s, e);
    TicketLooks(s, sc, e, Apply(s, e), id);
    MergedBranch(s, sc, e);
    LandMoves(lands, s, e, sc.goal);
  }

  lemma MergeLooks(cfg: Config, sys: Sys, step: Step, b: Body, id: string, sc: Scene, sc': Scene) returns (sys': Sys)
    requires Reached(cfg, sys, sc) && id in sc.tickets && b.Merged? && b.ticketId == id && b.branch != ""
    requires sc' == Merging(sc, id, b).(br := sc'.br, phase := sc'.phase)
    requires Next(cfg, sys, step) == Append(sys, 0, "orchestrator", b).(br := sc'.br, phase := sc'.phase)
    ensures Reached(cfg, sys', sc')
  {
    var steps := ReachableRuns(cfg, sys);
    assert Fits(id, sys.state, sys.state.tickets[id], sys.marks);
    MergeLogLooks(sys.state, sys.lands, sc, Event(|sys.log| + 1, 0, "orchestrator", b), id);
    sys' := Did(cfg, sys, step, sc');
  }

  // --- The passes of these runs ------------------------------------------------------------------

  /** Roomy governors, a Gate that passes everything, and retries that are never cut off. */
  ghost predicate Easy(cfg: Config) {
    && Roomy(cfg.gov) && (forall c :: cfg.gate(c)) && cfg.opt.maxAttempts >= 5 && cfg.opt.crashLoop == 0
  }

  lemma Decides(cfg: Config, sys: Sys, move: Move, todo: seq<Body>, sc: Scene) returns (sys': Sys)
    requires Reached(cfg, sys, sc) && sc.phase == Resting && IsDecision(move) && Decision(sys, move) == todo
    ensures Reached(cfg, sys', sc.(phase := Emitting(todo)))
  {
    sys' := Turns(cfg, sys, Pass(0, move), sc, sc.(phase := Emitting(todo)));
  }

  lemma EmitsOne(cfg: Config, sys: Sys, id: string, todo: seq<Body>, sc: Scene) returns (sys': Sys)
    requires Reached(cfg, sys, sc) && sc.phase == Emitting(todo) && todo != [] && todo[0].TicketReady?
    requires todo[0].ticketId == id
    requires id in sc.tickets && sc.tickets[id].status == Pending
    ensures Reached(cfg, sys', sc.(tickets := sc.tickets[id := sc.tickets[id].(status := Ready)],
                                   phase := Emitting(todo[1..])))
  {
    var sc' := sc.(tickets := sc.tickets[id := sc.tickets[id].(status := Ready)], phase := Emitting(todo[1..]));
    sys' := Appends(cfg, sys, Pass(0, Emits), todo[0], id, sc, sc');
  }

  lemma EmitsNoMore(cfg: Config, sys: Sys, sc: Scene) returns (sys': Sys)
    requires Reached(cfg, sys, sc) && sc.phase == Emitting([])
    ensures Reached(cfg, sys', sc.(phase := Resting))
  {
    sys' := Turns(cfg, sys, Pass(0, Emits), sc, sc.(phase := Resting));
  }

  lemma EmitsSeed(cfg: Config, sys: Sys, todo: seq<Body>, sc: Scene) returns (sys': Sys)
    requires Reached(cfg, sys, sc) && sc.phase == Emitting(todo) && todo != [] && todo[0].TicketCreated?
    requires todo[0].goalId == sc.goal
    requires todo[0].ticketId !in sc.tickets && todo[0].key !in sc.keys
    ensures Reached(cfg, sys', WithTicket(sc, todo[0]).(phase := Emitting(todo[1..])))
  {
    sys' := Creates(cfg, sys, Pass(0, Emits), todo[0], sc, WithTicket(sc, todo[0]).(phase := Emitting(todo[1..])));
  }

  // --- Dispatch and workers ----------------------------------------------------------------------

  lemma CanDispatch(opt: Options, s: State, id: string, inFlight: set<string>, sc: Scene)
    requires TicketsLook(s, sc) && GoalLooks(s, sc) && id in sc.tickets && sc.tickets[id].status == Ready
    requires id !in inFlight
    requires TicketOk(id, s.tickets[id]) && (opt.retryBackoff == 0 || sc.tickets[id].attempts == 0)
    ensures Dispatchable(opt, s, id, inFlight, 0)
  {
  }

  function Claiming(cfg: Config, sc: Scene, id: string, base: string): Scene
    requires id in sc.tickets
  {
    sc.(tickets := sc.tickets[id := sc.tickets[id].(status := Claimed, attempts := sc.tickets[id].attempts + 1)],
        jobs := sc.jobs[id := Launched], br := if cfg.opt.prMode then Cut(sc.br, sc.goal, base) else sc.br)
  }

  predicate Takeable(cfg: Config, sc: Scene, id: string) {
    && sc.phase == Resting && id in sc.tickets && sc.tickets[id].status == Ready && id !in sc.jobs
    && (cfg.opt.retryBackoff == 0 || sc.tickets[id].attempts == 0)
  }

  lemma Claims(cfg: Config, sys: Sys, id: string, base: string, sc: Scene) returns (sys': Sys)
    requires Reached(cfg, sys, sc) && Takeable(cfg, sc, id)
    ensures Reached(cfg, sys', Claiming(cfg, sc, id, base))
  {
    TicketIsOk(cfg, sys, id);
    CanDispatch(cfg.opt, sys.state, id, sc.jobs.Keys, sc);
    sys' := ClaimsNow(cfg, sys, id, base, sc);
  }

  lemma ClaimsNow(cfg: Config, sys: Sys, id: string, base: string, sc: Scene) returns (sys': Sys)
    requires Reached(cfg, sys, sc) && Takeable(cfg, sc, id) && Dispatchable(cfg.opt, sys.state, id, sc.jobs.Keys, 0)
    ensures Reached(cfg, sys', Claiming(cfg, sc, id, base))
  {
    var step, b := Pass(0, Dispatches(id, base, 0)), TicketClaimed(id, WorkerOf(id));
    ClaimStep(cfg, sys, id, base, sc);
    ClaimScene(cfg, sc, id, base);
    sys' := Appends(cfg, sys, step, b, id, sc, Claiming(cfg, sc, id, base));
  }

  lemma ClaimStep(cfg: Config, sys: Sys, id: string, base: string, sc: Scene)
    requires Sees(sys, sc) && Takeable(cfg, sc, id) && Dispatchable(cfg.opt, sys.state, id, sc.jobs.Keys, 0)
    ensures var sc' := Claiming(cfg, sc, id, base);
            Next(cfg, sys, Pass(0, Dispatches(id, base, 0))) ==
            Append(sys, 0, "orchestrator", TicketClaimed(id, WorkerOf(id))).(
              jobs := sc'.jobs, br := sc'.br, phase := sc'.phase)
  {
    assert LooksLike(sys.state.tickets[id], sc.goal, sc.tickets[id]);
  }

  lemma ClaimScene(cfg: Config, sc: Scene, id: string, base: string)
    requires Takeable(cfg, sc, id)
    ensures var sc' := Claiming(cfg, sc, id, base);
            sc' == sc.(tickets := sc.tickets[id := BriefStep(sc.tickets[id], TicketClaimed(id, WorkerOf(id)))],
                       jobs := sc'.jobs, br := sc'.br, phase := sc'.phase)
  {
  }

  function Starting(sc: Scene, id: string): Scene
    requires id in sc.tickets
  {
    sc.(tickets := sc.tickets[id := sc.tickets[id].(status := Running)], jobs := sc.jobs[id := Working])
  }

  lemma Starts(cfg: Config, sys: Sys, id: string, sc: Scene) returns (sys': Sys)
    requires Reached(cfg, sys, sc) && id in sc.tickets && id in sc.jobs && sc.jobs[id] == Launched
    ensures Reached(cfg, sys', Starting(sc, id))
  {
    sys' := Appends(cfg, sys, Step.Work(0, id, Start), WorkStarted(id, WorkerOf(id)), id, sc, Starting(sc, id));
  }

  function Underway(cfg: Config, sc: Scene, id: string, base: string): Scene
    requires id in sc.tickets
  {
    sc.(tickets := sc.tickets[id := sc.tickets[id].(status := Running, attempts := sc.tickets[id].attempts + 1)],
        jobs := sc.jobs[id := Working], br := if cfg.opt.prMode then Cut(sc.br, sc.goal, base) else sc.br)
  }

  lemma ClaimedStarts(cfg: Config, sc: Scene, id: string, base: string)
    requires id in sc.tickets
    ensures Starting(Claiming(cfg, sc, id, base), id) == Underway(cfg, sc, id, base)
  {
  }

  /** A ready ticket is claimed, and its worker starts. */
  lemma Takes(cfg: Config, sys: Sys, id: string, base: string, sc: Scene) returns (sys': Sys)
    requires Reached(cfg, sys, sc) && Takeable(cfg, sc, id)
    ensures Reached(cfg, sys', Underway(cfg, sc, id, base))
  {
    sys' := Claims(cfg, sys, id, base, sc);
    sys' := Starts(cfg, sys', id, Claiming(cfg, sc, id, base));
    ClaimedStarts(cfg, sc, id, base);
  }

  function Proposing(sc: Scene, id: string, branch: string): Scene
    requires id in sc.tickets
  {
    sc.(tickets := sc.tickets[id := sc.tickets[id].(status := Proposed, branch := branch)], jobs := sc.jobs - {id})
  }

  lemma ProposesWork(cfg: Config, sys: Sys, id: string, branch: string, sc: Scene) returns (sys': Sys)
    requires Reached(cfg, sys, sc) && id in sc.tickets && sc.tickets[id].status == Running && id in sc.jobs
    requires sc.jobs[id] == Working
    ensures Reached(cfg, sys', Proposing(sc, id, branch))
  {
    sys' := Appends(cfg, sys, Step.Work(0, id, Worker.Proposes(branch, NoCommit, "", "", NO_CHARGE)),
                    ProposalSubmitted(id, WorkerOf(id), branch, NoCommit, "", "", NO_CHARGE), id, sc,
                        Proposing(sc, id, branch));
  }

  /** A worker's subtasks are accepted, as the plan `cs`. */
  lemma SplitsWork(cfg: Config, sys: Sys, id: string, subs: seq<D.Subtask>, sc: Scene) returns (sys': Sys)
    requires Reached(cfg, sys, sc) && id in sc.tickets && id in sc.jobs && sc.jobs[id] == Working
    requires D.Accepts(sys.state, DispatchedAs(sys.state, id), subs, cfg.gov)
    ensures var s := sys.state;
            var plan := D.Begun(s, DispatchedAs(s, id), WorkerOf(id), subs, NO_CHARGE);
            Reached(cfg, sys', sc.(jobs := sc.jobs[id := Splitting(plan)]))
  {
    var s := sys.state;
    var plan := D.Begun(s, DispatchedAs(s, id), WorkerOf(id), subs, NO_CHARGE);
    sys' := Turns(cfg, sys, Step.Work(0, id, Splits(subs, NO_CHARGE)), sc, sc.(jobs := sc.jobs[id := Splitting(plan)]));
  }

  /** Small plans are accepted. */
  lemma SplitsInto(cfg: Config, sys: Sys, p: string, subs: seq<D.Subtask>, ids: map<string, string>, cs: seq<D.Child>,
                   order: seq<string>, sc: Scene)
    returns (sys': Sys)
    requires Roomy(cfg.gov) && Reached(cfg, sys, sc) && p in sc.tickets && p in sc.jobs && sc.jobs[p] == Working
    requires sc.tickets[p].depth < 5
    requires IsLiteral(sys.state, D.Job(p, sc.goal, sc.tickets[p].depth), subs, ids, cs) && |cs| <= 8
    requires |sc.tickets| <= 50
    requires Admissible(D.DependsOn(sys.state), cs, order)
    ensures var plan := D.InFlight(D.Job(p, sc.goal, sc.tickets[p].depth), WorkerOf(p), D.New(cs), D.Ids(cs),
                                   NO_CHARGE);
            Reached(cfg, sys', sc.(jobs := sc.jobs[p := Job.Splitting(plan)]))
  {
    var s, j := sys.state, D.Job(p, sc.goal, sc.tickets[p].depth);
    assert DispatchedAs(s, p) == j;
    LiteralPlan(s, j, subs, ids, cs);
    assert D.DependsOn(s).Keys == sc.tickets.Keys && |D.DependsOn(s)| == |D.DependsOn(s).Keys| &&
        |sc.tickets| == |sc.tickets.Keys|;
    SmallIsAccepted(s, j, subs, cfg.gov, cs, order);
    sys' := SplitsWork(cfg, sys, p, subs, sc);
  }

  lemma CreatesChild(cfg: Config, sys: Sys, id: string, plan: D.InFlight, sc: Scene) returns (sys': Sys)
    requires Reached(cfg, sys, sc) && id in sc.jobs && sc.jobs[id] == Splitting(plan) && plan.todo != []
    requires plan.job.goalId == sc.goal
    requires var c := plan.todo[0]; c.id !in sc.tickets && (c.key == "" || c.key !in sc.keys)
    ensures Reached(cfg, sys', Carried(sc, id, plan))
  {
    sys' := Creates(cfg, sys, Step.Work(0, id, AppendsPlan), D.NextBody(plan), sc, Carried(sc, id, plan));
  }

  lemma CompletesPlan(cfg: Config, sys: Sys, id: string, plan: D.InFlight, sc: Scene) returns (sys': Sys)
    requires Reached(cfg, sys, sc) && id in sc.tickets && id in sc.jobs && sc.jobs[id] == Splitting(plan)
    requires plan.todo == []
    requires plan.job.ticketId == id && plan.charge == NO_CHARGE
    ensures var brief := sc.tickets[id].(status := Decomposed, children := plan.children);
            Reached(cfg, sys', sc.(tickets := sc.tickets[id := brief], jobs := sc.jobs - {id}))
  {
    var sc' := sc.(tickets := sc.tickets[id := sc.tickets[id].(status := Decomposed, children := plan.children)],
                   jobs := sc.jobs - {id});
    CompleteStep(cfg, sys, id, plan, sc);
    sys' := Appends(cfg, sys, Step.Work(0, id, AppendsPlan), D.NextBody(plan), id, sc, sc');
  }

  lemma CompleteStep(cfg: Config, sys: Sys, id: string, plan: D.InFlight, sc: Scene)
    requires Sees(sys, sc) && id in sc.jobs && sc.jobs[id] == Splitting(plan) && plan.todo == []
    ensures Next(cfg, sys, Step.Work(0, id, AppendsPlan)) ==
            Append(sys, 0, "orchestrator", D.NextBody(plan)).(jobs := sc.jobs - {id}, br := sc.br, phase := sc.phase)
  {
  }

  function Shorter(plan: D.InFlight): D.InFlight
    requires plan.todo != []
  {
    plan.(todo := plan.todo[1..])
  }

  /** Each child in turn is of the Goal and new. */
  predicate Creatable(sc: Scene, plan: D.InFlight)
    decreases |plan.todo|
  {
    plan.todo == [] ||
    (var c := plan.todo[0];
     && c.id !in sc.tickets && (c.key == "" || c.key !in sc.keys)
     && Creatable(WithTicket(sc, D.NextBody(plan)), Shorter(plan)))
  }

  /** The scene once a plan is carried out. */
  function Afterwards(sc: Scene, p: string, plan: D.InFlight): (sc': Scene)
    requires p in sc.tickets
    ensures sc' == sc.(order := sc'.order, tickets := sc'.tickets, keys := sc'.keys)
    decreases |plan.todo|
  {
    if plan.todo == []
    then sc.(tickets := sc.tickets[p := sc.tickets[p].(status := Decomposed, children := plan.children)])
    else Afterwards(WithTicket(sc, D.NextBody(plan)), p, Shorter(plan))
  }

  lemma AfterwardsKeepsJobs(sc: Scene, p: string, plan: D.InFlight, jobs: map<string, Job>)
    requires p in sc.tickets
    ensures Afterwards(sc.(jobs := jobs), p, plan) == Afterwards(sc, p, plan).(jobs := jobs)
    decreases |plan.todo|
  {
    if plan.todo != [] {
      AfterwardsKeepsJobs(WithTicket(sc, D.NextBody(plan)), p, Shorter(plan), jobs);
      assert WithTicket(sc.(jobs := jobs), D.NextBody(plan)) == WithTicket(sc, D.NextBody(plan)).(jobs := jobs);
    }
  }

  lemma CreatableKeepsJobs(sc: Scene, plan: D.InFlight, jobs: map<string, Job>)
    ensures Creatable(sc.(jobs := jobs), plan) == Creatable(sc, plan)
    decreases |plan.todo|
  {
    if plan.todo != [] {
      CreatableKeepsJobs(WithTicket(sc, D.NextBody(plan)), Shorter(plan), jobs);
      assert WithTicket(sc.(jobs := jobs), D.NextBody(plan)) == WithTicket(sc, D.NextBody(plan)).(jobs := jobs);
    }
  }

  /** A plan is carried out, one append at a time. */
  lemma {:induction false} CarriesOut(cfg: Config, sys: Sys, p: string, plan: D.InFlight, sc: Scene) returns (sys': Sys)
    requires Reached(cfg, sys, sc) && p in sc.tickets && p in sc.jobs && sc.jobs[p] == Splitting(plan)
    requires Creatable(sc, plan)
    requires plan.job.goalId == sc.goal && plan.job.ticketId == p && plan.charge == NO_CHARGE
    ensures Reached(cfg, sys', Afterwards(sc, p, plan).(jobs := sc.jobs - {p}))
    decreases |plan.todo|
  {
    if plan.todo == [] {
      sys' := CompletesPlan(cfg, sys, p, plan, sc);
    } else {
      OneCarried(sc, p, plan);
      sys' := CreatesChild(cfg, sys, p, plan, sc);
      sys' := CarriesOut(cfg, sys', p, Shorter(plan), Carried(sc, p, plan));
    }
  }

  /** The scene once a plan's next child is created. */
  function Carried(sc: Scene, p: string, plan: D.InFlight): Scene
    requires plan.todo != []
  {
    WithTicket(sc, D.NextBody(plan)).(jobs := sc.jobs[p := Splitting(Shorter(plan))])
  }

  lemma OneCarried(sc: Scene, p: string, plan: D.InFlight)
    requires p in sc.tickets && plan.todo != [] && Creatable(sc, plan)
    ensures Creatable(Carried(sc, p, plan), Shorter(plan)) && p in Carried(sc, p, plan).tickets
    ensures Afterwards(Carried(sc, p, plan), p, Shorter(plan)).(jobs := Carried(sc, p, plan).jobs - {p}) ==
            Afterwards(sc, p, plan).(jobs := sc.jobs - {p})
  {
    var sc', jobs' := WithTicket(sc, D.NextBody(plan)), Carried(sc, p, plan).jobs;
    CreatableKeepsJobs(sc', Shorter(plan), jobs');
    AfterwardsKeepsJobs(sc', p, Shorter(plan), jobs');
    assert jobs' - {p} == sc.jobs - {p};
  }

  // --- The merge queue ---------------------------------------------------------------------------

  function ProposedIn(sc: Scene, order: seq<string>): seq<string> {
    if order == [] then [] else
    var id := order[|order| - 1];
    ProposedIn(sc, order[..|order| - 1]) + if id in sc.tickets && sc.tickets[id].status == Proposed then [id] else []
  }

  predicate QueueIs(q: seq<Ticket>, ids: seq<string>) {
    |q| == |ids| && forall i :: 0 <= i < |q| ==> q[i].origin.id == ids[i]
  }

  lemma {:induction false} QueueLooks(s: State, sc: Scene, order: seq<string>)
    requires TicketsLook(s, sc) && forall id :: id in s.tickets ==> s.tickets[id].origin.id == id
    ensures QueueIs(InOrder(s, order, IsProposed), ProposedIn(sc, order))
  {
    if order != [] {
      QueueLooks(s, sc, order[..|order| - 1]);
      var id := order[|order| - 1];
      assert id in sc.tickets ==> LooksLike(s.tickets[id], sc.goal, sc.tickets[id]);
    }
  }

  lemma Queues(cfg: Config, sys: Sys, sc: Scene) returns (sys': Sys, q: seq<Ticket>)
    requires Reached(cfg, sys, sc) && sc.phase == Resting
    ensures Reached(cfg, sys', sc.(phase := Draining(q, 0, Waiting))) && QueueIs(q, ProposedIn(sc, sc.order))
  {
    forall id | id in sys.state.tickets ensures sys.state.tickets[id].origin.id == id { TicketIsOk(cfg, sys, id); }
    QueueLooks(sys.state, sc, sc.order);
    q := InOrder(sys.state, sys.state.ticketOrder, IsProposed);
    sys' := Turns(cfg, sys, Pass(0, Drains), sc, sc.(phase := Draining(q, 0, Waiting)));
  }

  /** The head of the queue is the ticket as the scene has it. */
  lemma HeadLooks(cfg: Config, sys: Sys, sc: Scene, k: nat)
    requires Reached(cfg, sys, sc) && sc.phase.Draining? && k < |sc.phase.queue|
    ensures var t := sc.phase.queue[k];
            && t.origin.id in sc.tickets && t == sys.state.tickets[t.origin.id] &&
                LooksLike(t, sc.goal, sc.tickets[t.origin.id])
            && sc.tickets[t.origin.id].status == Proposed
  {
    var steps := ReachableRuns(cfg, sys);
    assert sc.phase.queue[k] in sc.phase.queue;
  }

  lemma ClearsHead(cfg: Config, sys: Sys, q: seq<Ticket>, sc: Scene) returns (sys': Sys)
    requires Reached(cfg, sys, sc) && q != [] && sc.phase == Draining(q, 0, Waiting)
    ensures Reached(cfg, sys', sc.(phase := Draining(q, 1, Waiting)))
  {
    HeadLooks(cfg, sys, sc, 0);
    assert !Withdrawn(sys.state, q[0]);
    sys' := Turns(cfg, sys, Pass(0, Clears), sc, sc.(phase := Draining(q, 1, Waiting)));
  }

  /** The only proposal there is. */
  lemma QueuesOnly(cfg: Config, sys: Sys, id: string, sc: Scene) returns (sys': Sys, q: seq<Ticket>)
    requires Reached(cfg, sys, sc) && sc.phase == Resting && ProposedIn(sc, sc.order) == [id]
    ensures |q| == 1 && q[0].origin.id == id && Reached(cfg, sys', sc.(phase := Draining(q, 1, Waiting)))
  {
    sys', q := Queues(cfg, sys, sc);
    sys' := ClearsHead(cfg, sys', q, sc.(phase := Draining(q, 0, Waiting)));
  }

  /** The commit the head of the queue lands as. */
  function LandingOf(cfg: Config, sc: Scene, id: string): Commit
    requires id in sc.tickets
  {
    if cfg.opt.prMode && sc.goal in sc.br.tips then MergeOn(sc.br.tips[sc.goal], sc.tickets[id].branch, 0) else NoCommit
  }

  lemma LandsAsShown(cfg: Config, sys: Sys, q: seq<Ticket>, sc: Scene)
    requires Reached(cfg, sys, sc) && q != [] && sc.phase == Draining(q, 1, Waiting)
    ensures q[0].origin.id in sc.tickets && LandsAs(cfg, sys, q[0], 0, NoCommit) == LandingOf(cfg, sc, q[0].origin.id)
    ensures Parks(cfg.opt, q[0]) <==> cfg.opt.requireApproval && !sc.tickets[q[0].origin.id].approved
  {
    HeadLooks(cfg, sys, sc, 0);
  }

  lemma PassesHead(cfg: Config, sys: Sys, q: seq<Ticket>, sc: Scene) returns (sys': Sys)
    requires Easy(cfg) && Reached(cfg, sys, sc) && q != [] && sc.phase == Draining(q, 1, Waiting)
    requires q[0].origin.id in sc.tickets
    requires cfg.opt.prMode ==> sc.goal in sc.br.tips
    ensures var c := LandingOf(cfg, sc, q[0].origin.id);
            var parks := cfg.opt.requireApproval && !sc.tickets[q[0].origin.id].approved;
            Reached(cfg, sys', sc.(phase := Draining(q, 1, if parks then Parking(c) else Landing(c))))
  {
    LandsAsShown(cfg, sys, q, sc);
    HeadLooks(cfg, sys, sc, 0);
    var c := LandingOf(cfg, sc, q[0].origin.id);
    assert cfg.gate(c);
    var stage := if Parks(cfg.opt, q[0]) then Parking(c) else Landing(c);
    sys' := Turns(cfg, sys, Pass(0, Judges(Outcome.Passes(0, NoCommit))), sc, sc.(phase := Draining(q, 1, stage)));
  }

  /** In pull-request mode the Goal's branch moves. */
  lemma AdvancesHead(cfg: Config, sys: Sys, q: seq<Ticket>, c: Commit, sc: Scene) returns (sys': Sys)
    requires Reached(cfg, sys, sc) && q != [] && sc.phase == Draining(q, 1, Landing(c)) && cfg.opt.prMode
    ensures Reached(cfg, sys', sc.(br := Advance(sc.br, sc.goal, c), phase := Draining(q, 1, Kept(c))))
  {
    HeadLooks(cfg, sys, sc, 0);
    var sc' := sc.(br := Advance(sc.br, sc.goal, c), phase := Draining(q, 1, Kept(c)));
    sys' := Turns(cfg, sys, Pass(0, Proceeds), sc, sc');
  }

  lemma ProceedRecords(cfg: Config, sys: Sys, stage': Stage)
    requires AtHead(sys) && NextStage(sys.phase.stage, stage')
    ensures var t := sys.phase.queue[0];
            Next(cfg, sys, Pass(0, Proceeds)) ==
            Append(sys, 0, "orchestrator", VerificationPassed(t.origin.id, t.worker)).(
              phase := sys.phase.(stage := stage'))
  {
  }

  lemma RecordsPass(cfg: Config, sys: Sys, q: seq<Ticket>, stage: Stage, stage': Stage, sc: Scene) returns (sys': Sys)
    requires Reached(cfg, sys, sc) && q != [] && sc.phase == Draining(q, 1, stage) && NextStage(stage, stage')
    ensures Reached(cfg, sys', sc.(phase := Draining(q, 1, stage')))
  {
    HeadLooks(cfg, sys, sc, 0);
    ProceedRecords(cfg, sys, stage');
    var id := q[0].origin.id;
    var b := VerificationPassed(id, q[0].worker);
    SameBrief(sc, id, b);
    sys' := Appends(cfg, sys, Pass(0, Proceeds), b, id, sc, sc.(phase := Draining(q, 1, stage')));
  }

  lemma SameBrief(sc: Scene, id: string, b: Body)
    requires id in sc.tickets && b.VerificationPassed?
    ensures sc.tickets[id := BriefStep(sc.tickets[id], b)] == sc.tickets
  {
  }

  lemma ProceedMerges(cfg: Config, sys: Sys, c: Commit)
    requires AtHead(sys) && sys.phase.stage == Recorded(c)
    ensures var t, q := sys.phase.queue[0], sys.phase.queue;
            Next(cfg, sys, Pass(0, Proceeds)) ==
            Append(sys, 0, "orchestrator", MergedBody(cfg, t, c)).(
              br := Found(sys.br, t.origin.goalId), phase := Draining(q[1..], sys.phase.clear - 1, Waiting))
  {
  }

  function Recording(sc: Scene, q: seq<Ticket>, c: Commit): Scene
    requires q != [] && q[0].origin.id in sc.tickets
  {
    sc.(tickets := sc.tickets[q[0].origin.id := sc.tickets[q[0].origin.id].(status := MergedIn)],
        merged := c, landed := true, br := Found(sc.br, sc.goal), phase := Draining(q[1..], 0, Waiting))
  }

  lemma MergesHead(cfg: Config, sys: Sys, q: seq<Ticket>, c: Commit, sc: Scene) returns (sys': Sys)
    requires Reached(cfg, sys, sc) && q != [] && sc.phase == Draining(q, 1, Recorded(c)) && cfg.opt.prMode
    requires q[0].origin.id in sc.tickets
    ensures Reached(cfg, sys', Recording(sc, q, c))
  {
    HeadLooks(cfg, sys, sc, 0);
    ProceedMerges(cfg, sys, c);
    var b := MergedBody(cfg, q[0], c);
    assert |GoalBranch(sc.goal)| > 0;
    sys' := MergeLooks(cfg, sys, Pass(0, Proceeds), b, q[0].origin.id, sc, Recording(sc, q, c));
  }

  lemma ParksHead(cfg: Config, sys: Sys, q: seq<Ticket>, c: Commit, sc: Scene) returns (sys': Sys)
    requires Reached(cfg, sys, sc) && q != [] && sc.phase == Draining(q, 1, Parked(c)) && q[0].origin.id in sc.tickets
    ensures var id := q[0].origin.id;
            Reached(cfg, sys', sc.(tickets := sc.tickets[id := sc.tickets[id].(status := Awaiting)],
                                   phase := Draining(q[1..], 0, Waiting)))
  {
    HeadLooks(cfg, sys, sc, 0);
    var id := q[0].origin.id;
    var sc' := sc.(tickets := sc.tickets[id := sc.tickets[id].(status := Awaiting)],
                   phase := Draining(q[1..], 0, Waiting));
    sys' := Appends(cfg, sys, Pass(0, Proceeds), ApprovalRequested(id, q[0].worker, c), id, sc, sc');
  }

  function Rejected(sc: Scene, q: seq<Ticket>, br: Branches): Scene
    requires q != [] && q[0].origin.id in sc.tickets
  {
    sc.(tickets := sc.tickets[q[0].origin.id := sc.tickets[q[0].origin.id].(status := Ready, branch := "")], br := br,
        phase := Draining(q[1..], 0, Waiting))
  }

  lemma RejectsHead(cfg: Config, sys: Sys, q: seq<Ticket>, outcome: Outcome, reason: string, output: string,
                    br: Branches, sc: Scene)
    returns (sys': Sys)
    requires Easy(cfg) && Reached(cfg, sys, sc) && q != [] && sc.phase == Draining(q, 1, Waiting)
    requires q[0].origin.id in sc.tickets
    requires sc.tickets[q[0].origin.id].attempts < 5
    requires JudgeHead(cfg, sys, 0, outcome) == Rejects(cfg, sys, 0, q[0], reason, output).(br := br)
    ensures Reached(cfg, sys', Rejected(sc, q, br))
  {
    HeadLooks(cfg, sys, sc, 0);
    var b := RejectOrFail(cfg.opt, q[0], reason, output);
    assert b.VerificationFailed? && b.ticketId == q[0].origin.id && b.worker == q[0].worker;
    RejectStep(cfg, sys, q, outcome, reason, output, br, sc);
    RejectScene(sc, q, br, b);
    sys' := Appends(cfg, sys, Pass(0, Judges(outcome)), b, q[0].origin.id, sc, Rejected(sc, q, br));
  }

  lemma RejectStep(cfg: Config, sys: Sys, q: seq<Ticket>, outcome: Outcome, reason: string, output: string,
                   br: Branches, sc: Scene)
    requires Sees(sys, sc) && q != [] && sc.phase == Draining(q, 1, Waiting) && q[0].origin.id in sc.tickets
    requires JudgeHead(cfg, sys, 0, outcome) == Rejects(cfg, sys, 0, q[0], reason, output).(br := br)
    ensures var sc' := Rejected(sc, q, br);
            Next(cfg, sys, Pass(0, Judges(outcome))) ==
            Append(sys, 0, "orchestrator", RejectOrFail(cfg.opt, q[0], reason, output)).(
              jobs := sc'.jobs, br := sc'.br, phase := sc'.phase)
  {
    RejectLooks(cfg, sys, q, reason, output, br, sc);
    assert Next(cfg, sys, Pass(0, Judges(outcome))) == JudgeHead(cfg, sys, 0, outcome);
  }

  lemma RejectLooks(cfg: Config, sys: Sys, q: seq<Ticket>, reason: string, output: string, br: Branches, sc: Scene)
    requires Sees(sys, sc) && q != [] && sc.phase == Draining(q, 1, Waiting) && q[0].origin.id in sc.tickets
    ensures var sc' := Rejected(sc, q, br);
            Rejects(cfg, sys, 0, q[0], reason, output).(br := br) ==
            Append(sys, 0, "orchestrator", RejectOrFail(cfg.opt, q[0], reason, output)).(
              jobs := sc'.jobs, br := sc'.br, phase := sc'.phase)
  {
  }

  lemma RejectScene(sc: Scene, q: seq<Ticket>, br: Branches, b: Body)
    requires q != [] && q[0].origin.id in sc.tickets && b.VerificationFailed?
    ensures var sc', id := Rejected(sc, q, br), q[0].origin.id;
            sc' == sc.(tickets := sc.tickets[id := BriefStep(sc.tickets[id], b)], jobs := sc'.jobs, br := sc'.br,
                       phase := sc'.phase)
  {
  }

  lemma GivesUpPass(cfg: Config, sys: Sys, sc: Scene) returns (sys': Sys)
    requires Reached(cfg, sys, sc)
    ensures Reached(cfg, sys', sc.(phase := Resting))
  {
    sys' := Turns(cfg, sys, Pass(0, GivesUp), sc, sc.(phase := Resting));
  }

  lemma Crashes(cfg: Config, sys: Sys, sc: Scene) returns (sys': Sys)
    requires Reached(cfg, sys, sc)
    ensures Reached(cfg, sys', sc.(jobs := map[], phase := Resting))
  {
    sys' := Turns(cfg, sys, Crash, sc, sc.(jobs := map[], phase := Resting));
  }

  function Restarting(id: string): seq<Body> {
    [WorkerStalled(id, WorkerOf(id)), WorkerRestarted(id, WorkerOf(id), "", NO_CHARGE)]
  }

  /** A lost attempt is restarted. */
  lemma Restarts(cfg: Config, sys: Sys, id: string, sc: Scene) returns (sys': Sys)
    requires Reached(cfg, sys, sc) && sc.phase == Resting && id in sc.tickets && sc.tickets[id].status == Running
    requires id !in sc.jobs && sc.tickets[id].branch == ""
    ensures Reached(cfg, sys', Readied(sc, id))
  {
    TicketIsOk(cfg, sys, id);
    RestartDecided(cfg, sys, id, sc);
    sys' := Decides(cfg, sys, RestartsLost(id), Restarting(id), sc);
    sys' := EmitsStalled(cfg, sys', id, Restarting(id), sc.(phase := Emitting(Restarting(id))));
    sys' := EmitsRestart(cfg, sys', id, sc);
    sys' := EmitsNoMore(cfg, sys', Readied(sc, id).(phase := Emitting([])));
  }

  lemma RestartDecided(cfg: Config, sys: Sys, id: string, sc: Scene)
    requires Sees(sys, sc) && id in sc.tickets && sc.tickets[id].status == Running && id !in sc.jobs
    requires TicketOk(id, sys.state.tickets[id])
    ensures Decision(sys, RestartsLost(id)) == Restarting(id)
  {
    assert LooksLike(sys.state.tickets[id], sc.goal, sc.tickets[id]);
  }

  lemma EmitStep(cfg: Config, sys: Sys, todo: seq<Body>)
    requires sys.phase == Emitting(todo) && todo != []
    ensures Next(cfg, sys, Pass(0, Emits)) ==
            Append(sys, 0, "orchestrator", todo[0]).(phase := Emitting(todo[1..]))
  {
  }

  lemma EmitsStalled(cfg: Config, sys: Sys, id: string, todo: seq<Body>, sc: Scene) returns (sys': Sys)
    requires Reached(cfg, sys, sc) && sc.phase == Emitting(todo) && todo != [] && id in sc.tickets
    requires todo[0].WorkerStalled? && todo[0].ticketId == id
    ensures Reached(cfg, sys', sc.(phase := Emitting(todo[1..])))
  {
    EmitStep(cfg, sys, todo);
    assert sc.tickets[id := BriefStep(sc.tickets[id], todo[0])] == sc.tickets;
    sys' := Appends(cfg, sys, Pass(0, Emits), todo[0], id, sc, sc.(phase := Emitting(todo[1..])));
  }

  lemma EmitsRestart(cfg: Config, sys: Sys, id: string, sc: Scene) returns (sys': Sys)
    requires id in sc.tickets && sc.tickets[id].status == Running && sc.tickets[id].branch == ""
    requires Reached(cfg, sys, sc.(phase := Emitting(Restarting(id)[1..])))
    ensures Reached(cfg, sys', Readied(sc, id).(phase := Emitting([])))
  {
    var todo := Restarting(id)[1..];
    TicketIsOk(cfg, sys, id);
    EmitStep(cfg, sys, todo);
    assert todo[1..] == [];
    sys' := Appends(cfg, sys, Pass(0, Emits), todo[0], id, sc.(phase := Emitting(todo)),
                    Readied(sc, id).(phase := Emitting([])));
  }

  // --- The first ticket --------------------------------------------------------------------------

  const NO_SCENE := Scene("", [], map[], map[], NoCommit, false, map[], NO_BRANCHES, Resting)

  lemma StartIsReached(cfg: Config)
    ensures Reachable(cfg, START)
  {
    assert IsTrace(cfg, [START], []);
  }

  lemma SubmittedLooks(g: string, e: Event)
    requires e.body == GoalSubmitted(g, "", "", "", "", "") && e.ts == 0
    ensures LogLooks(Apply(EMPTY, e), NO_LANDINGS, NO_SCENE.(goal := g))
  {
    assert Apply(EMPTY, e) == SubmitGoal(EMPTY, e).(lastSeq := e.num);
  }

  lemma Submits(cfg: Config, g: string) returns (sys: Sys)
    requires D.Slashless(g)
    ensures Reached(cfg, sys, NO_SCENE.(goal := g))
  {
    StartIsReached(cfg);
    var b := GoalSubmitted(g, "", "", "", "", "");
    SubmittedLooks(g, Event(1, 0, "human", b));
    assert Next(cfg, START, Front(0, Submit(g, "", "", "", "", ""))) == Append(START, 0, "human", b);
    sys := Did(cfg, START, Front(0, Submit(g, "", "", "", "", "")), NO_SCENE.(goal := g));
  }

  lemma SweepOne(s: State, id: string, act: (State, string) -> seq<Body>)
    ensures Sweep(s, [id], act) == act(s, id)
  {
    assert [id][..0] == [];
  }

  lemma SweepMore(s: State, order: seq<string>, id: string, act: (State, string) -> seq<Body>)
    ensures Sweep(s, order + [id], act) == Sweep(s, order, act) + act(s, id)
  {
    assert (order + [id])[..|order|] == order;
  }

  lemma SeedDecided(s: State, sc: Scene)
    requires LogLooks(s, NO_LANDINGS, sc) && sc.tickets == map[]
    ensures Sweep(s, [sc.goal], StartGoal) == [G.SeedBody(sc.goal, "Implement: " + s.goals[sc.goal].text)]
  {
    SweepOne(s, sc.goal, StartGoal);
  }

  lemma PromotesLook(s: State, sc: Scene, id: string)
    requires TicketsLook(s, sc) && GoalLooks(s, sc) && id in sc.tickets && s.tickets[id].origin.id == id
    ensures sc.tickets[id].status == Pending && sc.tickets[id].deps == [] ==> Promote(s, id) == [TicketReady(id)]
    ensures sc.tickets[id].status != Pending ==> Promote(s, id) == []
  {
  }

  function Opened(g: string, p: string, status: Status): Scene {
    NO_SCENE.(goal := g, order := [p], tickets := map[p := NewBrief([], 0).(status := status)],
              keys := map[g + ":impl" := p])
  }

  /** A Goal is submitted and its first ticket created. */
  lemma Opens(cfg: Config, g: string, p: string) returns (sys: Sys)
    requires D.Slashless(g) && p == g + "-impl"
    ensures Reached(cfg, sys, Opened(g, p, Pending))
  {
    sys := Submits(cfg, g);
    var sc := NO_SCENE.(goal := g);
    SeedDecided(sys.state, sc);
    var b := G.SeedBody(g, "Implement: " + sys.state.goals[g].text);
    sys := Decides(cfg, sys, StartGoals([g]), [b], sc);
    sys := EmitsSeed(cfg, sys, [b], sc.(phase := Emitting([b])));
    assert |g + ":impl"| > 0;
    sys := EmitsNoMore(cfg, sys, WithTicket(sc, b).(phase := Emitting([])));
    assert WithTicket(sc, b) == Opened(g, p, Pending);
  }

  function Readied(sc: Scene, id: string): Scene
    requires id in sc.tickets
  {
    sc.(tickets := sc.tickets[id := sc.tickets[id].(status := Ready)])
  }

  /** One ticket is all there is to promote. */
  lemma PromotesOne(cfg: Config, sys: Sys, id: string, sc: Scene) returns (sys': Sys)
    requires Reached(cfg, sys, sc) && sc.phase == Resting && id in sc.tickets && sc.tickets[id].status == Pending
    requires Sweep(sys.state, sys.state.ticketOrder, Promote) == [TicketReady(id)]
    ensures Reached(cfg, sys', Readied(sc, id))
  {
    var todo := [TicketReady(id)];
    sys' := Decides(cfg, sys, Promotes, todo, sc);
    sys' := EmitsOne(cfg, sys', id, todo, sc.(phase := Emitting(todo)));
    sys' := EmitsNoMore(cfg, sys', Readied(sc, id).(phase := Emitting([])));
  }

  /** Two are. */
  lemma PromotesTwo(cfg: Config, sys: Sys, id: string, other: string, sc: Scene) returns (sys': Sys)
    requires Reached(cfg, sys, sc) && sc.phase == Resting && id in sc.tickets && other in sc.tickets && id != other
    requires sc.tickets[id].status == Pending && sc.tickets[other].status == Pending
    requires Sweep(sys.state, sys.state.ticketOrder, Promote) == [TicketReady(id), TicketReady(other)]
    ensures Reached(cfg, sys', Readied(Readied(sc, id), other))
  {
    var todo := [TicketReady(id), TicketReady(other)];
    sys' := Decides(cfg, sys, Promotes, todo, sc);
    sys' := EmitsOne(cfg, sys', id, todo, sc.(phase := Emitting(todo)));
    sys' := EmitsOne(cfg, sys', other, todo[1..], Readied(sc, id).(phase := Emitting(todo[1..])));
    sys' := EmitsNoMore(cfg, sys', Readied(Readied(sc, id), other).(phase := Emitting([])));
  }

  /** It is promoted. */
  lemma OpensReady(cfg: Config, g: string, p: string) returns (sys: Sys)
    requires D.Slashless(g) && p == g + "-impl"
    ensures Reached(cfg, sys, Opened(g, p, Ready))
  {
    var sc := Opened(g, p, Pending);
    sys := Opens(cfg, g, p);
    TicketIsOk(cfg, sys, p);
    PromotesLook(sys.state, sc, p);
    SweepOne(sys.state, p, Promote);
    sys := PromotesOne(cfg, sys, p, sc);
    OpenedReady(g, p);
  }

  lemma OpenedReady(g: string, p: string)
    ensures Readied(Opened(g, p, Pending), p) == Opened(g, p, Ready)
  {
  }

  const FIRST_TAKEN := NewBrief([], 0).(status := Running, attempts := 1)

  /** A Goal's first ticket in hand. */
  lemma OpensTaken(cfg: Config, g: string, p: string, base: string) returns (sys: Sys, sc: Scene)
    requires D.Slashless(g) && p == g + "-impl"
    ensures Reached(cfg, sys, sc) && sc == Underway(cfg, Opened(g, p, Ready), p, base)
    ensures sc.tickets == map[p := FIRST_TAKEN] && sc.jobs == map[p := Working]
  {
    sys := OpensReady(cfg, g, p);
    sys := Takes(cfg, sys, p, base, Opened(g, p, Ready));
    sc := Underway(cfg, Opened(g, p, Ready), p, base);
  }

  /** One ticket that waits on nothing. */
  lemma OneIsAlone(s: State, sc: Scene, p: string)
    requires TicketsLook(s, sc) && sc.tickets.Keys == {p} && sc.tickets[p].deps == []
    ensures D.DependsOn(s) == map[p := []] && |sc.tickets| == 1
  {
    GraphLooks(s, sc);
    assert |sc.tickets.Keys| == 1;
  }

  lemma GraphLooks(s: State, sc: Scene)
    requires TicketsLook(s, sc)
    ensures D.DependsOn(s) == map id | id in sc.tickets :: sc.tickets[id].deps
  {
  }
}
