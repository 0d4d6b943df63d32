/** Where Run gives up with its "made no progress" error although nothing failed: runs
    that reach each of the cases. */
module Stalls {
  import opened Events
  import opened Replay
  import opened Digraph
  import opened TaskGraph
  import opened Plans
  import opened Liveness
  import opened Lifecycle
  import opened LiteralPlans
  import S = Scheduler
  import opened Scenes
  import D = Decompose
  import L = LiteralPlans

  // --- A child that waits on its own parent ------------------------------------------------------

  /** A decomposed parent and its one child, which depends on it. */
  ghost predicate OwnParent(s: State, p: string, c: string) {
    && s.tickets.Keys == {p, c} && p != c
    && s.tickets[p].status == Decomposed && s.tickets[p].children == [c] && s.tickets[p].origin.dependsOn == []
    && s.tickets[c].status == Pending && s.tickets[c].origin.dependsOn == [p]
    && s.tickets[p].activeWorkers == [] && s.tickets[c].activeWorkers == []
    && forall g :: g in s.goals ==> !s.goals[g].cancelled && GoalHasTickets(s, g)
  }

  lemma OwnParentIsAcyclic(s: State, p: string, c: string)
    requires OwnParent(s, p, c)
    ensures !Cyclic(D.DependsOn(s))
  {
    var g := D.DependsOn(s);
    Finish(g, [], p);
    assert [] + [p] == [p];
    Finish(g, [p], c);
    FinishedHasNoCycle(g, [p] + [c]);
  }

  lemma OwnParentWaits(s: State, p: string, c: string)
    requires OwnParent(s, p, c)
    ensures Cyclic(Waiting(s)) && Closed(s)
  {
    var g := Waiting(s);
    assert s.tickets[p].origin.dependsOn + [c] == [c] && s.tickets[c].origin.dependsOn + [] == [p];
    assert g[p] == [c] && g[c] == [p];
    assert Edge(g, p, c) && Edge(g, c, p);
    assert IsCycle(g, [p, c, p]);
  }

  lemma OwnParentVerdicts(s: State, p: string, c: string)
    requires OwnParent(s, p, c)
    ensures !Complete(s, c) && !Complete(s, p) && !Dead(s, c) && !Dead(s, p)
  {
    assert c in s.tickets[p].children;
  }

  lemma OwnParentIsQuiet(opt: Options, s: State, p: string, c: string, now: int)
    requires OwnParent(s, p, c)
    ensures QuietOn(opt, s, p, now) && QuietOn(opt, s, c, now)
  {
    OwnParentVerdicts(s, p, c);
    assert s.tickets[c].origin.dependsOn[0] == p;
    assert !Promotable(s, s.tickets[c]) && !IsBlocked(s, s.tickets[c]);
  }

  lemma OwnParentAllQuiet(opt: Options, s: State, p: string, c: string, now: int)
    requires OwnParent(s, p, c)
    ensures Quiet(opt, s, now)
  {
    OwnParentIsQuiet(opt, s, p, c, now);
    forall id | id in s.tickets ensures QuietOn(opt, s, id, now) { assert id == p || id == c; }
  }

  lemma PendingIsStuck(opt: Options, s: State, c: string, later: int)
    requires HasStatus(s, c, Pending)
    requires forall id :: id in s.tickets ==>
               s.tickets[id].activeWorkers == [] &&
               (s.tickets[id].status == Pending || s.tickets[id].status == Decomposed)
    ensures AfterPass(opt, s, s.lastSeq, false, false, later) == Stuck
  {
  }

  lemma OwnParentIsStuck(opt: Options, s: State, p: string, c: string, later: int)
    requires OwnParent(s, p, c)
    ensures AfterPass(opt, s, s.lastSeq, false, false, later) == Stuck
  {
    forall id | id in s.tickets ensures id == p || id == c {}
    PendingIsStuck(opt, s, c, later);
  }

  /** The cycle check lets a child name its parent, since it reads dependencies
      only; then neither ever completes, and Run gives up with its error. */
  lemma OwnParentHangs(opt: Options, s: State, p: string, c: string, now: int, later: int)
    requires OwnParent(s, p, c)
    ensures !Cyclic(D.DependsOn(s)) && Closed(s) && Quiet(opt, s, now) && NoneLive(s)
    ensures AfterPass(opt, s, s.lastSeq, false, false, later) == Stuck
  {
    OwnParentIsAcyclic(s, p, c);
    OwnParentWaits(s, p, c);
    OwnParentIsStuck(opt, s, p, c, later);
    OwnParentAllQuiet(opt, s, p, c, now);
    forall id | id in s.tickets ensures id == p || id == c {}
  }

  /** What makes it quiet, in the terms of a scene. */
  lemma SceneIsLive(cfg: S.Config, sys: S.Sys, sc: Scene)
    requires Reached(cfg, sys, sc)
    requires forall id :: id in sc.tickets ==> sc.tickets[id].status != Claimed && sc.tickets[id].status != Running
    ensures NoneLive(sys.state)
  {
    forall id | id in sys.state.tickets
      ensures sys.state.tickets[id].activeWorkers == []
    {
      TicketIsOk(cfg, sys, id);
    }
  }

  // --- A run in which a child waits on its own parent --------------------------------------------

  lemma WaitingOnParent(s: State, sc: Scene, p: string, c: string)
    requires TicketsLook(s, sc) && sc.tickets == map[p := FIRST_TAKEN] && p != c
    ensures Admissible(D.DependsOn(s), [L.Kid(c, [p])], [p, c])
  {
    var g, cs := D.DependsOn(s), [L.Kid(c, [p])];
    GraphLooks(s, sc);
    assert g == map[p := []];
    assert cs[..0] == [] && D.NewEdges(cs) == map[c := [p]];
    var all := D.Joined(g, D.NewEdges(cs));
    JoinFresh(g, map[c := [p]]);
    assert all == map[p := [], c := [p]];
    Finish(all, [], p);
    assert [] + [p] == [p];
    Finish(all, [p], c);
    assert [p] + [c] == [p, c];
  }

  lemma OwnParentPlan(s: State, j: D.Job, local: string, c: string)
    requires local != "" && j.ticketId != local && c == D.ChildId(j.ticketId, local)
    ensures var subs, cs := [L.Sub(local, [j.ticketId])], [L.Kid(c, [j.ticketId])];
            IsLiteral(s, j, subs, map[local := c], cs) && D.New(cs) == cs && D.Ids(cs) == [c]
  {
    L.OneChild(j, local, j.ticketId);
  }

  lemma OwnParentLooks(cfg: S.Config, sys: S.Sys, sc: Scene, p: string, c: string)
    requires Reached(cfg, sys, sc) && p != c && sc.tickets.Keys == {p, c}
    requires sc.tickets[p].status == Decomposed && sc.tickets[p].children == [c] && sc.tickets[p].deps == []
    requires sc.tickets[c] == NewBrief([p], sc.tickets[c].depth)
    ensures OwnParent(sys.state, p, c)
  {
    TicketIsOk(cfg, sys, p);
    TicketIsOk(cfg, sys, c);
  }

  /** The cycle check accepts a child that names its own parent, and a run gets there. */
  lemma OwnParentHappens(cfg: S.Config, g: string, base: string) returns (sys: S.Sys, p: string, c: string)
    requires Roomy(cfg.gov) && D.Slashless(g)
    ensures Reachable(cfg, sys) && OwnParent(sys.state, p, c)
  {
    p, c := g + "-impl", D.ChildId(g + "-impl", "c");
    var sc;
    sys, sc := OpensTaken(cfg, g, p, base);
    assert |c| > |p|;
    sys := ChildOfOwnParent(cfg, sys, p, c, "c", sc);
  }

  function ParentPlan(g: string, p: string, c: string): D.InFlight {
    D.InFlight(D.Job(p, g, 0), WorkerOf(p), [L.Kid(c, [p])], [c], NO_CHARGE)
  }

  lemma AcceptsOwnParent(cfg: S.Config, sys: S.Sys, p: string, c: string, local: string, sc: Scene)
    returns (sys': S.Sys)
    requires Roomy(cfg.gov) && Reached(cfg, sys, sc) && p in sc.jobs && sc.jobs[p] == S.Job.Working
    requires sc.tickets == map[p := FIRST_TAKEN]
    requires local != "" && p != local && p != c && c == D.ChildId(p, local)
    ensures Reached(cfg, sys', sc.(jobs := sc.jobs[p := S.Splitting(ParentPlan(sc.goal, p, c))]))
  {
    OwnParentPlan(sys.state, D.Job(p, sc.goal, 0), local, c);
    WaitingOnParent(sys.state, sc, p, c);
    assert |sc.tickets.Keys| == 1 && |sc.tickets| == |sc.tickets.Keys|;
    sys' := SplitsInto(cfg, sys, p, [L.Sub(local, [p])], map[local := c], [L.Kid(c, [p])], [p, c], sc);
  }

  /** The scene once the child is created. */
  lemma ParentScene(sc: Scene, p: string, c: string)
    requires sc.tickets == map[p := FIRST_TAKEN] && p != c
    ensures var plan := ParentPlan(sc.goal, p, c);
            && Creatable(sc, plan)
            && Afterwards(sc, p, plan).tickets ==
               map[p := NewBrief([], 0).(status := Decomposed, attempts := 1, children := [c]), c := NewBrief([p], 1)]
  {
    var plan := ParentPlan(sc.goal, p, c);
    var sc' := WithTicket(sc, D.NextBody(plan));
    assert plan.todo[0] == L.Kid(c, [p]) && Shorter(plan).todo == [];
    assert Creatable(sc', Shorter(plan));
    assert Afterwards(sc, p, plan) == Afterwards(sc', p, Shorter(plan));
  }

  lemma ChildOfOwnParent(cfg: S.Config, sys: S.Sys, p: string, c: string, local: string, sc: Scene)
    returns (sys': S.Sys)
    requires Roomy(cfg.gov) && Reached(cfg, sys, sc) && p in sc.jobs && sc.jobs[p] == S.Job.Working
    requires sc.tickets == map[p := FIRST_TAKEN]
    requires local != "" && p != local && p != c && c == D.ChildId(p, local)
    ensures Reachable(cfg, sys') && OwnParent(sys'.state, p, c)
  {
    var plan := ParentPlan(sc.goal, p, c);
    var sc' := sc.(jobs := sc.jobs[p := S.Splitting(plan)]);
    ParentScene(sc', p, c);
    sys' := AcceptsOwnParent(cfg, sys, p, c, local, sc);
    sys' := CarriesOut(cfg, sys', p, plan, sc');
    OwnParentLooks(cfg, sys', Afterwards(sc', p, plan).(jobs := sc'.jobs - {p}), p, c);
  }

  /** So Run gives up on a run in which nothing failed and no dependency is circular. */
  lemma OwnParentStalls(cfg: S.Config, g: string, base: string, now: int, later: int) returns (steps: seq<S.Step>)
    requires Roomy(cfg.gov) && D.Slashless(g)
    ensures var s := S.Run(cfg, steps).state;
            && !Cyclic(D.DependsOn(s)) && Closed(s) && Quiet(cfg.opt, s, now) && NoneLive(s)
            && AfterPass(cfg.opt, s, s.lastSeq, false, false, later) == Stuck
  {
    var sys, p, c := OwnParentHappens(cfg, g, base);
    steps := ReachableRuns(cfg, sys);
    OwnParentHangs(cfg.opt, sys.state, p, c, now, later);
  }

  // --- A run whose backoff runs out between the pass and the check -------------------------------

  /** One ticket, proposed once. */
  function Tried(status: Status, branch: string): Brief {
    NewBrief([], 0).(status := status, branch := branch, attempts := 1)
  }

  /** One ticket, its first attempt waiting in the queue. */
  lemma QueuedOnce(cfg: S.Config, g: string, p: string, base: string, branch: string)
    returns (sys: S.Sys, q: seq<Ticket>, sc: Scene)
    requires Easy(cfg) && D.Slashless(g) && p == g + "-impl" && !cfg.opt.prMode
    ensures Reached(cfg, sys, sc) && |q| == 1 && q[0].origin.id == p && sc.phase == S.Draining(q, 1, S.Stage.Waiting)
    ensures sc.goal == g && sc.tickets == map[p := Tried(Proposed, branch)]
  {
    sys, sc := OpensTaken(cfg, g, p, base);
    sys := ProposesWork(cfg, sys, p, branch, sc);
    sc := Proposing(sc, p, branch);
    assert sc.tickets == map[p := Tried(Proposed, branch)];
    OneProposed(sc, p);
    sys, q := QueuesOnly(cfg, sys, p, sc);
    sc := sc.(phase := S.Draining(q, 1, S.Stage.Waiting));
  }

  lemma OneProposed(sc: Scene, p: string)
    requires p in sc.tickets && sc.tickets[p].status == Proposed
    ensures ProposedIn(sc, [p]) == [p]
  {
    assert [p][..0] == [];
    assert ProposedIn(sc, []) == [];
  }

  lemma RefusesHead(cfg: S.Config, sys: S.Sys, q: seq<Ticket>, reason: string, sc: Scene) returns (sys': S.Sys)
    requires Easy(cfg) && Reached(cfg, sys, sc) && q != [] && sc.phase == S.Draining(q, 1, S.Stage.Waiting)
    requires !cfg.opt.prMode
    requires q[0].origin.id in sc.tickets && sc.tickets[q[0].origin.id].attempts < 5
    ensures Reached(cfg, sys', Rejected(sc, q, sc.br))
  {
    sys' := RejectsHead(cfg, sys, q, S.Refuses(reason, ""), reason, "", sc.br, sc);
  }

  /** A ticket refused once is ready, and serves its backoff. */
  lemma RefusedOnce(cfg: S.Config, g: string, p: string, base: string, branch: string) returns (sys: S.Sys, sc: Scene)
    requires Easy(cfg) && D.Slashless(g) && p == g + "-impl" && !cfg.opt.prMode
    ensures Reached(cfg, sys, sc) && sc.goal == g && sc.tickets == map[p := Tried(Ready, "")]
  {
    var q;
    sys, q, sc := QueuedOnce(cfg, g, p, base, branch);
    sys := RefusesHead(cfg, sys, q, "", sc);
    sys := GivesUpPass(cfg, sys, Rejected(sc, q, sc.br));
    sc := Rejected(sc, q, sc.br).(phase := S.Resting);
  }

  lemma BackoffTimes(opt: Options, t: Ticket)
    requires t.attempts == 1 && t.lastActivity == 0 && opt.retryBackoff > 0
    ensures BackingOff(opt, t, 0) && !BackingOff(opt, t, opt.retryBackoff)
  {
    assert BackoffFor(opt.retryBackoff, 1) == opt.retryBackoff * Shift(0) && Shift(0) == 1;
  }

  /** One ticket is all there is, and it serves its backoff. */
  ghost predicate OnlyRetry(opt: Options, s: State, g: string, p: string) {
    && s.goals.Keys == {g} && !s.goals[g].cancelled && s.tickets.Keys == {p} && s.tickets[p].origin.goalId == g
    && s.tickets[p].status == Ready && s.tickets[p].activeWorkers == [] && s.tickets[p].origin.dependsOn == []
    && opt.retryBackoff > 0 && BackingOff(opt, s.tickets[p], 0)
  }

  lemma OnlyRetryIsQuiet(opt: Options, s: State, g: string, p: string)
    requires OnlyRetry(opt, s, g, p)
    ensures Quiet(opt, s, 0)
  {
    assert GoalHasTickets(s, g);
    assert !HasDeadDependency(s, s.tickets[p]);
    assert QuietOn(opt, s, p, 0);
  }

  lemma OnlyRetryBlocks(opt: Options, s: State, g: string, p: string)
    requires OnlyRetry(opt, s, g, p)
    ensures BackoffBlocks(opt, s, 0) && !Settled(s) && !OnlyParked(s)
  {
    assert Startable(s, s.tickets[p]);
  }

  lemma BackoffLooks(opt: Options, s: State, sc: Scene, p: string)
    requires TicketsLook(s, sc) && GoalLooks(s, sc) && sc.tickets == map[p := Tried(Ready, "")]
    requires TicketOk(p, s.tickets[p]) && opt.retryBackoff > 0
    ensures OnlyRetry(opt, s, sc.goal, p) && BackoffRanOut(opt, s, p, opt.retryBackoff)
  {
    assert LooksLike(s.tickets[p], sc.goal, Tried(Ready, ""));
    BackoffTimes(opt, s.tickets[p]);
  }

  lemma BackoffIsStuck(opt: Options, s: State, g: string, p: string)
    requires NoneLive(s) && OnlyRetry(opt, s, g, p) && BackoffRanOut(opt, s, p, opt.retryBackoff)
    ensures Quiet(opt, s, 0)
    ensures AfterPass(opt, s, s.lastSeq, false, false, opt.retryBackoff) == Stuck
    ensures AfterPass(opt, s, s.lastSeq, false, false, 0) == WaitForBackoff
  {
    OnlyRetryIsQuiet(opt, s, g, p);
    OnlyRetryBlocks(opt, s, g, p);
    StuckExactly(opt, s, 0, opt.retryBackoff);
  }

  /** A retry's backoff holds it back during the pass; at the check after the pass Run
      waits for it, unless it has run out by then: then Run gives up. */
  lemma BackoffStalls(cfg: S.Config, g: string, base: string) returns (steps: seq<S.Step>)
    requires Easy(cfg) && D.Slashless(g) && !cfg.opt.prMode && cfg.opt.retryBackoff > 0
    ensures var s := S.Run(cfg, steps).state;
            && Quiet(cfg.opt, s, 0) && NoneLive(s)
            && AfterPass(cfg.opt, s, s.lastSeq, false, false, 0) == WaitForBackoff
            && AfterPass(cfg.opt, s, s.lastSeq, false, false, cfg.opt.retryBackoff) == Stuck
  {
    var sys, sc := RefusedOnce(cfg, g, g + "-impl", base, "");
    steps := ReachableRuns(cfg, sys);
    RetryIsStuck(cfg, sys, g, g + "-impl", sc);
  }

  lemma RetryIsStuck(cfg: S.Config, sys: S.Sys, g: string, p: string, sc: Scene)
    requires Reached(cfg, sys, sc) && sc.goal == g && sc.tickets == map[p := Tried(Ready, "")]
    requires cfg.opt.retryBackoff > 0
    ensures var s := sys.state;
            && Quiet(cfg.opt, s, 0) && NoneLive(s)
            && AfterPass(cfg.opt, s, s.lastSeq, false, false, 0) == WaitForBackoff
            && AfterPass(cfg.opt, s, s.lastSeq, false, false, cfg.opt.retryBackoff) == Stuck
  {
    TicketIsOk(cfg, sys, p);
    SceneIsLive(cfg, sys, sc);
    BackoffLooks(cfg.opt, sys.state, sc, p);
    BackoffIsStuck(cfg.opt, sys.state, g, p);
  }

  // --- A run with a ticket behind a parked one ---------------------------------------------------

  /** The first of two children waits on the second. */
  function Pair(a: string, b: string): map<string, Brief> { map[a := NewBrief([b], 1), b := NewBrief([], 1)] }

  function Parent(children: seq<string>): Brief {
    NewBrief([], 0).(status := Decomposed, attempts := 1, children := children)
  }

  lemma PairOrder(p: string, a: string, b: string)
    requires p != a && p != b && a != b
    ensures Finished(map[p := [], a := [b], b := []], [p, b, a])
  {
    var all: Graph := map[p := [], a := [b], b := []];
    Finish(all, [], p);
    assert [] + [p] == [p];
    Finish(all, [p], b);
    assert [p] + [b] == [p, b];
    Finish(all, [p, b], a);
    assert [p, b] + [a] == [p, b, a];
  }

  lemma PairAdmissible(g: Graph, p: string, a: string, b: string)
    requires g == map[p := []] && p != a && p != b && a != b
    ensures Admissible(g, L.Pair(a, b), [p, b, a])
    ensures D.New(L.Pair(a, b)) == L.Pair(a, b) && D.Ids(L.Pair(a, b)) == [a, b]
  {
    var cs := L.Pair(a, b);
    L.PairOfChildren(L.Kid(a, [b]), L.Kid(b, []));
    JoinFresh(g, map[a := [b], b := []]);
    assert D.Joined(g, D.NewEdges(cs)) == map[p := [], a := [b], b := []];
    PairOrder(p, a, b);
    assert D.Ids(cs)[1] == b;
  }

  function PairPlan(g: string, p: string, a: string, b: string): D.InFlight {
    D.InFlight(D.Job(p, g, 0), WorkerOf(p), L.Pair(a, b), [a, b], NO_CHARGE)
  }

  lemma AcceptsPair(cfg: S.Config, sys: S.Sys, p: string, a: string, b: string, la: string, lb: string, sc: Scene)
    returns (sys': S.Sys)
    requires Easy(cfg) && Reached(cfg, sys, sc) && p in sc.jobs && sc.jobs[p] == S.Job.Working
    requires sc.tickets == map[p := FIRST_TAKEN]
    requires la != "" && lb != "" && la != lb && p != a && p != b && a != b && a == D.ChildId(p, la)
    requires b == D.ChildId(p, lb)
    ensures Reached(cfg, sys', sc.(jobs := sc.jobs[p := S.Splitting(PairPlan(sc.goal, p, a, b))]))
  {
    L.TwoChildren(D.Job(p, sc.goal, 0), la, lb, a, b);
    OneIsAlone(sys.state, sc, p);
    PairAdmissible(D.DependsOn(sys.state), p, a, b);
    sys' := SplitsInto(cfg, sys, p, L.PairSubs(la, lb), map[la := a, lb := b], L.Pair(a, b), [p, b, a], sc);
  }

  lemma PairScene(sc: Scene, p: string, a: string, b: string)
    requires sc.tickets == map[p := FIRST_TAKEN] && p != a && p != b && a != b
    ensures var plan := PairPlan(sc.goal, p, a, b);
            && Creatable(sc, plan)
            && Afterwards(sc, p, plan).tickets == Pair(a, b)[p := Parent([a, b])]
            && Afterwards(sc, p, plan).order == sc.order + [a] + [b]
  {
    var plan := PairPlan(sc.goal, p, a, b);
    var plan1 := Shorter(plan);
    var sc1 := WithTicket(sc, D.NextBody(plan));
    var sc2 := WithTicket(sc1, D.NextBody(plan1));
    assert plan.todo[0] == L.Kid(a, [b]) && plan1.todo == [L.Kid(b, [])] && Shorter(plan1).todo == [];
    assert Creatable(sc2, Shorter(plan1)) && Creatable(sc1, plan1);
    assert Afterwards(sc, p, plan) == Afterwards(sc1, p, plan1) == Afterwards(sc2, p, Shorter(plan1));
  }

  lemma SplitsPair(cfg: S.Config, sys: S.Sys, p: string, a: string, b: string, la: string, lb: string, sc: Scene)
    returns (sys': S.Sys, sc': Scene)
    requires Easy(cfg) && Reached(cfg, sys, sc) && sc.tickets == map[p := FIRST_TAKEN]
    requires sc.jobs == map[p := S.Job.Working]
    requires sc.order == [p] && p != a && p != b && a != b
    requires la != "" && lb != "" && la != lb && a == D.ChildId(p, la) && b == D.ChildId(p, lb)
    ensures Reached(cfg, sys', sc') && sc'.goal == sc.goal && sc'.order == [p, a, b]
    ensures sc'.tickets == Pair(a, b)[p := Parent([a, b])]
    ensures sc'.jobs == map[] && sc'.phase == sc.phase
  {
    sys' := AcceptsPair(cfg, sys, p, a, b, la, lb, sc);
    sys', sc' := PairCarriedOut(cfg, sys', p, a, b, sc.(jobs := map[p := S.Splitting(PairPlan(sc.goal, p, a, b))]));
    assert [p] + [a] + [b] == [p, a, b];
  }

  lemma PairCarriedOut(cfg: S.Config, sys: S.Sys, p: string, a: string, b: string, sc: Scene)
    returns (sys': S.Sys, sc': Scene)
    requires Reached(cfg, sys, sc) && sc.tickets == map[p := FIRST_TAKEN] && p != a && p != b && a != b
    requires sc.jobs == map[p := S.Splitting(PairPlan(sc.goal, p, a, b))]
    ensures Reached(cfg, sys', sc') && sc'.goal == sc.goal && sc'.order == sc.order + [a] + [b]
    ensures sc'.tickets == Pair(a, b)[p := Parent([a, b])]
    ensures sc'.jobs == map[] && sc'.phase == sc.phase
  {
    var plan := PairPlan(sc.goal, p, a, b);
    PairScene(sc, p, a, b);
    sys' := CarriesOut(cfg, sys, p, plan, sc);
    sc' := Afterwards(sc, p, plan).(jobs := sc.jobs - {p});
  }

  /** A ticket split into two, the first child waiting on the second. */
  lemma SplitsInTwo(cfg: S.Config, g: string, p: string, a: string, b: string, la: string, lb: string, base: string)
    returns (sys: S.Sys, sc: Scene)
    requires Easy(cfg) && D.Slashless(g) && p == g + "-impl" && p != a && p != b && a != b
    requires la != "" && lb != "" && la != lb && a == D.ChildId(p, la) && b == D.ChildId(p, lb)
    ensures Reached(cfg, sys, sc) && sc.goal == g && sc.order == [p, a, b]
    ensures sc.tickets == Pair(a, b)[p := Parent([a, b])]
    ensures sc.jobs == map[] && sc.phase == S.Resting
  {
    sys, sc := OpensTaken(cfg, g, p, base);
    sys, sc := SplitsPair(cfg, sys, p, a, b, la, lb, sc);
  }

  lemma OnlySecondPromotes(s: State, sc: Scene, p: string, a: string, b: string)
    requires TicketsLook(s, sc) && GoalLooks(s, sc) && sc.order == [p, a, b]
    requires sc.tickets == Pair(a, b)[p := Parent([a, b])]
    requires p != a && p != b && a != b && forall id :: id in s.tickets ==> s.tickets[id].origin.id == id
    ensures Sweep(s, s.ticketOrder, Promote) == [TicketReady(b)]
  {
    PromotesLook(s, sc, p);
    PromotesLook(s, sc, b);
    assert LooksLike(s.tickets[a], sc.goal, sc.tickets[a]) && LooksLike(s.tickets[b], sc.goal, sc.tickets[b]);
    assert !Complete(s, b) && s.tickets[a].origin.dependsOn[0] == b;
    assert Promote(s, a) == [];
    SweepOne(s, p, Promote);
    SweepMore(s, [p], a, Promote);
    SweepMore(s, [p, a], b, Promote);
    assert [p] + [a] == [p, a] && [p, a] + [b] == [p, a, b];
  }

  /** The tickets while the second child is on its way. */
  function WithSecond(p: string, a: string, b: string, second: Brief): map<string, Brief> {
    map[p := Parent([a, b]), a := NewBrief([b], 1), b := second]
  }

  lemma SecondMoves(p: string, a: string, b: string, x: Brief, y: Brief)
    requires p != a && p != b && a != b
    ensures WithSecond(p, a, b, x)[b := y] == WithSecond(p, a, b, y) && WithSecond(p, a, b, x)[b] == x
    ensures WithSecond(p, a, b, x).Keys == {p, a, b}
  {
  }

  lemma PairIsWithSecond(p: string, a: string, b: string)
    requires p != a && p != b && a != b
    ensures Pair(a, b)[p := Parent([a, b])] == WithSecond(p, a, b, NewBrief([], 1))
  {
  }

  lemma SecondIsSwept(cfg: S.Config, sys: S.Sys, p: string, a: string, b: string, sc: Scene)
    requires Reached(cfg, sys, sc) && sc.order == [p, a, b] && sc.tickets == Pair(a, b)[p := Parent([a, b])] && p != a
    requires p != b && a != b
    ensures Sweep(sys.state, sys.state.ticketOrder, Promote) == [TicketReady(b)]
  {
    forall id | id in sys.state.tickets ensures sys.state.tickets[id].origin.id == id { TicketIsOk(cfg, sys, id); }
    OnlySecondPromotes(sys.state, sc, p, a, b);
  }

  lemma PromotesSecond(cfg: S.Config, sys: S.Sys, p: string, a: string, b: string, sc: Scene)
    returns (sys': S.Sys, sc': Scene)
    requires Reached(cfg, sys, sc) && sc.order == [p, a, b] && sc.tickets == Pair(a, b)[p := Parent([a, b])]
    requires p != a && p != b && a != b && sc.phase == S.Resting
    ensures Reached(cfg, sys', sc') && sc' == sc.(tickets := WithSecond(p, a, b, NewBrief([], 1).(status := Ready)))
  {
    var brief := NewBrief([], 1);
    SecondIsSwept(cfg, sys, p, a, b, sc);
    PairIsWithSecond(p, a, b);
    SecondMoves(p, a, b, brief, brief.(status := Ready));
    sys' := PromotesOne(cfg, sys, b, sc);
    sc' := Readied(sc, b);
  }

  /** The second child is taken, proposed, and at the head of the queue. */
  lemma SecondQueued(cfg: S.Config, sys: S.Sys, p: string, a: string, b: string, base: string, branch: string,
                     sc: Scene)
    returns (sys': S.Sys, q: seq<Ticket>, sc': Scene)
    requires Reached(cfg, sys, sc) && sc.order == [p, a, b]
    requires sc.tickets == WithSecond(p, a, b, NewBrief([], 1).(status := Ready))
    requires p != a && p != b && a != b && sc.jobs == map[] && sc.phase == S.Resting
    ensures Reached(cfg, sys', sc') && |q| == 1 && q[0].origin.id == b && sc'.phase == S.Draining(q, 1, S.Stage.Waiting)
    ensures sc'.tickets == WithSecond(p, a, b, NewBrief([], 1).(status := Proposed, branch := branch, attempts := 1))
  {
    SecondRuns(cfg, p, a, b, base, sc);
    sys' := Takes(cfg, sys, b, base, sc);
    sys', q, sc' := SecondProposed(cfg, sys', p, a, b, branch, Underway(cfg, sc, b, base));
    SecondMoves(p, a, b, SecondRunning(), SecondRunning().(status := Proposed, branch := branch));
  }

  function SecondRunning(): Brief { NewBrief([], 1).(status := Running, attempts := 1) }

  lemma SecondRuns(cfg: S.Config, p: string, a: string, b: string, base: string, sc: Scene)
    requires sc.tickets == WithSecond(p, a, b, NewBrief([], 1).(status := Ready)) && p != a && p != b && a != b
    requires sc.jobs == map[] && sc.phase == S.Resting
    ensures Takeable(cfg, sc, b)
    ensures Underway(cfg, sc, b, base).tickets == WithSecond(p, a, b, SecondRunning())
    ensures Underway(cfg, sc, b, base).jobs == map[b := S.Job.Working]
  {
    SecondMoves(p, a, b, NewBrief([], 1).(status := Ready), SecondRunning());
  }

  lemma SecondProposed(cfg: S.Config, sys: S.Sys, p: string, a: string, b: string, branch: string, sc: Scene)
    returns (sys': S.Sys, q: seq<Ticket>, sc': Scene)
    requires Reached(cfg, sys, sc) && sc.order == [p, a, b] && sc.tickets.Keys == {p, a, b} && p != a && p != b
    requires a != b
    requires sc.tickets[p].status == Decomposed && sc.tickets[a].status == Pending && sc.tickets[b].status == Running
    requires b in sc.jobs && sc.jobs[b] == S.Job.Working && sc.phase == S.Resting
    ensures Reached(cfg, sys', sc') && |q| == 1 && q[0].origin.id == b && sc'.phase == S.Draining(q, 1, S.Stage.Waiting)
    ensures sc'.goal == sc.goal && sc'.tickets == sc.tickets[b := sc.tickets[b].(status := Proposed, branch := branch)]
  {
    sys' := ProposesWork(cfg, sys, b, branch, sc);
    sc' := Proposing(sc, b, branch);
    OnlyThird(sc', p, a, b);
    sys', q := QueuesOnly(cfg, sys', b, sc');
    sc' := sc'.(phase := S.Draining(q, 1, S.Stage.Waiting));
  }

  lemma OnlyThird(sc: Scene, p: string, a: string, b: string)
    requires sc.tickets.Keys == {p, a, b} && p != a && p != b && a != b
    requires sc.tickets[p].status != Proposed && sc.tickets[a].status != Proposed && sc.tickets[b].status == Proposed
    ensures ProposedIn(sc, [p, a, b]) == [b]
  {
    assert [p, a, b][..2] == [p, a] && [p, a][..1] == [p] && [p][..0] == [];
    assert ProposedIn(sc, [p]) == [] && ProposedIn(sc, [p, a]) == [];
  }

  /** The head of the queue passes and is parked. */
  lemma ParksIt(cfg: S.Config, sys: S.Sys, q: seq<Ticket>, sc: Scene) returns (sys': S.Sys, sc': Scene)
    requires Easy(cfg) && Reached(cfg, sys, sc) && q != [] && sc.phase == S.Draining(q, 1, S.Stage.Waiting)
    requires q[0].origin.id in sc.tickets && !sc.tickets[q[0].origin.id].approved && cfg.opt.requireApproval
    requires !cfg.opt.prMode
    ensures Reached(cfg, sys', sc') && sc'.goal == sc.goal
    ensures sc'.tickets == sc.tickets[q[0].origin.id := sc.tickets[q[0].origin.id].(status := Awaiting)]
  {
    var c := LandingOf(cfg, sc, q[0].origin.id);
    sys' := PassesHead(cfg, sys, q, sc);
    sc' := sc.(phase := S.Draining(q, 1, S.Parking(c)));
    sys' := RecordsPass(cfg, sys', q, S.Parking(c), S.Parked(c), sc');
    sc' := sc.(phase := S.Draining(q, 1, S.Parked(c)));
    sys' := ParksHead(cfg, sys', q, c, sc');
    sc' := sc'.(tickets := sc.tickets[q[0].origin.id := sc.tickets[q[0].origin.id].(status := Awaiting)],
                phase := S.Draining(q[1..], 0, S.Stage.Waiting));
  }

  /** A parent, a child parked for approval, and another waiting on it. */
  ghost predicate BehindParked(s: State, p: string, a: string, b: string) {
    && s.tickets.Keys == {p, a, b} && p != a && p != b && a != b
    && s.tickets[p].status == Decomposed && s.tickets[a].status == Pending && s.tickets[b].status == Awaiting
    && s.tickets[a].origin.dependsOn == [b] && s.tickets[b].origin.dependsOn == []
    && forall g :: g in s.goals ==> !s.goals[g].cancelled && GoalHasTickets(s, g)
  }

  lemma BehindParkedIsStuck(opt: Options, s: State, p: string, a: string, b: string, now: int, later: int)
    requires BehindParked(s, p, a, b) && NoneLive(s)
    ensures Quiet(opt, s, now) && AfterPass(opt, s, s.lastSeq, false, false, later) == Stuck
  {
    BehindParkedIsQuiet(opt, s, p, a, b, now);
    StuckExactly(opt, s, now, later);
    assert HasStatus(s, a, Pending);
    forall id ensures !HasStatus(s, id, Ready) {}
  }

  lemma BehindParkedIsQuiet(opt: Options, s: State, p: string, a: string, b: string, now: int)
    requires BehindParked(s, p, a, b) && NoneLive(s)
    ensures Quiet(opt, s, now)
  {
    assert !Complete(s, b) && !Dead(s, b) && s.tickets[a].origin.dependsOn[0] == b;
    assert !Withdrawn(s, s.tickets[p]) && !Withdrawn(s, s.tickets[a]) && !Withdrawn(s, s.tickets[b]);
    forall id | id in s.tickets ensures QuietOn(opt, s, id, now) {
      assert id == p || id == a || id == b;
      ParkedQuietOn(opt, s, p, a, b, id, now);
    }
  }

  lemma ParkedQuietOn(opt: Options, s: State, p: string, a: string, b: string, id: string, now: int)
    requires BehindParked(s, p, a, b) && NoneLive(s) && id in {p, a, b} && !Complete(s, b) && !Dead(s, b)
    requires !Withdrawn(s, s.tickets[id])
    ensures QuietOn(opt, s, id, now)
  {
    assert s.tickets[a].origin.dependsOn[0] == b;
  }

  lemma BehindParkedLooks(cfg: S.Config, sys: S.Sys, sc: Scene, p: string, a: string, b: string)
    requires Reached(cfg, sys, sc) && sc.tickets.Keys == {p, a, b} && p != a && p != b && a != b
    requires sc.tickets[p].status == Decomposed && sc.tickets[a].status == Pending && sc.tickets[b].status == Awaiting
    requires sc.tickets[a].deps == [b] && sc.tickets[b].deps == []
    ensures BehindParked(sys.state, p, a, b) && NoneLive(sys.state)
  {
    SceneIsLive(cfg, sys, sc);
    assert LooksLike(sys.state.tickets[a], sc.goal, sc.tickets[a]) &&
        LooksLike(sys.state.tickets[b], sc.goal, sc.tickets[b]);
    assert LooksLike(sys.state.tickets[p], sc.goal, sc.tickets[p]);
    assert GoalHasTickets(sys.state, sc.goal);
  }

  lemma ParksSecond(cfg: S.Config, sys: S.Sys, p: string, a: string, b: string, base: string, sc: Scene)
    returns (sys': S.Sys)
    requires Easy(cfg) && cfg.opt.requireApproval && !cfg.opt.prMode && p != a && p != b && a != b
    requires Reached(cfg, sys, sc) && sc.order == [p, a, b]
    requires sc.tickets == WithSecond(p, a, b, NewBrief([], 1).(status := Ready))
    requires sc.jobs == map[] && sc.phase == S.Resting
    ensures Reachable(cfg, sys') && BehindParked(sys'.state, p, a, b) && NoneLive(sys'.state)
  {
    var q, sc';
    sys', q, sc' := SecondQueued(cfg, sys, p, a, b, base, "", sc);
    sys', sc' := ParksIt(cfg, sys', q, sc');
    BehindParkedLooks(cfg, sys', sc', p, a, b);
  }

  lemma ParkedHappens(cfg: S.Config, g: string, p: string, a: string, b: string, la: string, lb: string, base: string)
    returns (sys: S.Sys)
    requires Easy(cfg) && D.Slashless(g) && cfg.opt.requireApproval && !cfg.opt.prMode && p == g + "-impl"
    requires la != "" && lb != "" && la != lb && a == D.ChildId(p, la) && b == D.ChildId(p, lb) && p != a && p != b
    requires a != b
    ensures Reachable(cfg, sys) && BehindParked(sys.state, p, a, b) && NoneLive(sys.state)
  {
    var sc;
    sys, sc := SplitsInTwo(cfg, g, p, a, b, la, lb, base);
    sys, sc := PromotesSecond(cfg, sys, p, a, b, sc);
    sys := ParksSecond(cfg, sys, p, a, b, base, sc);
  }

  /** With human approval required, a ticket that depends on a parked one makes Run give
      up: not all that is left is parked, so the run is not seen as paused. */
  lemma ParkedStalls(cfg: S.Config, g: string, base: string, now: int, later: int) returns (steps: seq<S.Step>)
    requires Easy(cfg) && D.Slashless(g) && cfg.opt.requireApproval && !cfg.opt.prMode
    ensures var s := S.Run(cfg, steps).state;
            && Quiet(cfg.opt, s, now) && NoneLive(s) && AnyTicket(s, Awaiting)
            && AfterPass(cfg.opt, s, s.lastSeq, false, false, later) == Stuck
  {
    var p := g + "-impl";
    var a, b := D.ChildId(p, "a"), D.ChildId(p, "b");
    assert a[|a| - 1] == 'a' && b[|b| - 1] == 'b' && |a| > |p| && |b| > |p|;
    var sys := ParkedHappens(cfg, g, p, a, b, "a", "b", base);
    steps := ReachableRuns(cfg, sys);
    BehindParkedIsStuck(cfg.opt, sys.state, p, a, b, now, later);
    assert HasStatus(sys.state, b, Awaiting);
  }
}
