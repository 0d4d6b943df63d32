/** Where concurrent decomposition does go wrong: runs that keep to one of a careful
    caller's rules, and end with a cycle of dependencies; and a run that ends with a
    ticket that is its own child. */
module DecomposeLimits {
  import opened Events
  import opened Replay
  import opened Digraph
  import opened TaskGraph
  import opened Plans
  import opened LiteralPlans
  import opened Scheduler
  import opened Scenes
  import D = Decompose
  import LostBranch
  import Recursion

  function PlanFor(sc: Scene, p: string, cs: seq<D.Child>): D.InFlight
    requires p in sc.tickets
  {
    D.InFlight(D.Job(p, sc.goal, sc.tickets[p].depth), WorkerOf(p), cs, D.Ids(cs), NO_CHARGE)
  }

  /** The plan is about to be appended. */
  function Planned(sc: Scene, p: string, cs: seq<D.Child>): Scene
    requires p in sc.tickets
  {
    sc.(jobs := sc.jobs[p := Splitting(PlanFor(sc, p, cs))])
  }

  function GraphOf(sc: Scene): Graph { map id | id in sc.tickets :: sc.tickets[id].deps }

  /** Every dependency is known, and `order` shows the plan's new nodes add no cycle. */
  ghost predicate Fits(g: Graph, cs: seq<D.Child>, extra: Graph, order: seq<string>) {
    && extra == D.NewEdges(cs) && D.New(cs) == cs && g.Keys !! extra.Keys
    && (forall c, d :: c in cs && d in c.deps ==> d in D.Ids(cs) || d in g)
    && Finished(g + extra, order) && forall n :: n in g + extra ==> n in order
  }

  lemma FittingIsAdmissible(g: Graph, cs: seq<D.Child>, extra: Graph, order: seq<string>)
    requires Fits(g, cs, extra, order)
    ensures Admissible(g, cs, order)
  {
    JoinFresh(g, extra);
  }

  /** A worker's keyless batch is accepted. */
  lemma SplitsKeyless(cfg: Config, sys: Sys, p: string, subs: seq<D.Subtask>, ids: map<string, string>,
                      cs: seq<D.Child>, extra: Graph, order: seq<string>, sc: Scene)
    returns (sys': Sys)
    requires Roomy(cfg.gov) && Reached(cfg, sys, sc) && p in sc.tickets && p in sc.jobs && sc.jobs[p] == Working
    requires sc.tickets[p].depth < 5 && Reads(D.Job(p, sc.goal, sc.tickets[p].depth), subs, ids, cs) && |cs| <= 8
    requires |sc.tickets| <= 50 && Fits(GraphOf(sc), cs, extra, order)
    ensures Reached(cfg, sys', Planned(sc, p, cs))
  {
    ReadsLiteral(sys.state, D.Job(p, sc.goal, sc.tickets[p].depth), subs, ids, cs);
    GraphLooks(sys.state, sc);
    FittingIsAdmissible(D.DependsOn(sys.state), cs, extra, order);
    sys' := SplitsInto(cfg, sys, p, subs, ids, cs, order, sc);
  }

  function NameSet(names: seq<string>): set<string> { set n | n in names }

  lemma SceneIsSmall(sc: Scene, names: seq<string>)
    requires sc.tickets.Keys == NameSet(names) && |names| <= 50
    ensures |sc.tickets| <= 50
  {
    NamesAreFew(names);
    assert |sc.tickets| == |sc.tickets.Keys|;
  }

  lemma {:induction false} NamesAreFew(names: seq<string>)
    ensures |NameSet(names)| <= |names|
  {
    if names != [] {
      var init, last := names[..|names| - 1], names[|names| - 1];
      NamesAreFew(init);
      assert NameSet(names) == NameSet(init) + {last};
    }
  }

  predicate Four(p: string, x: string, u: string, v: string) {
    p != x && p != u && p != v && x != u && x != v && u != v
  }

  lemma FinishFour(g: Graph, n1: string, n2: string, n3: string, n4: string)
    requires forall m :: !Edge(g, n1, m) && !Edge(g, n2, m)
    requires forall m :: Edge(g, n3, m) ==> m in [n1, n2]
    requires forall m :: Edge(g, n4, m) ==> m in [n1, n2, n3]
    ensures Finished(g, [n1, n2, n3, n4])
  {
    Finish(g, [], n1);
    assert [] + [n1] == [n1];
    Finish(g, [n1], n2);
    assert [n1] + [n2] == [n1, n2];
    Finish(g, [n1, n2], n3);
    assert [n1, n2] + [n3] == [n1, n2, n3];
    Finish(g, [n1, n2, n3], n4);
    assert [n1, n2, n3] + [n4] == [n1, n2, n3, n4];
  }

  lemma FinishSix(g: Graph, n1: string, n2: string, n3: string, n4: string, n5: string, n6: string)
    requires forall m :: !Edge(g, n1, m) && !Edge(g, n2, m)
    requires forall m :: Edge(g, n3, m) ==> m in [n1, n2]
    requires forall m :: Edge(g, n4, m) ==> m in [n1, n2, n3]
    requires forall m :: Edge(g, n5, m) ==> m in [n1, n2, n3, n4]
    requires forall m :: Edge(g, n6, m) ==> m in [n1, n2, n3, n4, n5]
    ensures Finished(g, [n1, n2, n3, n4, n5, n6])
  {
    FinishFour(g, n1, n2, n3, n4);
    Finish(g, [n1, n2, n3, n4], n5);
    assert [n1, n2, n3, n4] + [n5] == [n1, n2, n3, n4, n5];
    Finish(g, [n1, n2, n3, n4, n5], n6);
    assert [n1, n2, n3, n4, n5] + [n6] == [n1, n2, n3, n4, n5, n6];
  }

  // --- A first ticket split in three -------------------------------------------------------------

  /** A Goal's first ticket p has split into x, u and v, of which u waits on v, and x is on
      the log. */
  function Outer(sc: Scene, p: string, x: string, u: string, v: string, todo: seq<D.Child>): Scene {
    sc.(order := [p, x], tickets := map[p := FIRST_TAKEN, x := NewBrief([], 1)],
        jobs := map[p := Splitting(D.InFlight(D.Job(p, sc.goal, 0), WorkerOf(p), todo, [x, u, v], NO_CHARGE))])
  }

  function Todo(u: string, v: string): seq<D.Child> { [Kid(u, [v]), Kid(v, [])] }

  lemma TripleFits(p: string, x: string, u: string, v: string)
    requires Four(p, x, u, v)
    ensures Fits(map[p := []], Triple(x, u, v), map[x := [], u := [v], v := []], [p, x, v, u])
    ensures D.Ids(Triple(x, u, v)) == [x, u, v]
  {
    var cs := Triple(x, u, v);
    ThreeOfChildren(cs[0], cs[1], cs[2]);
    assert D.Ids(cs)[2] == v;
    TripleOrder(p, x, u, v);
  }

  lemma TripleOrder(p: string, x: string, u: string, v: string)
    requires Four(p, x, u, v)
    ensures Finished(map[p := []] + map[x := [], u := [v], v := []], [p, x, v, u])
  {
    FinishFour(map[p := []] + map[x := [], u := [v], v := []], p, x, v, u);
  }

  lemma OuterAccepted(cfg: Config, sys: Sys, p: string, x: string, u: string, v: string,
                      hx: string, hu: string, hv: string, sc: Scene)
    returns (sys': Sys)
    requires Roomy(cfg.gov) && Reached(cfg, sys, sc) && sc.tickets == map[p := FIRST_TAKEN]
    requires sc.jobs == map[p := Working]
    requires hx != "" && hu != "" && hv != "" && hx != hu && hx != hv && hu != hv && Four(p, x, u, v)
    requires x == D.ChildId(p, hx) && u == D.ChildId(p, hu) && v == D.ChildId(p, hv)
    ensures Reached(cfg, sys', Planned(sc, p, Triple(x, u, v)))
  {
    ThreeChildren(D.Job(p, sc.goal, 0), hx, hu, hv, x, u, v);
    TripleFits(p, x, u, v);
    AloneInScene(sc, p);
    var cs, extra := Triple(x, u, v), map[x := [], u := [v], v := []];
    sys' := SplitsKeyless(cfg, sys, p, TripleSubs(hx, hu, hv), map[hx := x, hu := u, hv := v], cs, extra,
                          [p, x, v, u], sc);
  }

  lemma AloneInScene(sc: Scene, p: string)
    requires sc.tickets == map[p := FIRST_TAKEN]
    ensures GraphOf(sc) == map[p := []] && |sc.tickets| <= 50
  {
    SceneIsSmall(sc, [p]);
  }

  lemma OuterScene(sc: Scene, p: string, x: string, u: string, v: string)
    requires sc.tickets == map[p := FIRST_TAKEN] && sc.order == [p] && Four(p, x, u, v)
    requires sc.jobs == map[p := Working]
    ensures var cs := Triple(x, u, v);
            Carried(Planned(sc, p, cs), p, PlanFor(sc, p, cs)) == Outer(sc, p, x, u, v, Todo(u, v))
  {
    var plan := PlanFor(sc, p, Triple(x, u, v));
    TripleFits(p, x, u, v);
    assert Triple(x, u, v)[1..] == Todo(u, v);
    assert [p] + [x] == [p, x];
    assert Planned(sc, p, Triple(x, u, v)).jobs[p := Splitting(Shorter(plan))] == map[p := Splitting(Shorter(plan))];
  }

  lemma OuterBegins(cfg: Config, g: string, p: string, x: string, u: string, v: string,
                    hx: string, hu: string, hv: string, base: string)
    returns (sys: Sys, sc: Scene)
    requires Roomy(cfg.gov) && D.Slashless(g) && p == g + "-impl" && Four(p, x, u, v)
    requires hx != "" && hu != "" && hv != "" && hx != hu && hx != hv && hu != hv
    requires x == D.ChildId(p, hx) && u == D.ChildId(p, hu) && v == D.ChildId(p, hv)
    ensures Reached(cfg, sys, Outer(sc, p, x, u, v, Todo(u, v))) && sc.goal == g && sc.phase == Resting
  {
    sys, sc := OpensTaken(cfg, g, p, base);
    sys := OuterAccepted(cfg, sys, p, x, u, v, hx, hu, hv, sc);
    var plan := PlanFor(sc, p, Triple(x, u, v));
    sys := CreatesChild(cfg, sys, p, plan, Planned(sc, p, Triple(x, u, v)));
    OuterScene(sc, p, x, u, v);
  }

  // --- A handle with a slash in it ---------------------------------------------------------------

  /** The split ticket is running or waits; its first child is all there is to promote. */
  lemma ChildPromoted(cfg: Config, sys: Sys, p: string, x: string, sc: Scene) returns (sys': Sys)
    requires Reached(cfg, sys, sc) && sc.phase == Resting && sc.order == [p, x] && p != x
    requires sc.tickets.Keys == {p, x} && sc.tickets[p].status != Pending && sc.tickets[x] == NewBrief([], 1)
    ensures Reached(cfg, sys', Readied(sc, x))
  {
    forall id | id in sys.state.tickets ensures sys.state.tickets[id].origin.id == id { TicketIsOk(cfg, sys, id); }
    OnlyChildPromotes(sys.state, p, x, sc);
    sys' := PromotesOne(cfg, sys, x, sc);
  }

  lemma OnlyChildPromotes(s: State, p: string, x: string, sc: Scene)
    requires TicketsLook(s, sc) && GoalLooks(s, sc) && sc.order == [p, x] && p != x
    requires forall id :: id in s.tickets ==> s.tickets[id].origin.id == id
    requires sc.tickets.Keys == {p, x} && sc.tickets[p].status != Pending && sc.tickets[x] == NewBrief([], 1)
    ensures Sweep(s, s.ticketOrder, Promote) == [TicketReady(x)]
  {
    PromotesLook(s, sc, p);
    PromotesLook(s, sc, x);
    SweepOne(s, p, Promote);
    SweepMore(s, [p], x, Promote);
    assert [p] + [x] == [p, x];
  }

  /** The child is taken while its parent's plan is still being appended. */
  function Nested(sc: Scene, x: string): Scene
    requires x in sc.tickets
  {
    sc.(tickets := sc.tickets[x := NewBrief([], 1).(status := Running, attempts := 1)], jobs := sc.jobs[x := Working])
  }

  lemma ChildTaken(cfg: Config, sys: Sys, p: string, x: string, base: string, sc: Scene)
    returns (sys': Sys, sc': Scene)
    requires Reached(cfg, sys, sc) && sc.phase == Resting && sc.order == [p, x] && p != x && x !in sc.jobs
    requires sc.tickets.Keys == {p, x} && sc.tickets[p].status != Pending && sc.tickets[x] == NewBrief([], 1)
    ensures Reached(cfg, sys', sc') && sc' == Nested(sc, x).(br := sc'.br)
  {
    sys' := ChildPromoted(cfg, sys, p, x, sc);
    ChildTakenScene(cfg, p, x, base, sc);
    sys' := Takes(cfg, sys', x, base, Readied(sc, x));
    sc' := Underway(cfg, Readied(sc, x), x, base);
  }

  lemma ChildTakenScene(cfg: Config, p: string, x: string, base: string, sc: Scene)
    requires sc.phase == Resting && x !in sc.jobs && x in sc.tickets && sc.tickets[x] == NewBrief([], 1)
    ensures Takeable(cfg, Readied(sc, x), x)
    ensures var sc' := Underway(cfg, Readied(sc, x), x, base); sc' == Nested(sc, x).(br := sc'.br)
  {
  }

  lemma PairFits(g: Graph, p: string, x: string, u: string, v: string)
    requires g == map[p := [], x := []] && Four(p, x, u, v)
    ensures Fits(g, Pair(v, u), map[v := [u], u := []], [p, x, u, v]) && D.Ids(Pair(v, u)) == [v, u]
  {
    var cs := Pair(v, u);
    PairOfChildren(cs[0], cs[1]);
    assert D.Ids(cs)[1] == u;
    PairOrder(p, x, u, v);
  }

  lemma PairOrder(p: string, x: string, u: string, v: string)
    requires Four(p, x, u, v)
    ensures Finished(map[p := [], x := []] + map[v := [u], u := []], [p, x, u, v])
  {
    FinishFour(map[p := [], x := []] + map[v := [u], u := []], p, x, u, v);
  }

  lemma InnerAccepted(cfg: Config, sys: Sys, p: string, x: string, u: string, v: string, hv: string, hu: string,
                      sc: Scene)
    returns (sys': Sys)
    requires Roomy(cfg.gov) && Reached(cfg, sys, sc) && Four(p, x, u, v) && GraphOf(sc) == map[p := [], x := []]
    requires sc.tickets.Keys == {p, x} && sc.tickets[x].depth == 1 && x in sc.jobs && sc.jobs[x] == Working
    requires hv != "" && hu != "" && hv != hu && v == D.ChildId(x, hv) && u == D.ChildId(x, hu)
    ensures Reached(cfg, sys', Planned(sc, x, Pair(v, u)))
  {
    TwoChildren(D.Job(x, sc.goal, 1), hv, hu, v, u);
    PairFits(GraphOf(sc), p, x, u, v);
    SceneIsSmall(sc, [p, x]);
    sys' := SplitsKeyless(cfg, sys, x, PairSubs(hv, hu), map[hv := v, hu := u], Pair(v, u),
                          map[v := [u], u := []], [p, x, u, v], sc);
  }

  /** Each of two plans in flight has a child to append next: u, which waits on d, and v,
      which waits on f. */
  ghost predicate Crossed(sc: Scene, p: string, u: string, d: string, x: string, v: string, f: string) {
    && p != x && u != v && u !in sc.tickets && v !in sc.tickets
    && Appends(sc, p, u, d) && Appends(sc, x, v, f)
  }

  ghost predicate Appends(sc: Scene, p: string, u: string, d: string) {
    && p in sc.jobs && sc.jobs[p].Splitting? && sc.jobs[p].plan.job.goalId == sc.goal
    && sc.jobs[p].plan.todo != [] && sc.jobs[p].plan.todo[0] == Kid(u, [d])
  }

  function CarriedBoth(sc: Scene, p: string, x: string): Scene
    requires p != x && p in sc.jobs && sc.jobs[p].Splitting? && sc.jobs[p].plan.todo != []
    requires x in sc.jobs && sc.jobs[x].Splitting? && sc.jobs[x].plan.todo != []
  {
    Carried(Carried(sc, x, sc.jobs[x].plan), p, sc.jobs[p].plan)
  }

  lemma BothCarried(cfg: Config, sys: Sys, p: string, u: string, d: string, x: string, v: string, f: string, sc: Scene)
    returns (sys': Sys)
    requires Reached(cfg, sys, sc) && Crossed(sc, p, u, d, x, v, f)
    ensures Reached(cfg, sys', CarriedBoth(sc, p, x))
  {
    var sc1 := Carried(sc, x, sc.jobs[x].plan);
    sys' := CreatesChild(cfg, sys, x, sc.jobs[x].plan, sc);
    CarriedFirst(sc, p, u, d, x, v, f);
    sys' := CreatesChild(cfg, sys', p, sc.jobs[p].plan, sc1);
  }

  lemma CarriedFirst(sc: Scene, p: string, u: string, d: string, x: string, v: string, f: string)
    requires Crossed(sc, p, u, d, x, v, f)
    ensures var sc1 := Carried(sc, x, sc.jobs[x].plan);
            sc1.goal == sc.goal && p in sc1.jobs && sc1.jobs[p] == sc.jobs[p] && u !in sc1.tickets
  {
  }

  lemma CarriedScene(sc: Scene, p: string, u: string, d: string, x: string, v: string, f: string)
    requires Crossed(sc, p, u, d, x, v, f)
    ensures var sc' := CarriedBoth(sc, p, x);
            && sc'.tickets.Keys == sc.tickets.Keys + {u, v} && sc'.tickets[u].deps == [d] && sc'.tickets[v].deps == [f]
            && forall id :: id in sc'.tickets ==>
                 if id in sc.tickets then sc'.tickets[id] == sc.tickets[id] else sc'.tickets[id].attempts == 0
  {
    CarriedFirst(sc, p, u, d, x, v, f);
  }

  lemma CycleShows(cfg: Config, sys: Sys, sc: Scene, p: seq<string>)
    requires Reached(cfg, sys, sc) && IsCycle(GraphOf(sc), p)
    ensures Cyclic(D.DependsOn(sys.state))
  {
    GraphLooks(sys.state, sc);
  }

  lemma InnerCrosses(sc: Scene, p: string, x: string, u: string, v: string)
    requires Four(p, x, u, v) && x in sc.tickets
    requires sc.tickets.Keys == {p, x} && p in sc.jobs && sc.jobs[p].Splitting?
    requires sc.jobs[p].plan.job.goalId == sc.goal && sc.jobs[p].plan.todo == Todo(u, v)
    ensures Crossed(Planned(sc, x, Pair(v, u)), p, u, v, x, v, u)
  {
  }

  /** No ticket was claimed, and so split, more than once. */
  ghost predicate SplitOnce(s: State) { forall id :: id in s.tickets ==> s.tickets[id].attempts <= 1 }

  lemma NestedRun(cfg: Config, sys: Sys, p: string, x: string, u: string, v: string, hv: string, hu: string,
                  base: string, sc: Scene)
    returns (sys': Sys)
    requires Roomy(cfg.gov) && Four(p, x, u, v) && sc.phase == Resting
    requires Reached(cfg, sys, Outer(sc, p, x, u, v, Todo(u, v)))
    requires hv != "" && hu != "" && hv != hu && v == D.ChildId(x, hv) && u == D.ChildId(x, hu)
    ensures Reachable(cfg, sys') && Cyclic(D.DependsOn(sys'.state)) && SplitOnce(sys'.state)
  {
    var sc1;
    sys', sc1 := ChildTaken(cfg, sys, p, x, base, Outer(sc, p, x, u, v, Todo(u, v)));
    NestedScene(sc, p, x, u, v, sc1);
    sys' := InnerAccepted(cfg, sys', p, x, u, v, hv, hu, sc1);
    InnerCrosses(sc1, p, x, u, v);
    sys' := CrossedIsCyclic(cfg, sys', p, x, u, v, Planned(sc1, x, Pair(v, u)));
  }

  lemma NestedScene(sc: Scene, p: string, x: string, u: string, v: string, sc1: Scene)
    requires Four(p, x, u, v) && x in Outer(sc, p, x, u, v, Todo(u, v)).tickets
    requires sc1 == Nested(Outer(sc, p, x, u, v, Todo(u, v)), x).(br := sc1.br)
    ensures GraphOf(sc1) == map[p := [], x := []] && sc1.tickets.Keys == {p, x} && sc1.tickets[x].depth == 1
    ensures x in sc1.jobs && sc1.jobs[x] == Working && p in sc1.jobs && sc1.jobs[p].Splitting?
    ensures sc1.jobs[p].plan.job.goalId == sc1.goal && sc1.jobs[p].plan.todo == Todo(u, v)
    ensures forall id :: id in sc1.tickets ==> sc1.tickets[id].attempts <= 1
  {
  }

  lemma CrossedIsCyclic(cfg: Config, sys: Sys, p: string, x: string, u: string, v: string, sc: Scene)
    returns (sys': Sys)
    requires Reached(cfg, sys, sc) && Crossed(sc, p, u, v, x, v, u)
    requires forall id :: id in sc.tickets ==> sc.tickets[id].attempts <= 1
    ensures Reachable(cfg, sys') && Cyclic(D.DependsOn(sys'.state)) && SplitOnce(sys'.state)
  {
    sys' := BothCarried(cfg, sys, p, u, v, x, v, u, sc);
    CrossedScene(sc, p, x, u, v);
    CycleShows(cfg, sys', CarriedBoth(sc, p, x), [u, v, u]);
    AttemptsShow(cfg, sys', CarriedBoth(sc, p, x));
  }

  lemma CrossedScene(sc: Scene, p: string, x: string, u: string, v: string)
    requires Crossed(sc, p, u, v, x, v, u) && forall id :: id in sc.tickets ==> sc.tickets[id].attempts <= 1
    ensures IsCycle(GraphOf(CarriedBoth(sc, p, x)), [u, v, u])
    ensures forall id :: id in CarriedBoth(sc, p, x).tickets ==> CarriedBoth(sc, p, x).tickets[id].attempts <= 1
  {
    CarriedScene(sc, p, u, v, x, v, u);
    TwoCycle(GraphOf(CarriedBoth(sc, p, x)), u, v);
  }

  lemma TwoCycle(g: Graph, u: string, v: string)
    requires Edge(g, u, v) && Edge(g, v, u)
    ensures IsCycle(g, [u, v, u])
  {
  }

  lemma AttemptsShow(cfg: Config, sys: Sys, sc: Scene)
    requires Reached(cfg, sys, sc) && forall id :: id in sc.tickets ==> sc.tickets[id].attempts <= 1
    ensures SplitOnce(sys.state)
  {
    forall id | id in sys.state.tickets ensures sys.state.tickets[id].attempts <= 1 {
      assert LooksLike(sys.state.tickets[id], sc.goal, sc.tickets[id]);
    }
  }

  /** A handle with a slash in it lets a ticket and its own child plan the same ids: a run
      that ends with a cycle, although no ticket is split twice. */
  lemma SlashedHandlesCycle(cfg: Config, g: string, base: string) returns (steps: seq<Step>)
    requires Roomy(cfg.gov) && D.Slashless(g)
    ensures Cyclic(D.DependsOn(Run(cfg, steps).state)) && SplitOnce(Run(cfg, steps).state)
  {
    var p := g + "-impl";
    var x := D.ChildId(p, "x");
    var u, v := D.ChildId(x, "z"), D.ChildId(x, "y");
    NestedNames(p, x, u, v);
    assert "x/z"[2] == 'z' && "x/y"[2] == 'y' && |"x"| == 1;
    var sys, sc := OuterBegins(cfg, g, p, x, u, v, "x", "x/z", "x/y", base);
    sys := NestedRun(cfg, sys, p, x, u, v, "y", "z", base, sc);
    steps := ReachableRuns(cfg, sys);
  }

  lemma NestedNames(p: string, x: string, u: string, v: string)
    requires x == D.ChildId(p, "x") && u == D.ChildId(x, "z") && v == D.ChildId(x, "y")
    ensures Four(p, x, u, v) && u == D.ChildId(p, "x/z") && v == D.ChildId(p, "x/y")
  {
    assert |x| == |p| + 2 && |u| == |p| + 4 && |v| == |p| + 4 && u[|p| + 3] == 'z' && v[|p| + 3] == 'y';
  }

  // --- Tickets split twice -----------------------------------------------------------------------

  /** p's plan and x's, each cut short before its last child: a still waits on b, and c on e,
      neither of which is there. */
  datatype Names = Names(p: string, x: string, a: string, b: string, c: string, e: string)

  predicate AllApart(n: Names) {
    && Four(n.p, n.x, n.a, n.b) && Four(n.p, n.x, n.c, n.e)
    && n.a != n.c && n.a != n.e && n.b != n.c && n.b != n.e
  }

  const RETRIED := FIRST_TAKEN.(status := Ready)

  function FirstCut(sc: Scene, n: Names): Scene {
    sc.(order := [n.p, n.x, n.a], tickets := map[n.p := RETRIED, n.x := NewBrief([], 1), n.a := NewBrief([n.b], 1)],
        jobs := map[])
  }

  /** The process dies with p's last child not created, and p is restarted. */
  lemma CutsFirst(cfg: Config, sys: Sys, n: Names, sc: Scene) returns (sys': Sys)
    requires AllApart(n) && sc.phase == Resting
    requires Reached(cfg, sys, Outer(sc, n.p, n.x, n.a, n.b, Todo(n.a, n.b)))
    ensures Reached(cfg, sys', FirstCut(sc, n))
  {
    var sc0 := Outer(sc, n.p, n.x, n.a, n.b, Todo(n.a, n.b));
    var plan := sc0.jobs[n.p].plan;
    sys' := CreatesChild(cfg, sys, n.p, plan, sc0);
    sys' := Crashes(cfg, sys', Carried(sc0, n.p, plan));
    var sc1 := Carried(sc0, n.p, plan).(jobs := map[]);
    FirstCutScene(sc, n, sc1);
    sys' := Restarts(cfg, sys', n.p, sc1);
  }

  lemma FirstCutScene(sc: Scene, n: Names, sc1: Scene)
    requires AllApart(n)
    requires var sc0 := Outer(sc, n.p, n.x, n.a, n.b, Todo(n.a, n.b));
             sc1 == Carried(sc0, n.p, sc0.jobs[n.p].plan).(jobs := map[])
    ensures n.p in sc1.tickets && sc1.tickets[n.p] == FIRST_TAKEN && Readied(sc1, n.p) == FirstCut(sc, n)
  {
    assert [n.p, n.x] + [n.a] == [n.p, n.x, n.a];
  }

  /** x is all there is to promote. */
  lemma XPromotes(s: State, n: Names, sc: Scene)
    requires TicketsLook(s, FirstCut(sc, n)) && GoalLooks(s, sc) && AllApart(n)
    requires forall id :: id in s.tickets ==> s.tickets[id].origin.id == id
    ensures Sweep(s, s.ticketOrder, Promote) == [TicketReady(n.x)]
  {
    var sc1 := FirstCut(sc, n);
    PromotesLook(s, sc1, n.p);
    PromotesLook(s, sc1, n.x);
    WaitsStill(s, sc1, n.a, n.b);
    SweepOne(s, n.p, Promote);
    SweepMore(s, [n.p], n.x, Promote);
    SweepMore(s, [n.p, n.x], n.a, Promote);
    assert [n.p] + [n.x] == [n.p, n.x] && [n.p, n.x] + [n.a] == [n.p, n.x, n.a];
  }

  lemma WaitsStill(s: State, sc: Scene, a: string, b: string)
    requires TicketsLook(s, sc) && a in sc.tickets && sc.tickets[a].deps == [b] && b !in sc.tickets
    ensures Promote(s, a) == []
  {
    assert LooksLike(s.tickets[a], sc.goal, sc.tickets[a]);
    assert !Complete(s, b) && s.tickets[a].origin.dependsOn[0] == b;
  }

  lemma XTaken(cfg: Config, sys: Sys, n: Names, base: string, sc: Scene) returns (sys': Sys, sc': Scene)
    requires AllApart(n) && sc.phase == Resting && Reached(cfg, sys, FirstCut(sc, n))
    ensures Reached(cfg, sys', sc') && sc' == Nested(FirstCut(sc, n), n.x).(br := sc'.br)
  {
    var sc1 := FirstCut(sc, n);
    forall id | id in sys.state.tickets ensures sys.state.tickets[id].origin.id == id { TicketIsOk(cfg, sys, id); }
    XPromotes(sys.state, n, sc);
    XTakenScene(cfg, n, base, sc);
    sys' := PromotesOne(cfg, sys, n.x, sc1);
    sys' := Takes(cfg, sys', n.x, base, Readied(sc1, n.x));
    sc' := Underway(cfg, Readied(sc1, n.x), n.x, base);
  }

  lemma XTakenScene(cfg: Config, n: Names, base: string, sc: Scene)
    requires AllApart(n) && sc.phase == Resting
    ensures var sc1 := FirstCut(sc, n);
            && sc1.tickets[n.x].status == Pending && Takeable(cfg, Readied(sc1, n.x), n.x)
            && var sc' := Underway(cfg, Readied(sc1, n.x), n.x, base); sc' == Nested(sc1, n.x).(br := sc'.br)
  {
  }

  lemma SecondPairFits(n: Names)
    requires AllApart(n)
    ensures Fits(map[n.p := [], n.x := [], n.a := [n.b]], Pair(n.c, n.e), map[n.c := [n.e], n.e := []],
                 [n.p, n.x, n.b, n.a, n.e, n.c])
    ensures D.Ids(Pair(n.c, n.e)) == [n.c, n.e]
  {
    var cs := Pair(n.c, n.e);
    PairOfChildren(cs[0], cs[1]);
    assert D.Ids(cs)[1] == n.e;
    FinishSix(map[n.p := [], n.x := [], n.a := [n.b]] + map[n.c := [n.e], n.e := []], n.p, n.x, n.b, n.a, n.e, n.c);
  }

  function SecondCut(sc: Scene, n: Names): Scene {
    sc.(order := [n.p, n.x, n.a, n.c],
        tickets := map[n.p := RETRIED, n.x := NewBrief([], 1).(status := Ready, attempts := 1),
                       n.a := NewBrief([n.b], 1), n.c := NewBrief([n.e], 2)],
        jobs := map[])
  }

  lemma XSplits(cfg: Config, sys: Sys, n: Names, hc: string, he: string, sc: Scene) returns (sys': Sys)
    requires Roomy(cfg.gov) && AllApart(n) && Reached(cfg, sys, Nested(FirstCut(sc, n), n.x))
    requires hc != "" && he != "" && hc != he && n.c == D.ChildId(n.x, hc) && n.e == D.ChildId(n.x, he)
    ensures Reached(cfg, sys', Planned(Nested(FirstCut(sc, n), n.x), n.x, Pair(n.c, n.e)))
  {
    var sc1 := Nested(FirstCut(sc, n), n.x);
    TwoChildren(D.Job(n.x, sc.goal, 1), hc, he, n.c, n.e);
    SecondPairFits(n);
    XScene(sc, n);
    var cs, extra := Pair(n.c, n.e), map[n.c := [n.e], n.e := []];
    sys' := SplitsKeyless(cfg, sys, n.x, PairSubs(hc, he), map[hc := n.c, he := n.e], cs, extra,
                          [n.p, n.x, n.b, n.a, n.e, n.c], sc1);
  }

  lemma XScene(sc: Scene, n: Names)
    requires AllApart(n)
    ensures var sc1 := Nested(FirstCut(sc, n), n.x);
            && GraphOf(sc1) == map[n.p := [], n.x := [], n.a := [n.b]] && |sc1.tickets| <= 50
            && sc1.tickets[n.x].depth == 1 && n.x in sc1.jobs && sc1.jobs[n.x] == Working && n.c !in sc1.tickets
  {
    var sc1 := Nested(FirstCut(sc, n), n.x);
    ThreeTickets(sc1, n.p, n.x, n.a);
    assert GraphOf(sc1).Keys == {n.p, n.x, n.a};
  }

  lemma ThreeTickets(sc: Scene, p: string, x: string, a: string)
    requires sc.tickets.Keys == {p, x, a}
    ensures |sc.tickets| <= 50
  {
    assert NameSet([p, x, a]) == {p, x, a};
    SceneIsSmall(sc, [p, x, a]);
  }

  lemma FourTickets(sc: Scene, p: string, x: string, a: string, c: string)
    requires sc.tickets.Keys == {p, x, a, c}
    ensures |sc.tickets| <= 50
  {
    assert NameSet([p, x, a, c]) == {p, x, a, c};
    SceneIsSmall(sc, [p, x, a, c]);
  }

  /** And again, with x's last child not created. */
  lemma CutsSecond(cfg: Config, sys: Sys, n: Names, sc: Scene) returns (sys': Sys)
    requires AllApart(n) && sc.phase == Resting
    requires Reached(cfg, sys, Planned(Nested(FirstCut(sc, n), n.x), n.x, Pair(n.c, n.e)))
    ensures Reached(cfg, sys', SecondCut(sc, n))
  {
    var sc0 := Planned(Nested(FirstCut(sc, n), n.x), n.x, Pair(n.c, n.e));
    var plan := sc0.jobs[n.x].plan;
    XScene(sc, n);
    sys' := CreatesChild(cfg, sys, n.x, plan, sc0);
    sys' := Crashes(cfg, sys', Carried(sc0, n.x, plan));
    var sc1 := Carried(sc0, n.x, plan).(jobs := map[]);
    SecondCutScene(sc, n, sc1);
    sys' := Restarts(cfg, sys', n.x, sc1);
  }

  lemma SecondCutScene(sc: Scene, n: Names, sc1: Scene)
    requires AllApart(n)
    requires var sc0 := Planned(Nested(FirstCut(sc, n), n.x), n.x, Pair(n.c, n.e));
             sc1 == Carried(sc0, n.x, sc0.jobs[n.x].plan).(jobs := map[])
    ensures n.x in sc1.tickets && sc1.tickets[n.x].status == Running && sc1.tickets[n.x].branch == ""
    ensures Readied(sc1, n.x) == SecondCut(sc, n)
  {
    assert [n.p, n.x, n.a] + [n.c] == [n.p, n.x, n.a, n.c];
  }

  function Twice(sc: Scene, n: Names): Scene {
    var sc1 := SecondCut(sc, n);
    sc1.(tickets := sc1.tickets[n.p := FIRST_TAKEN.(attempts := 2)]
                              [n.x := NewBrief([], 1).(status := Running, attempts := 2)],
         jobs := map[n.p := Working, n.x := Working])
  }

  /** Both tickets are taken again. */
  lemma BothTaken(cfg: Config, sys: Sys, n: Names, base: string, sc: Scene) returns (sys': Sys, sc': Scene)
    requires AllApart(n) && sc.phase == Resting && cfg.opt.retryBackoff == 0 && Reached(cfg, sys, SecondCut(sc, n))
    ensures Reached(cfg, sys', sc') && sc' == Twice(sc, n).(br := sc'.br)
  {
    var sc1 := SecondCut(sc, n);
    sys' := Takes(cfg, sys, n.p, base, sc1);
    var sc2 := Underway(cfg, sc1, n.p, base);
    sys' := Takes(cfg, sys', n.x, base, sc2);
    sc' := Underway(cfg, sc2, n.x, base);
    TwiceScene(cfg, n, base, sc);
  }

  lemma TwiceScene(cfg: Config, n: Names, base: string, sc: Scene)
    requires AllApart(n)
    ensures var sc' := Underway(cfg, Underway(cfg, SecondCut(sc, n), n.p, base), n.x, base);
            sc' == Twice(sc, n).(br := sc'.br)
  {
  }

  function Halves(n: Names): Graph { map[n.p := [], n.x := [], n.a := [n.b], n.c := [n.e]] }

  lemma LoneFits(n: Names)
    requires AllApart(n)
    ensures Fits(Halves(n), [Kid(n.b, [n.c])], map[n.b := [n.c]], [n.p, n.x, n.e, n.c, n.b, n.a])
    ensures Fits(Halves(n), [Kid(n.e, [n.a])], map[n.e := [n.a]], [n.p, n.x, n.b, n.a, n.e, n.c])
  {
    LoneNew(n.b, n.c);
    LoneNew(n.e, n.a);
    FinishSix(Halves(n) + map[n.b := [n.c]], n.p, n.x, n.e, n.c, n.b, n.a);
    FinishSix(Halves(n) + map[n.e := [n.a]], n.p, n.x, n.b, n.a, n.e, n.c);
  }

  lemma LoneNew(id: string, dep: string)
    ensures var cs := [Kid(id, [dep])];
            D.NewEdges(cs) == map[id := [dep]] && D.New(cs) == cs && D.Ids(cs) == [id]
  {
    var cs := [Kid(id, [dep])];
    assert cs[..0] == [];
  }

  lemma HalvesScene(sc: Scene, n: Names)
    requires AllApart(n) && sc.tickets == Twice(sc, n).tickets
    ensures GraphOf(sc) == Halves(n) && |sc.tickets| <= 50
  {
    assert sc.tickets.Keys == {n.p, n.x, n.a, n.c};
    FourTickets(sc, n.p, n.x, n.a, n.c);
    assert GraphOf(sc).Keys == Halves(n).Keys;
  }

  /** One of them splits again, into the child that was not created. */
  lemma SplitsAgain(cfg: Config, sys: Sys, n: Names, id: string, local: string, child: string, dep: string,
                    order: seq<string>, sc: Scene)
    returns (sys': Sys)
    requires Roomy(cfg.gov) && Reached(cfg, sys, sc) && id in sc.tickets && id in sc.jobs && sc.jobs[id] == Working
    requires sc.tickets[id].depth < 5 && GraphOf(sc) == Halves(n) && |sc.tickets| <= 50
    requires local != "" && dep != local && child == D.ChildId(id, local)
    requires Fits(Halves(n), [Kid(child, [dep])], map[child := [dep]], order)
    ensures Reached(cfg, sys', Planned(sc, id, [Kid(child, [dep])]))
  {
    OneChild(D.Job(id, sc.goal, sc.tickets[id].depth), local, dep);
    sys' := SplitsKeyless(cfg, sys, id, [Sub(local, [dep])], map[local := child], [Kid(child, [dep])],
                          map[child := [dep]], order, sc);
  }

  function BothPlanned(sc: Scene, n: Names): Scene
    requires n.p in sc.tickets && n.x in sc.tickets
  {
    Planned(Planned(sc, n.p, [Kid(n.b, [n.c])]), n.x, [Kid(n.e, [n.a])])
  }

  lemma BothSplit(cfg: Config, sys: Sys, n: Names, sc: Scene) returns (sys': Sys)
    requires Roomy(cfg.gov) && AllApart(n) && sc.tickets == Twice(sc, n).tickets && sc.jobs == Twice(sc, n).jobs
    requires Reached(cfg, sys, sc) && n.b == D.ChildId(n.p, "b") && n.e == D.ChildId(n.x, "e")
    requires n.c != "b" && n.a != "e"
    ensures Reached(cfg, sys', BothPlanned(sc, n))
  {
    LoneFits(n);
    HalvesScene(sc, n);
    sys' := SplitsAgain(cfg, sys, n, n.p, "b", n.b, n.c, [n.p, n.x, n.e, n.c, n.b, n.a], sc);
    var sc1 := Planned(sc, n.p, [Kid(n.b, [n.c])]);
    sys' := SplitsAgain(cfg, sys', n, n.x, "e", n.e, n.a, [n.p, n.x, n.b, n.a, n.e, n.c], sc1);
  }

  lemma BothCross(sc: Scene, n: Names)
    requires AllApart(n) && sc.tickets == Twice(sc, n).tickets
    ensures Crossed(BothPlanned(sc, n), n.p, n.b, n.c, n.x, n.e, n.a)
  {
  }

  /** A Goal's first ticket, or named as another's child by a handle without a slash. */
  ghost predicate PlainlyNamed(s: State, id: string) {
    id in s.tickets && (id == s.tickets[id].origin.goalId + "-impl" || exists l, p :: IsChildOf(s, id, l, p))
  }

  predicate IsChildOf(s: State, id: string, l: string, p: string) {
    D.Slashless(l) && p in s.tickets && id == D.ChildId(p, l)
  }

  predicate NamesOf(n: Names, g: string) {
    && n.p == g + "-impl" && n.x == D.ChildId(n.p, "x") && n.a == D.ChildId(n.p, "a") && n.b == D.ChildId(n.p, "b")
    && n.c == D.ChildId(n.x, "c") && n.e == D.ChildId(n.x, "e")
  }

  lemma AllPlain(cfg: Config, sys: Sys, n: Names, sc: Scene)
    requires Reached(cfg, sys, sc) && NamesOf(n, sc.goal) && sc.tickets.Keys == {n.p, n.x, n.a, n.b, n.c, n.e}
    ensures forall id :: id in sys.state.tickets ==> PlainlyNamed(sys.state, id)
  {
    var s := sys.state;
    assert LooksLike(s.tickets[n.p], sc.goal, sc.tickets[n.p]);
    assert IsChildOf(s, n.x, "x", n.p) && IsChildOf(s, n.a, "a", n.p) && IsChildOf(s, n.b, "b", n.p);
    assert IsChildOf(s, n.c, "c", n.x) && IsChildOf(s, n.e, "e", n.x);
  }

  lemma PlainNamesApart(n: Names, g: string)
    requires NamesOf(n, g)
    ensures AllApart(n) && n.c != "b" && n.a != "e"
  {
    assert |n.x| == |n.p| + 2 && |n.c| == |n.p| + 4;
    assert n.x[|n.p| + 1] == 'x' && n.a[|n.p| + 1] == 'a' && n.b[|n.p| + 1] == 'b';
    assert n.c[|n.p| + 3] == 'c' && n.e[|n.p| + 3] == 'e';
  }

  lemma SecondHalves(cfg: Config, sys: Sys, n: Names, sc: Scene) returns (sys': Sys)
    requires Roomy(cfg.gov) && NamesOf(n, sc.goal) && AllApart(n) && n.c != "b" && n.a != "e"
    requires Reached(cfg, sys, sc) && sc.tickets == Twice(sc, n).tickets && sc.jobs == Twice(sc, n).jobs
    ensures Reachable(cfg, sys') && Cyclic(D.DependsOn(sys'.state))
    ensures forall id :: id in sys'.state.tickets ==> PlainlyNamed(sys'.state, id)
  {
    sys' := BothSplit(cfg, sys, n, sc);
    BothCross(sc, n);
    sys' := BothCarried(cfg, sys', n.p, n.b, n.c, n.x, n.e, n.a, BothPlanned(sc, n));
    HalvesMeet(sc, n);
    CycleShows(cfg, sys', CarriedBoth(BothPlanned(sc, n), n.p, n.x), [n.a, n.b, n.c, n.e, n.a]);
    AllPlain(cfg, sys', n, CarriedBoth(BothPlanned(sc, n), n.p, n.x));
  }

  lemma HalvesMeet(sc: Scene, n: Names)
    requires AllApart(n) && sc.tickets == Twice(sc, n).tickets
    requires Crossed(BothPlanned(sc, n), n.p, n.b, n.c, n.x, n.e, n.a)
    ensures var sc' := CarriedBoth(BothPlanned(sc, n), n.p, n.x);
            && sc'.goal == sc.goal && sc'.tickets.Keys == {n.p, n.x, n.a, n.b, n.c, n.e}
            && IsCycle(GraphOf(sc'), [n.a, n.b, n.c, n.e, n.a])
  {
    var sc' := CarriedBoth(BothPlanned(sc, n), n.p, n.x);
    CarriedScene(BothPlanned(sc, n), n.p, n.b, n.c, n.x, n.e, n.a);
    assert sc'.tickets[n.a] == sc.tickets[n.a] && sc'.tickets[n.c] == sc.tickets[n.c];
    FiveCycle(GraphOf(sc'), n.a, n.b, n.c, n.e);
  }

  lemma FiveCycle(g: Graph, a: string, b: string, c: string, e: string)
    requires Edge(g, a, b) && Edge(g, b, c) && Edge(g, c, e) && Edge(g, e, a)
    ensures IsCycle(g, [a, b, c, e, a])
  {
  }

  lemma FirstHalves(cfg: Config, sys: Sys, n: Names, base: string, sc: Scene) returns (sys': Sys, sc': Scene)
    requires Roomy(cfg.gov) && cfg.opt.retryBackoff == 0 && AllApart(n) && sc.phase == Resting
    requires n.c == D.ChildId(n.x, "c") && n.e == D.ChildId(n.x, "e")
    requires Reached(cfg, sys, Outer(sc, n.p, n.x, n.a, n.b, Todo(n.a, n.b)))
    ensures Reached(cfg, sys', sc') && sc'.goal == sc.goal
    ensures sc'.tickets == Twice(sc', n).tickets && sc'.jobs == Twice(sc', n).jobs
  {
    var sc1;
    sys' := CutsFirst(cfg, sys, n, sc);
    sys', sc1 := XTaken(cfg, sys', n, base, sc);
    var sc2 := sc.(br := sc1.br);
    assert Nested(FirstCut(sc2, n), n.x) == sc1;
    sys' := XSplits(cfg, sys', n, "c", "e", sc2);
    sys' := CutsSecond(cfg, sys', n, sc2);
    sys', sc' := BothTaken(cfg, sys', n, base, sc2);
  }

  /** Splitting tickets again, after their plans were cut short, ends with a cycle although
      every handle is plain. */
  lemma TwiceDecomposedCycles(cfg: Config, g: string, base: string) returns (steps: seq<Step>)
    requires Roomy(cfg.gov) && cfg.opt.retryBackoff == 0 && D.Slashless(g)
    ensures var s := Run(cfg, steps).state;
            Cyclic(D.DependsOn(s)) && forall id :: id in s.tickets ==> PlainlyNamed(s, id)
  {
    var p, x := g + "-impl", D.ChildId(g + "-impl", "x");
    var n := Names(p, x, D.ChildId(p, "a"), D.ChildId(p, "b"), D.ChildId(x, "c"), D.ChildId(x, "e"));
    PlainNamesApart(n, g);
    var sys, sc := OuterBegins(cfg, g, p, x, n.a, n.b, "x", "a", "b", base);
    sys, sc := FirstHalves(cfg, sys, n, base, sc);
    sys := SecondHalves(cfg, sys, n, sc);
    steps := ReachableRuns(cfg, sys);
  }

  // --- A ticket that adopts itself ---------------------------------------------------------------

  /** The key a Goal's first ticket was created with names that ticket, so a subtask that
      carries the key adopts the very ticket being split: the plan is accepted, and from
      then on calls of the recursions on the ticket, which its Goal's outcome makes, never
      return. */
  lemma SelfAdoptionHangs(cfg: Config, g: string, base: string, local: string, q: Query) returns (steps: seq<Step>)
    requires Roomy(cfg.gov) && D.Slashless(g) && local != ""
    ensures var s := Run(cfg, steps).state; Owns(s, g, g + "-impl") && !Returns(s, q, g + "-impl")
  {
    var p := g + "-impl";
    var sys, sc := OpensTaken(cfg, g, p, base);
    sys, sc := AdoptsItself(cfg, sys, g, p, base, local, sc);
    steps := ReachableRuns(cfg, sys);
    assert LooksLike(sys.state.tickets[p], sc.goal, sc.tickets[p]);
    Recursion.OwnChildHangs(sys.state, p, q);
  }

  lemma AdoptsItself(cfg: Config, sys: Sys, g: string, p: string, base: string, local: string, sc: Scene)
    returns (sys': Sys, sc': Scene)
    requires Roomy(cfg.gov) && local != "" && p == g + "-impl" && sc == Underway(cfg, Opened(g, p, Ready), p, base)
    requires Reached(cfg, sys, sc) && sc.tickets == map[p := FIRST_TAKEN] && sc.jobs == map[p := Working]
    ensures Reached(cfg, sys', sc') && sc'.goal == g && p in sc'.tickets
    ensures sc'.tickets[p].status == Decomposed && sc'.tickets[p].children == [p]
  {
    AloneInScene(sc, p);
    assert |g + ":impl"| > 0;
    sys' := LostBranch.Adopts(cfg, sys, p, local, g + ":impl", [p], sc);
    var plan := LostBranch.AdoptedPlan(sc, p, g + ":impl");
    sys' := LostBranch.EndsAdopted(cfg, sys', p, plan, sc);
    sc' := sc.(tickets := sc.tickets[p := sc.tickets[p].(status := Decomposed, children := plan.children)],
               jobs := sc.jobs - {p});
  }
}
