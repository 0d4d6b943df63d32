/** The run in which a Goal is delivered at a commit that is not its latest merge: the
    work of a ticket reaches the Goal's branch, the process dies before the merge is
    recorded, the merge queue then errs on the proposal, and the ticket's next attempt
    is split into work that is merged already. */
module LostBranch {
  import opened Events
  import opened Replay
  import opened Digraph
  import opened TaskGraph
  import opened Plans
  import opened History
  import opened LiteralPlans
  import opened Scheduler
  import opened Safety
  import opened Scenes
  import D = Decompose

  /** Pull-request mode, no approvals, no backoff. */
  ghost predicate PullRequests(cfg: Config) {
    Easy(cfg) && cfg.opt.prMode && !cfg.opt.requireApproval && cfg.opt.retryBackoff == 0
  }

  /** A ticket split into two, the first of them keyed. */
  function Split(p: string, b: string, a: string, first: Brief, second: Brief): map<string, Brief> {
    map[p := NewBrief([], 0).(status := Decomposed, attempts := 1, children := [b, a]), b := first, a := second]
  }

  lemma SplitMoves(p: string, b: string, a: string, x: Brief, y: Brief, z: Brief)
    requires p != a && p != b && a != b
    ensures Split(p, b, a, x, y)[b := z] == Split(p, b, a, z, y) && Split(p, b, a, x, y)[a := z] == Split(p, b, a, x, z)
    ensures Split(p, b, a, x, y)[b] == x && Split(p, b, a, x, y)[a] == y && Split(p, b, a, x, y).Keys == {p, b, a}
  {
  }

  // --- The first split ---------------------------------------------------------------------------

  function Keyed(b: string, key: string): D.Child { D.Child(b, "", key, [], false) }

  function FreePlan(g: string, p: string, b: string, a: string, key: string): D.InFlight {
    D.InFlight(D.Job(p, g, 0), WorkerOf(p), [Keyed(b, key), Kid(a, [])], [b, a], NO_CHARGE)
  }

  function FreeSubs(lb: string, la: string, key: string): seq<D.Subtask> {
    [D.Subtask(lb, "", [], key), Sub(la, [])]
  }

  lemma FreeIsLiteral(s: State, j: D.Job, b: string, a: string, lb: string, la: string, key: string)
    requires lb != "" && la != "" && lb != la && b == D.ChildId(j.ticketId, lb) && a == D.ChildId(j.ticketId, la)
    requires key != "" && key !in s.keyToTicket
    ensures IsLiteral(s, j, FreeSubs(lb, la, key), map[lb := b, la := a], [Keyed(b, key), Kid(a, [])])
  {
    var subs, ids := FreeSubs(lb, la, key), map[lb := b, la := a];
    assert D.Uses(subs, lb) by { assert subs[0].localId == lb; }
    assert D.Uses(subs, la) by { assert subs[1].localId == la; }
    assert D.Resolve(ids, []) == [];
  }

  lemma FreeIsAdmissible(g: Graph, p: string, b: string, a: string, key: string)
    requires g == map[p := []] && p != a && p != b && a != b
    ensures Admissible(g, [Keyed(b, key), Kid(a, [])], [p, b, a])
    ensures var cs := [Keyed(b, key), Kid(a, [])]; D.New(cs) == cs && D.Ids(cs) == [b, a]
  {
    var cs := [Keyed(b, key), Kid(a, [])];
    PairOfChildren(cs[0], cs[1]);
    JoinFresh(g, map[b := [], a := []]);
    var all := D.Joined(g, D.NewEdges(cs));
    assert all == map[p := [], b := [], a := []];
    Finish(all, [], p);
    assert [] + [p] == [p];
    Finish(all, [p], b);
    assert [p] + [b] == [p, b];
    Finish(all, [p, b], a);
    assert [p, b] + [a] == [p, b, a];
  }

  lemma AcceptsFree(cfg: Config, sys: Sys, p: string, b: string, a: string, lb: string, la: string, key: string,
                    sc: Scene)
    returns (sys': Sys)
    requires Easy(cfg) && Reached(cfg, sys, sc) && sc.tickets == map[p := FIRST_TAKEN] && p in sc.jobs
    requires sc.jobs[p] == Working
    requires lb != "" && la != "" && lb != la && b == D.ChildId(p, lb) && a == D.ChildId(p, la)
    requires p != a && p != b && a != b && key != "" && key !in sc.keys
    ensures Reached(cfg, sys', sc.(jobs := sc.jobs[p := Splitting(FreePlan(sc.goal, p, b, a, key))]))
  {
    FreeIsLiteral(sys.state, D.Job(p, sc.goal, 0), b, a, lb, la, key);
    OneIsAlone(sys.state, sc, p);
    FreeIsAdmissible(D.DependsOn(sys.state), p, b, a, key);
    sys' := SplitsInto(cfg, sys, p, FreeSubs(lb, la, key), map[lb := b, la := a], [Keyed(b, key), Kid(a, [])],
                       [p, b, a], sc);
  }

  lemma FreeScene(sc: Scene, p: string, b: string, a: string, key: string)
    requires sc.tickets == map[p := FIRST_TAKEN] && p != a && p != b && a != b && key != "" && key !in sc.keys
    ensures var plan := FreePlan(sc.goal, p, b, a, key);
            && Creatable(sc, plan)
            && Afterwards(sc, p, plan) ==
               sc.(order := sc.order + [b] + [a], tickets := Split(p, b, a, NewBrief([], 1), NewBrief([], 1)),
                   keys := sc.keys[key := b])
  {
    var plan := FreePlan(sc.goal, p, b, a, key);
    var plan1 := Shorter(plan);
    var sc1 := WithTicket(sc, D.NextBody(plan));
    var sc2 := WithTicket(sc1, D.NextBody(plan1));
    assert plan.todo[0] == Keyed(b, key) && plan1.todo == [Kid(a, [])] && Shorter(plan1).todo == [];
    assert Creatable(sc2, Shorter(plan1)) && Creatable(sc1, plan1);
    assert Afterwards(sc, p, plan) == Afterwards(sc1, p, plan1) == Afterwards(sc2, p, Shorter(plan1));
  }

  /** Two tickets and their parent, before anything is merged. */
  function Fresh(g: string, p: string, b: string, a: string, key: string, base: string, first: Brief,
                 second: Brief): Scene {
    Scene(g, [p, b, a], Split(p, b, a, first, second), map[g + ":impl" := p, key := b], NoCommit, false, map[],
          Cut(NO_BRANCHES, g, base), Resting)
  }

  lemma SplitsFree(cfg: Config, g: string, p: string, b: string, a: string, lb: string, la: string, key: string,
                   base: string)
    returns (sys: Sys)
    requires PullRequests(cfg) && D.Slashless(g) && p == g + "-impl"
    requires lb != "" && la != "" && lb != la && b == D.ChildId(p, lb) && a == D.ChildId(p, la)
    requires p != a && p != b && a != b && key != "" && key != g + ":impl"
    ensures Reached(cfg, sys, Fresh(g, p, b, a, key, base, NewBrief([], 1), NewBrief([], 1)))
  {
    var sc;
    sys, sc := OpensTaken(cfg, g, p, base);
    sys := AcceptsFree(cfg, sys, p, b, a, lb, la, key, sc);
    var plan := FreePlan(g, p, b, a, key);
    var sc1 := sc.(jobs := sc.jobs[p := Splitting(plan)]);
    FreeScene(sc1, p, b, a, key);
    sys := CarriesOut(cfg, sys, p, plan, sc1);
    assert [p] + [b] + [a] == [p, b, a] && sc1.jobs - {p} == map[];
    assert Afterwards(sc1, p, plan).(jobs := map[]) == Fresh(g, p, b, a, key, base, NewBrief([], 1), NewBrief([], 1));
  }

  // --- Both tickets are proposed -----------------------------------------------------------------

  function Work1(status: Status, branch: string): Brief {
    NewBrief([], 1).(status := status, branch := branch, attempts := 1)
  }

  lemma BothAreSwept(s: State, sc: Scene, p: string, b: string, a: string)
    requires TicketsLook(s, sc) && GoalLooks(s, sc) && sc.order == [p, b, a] && p != a && p != b && a != b
    requires sc.tickets == Split(p, b, a, NewBrief([], 1), NewBrief([], 1))
    requires forall id :: id in s.tickets ==> s.tickets[id].origin.id == id
    ensures Sweep(s, s.ticketOrder, Promote) == [TicketReady(b), TicketReady(a)]
  {
    PromotesLook(s, sc, p);
    PromotesLook(s, sc, b);
    PromotesLook(s, sc, a);
    SweepOne(s, p, Promote);
    SweepMore(s, [p], b, Promote);
    SweepMore(s, [p, b], a, Promote);
    assert [p] + [b] == [p, b] && [p, b] + [a] == [p, b, a];
  }

  lemma PromotesBoth(cfg: Config, sys: Sys, p: string, b: string, a: string, sc: Scene) returns (sys': Sys)
    requires Reached(cfg, sys, sc) && sc.order == [p, b, a] && p != a && p != b && a != b && sc.phase == Resting
    requires sc.tickets == Split(p, b, a, NewBrief([], 1), NewBrief([], 1))
    ensures var ready := NewBrief([], 1).(status := Ready);
            Reached(cfg, sys', sc.(tickets := Split(p, b, a, ready, ready)))
  {
    var blank, ready := NewBrief([], 1), NewBrief([], 1).(status := Ready);
    forall id | id in sys.state.tickets ensures sys.state.tickets[id].origin.id == id { TicketIsOk(cfg, sys, id); }
    BothAreSwept(sys.state, sc, p, b, a);
    SplitMoves(p, b, a, blank, blank, ready);
    SplitMoves(p, b, a, ready, blank, ready);
    sys' := PromotesTwo(cfg, sys, b, a, sc);
  }

  function Attempting(sc: Scene, id: string, branch: string): Scene
    requires id in sc.tickets
  {
    var attempts := sc.tickets[id].attempts + 1;
    sc.(tickets := sc.tickets[id := sc.tickets[id].(status := Proposed, branch := branch, attempts := attempts)])
  }

  lemma AttemptScene(cfg: Config, sc: Scene, id: string, branch: string, base: string)
    requires id in sc.tickets && sc.jobs == map[] && sc.goal in sc.br.tips
    ensures Proposing(Underway(cfg, sc, id, base), id, branch) == Attempting(sc, id, branch)
  {
    assert map[id := Working] - {id} == map[];
  }

  /** A ready ticket is dispatched and its worker proposes. */
  lemma ProposesNext(cfg: Config, sys: Sys, id: string, branch: string, base: string, sc: Scene) returns (sys': Sys)
    requires PullRequests(cfg) && Reached(cfg, sys, sc) && Takeable(cfg, sc, id) && sc.jobs == map[]
    requires sc.goal in sc.br.tips
    ensures Reached(cfg, sys', Attempting(sc, id, branch))
  {
    sys' := Takes(cfg, sys, id, base, sc);
    sys' := ProposesWork(cfg, sys', id, branch, Underway(cfg, sc, id, base));
    AttemptScene(cfg, sc, id, branch, base);
  }

  lemma BothScene(p: string, b: string, a: string, wb: string, wa: string, sc: Scene)
    requires p != a && p != b && a != b
    requires sc.tickets == Split(p, b, a, NewBrief([], 1).(status := Ready), NewBrief([], 1).(status := Ready))
    ensures Attempting(Attempting(sc, b, wb), a, wa) ==
            sc.(tickets := Split(p, b, a, Work1(Proposed, wb), Work1(Proposed, wa)))
  {
    var ready := NewBrief([], 1).(status := Ready);
    SplitMoves(p, b, a, ready, ready, Work1(Proposed, wb));
    SplitMoves(p, b, a, Work1(Proposed, wb), ready, Work1(Proposed, wa));
  }

  lemma BothPropose(cfg: Config, sys: Sys, p: string, b: string, a: string, wb: string, wa: string, base: string,
                    sc: Scene)
    returns (sys': Sys)
    requires PullRequests(cfg) && Reached(cfg, sys, sc) && sc.jobs == map[] && sc.goal in sc.br.tips
    requires sc.phase == Resting
    requires p != a && p != b && a != b
    requires sc.tickets == Split(p, b, a, NewBrief([], 1).(status := Ready), NewBrief([], 1).(status := Ready))
    ensures Reached(cfg, sys', sc.(tickets := Split(p, b, a, Work1(Proposed, wb), Work1(Proposed, wa))))
  {
    sys' := ProposesNext(cfg, sys, b, wb, base, sc);
    sys' := ProposesNext(cfg, sys', a, wa, base, Attempting(sc, b, wb));
    BothScene(p, b, a, wb, wa, sc);
  }

  // --- One merge is recorded, the other only made ------------------------------------------------

  lemma BothQueued(sc: Scene, p: string, b: string, a: string)
    requires sc.tickets.Keys == {p, b, a} && p != a && p != b && a != b
    requires sc.tickets[p].status != Proposed && sc.tickets[b].status == Proposed && sc.tickets[a].status == Proposed
    ensures ProposedIn(sc, [p, b, a]) == [b, a]
  {
    assert [p, b, a][..2] == [p, b] && [p, b][..1] == [p] && [p][..0] == [];
    assert ProposedIn(sc, [p]) == [] && ProposedIn(sc, [p, b]) == [b];
  }

  /** The head of the queue is merged onto the Goal's branch. */
  lemma MakesMerge(cfg: Config, sys: Sys, q: seq<Ticket>, id: string, sc: Scene) returns (sys': Sys)
    requires PullRequests(cfg) && Reached(cfg, sys, sc) && q != [] && q[0].origin.id == id
    requires sc.phase == Draining(q, 0, Stage.Waiting)
    requires id in sc.tickets && sc.goal in sc.br.tips
    ensures var c := LandingOf(cfg, sc, id);
            Reached(cfg, sys', sc.(br := Advance(sc.br, sc.goal, c), phase := Draining(q, 1, Kept(c))))
  {
    var c := LandingOf(cfg, sc, id);
    sys' := ClearsHead(cfg, sys, q, sc);
    sys' := PassesHead(cfg, sys', q, sc.(phase := Draining(q, 1, Stage.Waiting)));
    sys' := AdvancesHead(cfg, sys', q, c, sc.(phase := Draining(q, 1, Stage.Landing(c))));
  }

  /** And the merge is recorded. */
  lemma RecordsMerge(cfg: Config, sys: Sys, q: seq<Ticket>, c: Commit, sc: Scene) returns (sys': Sys)
    requires PullRequests(cfg) && Reached(cfg, sys, sc) && q != [] && sc.phase == Draining(q, 1, Kept(c))
    requires q[0].origin.id in sc.tickets
    ensures Reached(cfg, sys', Recording(sc.(phase := Draining(q, 1, Recorded(c))), q, c))
  {
    sys' := RecordsPass(cfg, sys, q, Kept(c), Recorded(c), sc);
    sys' := MergesHead(cfg, sys', q, c, sc.(phase := Draining(q, 1, Recorded(c))));
  }

  /** The branch's tips, and what is left of the queue, once the first is merged. */
  function AfterFirst(sc: Scene, p: string, b: string, a: string, q: seq<Ticket>, wb: string, wa: string,
                      c: Commit): Scene
    requires q != []
  {
    sc.(tickets := Split(p, b, a, Work1(MergedIn, wb), Work1(Proposed, wa)), merged := c, landed := true,
        br := Found(Advance(sc.br, sc.goal, c), sc.goal), phase := Draining(q[1..], 0, Stage.Waiting))
  }

  lemma FirstMerged(cfg: Config, sys: Sys, p: string, b: string, a: string, wb: string, wa: string, sc: Scene)
    returns (sys': Sys, q: seq<Ticket>)
    requires PullRequests(cfg) && Reached(cfg, sys, sc) && sc.phase == Resting && sc.goal in sc.br.tips
    requires sc.order == [p, b, a]
    requires p != a && p != b && a != b && sc.tickets == Split(p, b, a, Work1(Proposed, wb), Work1(Proposed, wa))
    ensures QueueIs(q, [b, a])
    ensures Reached(cfg, sys', AfterFirst(sc, p, b, a, q, wb, wa, MergeOn(sc.br.tips[sc.goal], wb, 0)))
  {
    var c := MergeOn(sc.br.tips[sc.goal], wb, 0);
    sys', q := Queues(cfg, sys, sc);
    SplitMoves(p, b, a, Work1(Proposed, wb), Work1(Proposed, wa), Work1(MergedIn, wb));
    BothQueued(sc, p, b, a);
    sys' := MakesMerge(cfg, sys', q, b, sc.(phase := Draining(q, 0, Stage.Waiting)));
    sys' := RecordsMerge(cfg, sys', q, c, sc.(br := Advance(sc.br, sc.goal, c), phase := Draining(q, 1, Kept(c))));
  }

  /** The first is merged; the second is on the branch when the process dies. */
  lemma SecondMade(cfg: Config, sys: Sys, p: string, b: string, a: string, wb: string, wa: string, q: seq<Ticket>,
                   sc: Scene)
    returns (sys': Sys)
    requires PullRequests(cfg) && Reached(cfg, sys, sc) && |q| == 1 && q[0].origin.id == a
    requires sc.phase == Draining(q, 0, Stage.Waiting)
    requires p != a && p != b && a != b && sc.tickets == Split(p, b, a, Work1(MergedIn, wb), Work1(Proposed, wa))
    requires sc.goal in sc.br.tips
    ensures Reached(cfg, sys', sc.(br := Advance(sc.br, sc.goal, MergeOn(sc.br.tips[sc.goal], wa, 0)), jobs := map[],
                                   phase := Resting))
  {
    var c := MergeOn(sc.br.tips[sc.goal], wa, 0);
    SplitMoves(p, b, a, Work1(MergedIn, wb), Work1(Proposed, wa), Work1(Ready, ""));
    sys' := MakesMerge(cfg, sys, q, a, sc);
    sys' := Crashes(cfg, sys', sc.(br := Advance(sc.br, sc.goal, c), phase := Draining(q, 1, Kept(c))));
  }

  // --- The error ---------------------------------------------------------------------------------

  lemma OnlySecondQueued(sc: Scene, p: string, b: string, a: string)
    requires sc.tickets.Keys == {p, b, a} && p != a && p != b && a != b
    requires sc.tickets[p].status != Proposed && sc.tickets[b].status != Proposed && sc.tickets[a].status == Proposed
    ensures ProposedIn(sc, [p, b, a]) == [a]
  {
    assert [p, b, a][..2] == [p, b] && [p, b][..1] == [p] && [p][..0] == [];
    assert ProposedIn(sc, [p]) == [] && ProposedIn(sc, [p, b]) == [];
  }

  function Lost(br: Branches, g: string): Branches { br.(lost := br.lost + {g}) }

  lemma ErrLoses(cfg: Config, sys: Sys, q: seq<Ticket>, reason: string, sc: Scene)
    requires PullRequests(cfg) && Reached(cfg, sys, sc) && q != [] && sc.phase == Draining(q, 1, Stage.Waiting)
    requires sc.landed
    requires q[0].origin.id in sc.tickets && sc.goal in sc.br.tips && sc.merged != sc.br.tips[sc.goal]
    requires HasBranch(sc.br.tips[sc.goal], sc.tickets[q[0].origin.id].branch)
    ensures JudgeHead(cfg, sys, 0, Errs(reason)) == Rejects(cfg, sys, 0, q[0], reason, "").(br := Lost(sc.br, sc.goal))
  {
    HeadLooks(cfg, sys, sc, 0);
    assert Loses(cfg, sys, q[0]);
  }

  lemma QueuesSecond(cfg: Config, sys: Sys, p: string, b: string, a: string, sc: Scene)
    returns (sys': Sys, q: seq<Ticket>)
    requires Reached(cfg, sys, sc) && sc.phase == Resting && sc.order == [p, b, a] && p != a && p != b && a != b
    requires sc.tickets.Keys == {p, b, a} && sc.tickets[p].status == Decomposed && sc.tickets[b].status == MergedIn
    requires sc.tickets[a].status == Proposed
    ensures QueueIs(q, [a]) && Reached(cfg, sys', sc.(phase := Draining(q, 1, Stage.Waiting)))
  {
    OnlySecondQueued(sc, p, b, a);
    sys', q := QueuesOnly(cfg, sys, a, sc);
  }

  /** The merge queue errs on the proposal whose work is on the branch. */
  lemma ErrsOnSecond(cfg: Config, sys: Sys, p: string, b: string, a: string, wb: string, wa: string, reason: string,
                     sc: Scene)
    returns (sys': Sys)
    requires PullRequests(cfg) && Reached(cfg, sys, sc) && sc.phase == Resting && sc.order == [p, b, a] && p != a
    requires p != b && a != b
    requires sc.tickets == Split(p, b, a, Work1(MergedIn, wb), Work1(Proposed, wa)) && sc.landed
    requires sc.goal in sc.br.tips && sc.merged != sc.br.tips[sc.goal] && HasBranch(sc.br.tips[sc.goal], wa)
    ensures Reached(cfg, sys', sc.(tickets := Split(p, b, a, Work1(MergedIn, wb), Work1(Ready, "")),
                                   br := Lost(sc.br, sc.goal)))
  {
    SplitMoves(p, b, a, Work1(MergedIn, wb), Work1(Proposed, wa), Work1(Ready, ""));
    var q;
    sys', q := QueuesSecond(cfg, sys, p, b, a, sc);
    var sc1 := sc.(phase := Draining(q, 1, Stage.Waiting));
    ErrLoses(cfg, sys', q, reason, sc1);
    sys' := RejectsHead(cfg, sys', q, Errs(reason), reason, "", Lost(sc.br, sc.goal), sc1);
    sys' := GivesUpPass(cfg, sys', Rejected(sc1, q, Lost(sc.br, sc.goal)));
  }

  // --- The second split --------------------------------------------------------------------------

  lemma NoEdges(s: State, sc: Scene, order: seq<string>)
    requires TicketsLook(s, sc) && (forall id :: id in sc.tickets ==> sc.tickets[id].deps == [])
    requires forall id :: id in sc.tickets ==> id in order
    ensures var all := D.Joined(D.DependsOn(s), map[]);
            Finished(all, order) && forall n :: n in all ==> n in order
  {
    var all := D.Joined(D.DependsOn(s), map[]);
    GraphLooks(s, sc);
    forall i, m | 0 <= i < |order| ensures !Edge(all, order[i], m) {
      D.JoinedEdges(D.DependsOn(s), map[], order[i], m);
    }
  }

  lemma AdoptIsAccepted(s: State, sc: Scene, j: D.Job, subs: seq<D.Subtask>, gov: D.Governors, order: seq<string>)
    requires TicketsLook(s, sc) && Roomy(gov) && j.depth < 5 && |sc.tickets| <= 50
    requires |subs| == 1 && subs[0].key != "" && subs[0].key in sc.keys && subs[0].localId != ""
    requires subs[0].dependsOn == []
    requires (forall x :: x in sc.tickets ==> sc.tickets[x].deps == []) && forall x :: x in sc.tickets ==> x in order
    ensures D.Accepts(s, j, subs, gov) && D.New(D.Plan(s, j, subs)) == []
    ensures D.Ids(D.Plan(s, j, subs)) == [sc.keys[subs[0].key]]
  {
    var cs := AdoptingPlan(s, j, subs);
    NoEdges(s, sc, order);
    assert D.DependsOn(s).Keys == sc.tickets.Keys && |D.DependsOn(s)| == |D.DependsOn(s).Keys| &&
        |sc.tickets| == |sc.tickets.Keys|;
    SmallIsAccepted(s, j, subs, gov, cs, order);
  }

  function AdoptedPlan(sc: Scene, id: string, key: string): D.InFlight
    requires id in sc.tickets && key in sc.keys
  {
    D.InFlight(D.Job(id, sc.goal, sc.tickets[id].depth), WorkerOf(id), [], [sc.keys[key]], NO_CHARGE)
  }

  /** Its worker splits the ticket into what the key names. */
  lemma Adopts(cfg: Config, sys: Sys, id: string, local: string, key: string, order: seq<string>, sc: Scene)
    returns (sys': Sys)
    requires Roomy(cfg.gov) && Reached(cfg, sys, sc) && id in sc.tickets && id in sc.jobs && sc.jobs[id] == Working
    requires sc.tickets[id].depth < 5
    requires key != "" && key in sc.keys && local != "" && |sc.tickets| <= 50
    requires (forall x :: x in sc.tickets ==> sc.tickets[x].deps == []) && forall x :: x in sc.tickets ==> x in order
    ensures Reached(cfg, sys', sc.(jobs := sc.jobs[id := Splitting(AdoptedPlan(sc, id, key))]))
  {
    var subs := [D.Subtask(local, "", [], key)];
    AdoptIsAccepted(sys.state, sc, DispatchedAs(sys.state, id), subs, cfg.gov, order);
    sys' := SplitsWork(cfg, sys, id, subs, sc);
  }

  function SplitAgain(b: string): Brief { NewBrief([], 1).(status := Decomposed, attempts := 2, children := [b]) }

  /** The ticket's next attempt is split into the work that is merged already. */
  lemma SecondAdopts(cfg: Config, sys: Sys, p: string, b: string, a: string, wb: string, key: string, base: string,
                     sc: Scene)
    returns (sys': Sys)
    requires PullRequests(cfg) && Reached(cfg, sys, sc) && sc.phase == Resting && sc.jobs == map[] && p != a && p != b
    requires a != b
    requires sc.tickets == Split(p, b, a, Work1(MergedIn, wb), Work1(Ready, "")) && sc.goal in sc.br.tips
    requires key != "" && key in sc.keys && sc.keys[key] == b
    ensures Reached(cfg, sys', sc.(tickets := Split(p, b, a, Work1(MergedIn, wb), SplitAgain(b))))
  {
    TriesAgain(cfg, p, b, a, wb, base, sc);
    sys' := Takes(cfg, sys, a, base, sc);
    sys' := AdoptsAndEnds(cfg, sys', p, b, a, wb, key, Again(p, b, a, wb, sc));
    EndsAgain(p, b, a, wb, sc);
  }

  /** The second ticket's second attempt is under way. */
  function Again(p: string, b: string, a: string, wb: string, sc: Scene): Scene {
    sc.(tickets := Split(p, b, a, Work1(MergedIn, wb), Work1(Running, "").(attempts := 2)), jobs := map[a := Working])
  }

  lemma TriesAgain(cfg: Config, p: string, b: string, a: string, wb: string, base: string, sc: Scene)
    requires PullRequests(cfg) && sc.phase == Resting && sc.jobs == map[] && p != a && p != b && a != b
    requires sc.tickets == Split(p, b, a, Work1(MergedIn, wb), Work1(Ready, "")) && sc.goal in sc.br.tips
    ensures Takeable(cfg, sc, a) && Underway(cfg, sc, a, base) == Again(p, b, a, wb, sc)
  {
    SplitMoves(p, b, a, Work1(MergedIn, wb), Work1(Ready, ""), Work1(Running, "").(attempts := 2));
  }

  lemma EndsAgain(p: string, b: string, a: string, wb: string, sc: Scene)
    requires p != a && p != b && a != b && sc.jobs == map[]
    ensures Again(p, b, a, wb, sc).(tickets := Again(p, b, a, wb, sc).tickets[a := SplitAgain(b)],
                                    jobs := Again(p, b, a, wb, sc).jobs - {a}) ==
            sc.(tickets := Split(p, b, a, Work1(MergedIn, wb), SplitAgain(b)))
  {
    SplitMoves(p, b, a, Work1(MergedIn, wb), Work1(Running, "").(attempts := 2), SplitAgain(b));
    assert Again(p, b, a, wb, sc).jobs - {a} == map[];
  }

  lemma ThreeTickets(sc: Scene, p: string, b: string, a: string, x: Brief, y: Brief)
    requires sc.tickets == Split(p, b, a, x, y)
    ensures |sc.tickets| <= 50
  {
    assert sc.tickets.Keys == {p, b, a} && |sc.tickets| == |sc.tickets.Keys|;
  }

  lemma AdoptsAndEnds(cfg: Config, sys: Sys, p: string, b: string, a: string, wb: string, key: string, sc: Scene)
    returns (sys': Sys)
    requires Easy(cfg) && Reached(cfg, sys, sc) && sc.jobs == map[a := Working] && p != a && p != b && a != b
    requires sc.tickets == Split(p, b, a, Work1(MergedIn, wb), Work1(Running, "").(attempts := 2))
    requires key != "" && key in sc.keys && sc.keys[key] == b
    ensures Reached(cfg, sys', sc.(tickets := sc.tickets[a := SplitAgain(b)], jobs := sc.jobs - {a}))
  {
    ThreeTickets(sc, p, b, a, Work1(MergedIn, wb), Work1(Running, "").(attempts := 2));
    NoDeps(sc, p, b, a, Work1(MergedIn, wb), Work1(Running, "").(attempts := 2));
    sys' := Adopts(cfg, sys, a, "again", key, [p, b, a], sc);
    sys' := EndsAdopted(cfg, sys', a, AdoptedPlan(sc, a, key), sc);
  }

  lemma NoDeps(sc: Scene, p: string, b: string, a: string, x: Brief, y: Brief)
    requires sc.tickets == Split(p, b, a, x, y) && x.deps == [] && y.deps == []
    ensures forall id :: id in sc.tickets ==> sc.tickets[id].deps == [] && id in [p, b, a]
  {
  }

  lemma EndsAdopted(cfg: Config, sys: Sys, a: string, plan: D.InFlight, sc: Scene) returns (sys': Sys)
    requires a in sc.tickets && a in sc.jobs && Reached(cfg, sys, sc.(jobs := sc.jobs[a := Splitting(plan)]))
    requires plan.todo == [] && plan.job.ticketId == a && plan.charge == NO_CHARGE
    ensures var brief := sc.tickets[a].(status := Decomposed, children := plan.children);
            Reached(cfg, sys', sc.(tickets := sc.tickets[a := brief], jobs := sc.jobs - {a}))
  {
    sys' := CompletesPlan(cfg, sys, a, plan, sc.(jobs := sc.jobs[a := Splitting(plan)]));
    assert sc.jobs[a := Splitting(plan)] - {a} == sc.jobs - {a};
  }

  // --- The delivery ------------------------------------------------------------------------------

  lemma AllDone(s: State, sc: Scene, p: string, b: string, a: string, wb: string)
    requires TicketsLook(s, sc) && GoalLooks(s, sc) && sc.landed && p != a && p != b && a != b
    requires sc.tickets == Split(p, b, a, Work1(MergedIn, wb), SplitAgain(b))
    ensures Deliverable(s, sc.goal)
  {
    assert LooksLike(s.tickets[p], sc.goal, sc.tickets[p]) && LooksLike(s.tickets[b], sc.goal, sc.tickets[b]);
    assert LooksLike(s.tickets[a], sc.goal, sc.tickets[a]);
    assert Complete(s, b);
    assert Complete(s, a);
    assert Complete(s, p);
  }

  lemma TriesPush(cfg: Config, sys: Sys, sc: Scene) returns (sys': Sys)
    requires Reached(cfg, sys, sc.(phase := Delivering([sc.goal]))) && sc.goal in sc.br.tips
    requires Deliverable(sys.state, sc.goal)
    ensures Reached(cfg, sys', sc.(phase := Pushing(sc.goal, sc.br.tips[sc.goal], [])))
  {
    var sc1 := sc.(phase := Delivering([sc.goal]));
    assert [sc.goal][1..] == [];
    sys' := Turns(cfg, sys, Pass(0, TriesDelivery), sc1, sc1.(phase := Pushing(sc.goal, sc.br.tips[sc.goal], [])));
  }

  /** The branch is pushed. */
  lemma ReachesPush(cfg: Config, sys: Sys, p: string, b: string, a: string, wb: string, sc: Scene) returns (sys': Sys)
    requires PullRequests(cfg) && Reached(cfg, sys, sc) && sc.phase == Resting && sc.goal in sc.br.tips && sc.landed
    requires p != a && p != b && a != b && sc.tickets == Split(p, b, a, Work1(MergedIn, wb), SplitAgain(b))
    ensures Reached(cfg, sys', sc.(phase := Pushing(sc.goal, sc.br.tips[sc.goal], [])))
  {
    sys' := Turns(cfg, sys, Pass(0, DeliversReady([sc.goal])), sc, sc.(phase := Delivering([sc.goal])));
    AllDone(sys'.state, sc, p, b, a, wb);
    sys' := TriesPush(cfg, sys', sc);
  }

  lemma NotLatest(log: seq<Event>, e: Event, g: string, c: Commit)
    requires e.body.Delivered? && e.body.goalId == g && g in LandingsOf(log).last && LastMerge(LandingsOf(log), g) == c
    requires e.body.commit != c
    ensures !DeliversLatest(log + [e], |log|)
  {
    assert (log + [e])[..|log|] == log;
    DeliversLatestMeans(log + [e], |log|);
  }

  lemma PushedLog(sys: Sys, url: string)
    requires sys.phase.Pushing?
    ensures var g := sys.phase.goal;
            Push(sys, 0, Some(url), "").log ==
            sys.log + [Event(|sys.log| + 1, 0, "orchestrator", Delivered(g, GoalBranch(g), sys.phase.tip, url))]
  {
  }

  lemma PushReaches(cfg: Config, sys: Sys, url: string) returns (steps: seq<Step>)
    requires Reachable(cfg, sys) && sys.phase.Pushing?
    ensures var g := sys.phase.goal;
            Run(cfg, steps).log ==
            sys.log + [Event(|sys.log| + 1, 0, "orchestrator", Delivered(g, GoalBranch(g), sys.phase.tip, url))]
  {
    var step := Pass(0, Pushed(url));
    var sys' := Push(sys, 0, Some(url), "");
    assert Next(cfg, sys, step) == sys';
    Reaches(cfg, sys, step, sys');
    steps := ReachableRuns(cfg, sys');
    PushedLog(sys, url);
  }

  /** And delivered. */
  lemma DeliversTip(cfg: Config, sys: Sys, url: string, sc: Scene) returns (steps: seq<Step>, m: nat)
    requires Reached(cfg, sys, sc) && sc.phase.Pushing? && sc.phase.goal == sc.goal && sc.landed
    requires sc.merged != sc.phase.tip
    ensures m < |Run(cfg, steps).log| && Run(cfg, steps).log[m].body.Delivered?
    ensures Run(cfg, steps).log[m].body.goalId == sc.goal
    ensures !DeliversLatest(Run(cfg, steps).log, m)
  {
    var g := sc.goal;
    var e := Event(|sys.log| + 1, 0, "orchestrator", Delivered(g, GoalBranch(g), sys.phase.tip, url));
    LatestIsMerged(cfg, sys, sc);
    NotLatest(sys.log, e, g, sc.merged);
    steps := PushReaches(cfg, sys, url);
    m := |sys.log|;
  }

  lemma LatestIsMerged(cfg: Config, sys: Sys, sc: Scene)
    requires Reached(cfg, sys, sc) && sc.phase.Pushing? && sc.phase.goal == sc.goal && sc.landed
    ensures sc.goal in LandingsOf(sys.log).last && LastMerge(LandingsOf(sys.log), sc.goal) == sc.merged
  {
    var before := ReachableRuns(cfg, sys);
  }

  // --- The whole run -----------------------------------------------------------------------------

  lemma UpToQueue(cfg: Config, g: string, p: string, b: string, a: string, lb: string, la: string, key: string,
                  base: string,
                  wb: string, wa: string)
    returns (sys: Sys)
    requires PullRequests(cfg) && D.Slashless(g) && p == g + "-impl"
    requires lb != "" && la != "" && lb != la && b == D.ChildId(p, lb) && a == D.ChildId(p, la)
    requires p != a && p != b && a != b && key != "" && key != g + ":impl"
    ensures Reached(cfg, sys, Fresh(g, p, b, a, key, base, Work1(Proposed, wb), Work1(Proposed, wa)))
  {
    var sc := Fresh(g, p, b, a, key, base, NewBrief([], 1), NewBrief([], 1));
    var ready := NewBrief([], 1).(status := Ready);
    sys := SplitsFree(cfg, g, p, b, a, lb, la, key, base);
    sys := PromotesBoth(cfg, sys, p, b, a, sc);
    sys := BothPropose(cfg, sys, p, b, a, wb, wa, base, sc.(tickets := Split(p, b, a, ready, ready)));
  }

  function Onto1(base: string, wb: string): Commit { Join(Root(base), wb, 0) }

  function Onto2(base: string, wb: string, wa: string): Commit { Join(Onto1(base, wb), wa, 0) }

  function Tip(g: string, base: string, c: Commit): Branches {
    Branches(map[g := c], map[g := Root(base)], {})
  }

  lemma TipsMove(g: string, base: string, wb: string, wa: string)
    requires wa != wb
    ensures Cut(NO_BRANCHES, g, base) == Tip(g, base, Root(base))
    ensures MergeOn(Root(base), wb, 0) == Onto1(base, wb) && MergeOn(Onto1(base, wb), wa, 0) == Onto2(base, wb, wa)
    ensures Found(Advance(Tip(g, base, Root(base)), g, Onto1(base, wb)), g) == Tip(g, base, Onto1(base, wb))
    ensures Advance(Tip(g, base, Onto1(base, wb)), g, Onto2(base, wb, wa)) == Tip(g, base, Onto2(base, wb, wa))
    ensures Onto1(base, wb) != Onto2(base, wb, wa) && HasBranch(Onto2(base, wb, wa), wa)
  {
    var none: set<string> := {};
    assert none - {g} == none;
    assert !HasBranch(Root(base), wb) && !HasBranch(Root(base), wa) && !HasBranch(Onto1(base, wb), wa);
    NotUnderItself(Onto1(base, wb), Onto2(base, wb, wa));
    assert Rank(Onto2(base, wb, wa)) == Rank(Onto1(base, wb)) + 1;
  }

  /** One merge recorded, the other only made. */
  function HalfMerged(g: string, p: string, b: string, a: string, key: string, base: string, wb: string, wa: string,
                      second: Brief): Scene {
    Scene(g, [p, b, a], Split(p, b, a, Work1(MergedIn, wb), second), map[g + ":impl" := p, key := b], Onto1(base, wb),
          true, map[],
          Tip(g, base, Onto2(base, wb, wa)), Resting)
  }

  lemma UpToCrash(cfg: Config, sys: Sys, g: string, p: string, b: string, a: string, key: string, base: string,
                  wb: string, wa: string)
    returns (sys': Sys)
    requires PullRequests(cfg) && wa != wb && p != a && p != b && a != b
    requires Reached(cfg, sys, Fresh(g, p, b, a, key, base, Work1(Proposed, wb), Work1(Proposed, wa)))
    ensures Reached(cfg, sys', HalfMerged(g, p, b, a, key, base, wb, wa, Work1(Proposed, wa)))
  {
    var sc, q := Fresh(g, p, b, a, key, base, Work1(Proposed, wb), Work1(Proposed, wa)), [];
    TipsMove(g, base, wb, wa);
    sys', q := FirstMerged(cfg, sys, p, b, a, wb, wa, sc);
    var sc1 := AfterFirst(sc, p, b, a, q, wb, wa, Onto1(base, wb));
    sys' := SecondMade(cfg, sys', p, b, a, wb, wa, q[1..], sc1);
  }

  lemma UpToDelivery(cfg: Config, sys: Sys, g: string, p: string, b: string, a: string, key: string, base: string,
                     wb: string, wa: string)
    returns (sys': Sys, sc: Scene)
    requires PullRequests(cfg) && wa != wb && p != a && p != b && a != b && key != ""
    requires Reached(cfg, sys, HalfMerged(g, p, b, a, key, base, wb, wa, Work1(Proposed, wa)))
    ensures Reached(cfg, sys', sc) && sc.phase == Pushing(g, Onto2(base, wb, wa), []) && sc.goal == g && sc.landed
    ensures sc.merged == Onto1(base, wb)
  {
    TipsMove(g, base, wb, wa);
    sc := HalfMerged(g, p, b, a, key, base, wb, wa, Work1(Proposed, wa));
    sys' := ErrsOnSecond(cfg, sys, p, b, a, wb, wa, "", sc);
    sc := HalfMerged(g, p, b, a, key, base, wb, wa, Work1(Ready, "")).(br := Lost(sc.br, g));
    sys' := SecondAdopts(cfg, sys', p, b, a, wb, key, base, sc);
    sc := HalfMerged(g, p, b, a, key, base, wb, wa, SplitAgain(b)).(br := sc.br);
    sys' := ReachesPush(cfg, sys', p, b, a, wb, sc);
    sc := sc.(phase := Pushing(g, Onto2(base, wb, wa), []));
  }

  /** A run that delivers a commit that is not its Goal's latest merge. */
  lemma DeliversAnotherCommit(cfg: Config, g: string, base: string, url: string) returns (steps: seq<Step>, m: nat)
    requires PullRequests(cfg) && D.Slashless(g)
    ensures m < |Run(cfg, steps).log| && Run(cfg, steps).log[m].body.Delivered?
    ensures Run(cfg, steps).log[m].body.goalId == g
    ensures !DeliversLatest(Run(cfg, steps).log, m)
  {
    var p, key := g + "-impl", g + ":b";
    var b, a := D.ChildId(p, "b"), D.ChildId(p, "a");
    assert b[|b| - 1] == 'b' && a[|a| - 1] == 'a' && |b| > |p| && |a| > |p|;
    assert |key| == |g| + 2 && |g + ":impl"| == |g| + 5;
    var sys := UpToQueue(cfg, g, p, b, a, "b", "a", key, base, "b", "a");
    sys := UpToCrash(cfg, sys, g, p, b, a, key, base, "b", "a");
    var sc;
    sys, sc := UpToDelivery(cfg, sys, g, p, b, a, key, base, "b", "a");
    TipsMove(g, base, "b", "a");
    steps, m := DeliversTip(cfg, sys, url, sc);
  }
}
