/** The task graph while many workers split their tickets at once: each plan is checked
    against the log alone, and then appended one event at a time (decompose in
    internal/orchestrator/orchestrator.go). */
module GraphGrowth {
  import opened Events
  import opened Replay
  import opened Digraph
  import opened Decompose

  /** The state of the log, the plans being appended, by ticket, and the tickets a plan
      was ever accepted for. */
  datatype Sys = Sys(state: State, plans: map<string, InFlight>, begun: set<string>)

  datatype Step =
    | Begin(job: Job, worker: string, subs: seq<Subtask>, gov: Governors, charge: Charge, ts: int)
    | Emit(id: string, ts: int)                     // the next append of a ticket's plan
    | Drop(ids: set<string>)                        // processes died, or an append failed
    | Seed(goalId: string, title: string, ts: int)  // the Scheduler creates a Goal's first ticket
    | Other(e: Event, ended: set<string>)           // an event of no plan's, which may end some

  const START := Sys(EMPTY, map[], {})

  function Appended(sys: Sys, ts: int, b: Body): Sys {
    sys.(state := Apply(sys.state, Event(sys.state.lastSeq + 1, ts, "orchestrator", b)))
  }

  function Started(sys: Sys, j: Job, worker: string, subs: seq<Subtask>, charge: Charge): Sys {
    sys.(plans := sys.plans[j.ticketId := Begun(sys.state, j, worker, subs, charge)], begun := sys.begun + {j.ticketId})
  }

  function Rest(plans: map<string, InFlight>, id: string): map<string, InFlight>
    requires id in plans
  {
    if plans[id].todo == [] then plans - {id} else plans[id := plans[id].(todo := plans[id].todo[1..])]
  }

  function Emitted(sys: Sys, id: string, ts: int): Sys
    requires id in sys.plans
  {
    Appended(sys, ts, NextBody(sys.plans[id])).(plans := Rest(sys.plans, id))
  }

  function SeedBody(g: string, title: string): Body {
    TicketCreated(g + "-impl", g, title, [], g + ":impl", "", 0)
  }

  ghost predicate Accepted(sys: Sys, j: Job, subs: seq<Subtask>, gov: Governors) {
    j.ticketId !in sys.plans && Accepts(sys.state, j, subs, gov)
  }

  ghost function Next(sys: Sys, step: Step): Sys {
    match step
    case Begin(j, worker, subs, gov, charge, ts) =>
      if j.ticketId in sys.plans then sys
      else if Accepts(sys.state, j, subs, gov) then Started(sys, j, worker, subs, charge)
      else Appended(sys, ts, RefusedBody(j, worker, charge))
    case Emit(id, ts) => if id in sys.plans then Emitted(sys, id, ts) else sys
    case Drop(ids) => sys.(plans := sys.plans - ids)
    case Seed(g, title, ts) => Appended(sys, ts, SeedBody(g, title))
    case Other(e, ended) =>
      if e.body.TicketCreated? || e.body.TicketDecomposed? then sys
      else sys.(state := Apply(sys.state, e), plans := sys.plans - ended)
  }

  ghost function RunFrom(sys: Sys, steps: seq<Step>): Sys {
    if steps == [] then sys else Next(RunFrom(sys, steps[..|steps| - 1]), steps[|steps| - 1])
  }

  ghost function Run(steps: seq<Step>): Sys { RunFrom(START, steps) }

  // --- The graph the log is heading for ----------------------------------------------------------

  /** The children yet to be appended. */
  function Pending(plans: map<string, InFlight>): set<Child> {
    set p, c | p in plans && c in plans[p].todo :: c
  }

  ghost predicate PendingEdge(pending: set<Child>, n: string, m: string) {
    exists c :: c in pending && c.id == n && m in c.deps
  }

  ghost function Pick(pending: set<Child>): Child
    requires pending != {}
  {
    var c :| c in pending;
    c
  }

  ghost function Edges(pending: set<Child>): Graph {
    if pending == {} then map[] else
    var c := Pick(pending);
    Joined(Edges(pending - {c}), map[c.id := c.deps])
  }

  lemma {:induction false} EdgesArePending(pending: set<Child>, n: string, m: string)
    ensures Edge(Edges(pending), n, m) <==> PendingEdge(pending, n, m)
    decreases pending
  {
    if pending != {} {
      var c := Pick(pending);
      EdgesArePending(pending - {c}, n, m);
      JoinedEdges(Edges(pending - {c}), map[c.id := c.deps], n, m);
    }
  }

  lemma {:induction false} PendingNodes(pending: set<Child>, n: string)
    ensures n in Edges(pending) <==> exists c :: c in pending && c.id == n
    decreases pending
  {
    if pending != {} {
      var c := Pick(pending);
      PendingNodes(pending - {c}, n);
      if d :| d in pending && d.id == n { assert d == c || d in pending - {c}; }
    }
  }

  /** The dependency graph, with every child still to be appended. */
  ghost function Virtual(s: State, pending: set<Child>): Graph {
    Joined(DependsOn(s), Edges(pending))
  }

  lemma VirtualEdge(s: State, pending: set<Child>, n: string, m: string)
    ensures Edge(Virtual(s, pending), n, m) <==> Edge(DependsOn(s), n, m) || PendingEdge(pending, n, m)
  {
    JoinedEdges(DependsOn(s), Edges(pending), n, m);
    EdgesArePending(pending, n, m);
  }

  /** A graph whose edges were all there, or pending, before. */
  lemma Shrinks(s: State, pending: set<Child>, s': State, pending': set<Child>)
    requires !Cyclic(Virtual(s, pending)) && pending' <= pending
    requires forall n, m :: Edge(DependsOn(s'), n, m) ==> Edge(DependsOn(s), n, m) || PendingEdge(pending, n, m)
    ensures !Cyclic(Virtual(s', pending'))
  {
    forall n, m | Edge(Virtual(s', pending'), n, m) ensures Edge(Virtual(s, pending), n, m) {
      VirtualEdge(s', pending', n, m);
      VirtualEdge(s, pending, n, m);
    }
    SubgraphAcyclic(Virtual(s', pending'), Virtual(s, pending));
  }

  lemma LogIsPart(s: State, pending: set<Child>)
    requires !Cyclic(Virtual(s, pending))
    ensures !Cyclic(DependsOn(s))
  {
    forall n, m | Edge(DependsOn(s), n, m) ensures Edge(Virtual(s, pending), n, m) { VirtualEdge(s, pending, n, m); }
    SubgraphAcyclic(DependsOn(s), Virtual(s, pending));
  }

  // --- Only an accepted plan adds to it ----------------------------------------------------------

  lemma ApplyKeepsGraph(s: State, e: Event)
    requires !e.body.TicketCreated?
    ensures DependsOn(Apply(s, e)) == DependsOn(s) && Apply(s, e).keyToTicket == s.keyToTicket
  {
    ApplyIsLocal(s, e);
    var s' := Apply(s, e);
    forall id | id in s.tickets ensures s'.tickets[id].origin == s.tickets[id].origin {
      assert TicketBecomes(s.tickets[id], e, id, s'.tickets[id]);
    }
  }

  predicate Lands(s: State, id: string, key: string) {
    id !in s.tickets && (key == "" || key !in s.keyToTicket)
  }

  /** A ticket's creation is dropped, remembered under its key alone, or lands. */
  lemma CreateGrowsGraph(s: State, e: Event)
    requires e.body.TicketCreated?
    ensures var b, s' := e.body, Apply(s, e);
            && DependsOn(s') == (if Lands(s, b.ticketId, b.key) then DependsOn(s)[b.ticketId := b.dependsOn]
                                 else DependsOn(s))
            && s'.keyToTicket == if b.key == "" || b.key in s.keyToTicket then s.keyToTicket
                else s.keyToTicket[b.key := b.ticketId]
  {
    assert Apply(s, e) == CreateTicket(s, e).(lastSeq := e.num);
    CreateAddsNode(s, e);
  }

  lemma CreateAddsNode(s: State, e: Event)
    requires e.body.TicketCreated?
    ensures DependsOn(CreateTicket(s, e)) ==
            if Lands(s, e.body.ticketId, e.body.key) then DependsOn(s)[e.body.ticketId := e.body.dependsOn]
            else DependsOn(s)
  {
  }

  /** Of the children yet to be appended, those whose creation would not be dropped now,
      and so those that can still get on the log: a dropped one stays dropped. */
  function Coming(s: State, plans: map<string, InFlight>): set<Child> {
    set p, c | p in plans && c in plans[p].todo && Lands(s, c.id, c.key) :: c
  }

  lemma ComingIsPending(s: State, plans: map<string, InFlight>, c: Child)
    ensures c in Coming(s, plans) <==> c in Pending(plans) && Lands(s, c.id, c.key)
  {
    if c in Pending(plans) { var p :| p in plans && c in plans[p].todo; }
  }

  /** No more comes than came before, once there is more on the log and less pending. */
  lemma LessComes(s: State, plans: map<string, InFlight>, s': State, plans': map<string, InFlight>)
    requires s.tickets.Keys <= s'.tickets.Keys && s.keyToTicket.Keys <= s'.keyToTicket.Keys
    requires Pending(plans') <= Pending(plans)
    ensures Coming(s', plans') <= Coming(s, plans)
  {
    forall c | c in Coming(s', plans') ensures c in Coming(s, plans) {
      ComingIsPending(s', plans', c);
      ComingIsPending(s, plans, c);
    }
  }

  /** The log is heading for a graph without a cycle. */
  ghost predicate Heads(sys: Sys) { !Cyclic(Virtual(sys.state, Coming(sys.state, sys.plans))) }

  lemma RestIsPending(plans: map<string, InFlight>, id: string)
    requires id in plans
    ensures Pending(Rest(plans, id)) <= Pending(plans)
    ensures plans[id].todo != [] ==> plans[id].todo[0] in Pending(plans)
  {
    forall c | c in Pending(Rest(plans, id)) ensures c in Pending(plans) {
      var q :| q in Rest(plans, id) && c in Rest(plans, id)[q].todo;
      assert c in plans[q].todo;
    }
    if plans[id].todo != [] { assert plans[id].todo[0] in plans[id].todo; }
  }

  lemma EmitKeeps(sys: Sys, id: string, ts: int)
    requires Heads(sys) && id in sys.plans
    ensures Heads(Emitted(sys, id, ts))
  {
    var s, p := sys.state, sys.plans[id];
    var e := Event(s.lastSeq + 1, ts, "orchestrator", NextBody(p));
    assert Emitted(sys, id, ts).state == Apply(s, e);
    RestIsPending(sys.plans, id);
    if p.todo == [] { ApplyKeepsGraph(s, e); } else { AppendComes(sys, id, e); }
    LogGrows(s, e);
    LessComes(s, sys.plans, Apply(s, e), Rest(sys.plans, id));
    Shrinks(s, Coming(s, sys.plans), Apply(s, e), Coming(Apply(s, e), Rest(sys.plans, id)));
  }

  lemma LogGrows(s: State, e: Event)
    ensures s.tickets.Keys <= Apply(s, e).tickets.Keys && s.keyToTicket.Keys <= Apply(s, e).keyToTicket.Keys
  {
    ApplyIsLocal(s, e);
    if e.body.TicketCreated? { CreateGrowsGraph(s, e); }
  }

  lemma AppendComes(sys: Sys, id: string, e: Event)
    requires id in sys.plans && sys.plans[id].todo != [] && e.body == NextBody(sys.plans[id])
    ensures var s := sys.state;
            forall n, m :: Edge(DependsOn(Apply(s, e)), n, m) ==>
              Edge(DependsOn(s), n, m) || PendingEdge(Coming(s, sys.plans), n, m)
  {
    var s, c := sys.state, sys.plans[id].todo[0];
    CreateGrowsGraph(s, e);
    forall n, m | Edge(DependsOn(Apply(s, e)), n, m)
      ensures Edge(DependsOn(s), n, m) || PendingEdge(Coming(s, sys.plans), n, m)
    {
      if !Edge(DependsOn(s), n, m) {
        assert c in sys.plans[id].todo && Lands(s, c.id, c.key);
        assert c in Coming(s, sys.plans) && c.id == n && m in c.deps;
      }
    }
  }

  lemma SeedKeeps(sys: Sys, g: string, title: string, ts: int)
    requires Heads(sys)
    ensures Heads(Appended(sys, ts, SeedBody(g, title)))
  {
    var s := sys.state;
    var e := Event(s.lastSeq + 1, ts, "orchestrator", SeedBody(g, title));
    assert Appended(sys, ts, SeedBody(g, title)) == sys.(state := Apply(s, e));
    SeedAddsNoEdge(s, e);
    LogGrows(s, e);
    LessComes(s, sys.plans, Apply(s, e), sys.plans);
    Shrinks(s, Coming(s, sys.plans), Apply(s, e), Coming(Apply(s, e), sys.plans));
  }

  lemma SeedAddsNoEdge(s: State, e: Event)
    requires e.body.TicketCreated? && e.body.dependsOn == []
    ensures forall n, m :: Edge(DependsOn(Apply(s, e)), n, m) ==> Edge(DependsOn(s), n, m)
  {
    CreateGrowsGraph(s, e);
  }

  lemma DropIsPart(plans: map<string, InFlight>, ids: set<string>)
    ensures Pending(plans - ids) <= Pending(plans)
  {
    forall c | c in Pending(plans - ids) ensures c in Pending(plans) {
      var q :| q in plans - ids && c in (plans - ids)[q].todo;
      assert c in plans[q].todo;
    }
  }

  /** A plan is accepted only if the graph the log then heads for has no cycle. */
  ghost predicate Guarded(sys: Sys, step: Step) {
    step.Begin? && Accepted(sys, step.job, step.subs, step.gov) ==> Heads(Next(sys, step))
  }

  /** The graph is as it was, and no more is pending. */
  ghost predicate Stays(sys: Sys, sys': Sys) {
    && DependsOn(sys'.state) == DependsOn(sys.state) && sys'.state.keyToTicket == sys.state.keyToTicket
    && Pending(sys'.plans) <= Pending(sys.plans) && sys'.begun == sys.begun
  }

  lemma NoteStays(sys: Sys, sys': Sys, e: Event)
    requires !e.body.TicketCreated? && sys' == sys.(state := Apply(sys.state, e))
    ensures Stays(sys, sys')
  {
    ApplyKeepsGraph(sys.state, e);
  }

  lemma RefusalStays(sys: Sys, ts: int, b: Body)
    requires b.TicketFailed?
    ensures Stays(sys, Appended(sys, ts, b))
  {
    NoteStays(sys, Appended(sys, ts, b), Event(sys.state.lastSeq + 1, ts, "orchestrator", b));
  }

  lemma StaysHeads(sys: Sys, sys': Sys)
    requires Heads(sys) && Stays(sys, sys')
    ensures Heads(sys')
  {
    var s, s' := sys.state, sys'.state;
    assert s'.tickets.Keys == DependsOn(s').Keys == DependsOn(s).Keys == s.tickets.Keys;
    LessComes(s, sys.plans, s', sys'.plans);
    Shrinks(s, Coming(s, sys.plans), s', Coming(s', sys'.plans));
  }

  lemma BeginKeeps(sys: Sys, step: Step)
    requires Heads(sys) && Guarded(sys, step) && step.Begin?
    ensures Heads(Next(sys, step))
  {
    if !Accepted(sys, step.job, step.subs, step.gov) && step.job.ticketId !in sys.plans {
      RefusalStays(sys, step.ts, RefusedBody(step.job, step.worker, step.charge));
      StaysHeads(sys, Next(sys, step));
    }
  }

  /** Nothing but an unguarded acceptance can put the log on the way to a cycle. */
  lemma NextKeeps(sys: Sys, step: Step)
    requires Heads(sys) && Guarded(sys, step)
    ensures Heads(Next(sys, step))
  {
    if step.Begin? {
      BeginKeeps(sys, step);
    } else if step.Emit? {
      if step.id in sys.plans { EmitKeeps(sys, step.id, step.ts); }
    } else if step.Drop? {
      DropIsPart(sys.plans, step.ids);
      StaysHeads(sys, Next(sys, step));
    } else if step.Seed? {
      SeedKeeps(sys, step.goalId, step.title, step.ts);
    } else if !step.e.body.TicketCreated? && !step.e.body.TicketDecomposed? {
      ApplyKeepsGraph(sys.state, step.e);
      DropIsPart(sys.plans, step.ended);
      StaysHeads(sys, Next(sys, step));
    }
  }

  ghost predicate AllGuarded(sys: Sys, steps: seq<Step>) {
    forall k :: 0 <= k < |steps| ==> Guarded(RunFrom(sys, steps[..k]), steps[k])
  }

  lemma {:induction false} GuardedKeeps(sys: Sys, steps: seq<Step>)
    requires Heads(sys) && AllGuarded(sys, steps)
    ensures Heads(RunFrom(sys, steps))
  {
    if steps != [] {
      var n := |steps| - 1;
      forall k | 0 <= k < n ensures Guarded(RunFrom(sys, steps[..n][..k]), steps[..n][k]) {
        assert steps[..n][..k] == steps[..k];
      }
      GuardedKeeps(sys, steps[..n]);
      NextKeeps(RunFrom(sys, steps[..n]), steps[n]);
    }
  }

  // --- An accepted plan is safe exactly if it is guarded -----------------------------------------

  predicate Apart(c: Child, d: Child) {
    c.id != d.id && (c.key == "" || c.key != d.key)
  }

  predicate IsPending(plans: map<string, InFlight>, p: string, i: nat) {
    p in plans && i < |plans[p].todo|
  }

  /** Nothing still to be appended gets in the way of a child that is coming: neither by
      coming too, under the same id, nor by its key. */
  ghost predicate Unobstructed(s: State, plans: map<string, InFlight>) {
    forall p, q, i: nat, j: nat ::
      IsPending(plans, p, i) && IsPending(plans, q, j) && (p != q || i != j) ==>
        Clear(s, plans[p].todo[i], plans[q].todo[j])
  }

  predicate Clear(s: State, c: Child, d: Child) {
    Lands(s, c.id, c.key) ==> (c.id == d.id ==> !Lands(s, d.id, d.key)) && (c.key == "" || c.key != d.key)
  }

  lemma RestIsShifted(plans: map<string, InFlight>, id: string, p: string, i: nat)
    requires id in plans && plans[id].todo != [] && IsPending(Rest(plans, id), p, i)
    ensures var k := if p == id then i + 1 else i;
            IsPending(plans, p, k) && Rest(plans, id)[p].todo[i] == plans[p].todo[k]
  {
  }

  /** What the next append of a plan makes of the log, in terms of what then lands. */
  ghost predicate AppendsChild(s: State, c: Child, s': State) {
    && (forall id :: id in s'.tickets <==> id in s.tickets || (id == c.id && Lands(s, c.id, c.key)))
    && (forall k :: k in s'.keyToTicket <==> k in s.keyToTicket || (k == c.key && k != ""))
  }

  lemma ClearAfter(s: State, c: Child, s': State, d: Child)
    requires AppendsChild(s, c, s') && Clear(s, c, d) && Clear(s, d, c)
    ensures Lands(s', d.id, d.key) <==> Lands(s, d.id, d.key)
  {
  }

  lemma RestIsUnobstructed(s: State, plans: map<string, InFlight>, id: string, s': State)
    requires Unobstructed(s, plans) && id in plans && plans[id].todo != []
    requires AppendsChild(s, plans[id].todo[0], s')
    ensures Unobstructed(s', Rest(plans, id))
  {
    var rest, c := Rest(plans, id), plans[id].todo[0];
    assert IsPending(plans, id, 0);
    forall p, q, i: nat, j: nat | IsPending(rest, p, i) && IsPending(rest, q, j) && (p != q || i != j)
      ensures Clear(s', rest[p].todo[i], rest[q].todo[j])
    {
      RestIsShifted(plans, id, p, i);
      RestIsShifted(plans, id, q, j);
      var x, y := rest[p].todo[i], rest[q].todo[j];
      assert Clear(s, x, y) && Clear(s, c, x) && Clear(s, x, c) && Clear(s, c, y) && Clear(s, y, c);
      ClearAfter(s, c, s', x);
      ClearAfter(s, c, s', y);
    }
  }

  /** What comes after the append of a child is what came before, but for the child. */
  lemma RestComes(s: State, plans: map<string, InFlight>, id: string, s': State)
    requires Unobstructed(s, plans) && id in plans && plans[id].todo != []
    requires AppendsChild(s, plans[id].todo[0], s')
    ensures Coming(s', Rest(plans, id)) == Coming(s, plans) - {plans[id].todo[0]}
  {
    var rest, c := Rest(plans, id), plans[id].todo[0];
    assert IsPending(plans, id, 0);
    forall d | d in Coming(s, plans) && d != c ensures d in Coming(s', rest) {
      var q :| q in plans && d in plans[q].todo && Lands(s, d.id, d.key);
      var k: nat :| k < |plans[q].todo| && plans[q].todo[k] == d;
      assert IsPending(plans, q, k);
      ClearAfter(s, c, s', d);
      assert d in rest[q].todo;
    }
    forall d | d in Coming(s', rest) ensures d in Coming(s, plans) && d != c {
      var q :| q in rest && d in rest[q].todo && Lands(s', d.id, d.key);
      var i: nat :| i < |rest[q].todo| && rest[q].todo[i] == d;
      RestIsShifted(plans, id, q, i);
      var k := if q == id then i + 1 else i;
      assert IsPending(plans, q, k) && d in plans[q].todo;
      ClearAfter(s, c, s', d);
    }
  }

  lemma NextAppendsChild(s: State, plan: InFlight, e: Event)
    requires plan.todo != [] && e.body == NextBody(plan)
    ensures AppendsChild(s, plan.todo[0], Apply(s, e))
  {
    CreateGrowsGraph(s, e);
    var s' := Apply(s, e);
    assert s'.tickets.Keys == DependsOn(s').Keys && s.tickets.Keys == DependsOn(s).Keys;
  }

  /** Appending a child that lands moves its edges from what is coming to the log. */
  lemma LandedEdges(s: State, pending: set<Child>, s': State, pending': set<Child>, c: Child)
    requires DependsOn(s') == (if Lands(s, c.id, c.key) then DependsOn(s)[c.id := c.deps] else DependsOn(s))
    requires pending' == pending - {c} && (c in pending ==> Lands(s, c.id, c.key))
    ensures forall n, m :: Edge(Virtual(s, pending), n, m) ==> Edge(Virtual(s', pending'), n, m)
  {
    forall n, m | Edge(Virtual(s, pending), n, m) ensures Edge(Virtual(s', pending'), n, m) {
      VirtualEdge(s, pending, n, m);
      VirtualEdge(s', pending', n, m);
      if !Edge(DependsOn(s), n, m) {
        var d :| d in pending && d.id == n && m in d.deps;
        assert d == c || d in pending';
      }
    }
  }

  lemma EmitLands(sys: Sys, id: string, ts: int)
    requires Unobstructed(sys.state, sys.plans) && id in sys.plans && sys.plans[id].todo != []
    ensures var sys', c := Emitted(sys, id, ts), sys.plans[id].todo[0];
            && Unobstructed(sys'.state, sys'.plans) && sys'.plans == Rest(sys.plans, id)
            && Coming(sys'.state, sys'.plans) == Coming(sys.state, sys.plans) - {c}
            && forall n, m :: Edge(Virtual(sys.state, Coming(sys.state, sys.plans)), n, m) ==>
                              Edge(Virtual(sys'.state, Coming(sys'.state, sys'.plans)), n, m)
  {
    var s, c := sys.state, sys.plans[id].todo[0];
    var e := Event(s.lastSeq + 1, ts, "orchestrator", NextBody(sys.plans[id]));
    var s', rest := Apply(s, e), Rest(sys.plans, id);
    assert Emitted(sys, id, ts) == sys.(state := s', plans := rest);
    NextAppendsChild(s, sys.plans[id], e);
    CreateGrowsGraph(s, e);
    RestIsUnobstructed(s, sys.plans, id, s');
    RestComes(s, sys.plans, id, s');
    ComingIsPending(s, sys.plans, c);
    LandedEdges(s, Coming(s, sys.plans), s', Coming(s', rest), c);
  }

  lemma {:induction false} RunOn(sys: Sys, step: Step, steps: seq<Step>)
    ensures RunFrom(sys, [step] + steps) == RunFrom(Next(sys, step), steps)
  {
    var all := [step] + steps;
    if steps == [] {
      assert all[..0] == [] && all == [step];
      assert RunFrom(sys, all[..|all| - 1]) == sys;
    } else {
      var n := |steps| - 1;
      assert all[..|all| - 1] == [step] + steps[..n] && all[|all| - 1] == steps[n];
      RunOn(sys, step, steps[..n]);
    }
  }

  ghost predicate OnlyEmits(steps: seq<Step>) {
    forall k :: 0 <= k < |steps| ==> steps[k].Emit?
  }

  /** All that is coming can be appended, and then its edges are on the log: p's child at i
      is the next to come. */
  lemma {:induction false} Drains(sys: Sys, p: string, i: nat) returns (steps: seq<Step>)
    requires Unobstructed(sys.state, sys.plans) && IsPending(sys.plans, p, i)
    requires sys.plans[p].todo[i] in Coming(sys.state, sys.plans)
    ensures OnlyEmits(steps)
    ensures forall n, m :: Edge(Virtual(sys.state, Coming(sys.state, sys.plans)), n, m) ==>
                           Edge(DependsOn(RunFrom(sys, steps).state), n, m)
    decreases Coming(sys.state, sys.plans), 0, i
  {
    var sys', c, d := Emitted(sys, p, 0), sys.plans[p].todo[0], sys.plans[p].todo[i];
    EmitLands(sys, p, 0);
    var rest: seq<Step>;
    if i > 0 && d in Coming(sys'.state, sys'.plans) {
      assert IsPending(sys'.plans, p, i - 1) && sys'.plans[p].todo[i - 1] == d;
      rest := Drains(sys', p, i - 1);
    } else {
      rest := DrainsOn(sys');
    }
    steps := [Emit(p, 0)] + rest;
    assert Next(sys, Emit(p, 0)) == sys';
    RunOn(sys, Emit(p, 0), rest);
  }

  lemma {:induction false} DrainsOn(sys: Sys) returns (steps: seq<Step>)
    requires Unobstructed(sys.state, sys.plans)
    ensures OnlyEmits(steps)
    ensures forall n, m :: Edge(Virtual(sys.state, Coming(sys.state, sys.plans)), n, m) ==>
                           Edge(DependsOn(RunFrom(sys, steps).state), n, m)
    decreases Coming(sys.state, sys.plans), 1, 0
  {
    var s, coming := sys.state, Coming(sys.state, sys.plans);
    steps := [];
    if coming == {} {
      forall n, m | Edge(Virtual(s, coming), n, m) ensures Edge(DependsOn(s), n, m) { VirtualEdge(s, coming, n, m); }
    } else {
      var c :| c in coming;
      var p :| p in sys.plans && c in sys.plans[p].todo;
      var i: nat :| i < |sys.plans[p].todo| && sys.plans[p].todo[i] == c;
      steps := Drains(sys, p, i);
    }
  }

  lemma SuperCyclic(g: Graph, h: Graph)
    requires Cyclic(g) && Subgraph(g, h)
    ensures Cyclic(h)
  {
    if !Cyclic(h) { SubgraphAcyclic(g, h); }
  }

  /** Some continuation, in which every later plan is guarded, closes a cycle. */
  ghost predicate MayCycle(sys: Sys) {
    exists steps :: AllGuarded(sys, steps) && Cyclic(DependsOn(RunFrom(sys, steps).state))
  }

  /** While every later plan is guarded, a log that heads for no cycle never holds one. */
  lemma HeadingIsSafe(sys: Sys)
    requires Heads(sys)
    ensures !MayCycle(sys)
  {
    forall steps | AllGuarded(sys, steps) ensures !Cyclic(DependsOn(RunFrom(sys, steps).state)) {
      GuardedKeeps(sys, steps);
      var end := RunFrom(sys, steps);
      LogIsPart(end.state, Coming(end.state, end.plans));
    }
  }

  /** And where nothing pending is in the way of what is coming, it may hold one, later
      plans being guarded, if and only if it heads for one: so that is what to check a plan
      against before it is accepted. */
  lemma HeadingIsExact(sys: Sys)
    requires Unobstructed(sys.state, sys.plans)
    ensures MayCycle(sys) <==> !Heads(sys)
  {
    if Heads(sys) {
      HeadingIsSafe(sys);
    } else {
      var steps := DrainsOn(sys);
      forall k | 0 <= k < |steps| ensures Guarded(RunFrom(sys, steps[..k]), steps[k]) { assert steps[k].Emit?; }
      SuperCyclic(Virtual(sys.state, Coming(sys.state, sys.plans)), DependsOn(RunFrom(sys, steps).state));
    }
  }

  // --- What makes an acceptance guarded ----------------------------------------------------------

  /** No new id of the plan is named anywhere, on the log or in another plan. */
  ghost predicate FreshPlan(sys: Sys, j: Job, subs: seq<Subtask>) {
    forall c :: c in New(Plan(sys.state, j, subs)) ==>
      c.id !in Nodes(Virtual(sys.state, Coming(sys.state, sys.plans)))
  }

  lemma StartedPending(sys: Sys, j: Job, worker: string, subs: seq<Subtask>, charge: Charge, c: Child)
    requires j.ticketId !in sys.plans
    ensures c in Pending(Started(sys, j, worker, subs, charge).plans) <==>
            c in Pending(sys.plans) || c in New(Plan(sys.state, j, subs))
  {
    var plans' := Started(sys, j, worker, subs, charge).plans;
    if c in Pending(sys.plans) {
      var q :| q in sys.plans && c in sys.plans[q].todo;
      assert c in plans'[q].todo;
    }
    assert plans'[j.ticketId].todo == New(Plan(sys.state, j, subs));
  }

  /** The edges an accepted plan adds are among those it was checked with. */
  lemma StartedEdge(sys: Sys, j: Job, worker: string, subs: seq<Subtask>, charge: Charge, n: string, m: string)
    requires j.ticketId !in sys.plans
    requires Edge(Virtual(sys.state, Coming(sys.state, Started(sys, j, worker, subs, charge).plans)), n, m)
    ensures Edge(Virtual(sys.state, Coming(sys.state, sys.plans)), n, m) ||
            Edge(NewEdges(Plan(sys.state, j, subs)), n, m)
  {
    var s, cs := sys.state, Plan(sys.state, j, subs);
    var plans' := Started(sys, j, worker, subs, charge).plans;
    VirtualEdge(s, Coming(s, sys.plans), n, m);
    VirtualEdge(s, Coming(s, plans'), n, m);
    PlanIsShaped(s, j, subs);
    EdgesOfNew(cs);
    if !Edge(DependsOn(s), n, m) {
      var c :| c in Coming(s, plans') && c.id == n && m in c.deps;
      ComingIsPending(s, plans', c);
      ComingIsPending(s, sys.plans, c);
      StartedPending(sys, j, worker, subs, charge, c);
    }
  }

  /** With no other plan in flight, the check against the log is a check against all
      there is, also when the ticket was split before and died on the way. */
  lemma AloneIsGuarded(sys: Sys, j: Job, worker: string, subs: seq<Subtask>, gov: Governors, charge: Charge)
    requires sys.plans == map[] && Accepts(sys.state, j, subs, gov)
    ensures Heads(Started(sys, j, worker, subs, charge))
  {
    var s, extra := sys.state, NewEdges(Plan(sys.state, j, subs));
    var after := Virtual(s, Coming(s, Started(sys, j, worker, subs, charge).plans));
    forall n, m | Edge(after, n, m) ensures Edge(Joined(DependsOn(s), extra), n, m) {
      StartedEdge(sys, j, worker, subs, charge, n, m);
      VirtualEdge(s, Coming(s, sys.plans), n, m);
      JoinedEdges(DependsOn(s), extra, n, m);
    }
    SubgraphAcyclic(after, Joined(DependsOn(s), extra));
  }

  /** New ids that are named nowhere are safe whatever else is in flight, although the
      plan is checked against only the part of it that is on the log. */
  lemma FreshIsGuarded(sys: Sys, j: Job, worker: string, subs: seq<Subtask>, gov: Governors, charge: Charge)
    requires Heads(sys) && Accepted(sys, j, subs, gov) && FreshPlan(sys, j, subs)
    ensures Heads(Started(sys, j, worker, subs, charge))
  {
    var s, cs := sys.state, Plan(sys.state, j, subs);
    var extra, all := NewEdges(cs), Virtual(s, Coming(s, sys.plans));
    var after := Virtual(s, Coming(s, Started(sys, j, worker, subs, charge).plans));
    PlanIsShaped(s, j, subs);
    EdgesOfNew(cs);
    forall n | n in extra ensures n !in Nodes(all) {
      var c :| c in New(cs) && c.id == n;
    }
    forall n, m | Edge(after, n, m)
      ensures n in extra ==> Edge(Joined(DependsOn(s), extra), n, m)
      ensures n !in extra ==> Edge(all, n, m) && m !in extra
    {
      StartedEdge(sys, j, worker, subs, charge, n, m);
      JoinedEdges(DependsOn(s), extra, n, m);
      assert Edge(all, n, m) ==> n in Nodes(all) && m in Nodes(all);
    }
    ExtendAcyclic(all, Joined(DependsOn(s), extra), after, extra.Keys);
  }

  // --- Plain names, and one plan a ticket --------------------------------------------------------

  /** Handles and Goal ids hold no slash. */
  predicate PlainNames(step: Step) {
    match step
    case Begin(_, _, subs, _, _, _) => forall i :: 0 <= i < |subs| ==> Slashless(subs[i].localId)
    case Seed(g, _, _) => Slashless(g)
    case _ => true
  }

  /** A ticket is split again, after its plan was cut short, only while no other
      plan is in flight. */
  predicate InTurn(sys: Sys, step: Step) {
    step.Begin? ==> step.job.ticketId !in sys.begun || sys.plans == map[]
  }

  predicate Careful(sys: Sys, step: Step) { PlainNames(step) && InTurn(sys, step) }

  /** `id` is named as a child of `parent`. */
  ghost predicate Extends(id: string, parent: string) {
    exists l :: Slashless(l) && id == ChildId(parent, l)
  }

  lemma {:induction false} OneParent(p: string, l: string, q: string, m: string)
    requires ChildId(p, l) == ChildId(q, m) && Slashless(l) && Slashless(m)
    ensures p == q && l == m
  {
    var id := ChildId(p, l);
    assert id[|p|] == '/' && id[|q|] == '/';
    assert forall i :: |p| < i < |id| ==> id[i] == l[i - |p| - 1];
    assert forall i :: |q| < i < |id| ==> id[i] == m[i - |q| - 1];
    assert |p| == |q| && id[..|p|] == p && id[..|q|] == q;
    assert id[|p| + 1..] == l && id[|q| + 1..] == m;
  }

  /** The ids in use, on the log or in a plan. */
  ghost predicate InUse(s: State, pending: set<Child>, id: string) {
    || id in s.tickets
    || (exists n :: Edge(DependsOn(s), n, id))
    || exists c :: c in pending && (c.id == id || id in c.deps)
  }

  lemma NodesAreInUse(s: State, pending: set<Child>, id: string)
    requires id in Nodes(Virtual(s, pending))
    ensures InUse(s, pending, id)
  {
    var g := Virtual(s, pending);
    if id in g {
      PendingNodes(pending, id);
    } else {
      var n, m :| n in g && m in g[n] && m == id;
      assert Edge(g, n, id);
      VirtualEdge(s, pending, n, id);
    }
  }

  /** An id in use that reads as a ticket's child was named by a plan of its. */
  ghost predicate Accounted(s: State, pending: set<Child>, begun: set<string>) {
    forall id, p :: InUse(s, pending, id) && Extends(id, p) ==> p in begun
  }

  predicate KeysName(s: State) {
    forall k :: k in s.keyToTicket ==> s.keyToTicket[k] in s.tickets
  }

  ghost predicate Inv(sys: Sys) {
    Heads(sys) && Accounted(sys.state, Pending(sys.plans), sys.begun) && KeysName(sys.state)
  }

  lemma ComingIsInUse(s: State, plans: map<string, InFlight>, id: string)
    requires id in Nodes(Virtual(s, Coming(s, plans)))
    ensures InUse(s, Pending(plans), id)
  {
    NodesAreInUse(s, Coming(s, plans), id);
    forall c | c in Coming(s, plans) ensures c in Pending(plans) { ComingIsPending(s, plans, c); }
  }

  lemma FirstIsFresh(sys: Sys, j: Job, subs: seq<Subtask>)
    requires Inv(sys) && j.ticketId !in sys.begun && forall i :: 0 <= i < |subs| ==> Slashless(subs[i].localId)
    ensures FreshPlan(sys, j, subs)
  {
    var s, coming := sys.state, Coming(sys.state, sys.plans);
    forall c | c in New(Plan(s, j, subs)) ensures c.id !in Nodes(Virtual(s, coming)) {
      NewExtends(s, j, subs, c);
      if c.id in Nodes(Virtual(s, coming)) { ComingIsInUse(s, sys.plans, c.id); }
    }
  }

  lemma NewExtends(s: State, j: Job, subs: seq<Subtask>, c: Child)
    requires c in New(Plan(s, j, subs)) && forall i :: 0 <= i < |subs| ==> Slashless(subs[i].localId)
    ensures Extends(c.id, j.ticketId)
  {
    NewIsNamed(s, j, subs, c);
    var i :| 0 <= i < |subs| && c.id == ChildId(j.ticketId, subs[i].localId);
    assert Slashless(subs[i].localId);
  }

  /** What a new child depends on is on the log, or a new child of the plan. */
  lemma PlanTargets(s: State, j: Job, subs: seq<Subtask>, c: Child, d: string)
    requires KeysName(s) && Known(s, Plan(s, j, subs)) && c in New(Plan(s, j, subs)) && d in c.deps
    ensures d in s.tickets || exists x :: x in New(Plan(s, j, subs)) && x.id == d
  {
    var cs := Plan(s, j, subs);
    PlanIsShaped(s, j, subs);
    EdgesOfNew(cs);
    var k :| 0 <= k < |cs| && cs[k] == c;
    assert d in cs[k].deps;
    if d in Ids(cs) {
      var i :| 0 <= i < |cs| && cs[i].id == d;
      assert cs[i] in cs && Shaped(s, j.ticketId, subs, cs[i]);
      if !cs[i].adopt { NewIsKey(cs, i); }
    }
  }

  lemma BeginAccounts(sys: Sys, j: Job, worker: string, subs: seq<Subtask>, gov: Governors, charge: Charge)
    requires Inv(sys) && Accepted(sys, j, subs, gov) && forall i :: 0 <= i < |subs| ==> Slashless(subs[i].localId)
    ensures var sys' := Started(sys, j, worker, subs, charge);
            Accounted(sys'.state, Pending(sys'.plans), sys'.begun)
  {
    var s, cs, sys' := sys.state, Plan(sys.state, j, subs), Started(sys, j, worker, subs, charge);
    forall id, p | InUse(s, Pending(sys'.plans), id) && Extends(id, p) ensures p in sys'.begun {
      if !InUse(s, Pending(sys.plans), id) {
        var c :| c in Pending(sys'.plans) && (c.id == id || id in c.deps);
        StartedPending(sys, j, worker, subs, charge, c);
        assert c in New(cs);
        if id in c.deps { PlanTargets(s, j, subs, c, id); }
        var x :| x in New(cs) && x.id == id;
        NewExtends(s, j, subs, x);
        var l :| Slashless(l) && id == ChildId(p, l);
        var m :| Slashless(m) && id == ChildId(j.ticketId, m);
        OneParent(p, l, j.ticketId, m);
      }
    }
  }

  lemma BeginKeepsInv(sys: Sys, j: Job, worker: string, subs: seq<Subtask>, gov: Governors, charge: Charge)
    requires Inv(sys) && Accepted(sys, j, subs, gov) && forall i :: 0 <= i < |subs| ==> Slashless(subs[i].localId)
    requires j.ticketId !in sys.begun || sys.plans == map[]
    ensures Inv(Started(sys, j, worker, subs, charge))
  {
    if j.ticketId !in sys.begun {
      FirstIsFresh(sys, j, subs);
      FreshIsGuarded(sys, j, worker, subs, gov, charge);
    } else {
      AloneIsGuarded(sys, j, worker, subs, gov, charge);
    }
    BeginAccounts(sys, j, worker, subs, gov, charge);
  }

  /** Fewer ids in use, all accounted for as before. */
  lemma StillAccounted(s: State, pending: set<Child>, s': State, pending': set<Child>, begun: set<string>)
    requires Accounted(s, pending, begun)
    requires forall id, p :: InUse(s', pending', id) && Extends(id, p) ==> InUse(s, pending, id)
    ensures Accounted(s', pending', begun)
  {
  }

  lemma CreateKeepsKeys(s: State, e: Event)
    requires KeysName(s) && e.body.TicketCreated?
    ensures KeysName(Apply(s, e))
  {
    assert Apply(s, e) == CreateTicket(s, e).(lastSeq := e.num);
  }

  lemma CreateUses(s: State, pending: set<Child>, e: Event, c: Child, id: string)
    requires e.body.TicketCreated? && c in pending && e.body.ticketId == c.id && e.body.dependsOn == c.deps
    requires InUse(Apply(s, e), pending, id)
    ensures InUse(s, pending, id)
  {
    CreateGrowsGraph(s, e);
    assert Apply(s, e).tickets.Keys == DependsOn(Apply(s, e)).Keys && s.tickets.Keys == DependsOn(s).Keys;
    if n :| Edge(DependsOn(Apply(s, e)), n, id) { assert Edge(DependsOn(s), n, id) || id in c.deps; }
  }

  lemma EmitKeepsInv(sys: Sys, id: string, ts: int)
    requires Inv(sys) && id in sys.plans
    ensures Inv(Emitted(sys, id, ts))
  {
    var s, p := sys.state, sys.plans[id];
    var e := Event(s.lastSeq + 1, ts, "orchestrator", NextBody(p));
    var pending, pending' := Pending(sys.plans), Pending(Rest(sys.plans, id));
    assert Emitted(sys, id, ts) == sys.(state := Apply(s, e), plans := Rest(sys.plans, id));
    EmitKeeps(sys, id, ts);
    RestIsPending(sys.plans, id);
    if p.todo == [] {
      ApplyKeepsGraph(s, e);
      StaysInv(sys, sys.(state := Apply(s, e), plans := Rest(sys.plans, id)));
    } else {
      CreateKeepsKeys(s, e);
      forall x, q | InUse(Apply(s, e), pending', x) && Extends(x, q) ensures InUse(s, pending, x) {
        assert InUse(Apply(s, e), pending, x);
        CreateUses(s, pending, e, p.todo[0], x);
      }
      StillAccounted(s, pending, Apply(s, e), pending', sys.begun);
    }
  }

  lemma StaysInv(sys: Sys, sys': Sys)
    requires Inv(sys) && Stays(sys, sys')
    ensures Inv(sys')
  {
    var s, s' := sys.state, sys'.state;
    StaysHeads(sys, sys');
    assert s'.tickets.Keys == DependsOn(s').Keys == DependsOn(s).Keys == s.tickets.Keys;
    StillAccounted(s, Pending(sys.plans), s', Pending(sys'.plans), sys.begun);
  }

  lemma RootIsNoChild(g: string, p: string)
    requires Slashless(g)
    ensures !Extends(g + "-impl", p)
  {
    forall l ensures g + "-impl" != ChildId(p, l) {
      assert ChildId(p, l)[|p|] == '/';
      assert '/' !in g + "-impl";
    }
  }

  lemma SeedKeepsInv(sys: Sys, g: string, title: string, ts: int)
    requires Inv(sys) && Slashless(g)
    ensures Inv(Appended(sys, ts, SeedBody(g, title)))
  {
    var s, pending := sys.state, Pending(sys.plans);
    var e := Event(s.lastSeq + 1, ts, "orchestrator", SeedBody(g, title));
    SeedKeeps(sys, g, title, ts);
    CreateKeepsKeys(s, e);
    CreateGrowsGraph(s, e);
    forall x, q | InUse(Apply(s, e), pending, x) && Extends(x, q) ensures InUse(s, pending, x) {
      RootIsNoChild(g, q);
      assert Apply(s, e).tickets.Keys == DependsOn(Apply(s, e)).Keys && s.tickets.Keys == DependsOn(s).Keys;
      if n :| Edge(DependsOn(Apply(s, e)), n, x) { assert Edge(DependsOn(s), n, x); }
    }
    StillAccounted(s, pending, Apply(s, e), pending, sys.begun);
  }

  /** Steps that add no ticket and no plan. */
  lemma NoteKeepsInv(sys: Sys, step: Step)
    requires Inv(sys) && (step.Drop? || step.Other?)
    ensures Inv(Next(sys, step))
  {
    if step.Drop? {
      DropIsPart(sys.plans, step.ids);
      StaysInv(sys, Next(sys, step));
    } else if !step.e.body.TicketCreated? && !step.e.body.TicketDecomposed? {
      ApplyKeepsGraph(sys.state, step.e);
      DropIsPart(sys.plans, step.ended);
      StaysInv(sys, Next(sys, step));
    }
  }

  lemma BeginStepKeepsInv(sys: Sys, step: Step)
    requires Inv(sys) && Careful(sys, step) && step.Begin?
    ensures Inv(Next(sys, step))
  {
    var j := step.job;
    if Accepted(sys, j, step.subs, step.gov) {
      BeginKeepsInv(sys, j, step.worker, step.subs, step.gov, step.charge);
    } else if j.ticketId !in sys.plans {
      RefusalStays(sys, step.ts, RefusedBody(j, step.worker, step.charge));
      StaysInv(sys, Next(sys, step));
    }
  }

  lemma NextKeepsInv(sys: Sys, step: Step)
    requires Inv(sys) && Careful(sys, step)
    ensures Inv(Next(sys, step))
  {
    if step.Begin? {
      BeginStepKeepsInv(sys, step);
    } else if step.Emit? {
      if step.id in sys.plans { EmitKeepsInv(sys, step.id, step.ts); }
    } else if step.Seed? {
      SeedKeepsInv(sys, step.goalId, step.title, step.ts);
    } else {
      NoteKeepsInv(sys, step);
    }
  }

  ghost predicate AllCareful(steps: seq<Step>) {
    forall k :: 0 <= k < |steps| ==> Careful(Run(steps[..k]), steps[k])
  }

  lemma StartIsOk()
    ensures Inv(START)
  {
    var none: set<Child> := {};
    assert Pending(START.plans) == none && Coming(EMPTY, START.plans) == none;
    forall n, m ensures !Edge(Virtual(EMPTY, none), n, m) { VirtualEdge(EMPTY, none, n, m); }
    FinishedHasNoCycle(map[], []);
    SubgraphAcyclic(Virtual(EMPTY, none), map[]);
  }

  lemma {:induction false} RunKeepsInv(steps: seq<Step>)
    requires AllCareful(steps)
    ensures Inv(Run(steps))
  {
    if steps == [] {
      StartIsOk();
    } else {
      var n := |steps| - 1;
      forall k | 0 <= k < n ensures Careful(Run(steps[..n][..k]), steps[..n][k]) {
        assert steps[..n][..k] == steps[..k];
      }
      RunKeepsInv(steps[..n]);
      NextKeepsInv(Run(steps[..n]), steps[n]);
    }
  }

  /** However plans interleave, each checked against whatever part of the others is on
      the log by then, and wherever they are cut short and taken up again: the
      dependency graph never has a cycle. */
  lemma AlwaysAcyclic(steps: seq<Step>)
    requires AllCareful(steps)
    ensures !Cyclic(DependsOn(Run(steps).state))
  {
    RunKeepsInv(steps);
    LogIsPart(Run(steps).state, Coming(Run(steps).state, Run(steps).plans));
  }
}
