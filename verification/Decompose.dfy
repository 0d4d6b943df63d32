/** Emergent decomposition: a worker splits its ticket into children (decompose in
    internal/orchestrator/orchestrator.go). */
module Decompose {
  import opened Events
  import opened Replay
  import opened Digraph

  datatype Subtask = Subtask(localId: string, title: string, dependsOn: seq<string>, key: string)

  datatype Job = Job(ticketId: string, goalId: string, depth: int)

  datatype Governors = Governors(maxDepth: int, maxFanOut: int, maxTickets: int)

  datatype Child = Child(id: string, title: string, key: string, deps: seq<string>, adopt: bool)

  datatype Decision = Rejected(reason: string) | Accepted(children: seq<Child>)

  function ChildId(parent: string, local: string): string { parent + "/" + local }

  predicate Slashless(s: string) { '/' !in s }

  // --- Naming the children -----------------------------------------------------------------------

  /** What the batch's local handles stand for. */
  datatype Names = Names(ids: map<string, string>, byKey: map<string, string>, adopted: set<string>)

  /** Subtasks with one key are one child, and a key already on the log adopts the
      ticket it names. */
  function NameOne(s: State, parent: string, n: Names, st: Subtask): Names {
    if st.key != "" && st.key in n.byKey then n.(ids := n.ids[st.localId := n.byKey[st.key]])
    else if st.key != "" && st.key in s.keyToTicket then
      var id := s.keyToTicket[st.key];
      Names(n.ids[st.localId := id], n.byKey[st.key := id], n.adopted + {id})
    else
      var id := ChildId(parent, st.localId);
      n.(ids := n.ids[st.localId := id], byKey := if st.key != "" then n.byKey[st.key := id] else n.byKey)
  }

  const UNNAMED := Names(map[], map[], {})

  function NameAll(s: State, parent: string, subs: seq<Subtask>): Names {
    if subs == [] then UNNAMED else NameOne(s, parent, NameAll(s, parent, subs[..|subs| - 1]), subs[|subs| - 1])
  }

  predicate WellNamed(subs: seq<Subtask>) {
    && (forall i :: 0 <= i < |subs| ==> subs[i].localId != "")
    && forall i, j :: 0 <= i < j < |subs| ==> subs[i].localId != subs[j].localId
  }

  ghost predicate Uses(subs: seq<Subtask>, local: string) {
    exists i :: 0 <= i < |subs| && subs[i].localId == local
  }

  lemma {:induction false} NamesCover(s: State, parent: string, subs: seq<Subtask>)
    ensures forall l :: l in NameAll(s, parent, subs).ids <==> Uses(subs, l)
  {
    if subs != [] {
      var init, last := subs[..|subs| - 1], subs[|subs| - 1];
      NamesCover(s, parent, init);
      forall l ensures Uses(subs, l) <==> Uses(init, l) || l == last.localId {
        if Uses(init, l) {
          var i :| 0 <= i < |init| && init[i].localId == l;
          assert subs[i].localId == l;
        }
      }
    }
  }

  /** A name is a ticket its key already names, or the parent's id extended by a
      handle of the batch. */
  ghost predicate Named(s: State, parent: string, subs: seq<Subtask>, n: Names) {
    && (forall l :: l in n.ids ==> NameIn(s, parent, subs, n.adopted, n.ids[l]))
    && (forall k :: k in n.byKey ==> NameIn(s, parent, subs, n.adopted, n.byKey[k]))
    && (forall id :: id in n.adopted ==> id in s.keyToTicket.Values)
  }

  ghost predicate NameIn(s: State, parent: string, subs: seq<Subtask>, adopted: set<string>, id: string) {
    id in adopted || IsFreshName(parent, subs, id)
  }

  ghost predicate IsFreshName(parent: string, subs: seq<Subtask>, id: string) {
    exists i :: 0 <= i < |subs| && id == ChildId(parent, subs[i].localId)
  }

  lemma {:induction false} NamesAreNamed(s: State, parent: string, subs: seq<Subtask>)
    ensures Named(s, parent, subs, NameAll(s, parent, subs))
  {
    if subs != [] {
      var init, last := subs[..|subs| - 1], subs[|subs| - 1];
      NamesAreNamed(s, parent, init);
      var n, n' := NameAll(s, parent, init), NameAll(s, parent, subs);
      forall id | IsFreshName(parent, init, id) ensures IsFreshName(parent, subs, id) {
        var i :| 0 <= i < |init| && id == ChildId(parent, init[i].localId);
        assert subs[i] == init[i];
      }
      assert ChildId(parent, subs[|subs| - 1].localId) == ChildId(parent, last.localId);
      assert IsFreshName(parent, subs, ChildId(parent, last.localId));
    }
  }

  // --- The children ------------------------------------------------------------------------------

  /** A sibling's handle stands for the sibling; anything else names a ticket. */
  function Resolve(ids: map<string, string>, deps: seq<string>): seq<string> {
    seq(|deps|, i requires 0 <= i < |deps| => if deps[i] in ids then ids[deps[i]] else deps[i])
  }

  function ChildOf(n: Names, st: Subtask): Child
    requires st.localId in n.ids
  {
    var id := n.ids[st.localId];
    Child(id, st.title, st.key, Resolve(n.ids, st.dependsOn), id in n.adopted)
  }

  predicate Has(cs: seq<Child>, id: string) {
    exists i :: 0 <= i < |cs| && cs[i].id == id
  }

  /** One child per name: the first subtask that has it. */
  function ChildrenOf(n: Names, subs: seq<Subtask>): seq<Child>
    requires forall i :: 0 <= i < |subs| ==> subs[i].localId in n.ids
  {
    if subs == [] then [] else
    var cs, st := ChildrenOf(n, subs[..|subs| - 1]), subs[|subs| - 1];
    if Has(cs, n.ids[st.localId]) then cs else cs + [ChildOf(n, st)]
  }

  function Ids(cs: seq<Child>): seq<string> {
    seq(|cs|, i requires 0 <= i < |cs| => cs[i].id)
  }

  function NewEdges(cs: seq<Child>): Graph {
    if cs == [] then map[] else
    var g, c := NewEdges(cs[..|cs| - 1]), cs[|cs| - 1];
    if c.adopt then g else g[c.id := c.deps]
  }

  function DependsOn(s: State): Graph {
    map id | id in s.tickets :: s.tickets[id].origin.dependsOn
  }

  function Joined(g: Graph, extra: Graph): Graph {
    map n | n in g.Keys + extra.Keys :: (if n in g then g[n] else []) + (if n in extra then extra[n] else [])
  }

  lemma JoinedEdges(g: Graph, extra: Graph, n: string, m: string)
    ensures Edge(Joined(g, extra), n, m) <==> Edge(g, n, m) || Edge(extra, n, m)
  {
  }

  lemma JoinOne(g: Graph, done: Graph, n: string, ms: seq<string>)
    requires n !in done
    ensures var adj := Joined(g, done);
            Joined(g, done[n := ms]) == adj[n := (if n in adj then adj[n] else []) + ms]
  {
    var adj := Joined(g, done);
    if n in g { assert adj[n] == g[n]; }
  }

  lemma JoinNothing(g: Graph)
    ensures Joined(g, map[]) == g
  {
    forall n | n in g ensures g[n] + [] == g[n] {}
  }

  method WouldCycle(s: State, extra: Graph) returns (cycle: bool)
    ensures cycle <==> Cyclic(Joined(DependsOn(s), extra))
  {
    var adj: Graph := DependsOn(s);
    var rest := extra.Keys;
    ghost var done: Graph := map[];
    JoinNothing(DependsOn(s));
    while rest != {}
      invariant rest <= extra.Keys && adj == Joined(DependsOn(s), done)
      invariant done.Keys == extra.Keys - rest && forall n :: n in done ==> done[n] == extra[n]
      decreases rest
    {
      var n :| n in rest;
      JoinOne(DependsOn(s), done, n, extra[n]);
      adj := adj[n := (if n in adj then adj[n] else []) + extra[n]];
      rest, done := rest - {n}, done[n := extra[n]];
    }
    assert done == extra;
    cycle := HasCycle(adj);
  }

  // --- The decision ------------------------------------------------------------------------------

  ghost predicate Known(s: State, cs: seq<Child>) {
    forall i, d :: 0 <= i < |cs| && d in cs[i].deps ==> d in Ids(cs) || d in s.tickets
  }

  function TicketsOf(s: State, goalId: string): set<string> {
    set id | id in s.tickets && s.tickets[id].origin.goalId == goalId
  }

  function Added(s: State, cs: seq<Child>): nat {
    if cs == [] then 0 else Added(s, cs[..|cs| - 1]) + if cs[|cs| - 1].id in s.tickets then 0 else 1
  }

  /** Within the governors, with every dependency known and no cycle. */
  ghost predicate Admits(s: State, j: Job, gov: Governors, cs: seq<Child>) {
    && j.depth < gov.maxDepth
    && Added(s, cs) <= gov.maxFanOut && |TicketsOf(s, j.goalId)| + Added(s, cs) <= gov.maxTickets
    && Known(s, cs)
    && !Cyclic(Joined(DependsOn(s), NewEdges(cs)))
  }

  function Plan(s: State, j: Job, subs: seq<Subtask>): seq<Child> {
    NamesCover(s, j.ticketId, subs);
    assert forall i :: 0 <= i < |subs| ==> Uses(subs, subs[i].localId);
    ChildrenOf(NameAll(s, j.ticketId, subs), subs)
  }

  method NameSubtasks(s: State, j: Job, subs: seq<Subtask>) returns (n: Names, ok: bool, reason: string)
    ensures ok <==> WellNamed(subs)
    ensures ok ==> n == NameAll(s, j.ticketId, subs)
  {
    n := UNNAMED;
    for i := 0 to |subs|
      invariant n == NameAll(s, j.ticketId, subs[..i]) && WellNamed(subs[..i])
    {
      var st := subs[i];
      NamesCover(s, j.ticketId, subs[..i]);
      if st.localId == "" { return n, false, "subtask missing local id"; }
      if st.localId in n.ids {
        assert Uses(subs[..i], st.localId);
        return n, false, "duplicate subtask local id " + st.localId;
      }
      assert subs[..i + 1][..i] == subs[..i];
      n := NameOne(s, j.ticketId, n, st);
    }
    assert subs[..|subs|] == subs;
    return n, true, "";
  }

  method ListChildren(n: Names, subs: seq<Subtask>) returns (cs: seq<Child>)
    requires forall i :: 0 <= i < |subs| ==> subs[i].localId in n.ids
    ensures cs == ChildrenOf(n, subs)
  {
    cs := [];
    for i := 0 to |subs|
      invariant cs == ChildrenOf(n, subs[..i])
    {
      assert subs[..i + 1][..i] == subs[..i];
      if !Has(cs, n.ids[subs[i].localId]) { cs := cs + [ChildOf(n, subs[i])]; }
    }
    assert subs[..|subs|] == subs;
  }

  method CountAdded(s: State, cs: seq<Child>) returns (added: nat)
    ensures added == Added(s, cs)
  {
    added := 0;
    for i := 0 to |cs|
      invariant added == Added(s, cs[..i])
    {
      assert cs[..i + 1][..i] == cs[..i];
      if cs[i].id !in s.tickets { added := added + 1; }
    }
    assert cs[..|cs|] == cs;
  }

  /** A dependency that is neither a sibling nor on the log, if there is one. */
  method UnknownDependency(s: State, cs: seq<Child>) returns (d: Option<string>)
    ensures d.None? <==> Known(s, cs)
  {
    for i := 0 to |cs|
      invariant forall k, x :: 0 <= k < i && x in cs[k].deps ==> x in Ids(cs) || x in s.tickets
    {
      for m := 0 to |cs[i].deps|
        invariant forall x :: x in cs[i].deps[..m] ==> x in Ids(cs) || x in s.tickets
      {
        var x := cs[i].deps[m];
        if x !in Ids(cs) && x !in s.tickets { return Some(x); }
      }
    }
    return None;
  }

  /** A worker's subtasks become children exactly when they are well named and fit. */
  method Decide(s: State, j: Job, subs: seq<Subtask>, gov: Governors) returns (r: Decision)
    ensures r.Accepted? <==> Accepts(s, j, subs, gov)
    ensures r.Accepted? ==> r.children == Plan(s, j, subs)
  {
    var n, ok, reason := NameSubtasks(s, j, subs);
    if !ok { return Rejected(reason); }
    NamesCover(s, j.ticketId, subs);
    assert forall i :: 0 <= i < |subs| ==> Uses(subs, subs[i].localId);
    var cs := ListChildren(n, subs);
    if j.depth >= gov.maxDepth { return Rejected("decomposition depth budget exceeded"); }
    var added := CountAdded(s, cs);
    if added > gov.maxFanOut { return Rejected("decomposition fan-out budget exceeded"); }
    if |TicketsOf(s, j.goalId)| + added > gov.maxTickets { return Rejected("per-goal ticket budget exceeded"); }
    var unknown := UnknownDependency(s, cs);
    if unknown.Some? { return Rejected("unknown dependency " + unknown.value); }
    var edges := NewEdges(cs);
    var cycle := WouldCycle(s, edges);
    if cycle { return Rejected("decomposition would create a cycle"); }
    return Accepted(cs);
  }

  ghost predicate Accepts(s: State, j: Job, subs: seq<Subtask>, gov: Governors) {
    WellNamed(subs) && Admits(s, j, gov, Plan(s, j, subs))
  }

  // --- Carrying out a plan -----------------------------------------------------------------------

  /** An accepted plan still being appended, one event at a time. */
  datatype InFlight = InFlight(job: Job, worker: string, todo: seq<Child>, children: seq<string>, charge: Charge)

  function New(cs: seq<Child>): seq<Child> {
    if cs == [] then [] else New(cs[..|cs| - 1]) + if cs[|cs| - 1].adopt then [] else [cs[|cs| - 1]]
  }

  function Begun(s: State, j: Job, worker: string, subs: seq<Subtask>, charge: Charge): InFlight {
    InFlight(j, worker, New(Plan(s, j, subs)), Ids(Plan(s, j, subs)), charge)
  }

  function Created(j: Job, worker: string, c: Child): Body {
    TicketCreated(c.id, j.goalId, c.title, c.deps, c.key, worker, j.depth + 1)
  }

  /** What a plan appends next: its new children, then the decomposition itself. */
  function NextBody(p: InFlight): Body {
    if p.todo == [] then TicketDecomposed(p.job.ticketId, p.worker, p.children, p.charge)
    else Created(p.job, p.worker, p.todo[0])
  }

  function RefusedBody(j: Job, worker: string, charge: Charge): Body {
    TicketFailed(j.ticketId, worker, "decomposition rejected", "", charge)
  }

  // --- What a plan's children are ----------------------------------------------------------------

  ghost predicate DistinctIds(cs: seq<Child>) {
    forall a, b :: 0 <= a < b < |cs| ==> cs[a].id != cs[b].id
  }

  /** What a child of the plan is: adopted by key, or new under its parent. */
  ghost predicate Shaped(s: State, parent: string, subs: seq<Subtask>, c: Child) {
    if c.adopt then c.id in s.keyToTicket.Values else IsFreshName(parent, subs, c.id)
  }

  lemma OneChildIsShaped(s: State, parent: string, subs: seq<Subtask>, n: Names, st: Subtask)
    requires Named(s, parent, subs, n) && st.localId in n.ids
    ensures Shaped(s, parent, subs, ChildOf(n, st))
  {
    assert NameIn(s, parent, subs, n.adopted, n.ids[st.localId]);
  }

  lemma {:induction false} ChildrenAreShaped(s: State, parent: string, subs: seq<Subtask>, n: Names, some: seq<Subtask>)
    requires Named(s, parent, subs, n)
    requires forall i :: 0 <= i < |some| ==> some[i].localId in n.ids
    ensures forall c :: c in ChildrenOf(n, some) ==> Shaped(s, parent, subs, c)
  {
    if some != [] {
      ChildrenAreShaped(s, parent, subs, n, some[..|some| - 1]);
      OneChildIsShaped(s, parent, subs, n, some[|some| - 1]);
    }
  }

  lemma {:induction false} ChildrenAreDistinct(n: Names, some: seq<Subtask>)
    requires forall i :: 0 <= i < |some| ==> some[i].localId in n.ids
    ensures DistinctIds(ChildrenOf(n, some))
  {
    if some != [] { ChildrenAreDistinct(n, some[..|some| - 1]); }
  }

  lemma PlanIsShaped(s: State, j: Job, subs: seq<Subtask>)
    ensures DistinctIds(Plan(s, j, subs))
    ensures forall c :: c in Plan(s, j, subs) ==> Shaped(s, j.ticketId, subs, c)
  {
    NamesCover(s, j.ticketId, subs);
    NamesAreNamed(s, j.ticketId, subs);
    assert forall i :: 0 <= i < |subs| ==> Uses(subs, subs[i].localId);
    ChildrenAreShaped(s, j.ticketId, subs, NameAll(s, j.ticketId, subs), subs);
    ChildrenAreDistinct(NameAll(s, j.ticketId, subs), subs);
  }

  lemma {:induction false} EdgesOfNew(cs: seq<Child>)
    requires DistinctIds(cs)
    ensures forall c :: c in New(cs) ==> c in cs && !c.adopt && c.id in NewEdges(cs) && NewEdges(cs)[c.id] == c.deps
    ensures forall n :: n in NewEdges(cs) ==> exists c :: c in New(cs) && c.id == n
  {
    if cs != [] {
      var init, last := cs[..|cs| - 1], cs[|cs| - 1];
      EdgesOfNew(init);
      assert cs == init + [last];
      forall c | c in init ensures c.id != last.id {}
      forall n | n in NewEdges(cs) ensures exists c :: c in New(cs) && c.id == n {
        if n == last.id && !last.adopt {
          assert last in New(cs);
        } else {
          var c :| c in New(init) && c.id == n;
          assert c in New(cs);
        }
      }
    }
  }

  lemma {:induction false} NewIsKey(cs: seq<Child>, i: nat)
    requires i < |cs| && !cs[i].adopt
    ensures cs[i].id in NewEdges(cs)
  {
    if i < |cs| - 1 {
      assert cs[..|cs| - 1][i] == cs[i];
      NewIsKey(cs[..|cs| - 1], i);
    }
  }

  /** A new child's id extends its parent's by a handle of the batch. */
  lemma NewIsNamed(s: State, j: Job, subs: seq<Subtask>, c: Child)
    requires c in New(Plan(s, j, subs))
    ensures IsFreshName(j.ticketId, subs, c.id)
  {
    PlanIsShaped(s, j, subs);
    EdgesOfNew(Plan(s, j, subs));
    assert Shaped(s, j.ticketId, subs, c);
  }
}
