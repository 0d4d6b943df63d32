/** Batches of subtasks that adopt and collapse nothing: what they plan is what the
    worker wrote. */
module LiteralPlans {
  import opened Replay
  import opened Digraph
  import opened Decompose

  /** No key is on the log, and none is used twice. */
  predicate NewKeys(s: State, subs: seq<Subtask>) {
    && (forall i :: 0 <= i < |subs| && subs[i].key != "" ==> subs[i].key !in s.keyToTicket)
    && forall i, j :: 0 <= i < j < |subs| && subs[i].key != "" ==> subs[i].key != subs[j].key
  }

  function Literal(parent: string, ids: map<string, string>, st: Subtask): Child {
    Child(ChildId(parent, st.localId), st.title, st.key, Resolve(ids, st.dependsOn), false)
  }

  lemma {:induction false} LiteralNames(s: State, parent: string, subs: seq<Subtask>)
    requires NewKeys(s, subs)
    ensures var n := NameAll(s, parent, subs);
            && n.adopted == {} && (forall l :: l in n.ids ==> n.ids[l] == ChildId(parent, l))
            && forall k :: k in n.byKey ==> exists i :: 0 <= i < |subs| && subs[i].key == k
  {
    if subs != [] {
      var init, last := subs[..|subs| - 1], |subs| - 1;
      LiteralNames(s, parent, init);
      var n, n' := NameAll(s, parent, init), NameAll(s, parent, subs);
      forall k | k in n'.byKey ensures exists i :: 0 <= i < |subs| && subs[i].key == k {
        if k in n.byKey {
          var i :| 0 <= i < |init| && init[i].key == k;
          assert subs[i].key == k;
        } else {
          assert subs[last].key == k;
        }
      }
    }
  }

  lemma {:induction false} LiteralChildren(parent: string, n: Names, subs: seq<Subtask>, cs: seq<Child>)
    requires WellNamed(subs) && n.adopted == {}
    requires forall i :: 0 <= i < |subs| ==> subs[i].localId in n.ids
    requires forall l :: l in n.ids ==> n.ids[l] == ChildId(parent, l)
    requires |cs| == |subs| && forall i :: 0 <= i < |subs| ==> cs[i] == Literal(parent, n.ids, subs[i])
    ensures ChildrenOf(n, subs) == cs
  {
    if subs != [] {
      var init, k := subs[..|subs| - 1], |subs| - 1;
      LiteralChildren(parent, n, init, cs[..k]);
      forall i | 0 <= i < k ensures cs[i].id != n.ids[subs[k].localId] {
        assert subs[i].localId == ChildId(parent, subs[i].localId)[|parent| + 1..];
        assert subs[k].localId == ChildId(parent, subs[k].localId)[|parent| + 1..];
      }
    }
  }

  /** The batch's handles are `ids`, and written out its children are `cs`. */
  ghost predicate IsLiteral(s: State, j: Job, subs: seq<Subtask>, ids: map<string, string>, cs: seq<Child>) {
    && NewKeys(s, subs) && WellNamed(subs)
    && (forall l :: l in ids <==> Uses(subs, l))
    && (forall l :: l in ids ==> ids[l] == ChildId(j.ticketId, l))
    && |cs| == |subs| && forall i :: 0 <= i < |subs| ==> cs[i] == Literal(j.ticketId, ids, subs[i])
  }

  /** A batch whose keys are new plans what it says. */
  lemma LiteralPlan(s: State, j: Job, subs: seq<Subtask>, ids: map<string, string>, cs: seq<Child>)
    requires IsLiteral(s, j, subs, ids, cs)
    ensures Plan(s, j, subs) == cs
  {
    var n := NameAll(s, j.ticketId, subs);
    NamesCover(s, j.ticketId, subs);
    LiteralNames(s, j.ticketId, subs);
    assert n.ids == ids;
    assert forall i :: 0 <= i < |subs| ==> Uses(subs, subs[i].localId);
    LiteralChildren(j.ticketId, n, subs, cs);
  }

  // --- Batches without keys ----------------------------------------------------------------------

  function Sub(local: string, deps: seq<string>): Subtask { Subtask(local, "", deps, "") }

  function Kid(id: string, deps: seq<string>): Child { Child(id, "", "", deps, false) }

  predicate Keyless(subs: seq<Subtask>) {
    forall i :: 0 <= i < |subs| ==> subs[i].key == ""
  }

  /** The batch holds no key, its handles are `ids`, and it plans the children `cs`. */
  ghost predicate Reads(j: Job, subs: seq<Subtask>, ids: map<string, string>, cs: seq<Child>) {
    && Keyless(subs) && WellNamed(subs)
    && (forall l :: l in ids <==> Uses(subs, l))
    && (forall l :: l in ids ==> ids[l] == ChildId(j.ticketId, l))
    && |cs| == |subs| && forall i :: 0 <= i < |subs| ==> cs[i] == Literal(j.ticketId, ids, subs[i])
  }

  lemma OneChild(j: Job, local: string, dep: string)
    requires local != "" && dep != local
    ensures var id := ChildId(j.ticketId, local);
            var cs := [Kid(id, [dep])];
            && Reads(j, [Sub(local, [dep])], map[local := id], cs)
            && NewEdges(cs) == map[id := [dep]] && New(cs) == cs && Ids(cs) == [id]
  {
    var id := ChildId(j.ticketId, local);
    var cs, subs := [Kid(id, [dep])], [Sub(local, [dep])];
    assert Uses(subs, local) by { assert subs[0].localId == local; }
    assert Resolve(map[local := id], [dep]) == [dep];
    assert cs[..0] == [];
  }

  lemma PairOfChildren(c: Child, d: Child)
    requires !c.adopt && !d.adopt
    ensures NewEdges([c, d]) == map[c.id := c.deps][d.id := d.deps] && New([c, d]) == [c, d]
    ensures Ids([c, d]) == [c.id, d.id]
  {
    var one, two := [c], [c, d];
    assert one[..0] == [] && two[..1] == one;
    assert NewEdges([]) == map[] && New([]) == [];
    assert NewEdges(one) == map[c.id := c.deps] && New(one) == one;
  }

  lemma ThreeOfChildren(b: Child, c: Child, d: Child)
    requires !b.adopt && !c.adopt && !d.adopt
    ensures NewEdges([b, c, d]) == map[b.id := b.deps][c.id := c.deps][d.id := d.deps]
    ensures New([b, c, d]) == [b, c, d] && Ids([b, c, d]) == [b.id, c.id, d.id]
  {
    PairOfChildren(b, c);
    var three := [b, c, d];
    assert three[..2] == [b, c];
    assert New(three) == New([b, c]) + [d];
  }

  /** Two children, the first waiting on the second. */
  function Pair(x: string, y: string): seq<Child> { [Kid(x, [y]), Kid(y, [])] }

  function PairSubs(first: string, second: string): seq<Subtask> { [Sub(first, [second]), Sub(second, [])] }

  lemma TwoChildren(j: Job, first: string, second: string, x: string, y: string)
    requires first != "" && second != "" && first != second
    requires x == ChildId(j.ticketId, first) && y == ChildId(j.ticketId, second)
    ensures Reads(j, PairSubs(first, second), map[first := x, second := y], Pair(x, y))
  {
    var subs, ids := PairSubs(first, second), map[first := x, second := y];
    assert Uses(subs, first) by { assert subs[0].localId == first; }
    assert Uses(subs, second) by { assert subs[1].localId == second; }
    assert Resolve(ids, [second]) == [y] && Resolve(ids, []) == [];
  }

  /** Three, the second waiting on the third. */
  function Triple(x: string, u: string, v: string): seq<Child> { [Kid(x, []), Kid(u, [v]), Kid(v, [])] }

  function TripleSubs(hx: string, hu: string, hv: string): seq<Subtask> { [Sub(hx, []), Sub(hu, [hv]), Sub(hv, [])] }

  lemma ThreeChildren(j: Job, hx: string, hu: string, hv: string, x: string, u: string, v: string)
    requires hx != "" && hu != "" && hv != "" && hx != hu && hx != hv && hu != hv
    requires x == ChildId(j.ticketId, hx) && u == ChildId(j.ticketId, hu) && v == ChildId(j.ticketId, hv)
    ensures Reads(j, TripleSubs(hx, hu, hv), map[hx := x, hu := u, hv := v], Triple(x, u, v))
  {
    var subs, ids := TripleSubs(hx, hu, hv), map[hx := x, hu := u, hv := v];
    assert Uses(subs, hx) by { assert subs[0].localId == hx; }
    assert Uses(subs, hu) by { assert subs[1].localId == hu; }
    assert Uses(subs, hv) by { assert subs[2].localId == hv; }
    assert Resolve(ids, [hv]) == [v] && Resolve(ids, []) == [];
  }

  /** A batch without keys is what it says. */
  lemma ReadsLiteral(s: State, j: Job, subs: seq<Subtask>, ids: map<string, string>, cs: seq<Child>)
    requires Reads(j, subs, ids, cs)
    ensures IsLiteral(s, j, subs, ids, cs)
  {
  }

  // --- Acceptance --------------------------------------------------------------------------------

  predicate Roomy(gov: Governors) { gov.maxDepth >= 5 && gov.maxFanOut >= 8 && gov.maxTickets >= 64 }

  lemma GoalSize(s: State, goalId: string)
    ensures |TicketsOf(s, goalId)| <= |DependsOn(s)|
  {
    var g, of := DependsOn(s), TicketsOf(s, goalId);
    assert of <= g.Keys;
    assert g.Keys == of + (g.Keys - of);
  }

  lemma {:induction false} AddedAtMost(s: State, cs: seq<Child>)
    ensures Added(s, cs) <= |cs|
  {
    if cs != [] { AddedAtMost(s, cs[..|cs| - 1]); }
  }

  /** Every dependency is known, and `order` shows the plan adds no cycle. */
  ghost predicate Admissible(g: Graph, cs: seq<Child>, order: seq<string>) {
    && (forall c, d :: c in cs && d in c.deps ==> d in Ids(cs) || d in g)
    && Finished(Joined(g, NewEdges(cs)), order) && forall n :: n in Joined(g, NewEdges(cs)) ==> n in order
  }

  lemma AllKnown(s: State, cs: seq<Child>)
    requires forall c, d :: c in cs && d in c.deps ==> d in Ids(cs) || d in DependsOn(s)
    ensures Known(s, cs)
  {
    forall i, d | 0 <= i < |cs| && d in cs[i].deps ensures d in Ids(cs) || d in s.tickets { assert cs[i] in cs; }
  }

  /** Small plans that add no cycle are accepted. */
  lemma SmallIsAccepted(s: State, j: Job, subs: seq<Subtask>, gov: Governors, cs: seq<Child>, order: seq<string>)
    requires WellNamed(subs) && cs == Plan(s, j, subs) && Roomy(gov) && j.depth < 5
    requires |DependsOn(s)| <= 50 && |cs| <= 8 && Admissible(DependsOn(s), cs, order)
    ensures Accepts(s, j, subs, gov)
  {
    GoalSize(s, j.goalId);
    AddedAtMost(s, cs);
    AllKnown(s, cs);
    FinishedHasNoCycle(Joined(DependsOn(s), NewEdges(cs)), order);
  }

  lemma JoinFresh(g: Graph, extra: Graph)
    requires g.Keys !! extra.Keys
    ensures Joined(g, extra) == g + extra
  {
    forall n | n in g ensures g[n] + [] == g[n] {}
    forall n | n in extra ensures [] + extra[n] == extra[n] {}
  }

  // --- A subtask that adopts ---------------------------------------------------------------------

  lemma AdoptingNames(s: State, parent: string, st: Subtask)
    requires st.key != "" && st.key in s.keyToTicket
    ensures var n := NameAll(s, parent, [st]);
            n.ids == map[st.localId := s.keyToTicket[st.key]] && n.adopted == {s.keyToTicket[st.key]}
  {
    assert [st][..0] == [];
    assert NameAll(s, parent, []) == UNNAMED;
    assert NameAll(s, parent, [st]) == NameOne(s, parent, UNNAMED, st);
  }

  lemma LoneChild(n: Names, st: Subtask)
    requires st.localId in n.ids
    ensures ChildrenOf(n, [st]) == [ChildOf(n, st)]
  {
    assert [st][..0] == [];
    assert ChildrenOf(n, []) == [];
  }

  lemma LoneAdopted(c: Child)
    requires c.adopt
    ensures New([c]) == [] && Ids([c]) == [c.id] && NewEdges([c]) == map[]
  {
    assert [c][..0] == [];
  }

  /** One subtask with a key that is on the log: its one child is the ticket the key
      names. */
  lemma AdoptingPlan(s: State, j: Job, subs: seq<Subtask>) returns (cs: seq<Child>)
    requires |subs| == 1 && subs[0].key != "" && subs[0].key in s.keyToTicket && subs[0].localId != ""
    requires subs[0].dependsOn == []
    ensures var st, id := subs[0], s.keyToTicket[subs[0].key];
            && cs == Plan(s, j, subs) && cs == [Child(id, st.title, st.key, [], true)]
            && New(cs) == [] && Ids(cs) == [id] && NewEdges(cs) == map[]
  {
    var st, id := subs[0], s.keyToTicket[subs[0].key];
    var n := NameAll(s, j.ticketId, [st]);
    assert subs == [st];
    AdoptingNames(s, j.ticketId, st);
    assert Resolve(n.ids, []) == [];
    LoneChild(n, st);
    LoneAdopted(ChildOf(n, st));
    cs := [ChildOf(n, st)];
  }
}
