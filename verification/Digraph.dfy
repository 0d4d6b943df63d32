/** Finite directed graphs, and the three-colour depth-first search that finds a
    cycle in one (state.HasCycle). */
module Digraph {
  import opened Sequences

  /** A node's out-neighbours. A node that is only ever a neighbour is a sink. */
  type Graph = map<string, seq<string>>

  predicate Edge(g: Graph, n: string, m: string) {
    n in g && m in g[n]
  }

  ghost predicate IsPath(g: Graph, p: seq<string>) {
    forall i :: 0 < i < |p| ==> Edge(g, p[i - 1], p[i])
  }

  ghost predicate IsCycle(g: Graph, p: seq<string>) {
    |p| >= 2 && p[0] == p[|p| - 1] && IsPath(g, p)
  }

  ghost predicate Cyclic(g: Graph) {
    exists p :: IsCycle(g, p)
  }

  function Nodes(g: Graph): set<string> {
    g.Keys + set n, m | n in g && m in g[n] :: m
  }

  // --- Depth-first search ------------------------------------------------------------------------

  datatype Colour = Gray | Black

  /** Every edge out of a finished node goes to a node finished before it. */
  ghost predicate Finished(g: Graph, order: seq<string>) {
    forall i, m :: 0 <= i < |order| && Edge(g, order[i], m) ==> m in order[..i]
  }

  lemma {:induction false} FirstPosition(order: seq<string>, n: string) returns (i: nat)
    requires n in order
    ensures i < |order| && order[i] == n && n !in order[..i]
  {
    if order[0] == n {
      i := 0;
    } else {
      i := FirstPosition(order[1..], n);
      i := i + 1;
      assert order[..i] == [order[0]] + order[1..][..i - 1];
    }
  }

  /** Along a path, finishing positions strictly drop. */
  lemma {:induction false} Descends(g: Graph, order: seq<string>, p: seq<string>, k: nat, i: nat)
    requires Finished(g, order) && IsPath(g, p) && 0 < k < |p|
    requires i < |order| && order[i] == p[0]
    ensures p[k] in order[..i]
  {
    if k > 1 {
      Descends(g, order, p, k - 1, i);
      var j :| 0 <= j < i && order[j] == p[k - 1];
      assert Edge(g, order[j], p[k]);
      assert order[..j] <= order[..i];
    } else {
      assert Edge(g, order[i], p[1]);
    }
  }

  lemma {:induction false} FinishedHasNoCycle(g: Graph, order: seq<string>)
    requires Finished(g, order) && forall n :: n in g ==> n in order
    ensures !Cyclic(g)
  {
    forall p | IsCycle(g, p) ensures false {
      assert Edge(g, p[0], p[1]);
      var i := FirstPosition(order, p[0]);
      Descends(g, order, p, |p| - 1, i);
    }
  }

  /** What the search keeps: `stack` is the path of gray nodes it is inside, and
      `order` lists the black nodes as they finished. */
  ghost predicate Searching(g: Graph, colour: map<string, Colour>, order: seq<string>, stack: seq<string>) {
    && colour.Keys <= Nodes(g)
    && (forall n :: n in stack ==> n in colour && colour[n] == Gray)
    && (forall n :: n in order ==> n in colour && colour[n] == Black)
    && (forall n :: n in colour ==> n in (if colour[n] == Gray then stack else order))
    && IsPath(g, stack)
    && Finished(g, order)
  }

  lemma Enter(g: Graph, colour: map<string, Colour>, order: seq<string>, stack: seq<string>, n: string)
    requires Searching(g, colour, order, stack) && n !in colour && n in Nodes(g)
    requires stack != [] ==> Edge(g, stack[|stack| - 1], n)
    ensures Searching(g, colour[n := Gray], order, stack + [n])
  {
  }

  lemma Leave(g: Graph, colour: map<string, Colour>, order: seq<string>, stack: seq<string>, n: string)
    requires Searching(g, colour, order, stack + [n]) && n !in stack
    requires forall m :: Edge(g, n, m) ==> m in order
    ensures Searching(g, colour[n := Black], order + [n], stack)
  {
    var inside := stack + [n];
    assert IsPath(g, stack) by {
      forall i | 0 < i < |stack| ensures Edge(g, stack[i - 1], stack[i]) { assert Edge(g, inside[i - 1], inside[i]); }
    }
    assert Finished(g, order + [n]) by {
      forall i, m | 0 <= i < |order + [n]| && Edge(g, (order + [n])[i], m) ensures m in (order + [n])[..i] {
        assert (order + [n])[..i] == order[..i];
        if i == |order| { assert order[..i] == order; }
      }
    }
    assert forall x :: x in inside ==> x == n || x in stack;
  }

  lemma ClosesCycle(g: Graph, stack: seq<string>, m: string)
    requires IsPath(g, stack) && m in stack && Edge(g, stack[|stack| - 1], m)
    ensures Cyclic(g)
  {
    var k :| 0 <= k < |stack| && stack[k] == m;
    assert IsCycle(g, stack[k..] + [m]);
  }

  ghost predicate AllIn(next: seq<string>, n: nat, order: seq<string>) {
    forall j :: 0 <= j < |next| && j < n ==> next[j] in order
  }

  lemma StillIn(next: seq<string>, n: nat, order: seq<string>, more: seq<string>)
    requires n < |next| && AllIn(next, n, order) && order <= more && next[n] in more
    ensures AllIn(next, n + 1, more)
  {
  }

  /** The search's colour map. A node absent from it is white. */
  class Search {
    const g: Graph
    var colour: map<string, Colour>
    ghost var order: seq<string>

    constructor (g: Graph)
      ensures this.g == g && Valid([])
    {
      this.g := g;
      colour := map[];
      order := [];
    }

    ghost predicate Valid(stack: seq<string>)
      reads this
    {
      Searching(g, colour, order, stack)
    }

    /** The nodes not yet reached. */
    ghost function White(): set<string>
      reads this
    {
      Nodes(g) - colour.Keys
    }

    method Visit(n: string, ghost stack: seq<string>) returns (found: bool)
      requires Valid(stack) && n !in colour && n in Nodes(g)
      requires stack != [] ==> Edge(g, stack[|stack| - 1], n)
      modifies this
      ensures found ==> Cyclic(g)
      ensures !found ==> Valid(stack) && n in order && old(order) <= order && White() <= old(White())
      decreases White(), 0
    {
      Enter(g, colour, order, stack, n);
      colour := colour[n := Gray];
      assert White() == old(White()) - {n} && n in old(White());
      found := FollowAll(n, stack + [n]);
      if !found {
        Leave(g, colour, order, stack, n);
        colour, order := colour[n := Black], order + [n];
        assert White() <= old(White());
      }
    }

    /** Every out-neighbour of the node the search is at. */
    method FollowAll(n: string, ghost inside: seq<string>) returns (found: bool)
      requires Valid(inside) && inside != [] && inside[|inside| - 1] == n
      modifies this
      ensures found ==> Cyclic(g)
      ensures !found ==> Valid(inside) && old(order) <= order && White() <= old(White())
      ensures !found ==> forall m :: Edge(g, n, m) ==> m in order
      decreases White(), 2
    {
      var next := if n in g then g[n] else [];
      for i := 0 to |next|
        invariant Valid(inside) && old(order) <= order && White() <= old(White())
        invariant AllIn(next, i, order)
      {
        assert Edge(g, n, next[i]);
        ghost var before := order;
        var deeper := Follow(next[i], inside);
        if deeper { return true; }
        StillIn(next, i, before, order);
      }
      return false;
    }

    /** One out-neighbour of the node the search is at. */
    method Follow(m: string, ghost inside: seq<string>) returns (found: bool)
      requires Valid(inside) && inside != [] && Edge(g, inside[|inside| - 1], m)
      modifies this
      ensures found ==> Cyclic(g)
      ensures !found ==> Valid(inside) && m in order && old(order) <= order && White() <= old(White())
      decreases White(), 1
    {
      if m !in colour {
        found := Visit(m, inside);
      } else {
        found := colour[m] == Gray;
        if found { ClosesCycle(g, inside, m); }
      }
    }
  }

  /** Whether g has a cycle, whatever order the nodes are visited in. */
  method HasCycle(g: Graph) returns (found: bool)
    ensures found <==> Cyclic(g)
  {
    var search := new Search(g);
    var todo := g.Keys;
    while todo != {}
      invariant todo <= g.Keys && search.Valid([]) && search.g == g
      invariant forall n :: n in g && n !in todo ==> n in search.order
      decreases todo
    {
      var n :| n in todo;
      if n !in search.colour {
        var cyclic := search.Visit(n, []);
        if cyclic { return true; }
      }
      todo := todo - {n};
    }
    FinishedHasNoCycle(g, search.order);
    return false;
  }

  // --- Growing an acyclic graph ------------------------------------------------------------------

  ghost predicate Subgraph(g: Graph, h: Graph) {
    forall n, m :: Edge(g, n, m) ==> Edge(h, n, m)
  }

  lemma SubgraphAcyclic(g: Graph, h: Graph)
    requires Subgraph(g, h) && !Cyclic(h)
    ensures !Cyclic(g)
  {
    forall p | IsCycle(g, p) ensures false {
      forall i | 0 < i < |p| ensures Edge(h, p[i - 1], p[i]) { assert Edge(g, p[i - 1], p[i]); }
      assert IsCycle(h, p);
    }
  }

  /** A path that ends among nodes only they themselves point at never left them. */
  lemma {:induction false} StaysInside(h: Graph, inside: set<string>, p: seq<string>, k: nat)
    requires IsPath(h, p) && k < |p| && p[|p| - 1] in inside
    requires forall n, m :: Edge(h, n, m) && m in inside ==> n in inside
    ensures p[k] in inside
    decreases |p| - k
  {
    if k + 1 < |p| {
      StaysInside(h, inside, p, k + 1);
      assert Edge(h, p[k], p[k + 1]);
    }
  }

  /** Adding nodes nothing outside them points at adds no cycle, provided their own
      edges make none against some part of the graph that was already there. */
  lemma {:induction false} ExtendAcyclic(base: Graph, part: Graph, h: Graph, added: set<string>)
    requires !Cyclic(base) && !Cyclic(part)
    requires forall n, m :: Edge(h, n, m) && m in added ==> n in added
    requires forall n, m :: Edge(h, n, m) && n in added ==> Edge(part, n, m)
    requires forall n, m :: Edge(h, n, m) && n !in added ==> Edge(base, n, m)
    ensures !Cyclic(h)
  {
    forall p | IsCycle(h, p) ensures false {
      if p[0] in added {
        forall i | 0 < i < |p| ensures Edge(part, p[i - 1], p[i]) {
          StaysInside(h, added, p, i - 1);
          assert Edge(h, p[i - 1], p[i]);
        }
        assert IsCycle(part, p);
      } else {
        forall i | 0 < i < |p| ensures Edge(base, p[i - 1], p[i]) {
          assert Edge(h, p[i - 1], p[i]);
          if p[i - 1] in added {
            assert IsPath(h, p[..i]);
            StaysInside(h, added, p[..i], 0);
          }
        }
        assert IsCycle(base, p);
      }
    }
  }

  // --- Ordering an acyclic graph -----------------------------------------------------------------

  ghost predicate HasNext(g: Graph, within: set<string>, n: string) {
    exists m :: m in within && Edge(g, n, m)
  }

  lemma PathGrows(g: Graph, p: seq<string>, next: string)
    requires p != [] && IsPath(g, p) && Distinct(p) && Edge(g, p[|p| - 1], next) && next !in p
    ensures IsPath(g, p + [next]) && Distinct(p + [next])
  {
  }

  /** A finite set in which everything has a successor of its own holds a cycle. */
  lemma {:induction false} EndlessIsCyclic(g: Graph, within: set<string>, p: seq<string>)
    requires p != [] && IsPath(g, p) && Distinct(p) && forall n :: n in p ==> n in within
    requires forall n :: n in within ==> HasNext(g, within, n)
    ensures Cyclic(g)
    decreases |within| - |p|
  {
    var last := p[|p| - 1];
    assert last in p && HasNext(g, within, last);
    var next :| next in within && Edge(g, last, next);
    if next in p {
      ClosesCycle(g, p, next);
    } else {
      PathGrows(g, p, next);
      DistinctSize(p + [next], within);
      EndlessIsCyclic(g, within, p + [next]);
    }
  }

  /** Some node left has all its out-neighbours finished. */
  lemma NextToFinish(g: Graph, order: seq<string>, left: set<string>) returns (n: string)
    requires !Cyclic(g) && left != {} && forall x :: x in Nodes(g) ==> x in order || x in left
    ensures n in left && forall m :: Edge(g, n, m) ==> m in order || m !in left
  {
    if forall x :: x in left ==> HasNext(g, left, x) {
      var x :| x in left;
      EndlessIsCyclic(g, left, [x]);
    }
    n :| n in left && !HasNext(g, left, n);
  }

  /** The nodes of an acyclic graph can be put in an order in which every edge goes
      back. */
  lemma {:induction false} TopologicalOrder(g: Graph, order: seq<string>, left: set<string>) returns (all: seq<string>)
    requires !Cyclic(g) && Finished(g, order)
    requires (forall n :: n in left ==> n !in order) && forall n :: n in Nodes(g) <==> n in order || n in left
    ensures Finished(g, all) && forall n :: n in Nodes(g) <==> n in all
    decreases left
  {
    if left == {} {
      all := order;
    } else {
      var n := NextToFinish(g, order, left);
      forall m | Edge(g, n, m) ensures m in order { assert m in Nodes(g); }
      Finish(g, order, n);
      all := TopologicalOrder(g, order + [n], left - {n});
    }
  }

  lemma Finish(g: Graph, order: seq<string>, n: string)
    requires Finished(g, order) && forall m :: Edge(g, n, m) ==> m in order
    ensures Finished(g, order + [n])
  {
    var more := order + [n];
    forall i, m | 0 <= i < |more| && Edge(g, more[i], m) ensures m in more[..i] {
      assert more[..i] == order[..i];
      if i == |order| { assert order[..i] == order; }
    }
  }
}
