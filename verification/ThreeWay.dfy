/** Three-way merges path by path: why proposals that touch disjoint files can
    share one Gate run (mergequeue.ProcessBatch). */
module ThreeWay {
  import opened Events

  /** A tree's files by path. */
  type Tree = map<string, string>

  function EntryAt(t: Tree, path: string): Option<string> {
    if path in t then Some(t[path]) else None
  }

  /** A branch: the tree it was cut from and the tree at its tip. */
  datatype Proposal = Proposal(base: Tree, tip: Tree)

  predicate Touches(p: Proposal, path: string) {
    EntryAt(p.base, path) != EntryAt(p.tip, path)
  }

  /** The side that changed wins; both sides changing a path differently conflict. */
  predicate Conflicts(p: Proposal, ours: Tree, path: string) {
    EntryAt(p.base, path) != EntryAt(ours, path) && Touches(p, path) && EntryAt(ours, path) != EntryAt(p.tip, path)
  }

  function Resolve(p: Proposal, ours: Tree, path: string): Option<string> {
    if Touches(p, path) then EntryAt(p.tip, path) else EntryAt(ours, path)
  }

  ghost predicate Clean(p: Proposal, ours: Tree) {
    forall path :: !Conflicts(p, ours, path)
  }

  function Merge(p: Proposal, ours: Tree): (t: Tree)
    ensures forall path :: EntryAt(t, path) == Resolve(p, ours, path)
  {
    map path | path in ours.Keys + p.tip.Keys && Resolve(p, ours, path).Some? :: Resolve(p, ours, path).value
  }

  ghost predicate Disjoint(p: Proposal, q: Proposal) {
    forall path :: !(Touches(p, path) && Touches(q, path))
  }

  ghost predicate PairwiseDisjoint(ps: multiset<Proposal>) {
    forall p, q :: p in ps && q in ps && (p != q || ps[p] > 1) ==> Disjoint(p, q)
  }

  /** Merges proposals one after another; None once one of them conflicts. */
  ghost function MergeAll(ps: seq<Proposal>, ours: Tree): Option<Tree> {
    if ps == [] then Some(ours)
    else if !Clean(ps[0], ours) then None
    else MergeAll(ps[1..], Merge(ps[0], ours))
  }

  /** The tip of the one proposal that touches a path, else what was there. */
  ghost predicate Overlay(ps: multiset<Proposal>, ours: Tree, t: Tree) {
    forall path ::
      && (forall p :: p in ps && Touches(p, path) ==> EntryAt(t, path) == EntryAt(p.tip, path))
      && ((forall p :: p in ps ==> !Touches(p, path)) ==> EntryAt(t, path) == EntryAt(ours, path))
  }

  /** A merge leaves every path a disjoint proposal touches alone, so what was
      clean before it is clean after it. */
  lemma StaysClean(p: Proposal, q: Proposal, ours: Tree)
    requires Disjoint(p, q) && Clean(q, ours)
    ensures Clean(q, Merge(p, ours))
  {
    forall path ensures !Conflicts(q, Merge(p, ours), path) {
      assert !Conflicts(q, ours, path);
      assert !(Touches(p, path) && Touches(q, path));
      assert EntryAt(Merge(p, ours), path) == Resolve(p, ours, path);
    }
  }

  lemma {:induction false} DisjointMerges(ps: seq<Proposal>, ours: Tree)
    requires PairwiseDisjoint(multiset(ps))
    requires forall p :: p in ps ==> Clean(p, ours)
    ensures MergeAll(ps, ours).Some? && Overlay(multiset(ps), ours, MergeAll(ps, ours).value)
  {
    if ps != [] {
      var p, rest := ps[0], ps[1..];
      assert ps == [p] + rest;
      assert multiset(ps) == multiset{p} + multiset(rest);
      var next := Merge(p, ours);
      forall q | q in rest ensures Clean(q, next) && Disjoint(p, q) {
        assert q in multiset(rest);
        assert Disjoint(p, q);
        StaysClean(p, q, ours);
      }
      assert PairwiseDisjoint(multiset(rest));
      DisjointMerges(rest, next);
      var t := MergeAll(rest, next).value;
      forall path
        ensures forall q :: q in multiset(ps) && Touches(q, path) ==> EntryAt(t, path) == EntryAt(q.tip, path)
        ensures (forall q :: q in multiset(ps) ==> !Touches(q, path)) ==> EntryAt(t, path) == EntryAt(ours, path)
      {
        assert EntryAt(next, path) == Resolve(p, ours, path);
        if Touches(p, path) {
          forall q | q in multiset(rest) ensures !Touches(q, path) { assert q in rest; assert Disjoint(p, q); }
        }
      }
    }
  }

  lemma SameOverlay(ps: multiset<Proposal>, ours: Tree, s: Tree, t: Tree)
    requires Overlay(ps, ours, s) && Overlay(ps, ours, t)
    ensures s == t
  {
    forall path ensures EntryAt(s, path) == EntryAt(t, path) {
      if p :| p in ps && Touches(p, path) {}
    }
    assert forall path :: path in s <==> EntryAt(s, path).Some?;
    assert forall path :: path in s ==> path in t && EntryAt(s, path) == EntryAt(t, path);
    assert forall path :: path in t ==> path in s;
  }

  /** Disjoint proposals that each merge cleanly on the starting tree merge
      cleanly in any order, and every order gives the same tree. */
  lemma AnyOrder(ps: seq<Proposal>, qs: seq<Proposal>, ours: Tree)
    requires PairwiseDisjoint(multiset(ps)) && multiset(ps) == multiset(qs)
    requires forall p :: p in ps ==> Clean(p, ours)
    ensures MergeAll(ps, ours).Some? && MergeAll(ps, ours) == MergeAll(qs, ours)
  {
    forall q | q in qs ensures Clean(q, ours) { assert q in multiset(qs); assert q in ps; }
    DisjointMerges(ps, ours);
    DisjointMerges(qs, ours);
    SameOverlay(multiset(ps), ours, MergeAll(ps, ours).value, MergeAll(qs, ours).value);
  }
}
