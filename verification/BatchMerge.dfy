/** The batch the merge queue picks, over path-level merges: it always merges
    cleanly, and to the tree any other order would give. */
module BatchMerge {
  import opened Events
  import opened MergeQueue
  import T = ThreeWay

  /** git answers as the path-level model does: `tree` is a commit's files, and
      `of` what each branch was cut from and ends at. Listing a branch's changed files
      may fail. */
  ghost predicate PathLevel(w: World, tree: Commit -> T.Tree, of: string -> T.Proposal) {
    && (forall h, b :: w.merge(h, b).Some? <==> T.Clean(of(b), tree(h)))
    && (forall h, b :: w.merge(h, b).Some? ==> tree(w.merge(h, b).value) == T.Merge(of(b), tree(h)))
    && forall h, b, path :: w.files(h, b).Some? ==> (path in w.files(h, b).value <==> T.Touches(of(b), path))
  }

  function Branches(ps: seq<Proposal>, at: seq<nat>, of: string -> T.Proposal): (s: seq<T.Proposal>)
    requires forall k :: 0 <= k < |at| ==> at[k] < |ps|
    ensures |s| == |at| && forall k :: 0 <= k < |at| ==> s[k] == of(ps[at[k]].branch)
  {
    seq(|at|, k requires 0 <= k < |at| => of(ps[at[k]].branch))
  }

  lemma {:induction false} MergeAllAppends(ps: seq<T.Proposal>, p: T.Proposal, ours: T.Tree)
    ensures T.MergeAll(ps + [p], ours) ==
            match T.MergeAll(ps, ours)
            case None => None
            case Some(t) => if T.Clean(p, t) then Some(T.Merge(p, t)) else None
  {
    if ps == [] {
      assert ps + [p] == [p];
      assert T.MergeAll([p][1..], T.Merge(p, ours)) == Some(T.Merge(p, ours));
    } else {
      assert (ps + [p])[1..] == ps[1..] + [p];
      MergeAllAppends(ps[1..], p, T.Merge(ps[0], ours));
    }
  }

  /** One more branch on the stack is one more proposal merged. */
  lemma StackGrows(w: World, tree: Commit -> T.Tree, of: string -> T.Proposal, head: Commit, ps: seq<Proposal>,
                   at: seq<nat>, k: nat,
                   below: Option<Commit>, merged: Option<T.Tree>)
    requires PathLevel(w, tree, of) && Within(at, |ps|) && 0 < k <= |at| && below == Stack(w, head, ps, at, k - 1)
    requires (below.Some? <==> merged.Some?) && (below.Some? ==> tree(below.value) == merged.value)
    ensures var stack, p := Stack(w, head, ps, at, k), of(ps[at[k - 1]].branch);
            var more := if merged.Some? && T.Clean(p, merged.value) then Some(T.Merge(p, merged.value)) else None;
            (stack.Some? <==> more.Some?) && (stack.Some? ==> tree(stack.value) == more.value)
  {
  }

  /** Stacking branches is merging their proposals one after another. */
  lemma {:induction false} StackIsMergeAll(w: World, tree: Commit -> T.Tree, of: string -> T.Proposal,
                                           head: Commit, ps: seq<Proposal>, at: seq<nat>, k: nat)
    requires PathLevel(w, tree, of) && Within(at, |ps|) && k <= |at|
    ensures var stack := Stack(w, head, ps, at, k);
            var merged := T.MergeAll(Branches(ps, at, of)[..k], tree(head));
            (stack.Some? <==> merged.Some?) && (stack.Some? ==> tree(stack.value) == merged.value)
  {
    var all := Branches(ps, at, of);
    if k > 0 {
      var front := all[..k - 1];
      StackIsMergeAll(w, tree, of, head, ps, at, k - 1);
      assert all[..k] == front + [all[k - 1]];
      MergeAllAppends(front, all[k - 1], tree(head));
      StackGrows(w, tree, of, head, ps, at, k, Stack(w, head, ps, at, k - 1), T.MergeAll(front, tree(head)));
    }
  }

  lemma TwoOf(s: seq<T.Proposal>, p: T.Proposal)
    requires multiset(s)[p] > 1
    ensures exists i, j :: 0 <= i < j < |s| && s[i] == s[j] == p
  {
    var i :| 0 <= i < |s| && s[i] == p;
    assert s == s[..i] + [p] + s[i + 1..];
    assert multiset(s) == multiset(s[..i]) + multiset{p} + multiset(s[i + 1..]);
    if p in s[..i] {
      var j :| 0 <= j < i && s[j] == p;
    } else {
      assert p in s[i + 1..];
      var j :| i < j < |s| && s[j] == p;
    }
  }

  lemma GreedyIsDisjoint(w: World, tree: Commit -> T.Tree, of: string -> T.Proposal,
                         head: Commit, ps: seq<Proposal>, batch: seq<nat>, serial: seq<nat>)
    requires PathLevel(w, tree, of) && Greedy(w, head, ps, |ps|, batch, serial)
    ensures T.PairwiseDisjoint(multiset(Branches(ps, batch, of)))
  {
    var all := Branches(ps, batch, of);
    forall p, q | p in multiset(all) && q in multiset(all) && (p != q || multiset(all)[p] > 1)
      ensures T.Disjoint(p, q)
    {
      if p == q { TwoOf(all, p); } else { assert p in all && q in all; }
      var i, j :| 0 <= i < |all| && 0 <= j < |all| && i != j && all[i] == p && all[j] == q;
      MembersAreDisjoint(w, tree, of, head, ps, batch, serial, if i < j then i else j, if i < j then j else i);
    }
  }

  lemma MembersAreDisjoint(w: World, tree: Commit -> T.Tree, of: string -> T.Proposal, head: Commit,
                           ps: seq<Proposal>, batch: seq<nat>, serial: seq<nat>, lo: nat, hi: nat)
    requires PathLevel(w, tree, of) && Greedy(w, head, ps, |ps|, batch, serial) && lo < hi < |batch|
    ensures T.Disjoint(of(ps[batch[lo]].branch), of(ps[batch[hi]].branch))
  {
    var p, q := ps[batch[lo]], ps[batch[hi]];
    assert batch[lo] < batch[hi] && batch[hi] in batch && batch[lo] in batch;
    assert BatchFits(w, head, ps, batch, batch[hi]) && BatchFits(w, head, ps, batch, batch[lo]);
    FilesAreTouched(w, tree, of, head, p);
    FilesAreTouched(w, tree, of, head, q);
    forall path ensures !(T.Touches(of(p.branch), path) && T.Touches(of(q.branch), path)) {
      assert !(path in FilesOf(w, head, p) && path in FilesOf(w, head, q));
    }
  }

  /** The files of a branch that lists any are the paths it touches. */
  lemma FilesAreTouched(w: World, tree: Commit -> T.Tree, of: string -> T.Proposal, head: Commit, p: Proposal)
    requires PathLevel(w, tree, of) && FilesOf(w, head, p) != {}
    ensures forall path :: path in FilesOf(w, head, p) <==> T.Touches(of(p.branch), path)
  {
    assert w.files(head, p.branch).Some?;
  }

  /** If each batch member merges cleanly on the starting commit, the whole batch
      stacks without a conflict, and stacking it in any other order gives the
      same tree: the one Gate run judges a state no order could change. */
  lemma BatchStacksInAnyOrder(w: World, tree: Commit -> T.Tree, of: string -> T.Proposal,
                              head: Commit, ps: seq<Proposal>, batch: seq<nat>, serial: seq<nat>, order: seq<nat>)
    requires PathLevel(w, tree, of) && Greedy(w, head, ps, |ps|, batch, serial)
    requires forall i :: i in batch ==> w.merge(head, ps[i].branch).Some?
    requires Within(order, |ps|) && multiset(Branches(ps, order, of)) == multiset(Branches(ps, batch, of))
    ensures Stack(w, head, ps, batch, |batch|).Some? && Stack(w, head, ps, order, |order|).Some?
    ensures tree(Stack(w, head, ps, batch, |batch|).value) == tree(Stack(w, head, ps, order, |order|).value)
  {
    var a, b := Branches(ps, batch, of), Branches(ps, order, of);
    GreedyIsDisjoint(w, tree, of, head, ps, batch, serial);
    forall p | p in a ensures T.Clean(p, tree(head)) {
      var k :| 0 <= k < |a| && a[k] == p;
      assert batch[k] in batch;
    }
    T.AnyOrder(a, b, tree(head));
    StackIsMergeAll(w, tree, of, head, ps, batch, |batch|);
    StackIsMergeAll(w, tree, of, head, ps, order, |order|);
    assert a[..|batch|] == a && b[..|order|] == b;
  }

  /** When every state on the way would have passed the Gate too, one at a time
      lands the very commit the batch does. */
  lemma {:induction false} BatchLandsWhatSerialDoes(w: World, head: Commit, ps: seq<Proposal>, batch: seq<nat>,
                                                    outs: seq<Outcome>)
    requires |outs| == |ps| && Within(batch, |ps|) && Stack(w, head, ps, batch, |batch|).Some?
    requires forall k :: 0 < k <= |batch| ==> var c := Stack(w, head, ps, batch, k); c.Some? && w.gate(c.value).passed
    ensures Serially(w, head, ps, batch, outs).0 == Stack(w, head, ps, batch, |batch|).value
  {
    if batch != [] {
      var n := |batch|;
      assert Stack(w, head, ps, batch, n).Some?;
      var init := batch[..n - 1];
      forall k | 0 < k <= |init| ensures var c := Stack(w, head, ps, init, k); c.Some? && w.gate(c.value).passed {
        PrefixStack(w, head, ps, batch, n - 1, k);
      }
      PrefixStack(w, head, ps, batch, n - 1, n - 1);
      BatchLandsWhatSerialDoes(w, head, ps, init, outs);
    }
  }

  lemma {:induction false} PrefixStack(w: World, head: Commit, ps: seq<Proposal>, at: seq<nat>, n: nat, k: nat)
    requires Within(at, |ps|) && k <= n <= |at|
    ensures Stack(w, head, ps, at[..n], k) == Stack(w, head, ps, at, k)
  {
    if k > 0 { PrefixStack(w, head, ps, at, n, k - 1); }
  }
}
