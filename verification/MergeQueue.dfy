/** The merge queue (internal/mergequeue/mergequeue.go): merge, verify, keep or
    roll back, one proposal at a time or a file-disjoint batch at once. */
module MergeQueue {
  import opened Events

  datatype Proposal = Proposal(ticketId: string, worker: string, branch: string)

  /** A Gate run: `failed` names the command that failed, "" when none did. */
  datatype GateResult = GateResult(passed: bool, failed: string, output: string, infra: bool)

  datatype Outcome = Outcome(
    ticketId: string, worker: string, merged: bool, verified: bool, mergeCommit: Commit,
    reason: string, output: string, tree: string, regressionEscaped: bool, shadowReason: string)

  /** What git and the Gate answer, as functions of the commits they are asked about. */
  datatype World = World(
    readable: Commit -> bool,                     // rev-parse HEAD succeeds
    merge: (Commit, string) -> Option<Commit>,    // git merge of a branch onto a commit
    files: (Commit, string) -> Option<seq<string>>,
    tree: Commit -> Option<string>,
    resets: (Commit, Commit) -> bool,             // reset --hard from one commit to another succeeds
    gate: Commit -> GateResult,
    shadow: Option<Commit -> GateResult>)

  function Blank(p: Proposal): Outcome {
    Outcome(p.ticketId, p.worker, false, false, NoCommit, "", "", "", false, "")
  }

  function FailureReason(res: GateResult): string {
    if res.infra then "gate could not run (sandbox failure): " + res.failed else "verification failed: " + res.failed
  }

  /** The commit a proposal lands as: its merge onto `head`, if it merges and the
      Gate passes the result. */
  function Lands(w: World, head: Commit, p: Proposal): Option<Commit> {
    match w.merge(head, p.branch)
    case None => None
    case Some(c) => if w.gate(c).passed then Some(c) else None
  }

  predicate Escapes(w: World, c: Commit) {
    w.shadow.Some? && !(w.shadow.value)(c).passed
  }

  /** The verdict on a proposal judged on top of `head`. */
  function Judge(w: World, head: Commit, p: Proposal): Outcome {
    match w.merge(head, p.branch)
    case None => Blank(p).(reason := "merge failed")
    case Some(c) =>
      var judged := Blank(p).(tree := w.tree(c).GetOr(""), output := w.gate(c).output);
      if !w.gate(c).passed then judged.(reason := FailureReason(w.gate(c)))
      else judged.(verified := true, merged := true, mergeCommit := c, regressionEscaped := Escapes(w, c),
                   shadowReason := if Escapes(w, c) then (w.shadow.value)(c).failed else "")
  }

  /** The repository the queue writes: where HEAD is, and whether a failed merge
      left conflict markers on disk. */
  class Repo {
    const w: World
    var head: Commit
    var dirty: bool

    constructor (w: World, head: Commit)
      ensures this.w == w && this.head == head && !dirty
    {
      this.w, this.head, this.dirty := w, head, false;
    }

    method Merge(branch: string) returns (c: Option<Commit>)
      requires !dirty
      modifies this
      ensures c == w.merge(old(head), branch)
      ensures if c.Some? then head == c.value && !dirty else head == old(head) && dirty
    {
      c := w.merge(head, branch);
      if c.Some? { head := c.value; } else { dirty := true; }
    }

    method ResetHard(to: Commit) returns (ok: bool)
      modifies this
      ensures ok == w.resets(old(head), to)
      ensures if ok then head == to && !dirty else head == old(head) && dirty == old(dirty)
    {
      ok := w.resets(head, to);
      if ok { head, dirty := to, false; }
    }
  }

  // --- One at a time -----------------------------------------------------------------------------

  /** No error of the queue's own: HEAD and the merged tree can be read, and any
      rollback the verdict calls for succeeds. */
  predicate Works(w: World, head: Commit, p: Proposal) {
    && w.readable(head)
    && match w.merge(head, p.branch)
       case None => w.resets(head, head)
       case Some(c) => w.tree(c).Some? && (w.gate(c).passed || w.resets(c, head))
  }

  function After(w: World, head: Commit, p: Proposal): Commit {
    Lands(w, head, p).GetOr(head)
  }

  /** Merge, verify, then keep the merge or roll it back. */
  method Process(repo: Repo, p: Proposal) returns (out: Outcome, ok: bool)
    requires !repo.dirty
    modifies repo
    ensures ok == Works(repo.w, old(repo.head), p)
    ensures ok ==> out == Judge(repo.w, old(repo.head), p)
    ensures ok ==> repo.head == After(repo.w, old(repo.head), p) && !repo.dirty
  {
    out := Blank(p);
    if !repo.w.readable(repo.head) { return out, false; }
    var pre := repo.head;
    var c := repo.Merge(p.branch);
    if c.None? {
      ok := repo.ResetHard(pre);
      if ok { out := out.(reason := "merge failed"); }
      return;
    }
    var tree := repo.w.tree(repo.head);
    if tree.None? {
      var restored := repo.ResetHard(pre);
      return out, false;
    }
    out := out.(tree := tree.value);
    var res := repo.w.gate(repo.head);
    out := out.(output := res.output);
    if !res.passed {
      ok := repo.ResetHard(pre);
      if ok { out := out.(reason := FailureReason(res)); }
      return;
    }
    out := out.(verified := true, merged := true, mergeCommit := c.value);
    if repo.w.shadow.Some? {
      var sres := (repo.w.shadow.value)(repo.head);
      if !sres.passed { out := out.(regressionEscaped := true, shadowReason := sres.failed); }
    }
    return out, true;
  }

  /** What a dry run reports: the verdict, without anything having landed. */
  function Preview(w: World, head: Commit, p: Proposal): Outcome {
    match w.merge(head, p.branch)
    case None => Blank(p).(reason := "merge failed")
    case Some(c) =>
      var judged := Blank(p).(tree := w.tree(c).GetOr(""), output := w.gate(c).output);
      if w.gate(c).passed then judged.(verified := true, mergeCommit := c, reason := "dry-run verified")
      else judged.(reason := FailureReason(w.gate(c)))
  }

  /** Merge, verify, and always roll back: HEAD never moves. */
  method DryRun(repo: Repo, p: Proposal) returns (out: Outcome, ok: bool)
    requires !repo.dirty
    modifies repo
    ensures ok ==> out == Preview(repo.w, old(repo.head), p)
    ensures ok ==> repo.head == old(repo.head) && !repo.dirty
    ensures ok ==> (out.verified <==> Lands(repo.w, old(repo.head), p).Some?) && !out.merged
  {
    out := Blank(p);
    if !repo.w.readable(repo.head) { return out, false; }
    var pre := repo.head;
    var c := repo.Merge(p.branch);
    if c.None? {
      ok := repo.ResetHard(pre);
      if ok { out := out.(reason := "merge failed"); }
      return;
    }
    var tree := repo.w.tree(repo.head);
    if tree.None? {
      var restored := repo.ResetHard(pre);
      return out, false;
    }
    var res := repo.w.gate(repo.head);
    out := out.(tree := tree.value, output := res.output);
    ok := repo.ResetHard(pre);
    if !ok { return; }
    out := if res.passed then out.(verified := true, mergeCommit := c.value, reason := "dry-run verified")
           else out.(reason := FailureReason(res));
  }

  ghost predicate Within(at: seq<nat>, n: nat) {
    forall k :: 0 <= k < |at| ==> at[k] < n
  }

  /** Judging the proposals at `at`, in that order, each on what the ones before
      it left: the final HEAD and the outcomes, filled in by index. */
  ghost function Serially(w: World, head: Commit, ps: seq<Proposal>, at: seq<nat>,
                          outs: seq<Outcome>): (r: (Commit, seq<Outcome>))
    requires |outs| == |ps| && Within(at, |ps|)
    ensures |r.1| == |ps|
  {
    if at == [] then (head, outs) else
    var (h, os) := Serially(w, head, ps, at[..|at| - 1], outs);
    var i := at[|at| - 1];
    (After(w, h, ps[i]), os[i := Judge(w, h, ps[i])])
  }

  method ProcessEach(repo: Repo, ps: seq<Proposal>, at: seq<nat>, outs: seq<Outcome>)
    returns (done: seq<Outcome>, ok: bool)
    requires !repo.dirty && |outs| == |ps| && Within(at, |ps|)
    modifies repo
    ensures |done| == |ps|
    ensures ok ==> (repo.head, done) == Serially(repo.w, old(repo.head), ps, at, outs) && !repo.dirty
  {
    done := outs;
    for k := 0 to |at|
      invariant !repo.dirty && |done| == |ps|
      invariant (repo.head, done) == Serially(repo.w, old(repo.head), ps, at[..k], outs)
    {
      assert at[..k + 1][..k] == at[..k];
      var out, fine := Process(repo, ps[at[k]]);
      if !fine { return done, false; }
      done := done[at[k] := out];
    }
    assert at[..|at|] == at;
    return done, true;
  }

  /** HEAD is where it was, or at a commit the Gate passed. */
  ghost predicate Kept(w: World, from: Commit, head: Commit) {
    head == from || w.gate(head).passed
  }

  lemma {:induction false} SeriallyKeeps(w: World, head: Commit, ps: seq<Proposal>, at: seq<nat>, outs: seq<Outcome>)
    requires |outs| == |ps| && Within(at, |ps|)
    ensures Kept(w, head, Serially(w, head, ps, at, outs).0)
  {
    if at != [] { SeriallyKeeps(w, head, ps, at[..|at| - 1], outs); }
  }

  lemma {:induction false} SeriallyAppends(w: World, head: Commit, ps: seq<Proposal>, a: seq<nat>, b: seq<nat>,
                                           outs: seq<Outcome>)
    requires |outs| == |ps| && Within(a, |ps|) && Within(b, |ps|)
    ensures Within(a + b, |ps|)
    ensures var (h, os) := Serially(w, head, ps, a, outs);
            Serially(w, head, ps, a + b, outs) == Serially(w, h, ps, b, os)
  {
    if b == [] {
      assert a + b == a;
    } else {
      var init := b[..|b| - 1];
      SeriallyAppends(w, head, ps, a, init, outs);
      assert (a + b)[..|a + b| - 1] == a + init;
    }
  }

  /** The outcome of every proposal judged is its own, whatever stood in its place. */
  lemma {:induction false} SeriallyOverwrites(w: World, head: Commit, ps: seq<Proposal>, at: seq<nat>,
                                              outs: seq<Outcome>, outs': seq<Outcome>)
    requires |outs| == |outs'| == |ps| && Within(at, |ps|)
    ensures var (h, os) := Serially(w, head, ps, at, outs);
            var (h', os') := Serially(w, head, ps, at, outs');
            h == h' && forall i :: 0 <= i < |ps| && (i in at || outs[i] == outs'[i]) ==> os[i] == os'[i]
    ensures forall i :: 0 <= i < |ps| ==>
              var out := Serially(w, head, ps, at, outs).1[i];
              if i in at then out.ticketId == ps[i].ticketId && out.worker == ps[i].worker else out == outs[i]
  {
    if at != [] { SeriallyOverwrites(w, head, ps, at[..|at| - 1], outs, outs'); }
  }

  // --- Batches -----------------------------------------------------------------------------------

  predicate Overlaps(files: seq<string>, used: set<string>) {
    exists f :: f in files && f in used
  }

  ghost predicate Ascending(s: seq<nat>) {
    forall a, b :: 0 <= a < b < |s| ==> s[a] < s[b]
  }

  function FilesOf(w: World, head: Commit, p: Proposal): set<string> {
    set f | f in w.files(head, p.branch).GetOr([])
  }

  ghost predicate BatchFits(w: World, head: Commit, ps: seq<Proposal>, batch: seq<nat>, i: nat)
    requires Within(batch, |ps|) && i < |ps|
  {
    && FilesOf(w, head, ps[i]) != {}
    && forall j :: j in batch && j < i ==> FilesOf(w, head, ps[i]) !! FilesOf(w, head, ps[j])
  }

  /** The greedy choice among the first n proposals: one is in the batch exactly
      when its files are known, not empty, and disjoint from every batch member
      before it. The others are serial. */
  ghost predicate Greedy(w: World, head: Commit, ps: seq<Proposal>, n: nat, batch: seq<nat>, serial: seq<nat>)
    requires n <= |ps|
  {
    && Within(batch, n) && Within(serial, n)
    && Ascending(batch) && Ascending(serial)
    && forall i: nat :: i < n ==>
       && (i in batch <==> i !in serial)
       && (i in batch <==> BatchFits(w, head, ps, batch, i))
  }

  method Select(repo: Repo, ps: seq<Proposal>) returns (batch: seq<nat>, serial: seq<nat>)
    ensures Greedy(repo.w, repo.head, ps, |ps|, batch, serial)
  {
    var used: set<string> := {};
    batch, serial := [], [];
    for i := 0 to |ps|
      invariant Greedy(repo.w, repo.head, ps, i, batch, serial)
      invariant forall f :: f in used <==> exists j :: j in batch && f in FilesOf(repo.w, repo.head, ps[j])
    {
      var files := repo.w.files(repo.head, ps[i].branch);
      if files.None? || |files.value| == 0 || Overlaps(files.value, used) {
        serial := serial + [i];
      } else {
        assert files.value[0] in FilesOf(repo.w, repo.head, ps[i]);
        used := used + set f | f in files.value;
        batch := batch + [i];
      }
    }
  }

  /** Merging the first k proposals at `at` one on another, with no Gate in between. */
  ghost function Stack(w: World, head: Commit, ps: seq<Proposal>, at: seq<nat>, k: nat): Option<Commit>
    requires Within(at, |ps|) && k <= |at|
  {
    if k == 0 then Some(head) else
    match Stack(w, head, ps, at, k - 1)
    case None => None
    case Some(h) => w.merge(h, ps[at[k - 1]].branch)
  }

  /** The one Gate run over the union passed. */
  ghost predicate Green(w: World, head: Commit, ps: seq<Proposal>, batch: seq<nat>)
    requires Within(batch, |ps|)
  {
    var union := Stack(w, head, ps, batch, |batch|);
    union.Some? && w.tree(union.value).Some? && w.gate(union.value).passed
  }

  ghost predicate GreenAt(w: World, head: Commit, ps: seq<Proposal>, batch: seq<nat>, k: nat, union: Commit,
                          out: Outcome)
    requires Within(batch, |ps|) && k < |batch|
  {
    && Stack(w, head, ps, batch, k + 1).Some?
    && out == Blank(ps[batch[k]]).(
        merged := true, verified := true, mergeCommit := Stack(w, head, ps, batch, k + 1).value,
        output := w.gate(union).output, tree := w.tree(union).GetOr(""))
  }

  /** In a green batch every member is merged, at its own merge commit, and
      records the union the Gate ran against. */
  ghost predicate Together(w: World, head: Commit, ps: seq<Proposal>, batch: seq<nat>, outs: seq<Outcome>)
    requires Within(batch, |ps|) && Green(w, head, ps, batch) && |outs| == |ps|
  {
    var union := Stack(w, head, ps, batch, |batch|).value;
    forall k :: 0 <= k < |batch| ==> GreenAt(w, head, ps, batch, k, union, outs[batch[k]])
  }

  const ZERO := Outcome("", "", false, false, NoCommit, "", "", "", false, "")

  function Zeros(n: nat): (outs: seq<Outcome>)
    ensures |outs| == n
  {
    seq(n, i => ZERO)
  }

  /** The first `k` batch members' merge commits, none of them judged yet. */
  ghost predicate Staged(w: World, head: Commit, ps: seq<Proposal>, batch: seq<nat>, k: nat, outs: seq<Outcome>)
    requires Within(batch, |ps|) && |outs| == |ps| && k <= |batch|
  {
    && (forall i :: 0 <= i < |ps| && i !in batch ==> outs[i] == ZERO)
    && forall j :: 0 <= j < k ==> StagedAt(w, head, ps, batch, j, outs[batch[j]])
  }

  ghost predicate StagedAt(w: World, head: Commit, ps: seq<Proposal>, batch: seq<nat>, j: nat, out: Outcome)
    requires Within(batch, |ps|) && j < |batch|
  {
    && Stack(w, head, ps, batch, j + 1).Some?
    && out == Blank(ps[batch[j]]).(mergeCommit := Stack(w, head, ps, batch, j + 1).value)
  }

  lemma StageOne(w: World, head: Commit, ps: seq<Proposal>, batch: seq<nat>, k: nat, outs: seq<Outcome>, out: Outcome)
    requires Within(batch, |ps|) && Ascending(batch) && |outs| == |ps| && k < |batch|
    requires Staged(w, head, ps, batch, k, outs) && StagedAt(w, head, ps, batch, k, out)
    ensures Staged(w, head, ps, batch, k + 1, outs[batch[k] := out])
  {
    forall j | 0 <= j < k + 1 ensures StagedAt(w, head, ps, batch, j, outs[batch[k] := out][batch[j]]) {
      if j < k { assert batch[j] < batch[k]; }
    }
  }

  /** Merges the batch, cheaply: no Gate runs in between. */
  method StackUp(repo: Repo, ps: seq<Proposal>, batch: seq<nat>) returns (outs: seq<Outcome>, merged: bool)
    requires !repo.dirty && Within(batch, |ps|) && Ascending(batch)
    modifies repo
    ensures |outs| == |ps| && merged == Stack(repo.w, old(repo.head), ps, batch, |batch|).Some?
    ensures forall i :: 0 <= i < |ps| && i !in batch ==> outs[i] == ZERO
    ensures merged ==> !repo.dirty && Stack(repo.w, old(repo.head), ps, batch, |batch|) == Some(repo.head)
    ensures merged ==> Staged(repo.w, old(repo.head), ps, batch, |batch|, outs)
  {
    outs := Zeros(|ps|);
    for k := 0 to |batch|
      invariant |outs| == |ps| && !repo.dirty
      invariant Stack(repo.w, old(repo.head), ps, batch, k) == Some(repo.head)
      invariant Staged(repo.w, old(repo.head), ps, batch, k, outs)
    {
      var i := batch[k];
      var sha := repo.Merge(ps[i].branch);
      if sha.None? {
        StackStops(repo.w, old(repo.head), ps, batch, k + 1);
        return outs, false;
      }
      StageOne(repo.w, old(repo.head), ps, batch, k, outs, Blank(ps[i]).(mergeCommit := sha.value));
      outs := outs[i := Blank(ps[i]).(mergeCommit := sha.value)];
    }
    return outs, true;
  }

  /** Records the union's verdict on every member of a green batch. */
  method Record(batch: seq<nat>, staged: seq<Outcome>, output: string, tree: string) returns (outs: seq<Outcome>)
    requires Within(batch, |staged|) && Ascending(batch)
    ensures |outs| == |staged|
    ensures forall i :: 0 <= i < |outs| && i !in batch ==> outs[i] == staged[i]
    ensures forall i :: 0 <= i < |outs| && i in batch ==>
              outs[i] == staged[i].(merged := true, verified := true, output := output, tree := tree)
  {
    outs := staged;
    for k := 0 to |batch|
      invariant |outs| == |staged|
      invariant forall i :: 0 <= i < |outs| && i !in batch[..k] ==> outs[i] == staged[i]
      invariant forall i :: 0 <= i < |outs| && i in batch[..k] ==>
                  outs[i] == staged[i].(merged := true, verified := true, output := output, tree := tree)
    {
      var i := batch[k];
      assert i !in batch[..k];
      assert batch[..k + 1] == batch[..k] + [i];
      outs := outs[i := outs[i].(merged := true, verified := true, output := output, tree := tree)];
    }
    assert batch[..|batch|] == batch;
  }

  /** Merges the batch and runs the Gate once over the union. */
  method TryBatch(repo: Repo, ps: seq<Proposal>, batch: seq<nat>) returns (outs: seq<Outcome>, green: bool)
    requires !repo.dirty && Within(batch, |ps|) && Ascending(batch)
    modifies repo
    ensures |outs| == |ps| && green == Green(repo.w, old(repo.head), ps, batch)
    ensures green ==> !repo.dirty && Stack(repo.w, old(repo.head), ps, batch, |batch|) == Some(repo.head)
    ensures green ==> Together(repo.w, old(repo.head), ps, batch, outs)
    ensures forall i :: 0 <= i < |ps| && i !in batch ==> outs[i] == ZERO
  {
    var merged: bool;
    outs, merged := StackUp(repo, ps, batch);
    var tree := repo.w.tree(repo.head);
    if !merged || tree.None? { return outs, false; }
    var res := repo.w.gate(repo.head);
    if !res.passed { return outs, false; }
    ghost var staged := outs;
    outs := Record(batch, outs, res.output, tree.value);
    forall k | 0 <= k < |batch| ensures GreenAt(repo.w, old(repo.head), ps, batch, k, repo.head, outs[batch[k]]) {
      assert StagedAt(repo.w, old(repo.head), ps, batch, k, staged[batch[k]]);
    }
    return outs, true;
  }

  lemma {:induction false} StackStops(w: World, head: Commit, ps: seq<Proposal>, at: seq<nat>, k: nat)
    requires Within(at, |ps|) && k <= |at| && Stack(w, head, ps, at, k).None?
    ensures Stack(w, head, ps, at, |at|).None?
    decreases |at| - k
  {
    if k < |at| { StackStops(w, head, ps, at, k + 1); }
  }

  ghost function UpTo(n: nat): (s: seq<nat>)
    ensures |s| == n && Within(s, n) && forall i :: 0 <= i < n ==> s[i] == i
  {
    seq(n, i requires 0 <= i < n => i)
  }

  /** What a batch run comes to, given its batch and its serial rest:
      - fewer than two batch members: every proposal one at a time, in order;
      - a green batch: its members together, then the rest one at a time;
      - otherwise: exactly the batch members then the rest, one at a time. */
  ghost predicate BatchOutcome(w: World, head: Commit, ps: seq<Proposal>, batch: seq<nat>, serial: seq<nat>,
                               head': Commit, outs: seq<Outcome>)
    requires Within(batch, |ps|) && Within(serial, |ps|)
  {
    if |batch| < 2 then (head', outs) == Serially(w, head, ps, UpTo(|ps|), Zeros(|ps|))
    else if !Green(w, head, ps, batch) then
      Within(batch + serial, |ps|) && (head', outs) == Serially(w, head, ps, batch + serial, Zeros(|ps|))
    else
      exists staged :: |staged| == |ps| && Together(w, head, ps, batch, staged) &&
        (head', outs) == Serially(w, Stack(w, head, ps, batch, |batch|).value, ps, serial, staged)
  }

  ghost predicate Aligned(ps: seq<Proposal>, outs: seq<Outcome>) {
    |outs| == |ps| &&
    forall i :: 0 <= i < |ps| ==> outs[i].ticketId == ps[i].ticketId && outs[i].worker == ps[i].worker
  }

  lemma SeriallyIsSafe(w: World, head: Commit, ps: seq<Proposal>, at: seq<nat>, outs: seq<Outcome>)
    requires |outs| == |ps| && Within(at, |ps|)
    requires forall i: nat :: i < |ps| && i !in at ==>
      (outs[i].ticketId == ps[i].ticketId && outs[i].worker == ps[i].worker)
    ensures Kept(w, head, Serially(w, head, ps, at, outs).0) && Aligned(ps, Serially(w, head, ps, at, outs).1)
  {
    SeriallyKeeps(w, head, ps, at, outs);
    SeriallyOverwrites(w, head, ps, at, outs, outs);
  }

  /** Whichever way it went, outcomes line up with the proposals, and HEAD is the
      commit it started from or one the Gate passed. */
  lemma BatchIsSafe(w: World, head: Commit, ps: seq<Proposal>, batch: seq<nat>, serial: seq<nat>, head': Commit,
                    outs: seq<Outcome>)
    requires Greedy(w, head, ps, |ps|, batch, serial)
    requires BatchOutcome(w, head, ps, batch, serial, head', outs)
    ensures Aligned(ps, outs) && Kept(w, head, head')
  {
    var zeros := Zeros(|ps|);
    if |batch| < 2 {
      forall i: nat | i < |ps| ensures i in UpTo(|ps|) { assert UpTo(|ps|)[i] == i; }
      SeriallyIsSafe(w, head, ps, UpTo(|ps|), zeros);
    } else if !Green(w, head, ps, batch) {
      SeriallyIsSafe(w, head, ps, batch + serial, zeros);
    } else {
      var staged :| |staged| == |ps| && Together(w, head, ps, batch, staged) &&
        (head', outs) == Serially(w, Stack(w, head, ps, batch, |batch|).value, ps, serial, staged);
      SeriallyIsSafe(w, Stack(w, head, ps, batch, |batch|).value, ps, serial, staged);
    }
  }

  method ProcessBatch(repo: Repo, ps: seq<Proposal>)
    returns (outs: seq<Outcome>, ok: bool, ghost batch: seq<nat>, ghost serial: seq<nat>)
    requires !repo.dirty
    modifies repo
    ensures Greedy(repo.w, old(repo.head), ps, |ps|, batch, serial)
    ensures ok ==> BatchOutcome(repo.w, old(repo.head), ps, batch, serial, repo.head, outs) && !repo.dirty
    ensures ok ==> Aligned(ps, outs) && Kept(repo.w, old(repo.head), repo.head)
  {
    var b, s := Select(repo, ps);
    batch, serial := b, s;
    var pre := repo.head;
    if |b| < 2 {
      var all := seq(|ps|, i requires 0 <= i < |ps| => i);
      assert all == UpTo(|ps|);
      outs, ok := ProcessEach(repo, ps, all, Zeros(|ps|));
      if ok { BatchIsSafe(repo.w, pre, ps, batch, serial, repo.head, outs); }
      return;
    }
    if !repo.w.readable(repo.head) { return Zeros(|ps|), false, batch, serial; }
    var green: bool;
    outs, green := TryBatch(repo, ps, b);
    ghost var staged := outs;
    if !green {
      ok := repo.ResetHard(pre);
      if !ok { return; }
      outs, ok := ProcessEach(repo, ps, b, outs);
      if !ok { return; }
    }
    outs, ok := ProcessEach(repo, ps, s, outs);
    if ok {
      if !green {
        SeriallyAppends(repo.w, pre, ps, b, s, staged);
        SeriallyOverwrites(repo.w, pre, ps, b + s, staged, Zeros(|ps|));
        assert outs == Serially(repo.w, pre, ps, b + s, Zeros(|ps|)).1;
      }
      BatchIsSafe(repo.w, pre, ps, batch, serial, repo.head, outs);
    }
  }
}
