/** Local mode: ticket worktrees are cut while the merge queue moves HEAD
    (markVerifiedBase and dispatchBase in internal/orchestrator/orchestrator.go). */
module LocalBase {
  import opened Events

  /** `Judging` holds the commit to go back to while candidates are on HEAD. */
  datatype Queue = Quiet | Judging(pre: Commit)

  /** `kept` are the adopted tip and every commit the Gate let stand on HEAD;
      `launched` counts dispatch goroutines that have not cut their worktree yet;
      `cuts` are the commits worktrees were cut from. */
  datatype Local = Local(head: Commit, queue: Queue, base: Option<Commit>, launched: nat, kept: set<Commit>,
                         cuts: seq<Commit>)

  datatype Step =
    | Launch(n: nat)        // record the base, then start a wave of n > 0 workers
    | Cut                   // one of them, at any moment, cuts its worktree
    | Merge(c: Commit)      // the queue puts a candidate on HEAD (a batch stacks several)
    | Keep                  // the Gate passed
    | RollBack              // it failed, or this was a dry run
    | Crash                 // the process dies, and another starts

  function Adopt(tip: Commit): Local {
    Local(tip, Quiet, None, 0, {tip}, [])
  }

  /** What a worktree is cut from. */
  function DispatchBase(s: Local): Commit {
    if s.base.Some? then s.base.value else s.head
  }

  function Next(s: Local, step: Step): Local {
    match step
    case Launch(n) =>
      if s.queue.Quiet? && n > 0 then s.(base := Some(s.head), launched := s.launched + n) else s
    case Cut =>
      if s.launched > 0 then s.(launched := s.launched - 1, cuts := s.cuts + [DispatchBase(s)]) else s
    case Merge(c) =>
      s.(head := c, queue := if s.queue.Quiet? then Judging(s.head) else s.queue)
    case Keep =>
      if s.queue.Judging? then s.(queue := Quiet, kept := s.kept + {s.head}) else s
    case RollBack =>
      if s.queue.Judging? then s.(queue := Quiet, head := s.queue.pre) else s
    case Crash => s.(queue := Quiet, base := None, launched := 0)
  }

  function Run(s: Local, steps: seq<Step>): Local {
    if steps == [] then s else Next(Run(s, steps[..|steps| - 1]), steps[|steps| - 1])
  }

  ghost predicate OnlyKept(s: Local) {
    forall c :: c in s.cuts ==> c in s.kept
  }

  ghost predicate Inv(s: Local) {
    && OnlyKept(s)
    && (s.base.Some? ==> s.base.value in s.kept)
    && (s.launched > 0 ==> s.base.Some?)
    && (if s.queue.Quiet? then s.head in s.kept else s.queue.pre in s.kept)
  }

  /** The crash leaves a commit on HEAD that the Gate never kept. */
  predicate LeavesCandidate(s: Local, step: Step) {
    step.Crash? && s.queue.Judging? && s.head !in s.kept
  }

  ghost predicate NoCandidateLeft(s: Local, steps: seq<Step>) {
    forall k :: 0 <= k < |steps| ==> !LeavesCandidate(Run(s, steps[..k]), steps[k])
  }

  lemma NextKeepsInv(s: Local, step: Step)
    requires Inv(s) && !LeavesCandidate(s, step)
    ensures Inv(Next(s, step))
  {
    match step {
      case Cut => assert forall c :: c in Next(s, step).cuts ==> c in s.cuts || c == DispatchBase(s);
      case _ =>
    }
  }

  lemma {:induction false} RunKeepsInv(s: Local, steps: seq<Step>)
    requires Inv(s) && NoCandidateLeft(s, steps)
    ensures Inv(Run(s, steps))
  {
    if steps != [] {
      var init := steps[..|steps| - 1];
      forall k | 0 <= k < |init| ensures !LeavesCandidate(Run(s, init[..k]), init[k]) {
        assert init[..k] == steps[..k];
      }
      RunKeepsInv(s, init);
      NextKeepsInv(Run(s, init), steps[|init|]);
    }
  }

  /** Every worktree is cut from a kept commit, however cuts, launches and Gate
      runs interleave, as long as no crash strands a candidate on HEAD. */
  lemma CutsAreKept(tip: Commit, steps: seq<Step>)
    requires NoCandidateLeft(Adopt(tip), steps)
    ensures OnlyKept(Run(Adopt(tip), steps))
  {
    RunKeepsInv(Adopt(tip), steps);
  }

  lemma {:induction false} RunAppends(s: Local, a: seq<Step>, b: seq<Step>)
    ensures Run(s, a + b) == Run(Run(s, a), b)
  {
    if b == [] {
      assert a + b == a;
    } else {
      RunAppends(s, a, b[..|b| - 1]);
      assert (a + b)[..|a + b| - 1] == a + b[..|b| - 1];
    }
  }

  /** That condition is exact. After any run that met it, a further crash is safe,
      whatever follows it, exactly when no unkept candidate is on HEAD. */
  lemma CrashIsSafeExactly(tip: Commit, steps: seq<Step>)
    requires NoCandidateLeft(Adopt(tip), steps)
    ensures var s := Run(Adopt(tip), steps);
            LeavesCandidate(s, Crash) <==>
            exists more :: NoCandidateLeft(Next(s, Crash), more) && !OnlyKept(Run(Next(s, Crash), more))
  {
    var s := Run(Adopt(tip), steps);
    RunKeepsInv(Adopt(tip), steps);
    var crashed := Next(s, Crash);
    if LeavesCandidate(s, Crash) {
      var more := [Launch(1), Cut];
      assert more[..1] == [Launch(1)] && more[..0] == [] && [Launch(1)][..0] == [];
      assert Run(crashed, more[..1]) == Next(crashed, Launch(1));
      var end := Run(crashed, more);
      assert end == Next(Next(crashed, Launch(1)), Cut);
      assert end.cuts == s.cuts + [s.head];
      assert s.head in end.cuts;
      assert NoCandidateLeft(crashed, more) && !OnlyKept(end);
    } else {
      assert Inv(crashed);
      forall more | NoCandidateLeft(crashed, more) ensures OnlyKept(Run(crashed, more)) {
        RunKeepsInv(crashed, more);
      }
    }
  }
}
