/** The Goal branches over a whole run, and what is delivered from them. */
module GoalBranches {
  import opened Events
  import opened Replay
  import opened TaskGraph
  import opened History
  import opened Scheduler
  import opened Safety
  import opened Runs
  import Checkers

  // --- Branches only grow ------------------------------------------------------------------------

  lemma {:induction false} UnderIsTransitive(a: Commit, b: Commit, c: Commit)
    requires Under(a, b) && Under(b, c)
    ensures Under(a, c)
  {
    if b != c { UnderIsTransitive(a, b, c.onto); }
  }

  /** Every branch is still there, grown from the base it had; a new one is at its base. */
  ghost predicate Grown(br: Branches, br': Branches) {
    && (forall g :: g in br.tips ==> g in br'.tips && Under(br.tips[g], br'.tips[g]))
    && (forall g :: g in br.bases ==> g in br'.bases && br'.bases[g] == br.bases[g])
  }

  lemma StaysGrown(br: Branches)
    ensures Grown(br, br)
  {
  }

  lemma JudgeGrows(cfg: Config, sys: Sys, ts: int, outcome: Outcome)
    ensures Grown(sys.br, JudgeHead(cfg, sys, ts, outcome).br)
  {
  }

  lemma AdvanceGrows(br: Branches, g: string, c: Commit, branch: string)
    requires g in br.tips && Onto(c, br.tips[g], branch)
    ensures Grown(br, Advance(br, g, c))
  {
  }

  lemma ProceedGrows(cfg: Config, sys: Sys, ts: int)
    requires Inv(cfg, sys)
    ensures Grown(sys.br, ProceedHead(cfg, sys, ts).br)
  {
    if AtHead(sys) {
      if sys.phase.stage.Landing? && cfg.opt.prMode {
        AdvanceGrows(sys.br, sys.phase.queue[0].origin.goalId, sys.phase.stage.commit,
                     sys.phase.queue[0].candidate.branch);
      } else {
        StaysGrown(sys.br);
      }
    }
  }

  lemma CutGrows(br: Branches, g: string, base: string)
    requires br.bases.Keys == br.tips.Keys
    ensures Grown(br, Cut(br, g, base))
  {
  }

  /** Steps that neither judge nor record leave every branch, and may cut one. */
  lemma OthersKeepTips(cfg: Config, sys: Sys, step: Step)
    requires !(step.Pass? && (step.move.Judges? || step.move.Proceeds?))
    ensures var br' := Next(cfg, sys, step).br;
            br' == sys.br || (cfg.opt.prMode && exists g, base :: br' == Cut(sys.br, g, base))
  {
  }

  lemma OthersGrow(cfg: Config, sys: Sys, step: Step)
    requires Inv(cfg, sys) && !(step.Pass? && (step.move.Judges? || step.move.Proceeds?))
    ensures Grown(sys.br, Next(cfg, sys, step).br)
  {
    OthersKeepTips(cfg, sys, step);
    if Next(cfg, sys, step).br != sys.br {
      var g, base :| Next(cfg, sys, step).br == Cut(sys.br, g, base);
      CutGrows(sys.br, g, base);
    } else {
      StaysGrown(sys.br);
    }
  }

  lemma NextGrows(cfg: Config, sys: Sys, step: Step)
    requires Inv(cfg, sys)
    ensures Grown(sys.br, Next(cfg, sys, step).br)
  {
    if step.Pass? {
      if step.move.Judges? {
        JudgeGrows(cfg, sys, step.ts, step.move.outcome);
      } else if step.move.Proceeds? {
        ProceedGrows(cfg, sys, step.ts);
      } else {
        OthersGrow(cfg, sys, step);
      }
    } else {
      OthersGrow(cfg, sys, step);
    }
  }

  /** No Goal branch ever loses a commit, nor changes the base it was cut from. */
  lemma {:induction false} BranchesOnlyGrow(cfg: Config, steps: seq<Step>, k: nat)
    returns (early: Branches, late: Branches)
    requires k <= |steps|
    ensures early == Run(cfg, steps[..k]).br && late == Run(cfg, steps).br && Grown(early, late)
  {
    late := Run(cfg, steps).br;
    if k == |steps| {
      assert steps[..k] == steps;
      early := late;
    } else {
      var init := steps[..|steps| - 1];
      assert init[..k] == steps[..k];
      var mid;
      early, mid := BranchesOnlyGrow(cfg, init, k);
      RunHolds(cfg, init);
      NextGrows(cfg, Run(cfg, init), steps[|steps| - 1]);
      GrownChain(early, mid, late);
    }
  }

  lemma GrownChain(a: Branches, b: Branches, c: Branches)
    requires Grown(a, b) && Grown(b, c)
    ensures Grown(a, c)
  {
    forall g | g in a.tips ensures Under(a.tips[g], c.tips[g]) { UnderIsTransitive(a.tips[g], b.tips[g], c.tips[g]); }
  }

  /** In pull-request mode a Goal's branch has grown from the base it was cut from, by
      merges alone, and is at a commit the Gate passed unless it is still at its base.
      It holds every commit ever logged as merged for the Goal, and the Gate passed
      each of those. */
  lemma BranchesAreSafe(cfg: Config, steps: seq<Step>)
    requires cfg.opt.prMode
    ensures var br := Run(cfg, steps).br;
            && (forall g :: g in br.tips ==> GrownFromBase(cfg, br, g))
            && forall p :: p in LandingsOf(Run(cfg, steps).log).all ==>
                 p.0 in br.tips && Under(p.1, br.tips[p.0]) && cfg.gate(p.1)
  {
    RunHolds(cfg, steps);
  }

  // --- Losing track of a branch ------------------------------------------------------------------

  /** An error of the merge queue's own refuses work of this Goal that is on its
      branch, and the branch's tip is not the Goal's latest merge. */
  predicate LosesBy(cfg: Config, sys: Sys, step: Step, g: string) {
    && step.Pass? && step.move.Judges? && step.move.outcome.Errs?
    && AtHead(sys) && sys.phase.stage == Waiting && sys.phase.queue[0].origin.goalId == g &&
        Loses(cfg, sys, sys.phase.queue[0])
  }

  /** A merge is recorded for this Goal. */
  predicate RecordsFor(sys: Sys, step: Step, g: string) {
    && step.Pass? && step.move.Proceeds?
    && AtHead(sys) && sys.phase.stage.Recorded? && sys.phase.queue[0].origin.goalId == g
  }

  lemma JudgeLoses(cfg: Config, sys: Sys, ts: int, outcome: Outcome, g: string)
    ensures g in JudgeHead(cfg, sys, ts, outcome).br.lost <==>
      (g in sys.br.lost || LosesBy(cfg, sys, Pass(ts, Judges(outcome)), g))
  {
  }

  lemma ProceedFinds(cfg: Config, sys: Sys, ts: int, g: string)
    ensures g in ProceedHead(cfg, sys, ts).br.lost <==> g in sys.br.lost && !RecordsFor(sys, Pass(ts, Proceeds), g)
  {
  }

  lemma NextLoses(cfg: Config, sys: Sys, step: Step, g: string)
    ensures g in Next(cfg, sys, step).br.lost <==>
            LosesBy(cfg, sys, step, g) || (g in sys.br.lost && !RecordsFor(sys, step, g))
  {
    if step.Pass? && step.move.Judges? {
      assert Next(cfg, sys, step) == JudgeHead(cfg, sys, step.ts, step.move.outcome);
      JudgeLoses(cfg, sys, step.ts, step.move.outcome, g);
    } else if step.Pass? && step.move.Proceeds? {
      assert Next(cfg, sys, step) == ProceedHead(cfg, sys, step.ts);
      ProceedFinds(cfg, sys, step.ts, g);
    } else {
      OthersKeepTips(cfg, sys, step);
    }
  }

  ghost predicate LosesAt(cfg: Config, steps: seq<Step>, k: nat, g: string)
    requires k < |steps|
  {
    LosesBy(cfg, Run(cfg, steps[..k]), steps[k], g)
  }

  ghost predicate RecordsAt(cfg: Config, steps: seq<Step>, k: nat, g: string)
    requires k < |steps|
  {
    RecordsFor(Run(cfg, steps[..k]), steps[k], g)
  }

  lemma InPrefix(cfg: Config, steps: seq<Step>, n: nat, k: nat, g: string)
    requires k < n <= |steps|
    ensures LosesAt(cfg, steps[..n], k, g) == LosesAt(cfg, steps, k, g)
    ensures RecordsAt(cfg, steps[..n], k, g) == RecordsAt(cfg, steps, k, g)
  {
    assert steps[..n][..k] == steps[..k];
  }

  /** No merge was recorded for the Goal after step k. */
  ghost predicate NoneSince(cfg: Config, steps: seq<Step>, k: nat, g: string) {
    forall j: nat :: k < j < |steps| ==> !RecordsAt(cfg, steps, j, g)
  }

  /** Step k made the Goal lose track of its branch, and nothing was merged for it since. */
  ghost predicate LostSince(cfg: Config, steps: seq<Step>, k: nat, g: string)
    requires k < |steps|
  {
    LosesAt(cfg, steps, k, g) && NoneSince(cfg, steps, k, g)
  }

  ghost predicate WasLost(cfg: Config, steps: seq<Step>, g: string) {
    exists k: nat :: k < |steps| && LostSince(cfg, steps, k, g)
  }

  lemma EarlierLost(cfg: Config, steps: seq<Step>, k: nat, g: string)
    requires k < |steps| - 1
    ensures LostSince(cfg, steps, k, g) <==>
            LostSince(cfg, steps[..|steps| - 1], k, g) && !RecordsAt(cfg, steps, |steps| - 1, g)
  {
    InPrefix(cfg, steps, |steps| - 1, k, g);
    NoneSinceBefore(cfg, steps, k, g);
  }

  lemma NoneSinceBefore(cfg: Config, steps: seq<Step>, k: nat, g: string)
    requires k < |steps| - 1
    ensures NoneSince(cfg, steps, k, g) <==>
      (NoneSince(cfg, steps[..|steps| - 1], k, g) && !RecordsAt(cfg, steps, |steps| - 1, g))
  {
    if NoneSince(cfg, steps, k, g) { NoneSinceShorter(cfg, steps, k, g); }
    if NoneSince(cfg, steps[..|steps| - 1], k, g) && !RecordsAt(cfg, steps, |steps| - 1, g) {
      NoneSinceLonger(cfg, steps, k, g);
    }
  }

  lemma NoneSinceShorter(cfg: Config, steps: seq<Step>, k: nat, g: string)
    requires k < |steps| - 1 && NoneSince(cfg, steps, k, g)
    ensures NoneSince(cfg, steps[..|steps| - 1], k, g)
  {
    var n := |steps| - 1;
    var before := steps[..n];
    forall j: nat | k < j < n ensures !RecordsAt(cfg, before, j, g) {
      InPrefix(cfg, steps, n, j, g);
    }
  }

  lemma NoneSinceLonger(cfg: Config, steps: seq<Step>, k: nat, g: string)
    requires k < |steps| - 1 && NoneSince(cfg, steps[..|steps| - 1], k, g) && !RecordsAt(cfg, steps, |steps| - 1, g)
    ensures NoneSince(cfg, steps, k, g)
  {
    forall j: nat | k < j < |steps| ensures !RecordsAt(cfg, steps, j, g) {
      if j < |steps| - 1 { InPrefix(cfg, steps, |steps| - 1, j, g); }
    }
  }

  lemma LostOneMore(cfg: Config, steps: seq<Step>, g: string)
    requires steps != []
    ensures var n := |steps| - 1;
            WasLost(cfg, steps, g) <==>
            LosesAt(cfg, steps, n, g) || (WasLost(cfg, steps[..n], g) && !RecordsAt(cfg, steps, n, g))
  {
    var n := |steps| - 1;
    if LosesAt(cfg, steps, n, g) {
      assert LostSince(cfg, steps, n, g);
    } else if WasLost(cfg, steps, g) {
      var k: nat :| k < |steps| && LostSince(cfg, steps, k, g);
      EarlierLost(cfg, steps, k, g);
    } else if WasLost(cfg, steps[..n], g) {
      var k: nat :| k < n && LostSince(cfg, steps[..n], k, g);
      EarlierLost(cfg, steps, k, g);
    }
  }

  /** What having lost track means, in terms of the run alone. */
  lemma {:induction false} LostExactly(cfg: Config, steps: seq<Step>, g: string)
    ensures g in Run(cfg, steps).br.lost <==> WasLost(cfg, steps, g)
  {
    if steps != [] {
      var n := |steps| - 1;
      LostExactly(cfg, steps[..n], g);
      NextLoses(cfg, Run(cfg, steps[..n]), steps[n], g);
      LostOneMore(cfg, steps, g);
    }
  }

  // --- Deliveries --------------------------------------------------------------------------------

  /** A delivery is its Goal's first and comes once every task is complete. It is of
      the commit of the last merge recorded for the Goal exactly if the Goal had not
      lost track of its branch. */
  lemma DeliveriesAreExact(cfg: Config, steps: seq<Step>, m: nat) returns (k: nat)
    requires m < |Run(cfg, steps).log| && Run(cfg, steps).log[m].body.Delivered?
    ensures k < |steps| && Run(cfg, steps[..k]).log == Run(cfg, steps).log[..m]
    ensures var log, g := Run(cfg, steps).log, Run(cfg, steps).log[m].body.goalId;
            && (forall i: nat :: i < m ==> !Delivers(log[i], g)) && GoalComplete(Fold(log[..m]), g)
            && (DeliversLatest(log, m) <==> !WasLost(cfg, steps[..k], g))
  {
    var log, g := Run(cfg, steps).log, Run(cfg, steps).log[m].body.goalId;
    var before, after;
    k, before, after := WrittenBy(cfg, steps, m);
    RunHolds(cfg, steps);
    RunHolds(cfg, steps[..k]);
    assert LawfulAt(log, m);
    DeliveredOnceMeans(log, m);
    DeliversLatestMeans(log, m);
    LostExactly(cfg, steps[..k], g);
  }

  lemma DeliversWellMeans(log: seq<Event>, m: nat)
    requires m < |log| && log[m].body.Delivered? && LawfulAt(log, m) && log[m].body.goalId in LandingsOf(log[..m]).last
    ensures Checkers.DeliversWell(log, m) <==> DeliversLatest(log, m)
  {
    DeliversLatestMeans(log, m);
  }

  /** No error of the merge queue's own ever hits work that is on its branch but not
      recorded. */
  ghost predicate NeverLoses(cfg: Config, steps: seq<Step>) {
    forall k: nat, g :: k < |steps| ==> !LosesAt(cfg, steps, k, g)
  }

  lemma NeverLost(cfg: Config, steps: seq<Step>, k: nat, g: string)
    requires NeverLoses(cfg, steps) && k <= |steps|
    ensures !WasLost(cfg, steps[..k], g)
  {
    forall j: nat | j < k ensures !LostSince(cfg, steps[..k], j, g) { InPrefix(cfg, steps, k, j, g); }
  }

  /** Then the delivery checker finds nothing either. */
  lemma DeliveriesFindNothing(cfg: Config, steps: seq<Step>, m: nat)
    requires NeverLoses(cfg, steps) && m < |Run(cfg, steps).log|
    ensures Checkers.DeliversWell(Run(cfg, steps).log, m)
  {
    var log := Run(cfg, steps).log;
    if log[m].body.Delivered? {
      var k := DeliveriesAreExact(cfg, steps, m);
      NeverLost(cfg, steps, k, log[m].body.goalId);
      var j, before, after := WrittenBy(cfg, steps, m);
      RunHolds(cfg, steps);
      RunHolds(cfg, steps[..j]);
      assert LawfulAt(log, m);
      DeliversWellMeans(log, m);
    }
  }
}
