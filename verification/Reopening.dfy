/** A dispatch reads what is ready, and later claims it. On the machine that keeps those
    reads apart, a claim can reopen a ticket that has ended since; and when it cannot. */
module Reopening {
  import opened Events
  import opened Spending
  import opened Replay
  import opened Budget
  import opened History

  /** Waiting for an attempt, with none in progress. */
  predicate Waits(s: State, id: string) {
    && id in s.tickets && s.tickets[id].activeWorkers == []
    && (s.tickets[id].status == Ready || s.tickets[id].status == Claimed || s.tickets[id].status == Running)
  }

  // --- When no claim reopens anything ------------------------------------------------------------

  /** A launch reads again, on the log as it then is, that the ticket waits. */
  predicate LaunchesAnew(sys: Sys, step: Step) {
    step.Launch? && sys.phase.Launching? && sys.phase.todo != [] ==> Waits(Fold(sys.log), sys.phase.todo[0])
  }

  /** Nothing is appended about a ticket that is launched and not yet claimed, and a
      worker closes its own attempt. */
  predicate LeavesLaunched(sys: Sys, step: Step) {
    && (step.Note? ==> forall id :: id in sys.live && sys.live[id] == Launched ==> !Moves(step.e, id))
    && (step.Close? && NamesTicket(step.e.body) ==> step.e.body.ticketId == step.id)
  }

  ghost predicate Guarded(cfg: Config, log: seq<Event>, steps: seq<Step>) {
    forall k :: 0 <= k < |steps| ==>
      LaunchesAnew(Run(cfg, log, steps[..k]), steps[k]) && LeavesLaunched(Run(cfg, log, steps[..k]), steps[k])
  }

  /** Every ticket launched and not yet claimed waits. */
  ghost predicate LaunchedWait(log: seq<Event>, live: map<string, Worker>) {
    forall id :: id in live && live[id] == Launched ==> Waits(Fold(log), id)
  }

  lemma StillWaits(log: seq<Event>, e: Event, id: string)
    requires Waits(Fold(log), id) && !Moves(e, id)
    ensures Waits(Fold(log + [e]), id)
  {
    assert (log + [e])[..|log|] == log;
    ApplyIsLocal(Fold(log), e);
    assert TicketBecomes(Fold(log).tickets[id], e, id, Fold(log + [e]).tickets[id]);
  }

  lemma AppendKeepsWaiting(log: seq<Event>, e: Event, live: map<string, Worker>, live': map<string, Worker>)
    requires LaunchedWait(log, live)
    requires forall id :: id in live' && live'[id] == Launched ==> id in live && live[id] == Launched && !Moves(e, id)
    ensures LaunchedWait(log + [e], live')
  {
    forall id | id in live' && live'[id] == Launched ensures Waits(Fold(log + [e]), id) { StillWaits(log, e, id); }
  }

  lemma SilentKeepsWaiting(cfg: Config, sys: Sys, step: Step)
    requires LaunchedWait(sys.log, sys.live) && LaunchesAnew(sys, step) && Appends(sys, step).None?
    ensures LaunchedWait(Next(cfg, sys, step).log, Next(cfg, sys, step).live)
  {
    AppendsIsNext(cfg, sys, step);
    assert sys.log + [] == sys.log;
  }

  lemma LoudKeepsWaiting(cfg: Config, sys: Sys, step: Step)
    requires LaunchedWait(sys.log, sys.live) && LeavesLaunched(sys, step) && Appends(sys, step).Some?
    ensures LaunchedWait(Next(cfg, sys, step).log, Next(cfg, sys, step).live)
  {
    AppendsIsNext(cfg, sys, step);
    AppendKeepsWaiting(sys.log, Appends(sys, step).value, sys.live, Next(cfg, sys, step).live);
  }

  lemma {:induction false} RunKeepsWaiting(cfg: Config, log: seq<Event>, steps: seq<Step>)
    requires Guarded(cfg, log, steps)
    ensures LaunchedWait(Run(cfg, log, steps).log, Run(cfg, log, steps).live)
  {
    if steps != [] {
      var n := |steps| - 1;
      forall k | 0 <= k < n
        ensures LaunchesAnew(Run(cfg, log, steps[..n][..k]), steps[..n][k])
        ensures LeavesLaunched(Run(cfg, log, steps[..n][..k]), steps[..n][k])
      {
        assert steps[..n][..k] == steps[..k];
      }
      RunKeepsWaiting(cfg, log, steps[..n]);
      KeepsWaiting(cfg, Run(cfg, log, steps[..n]), steps[n]);
    }
  }

  /** A claim that is made finds its ticket still waiting: it reopens nothing. */
  lemma ClaimsReopenNothing(cfg: Config, log: seq<Event>, steps: seq<Step>, k: nat)
    requires Guarded(cfg, log, steps) && k < |steps| && steps[k].Claim?
    ensures var sys := Run(cfg, log, steps[..k]);
            steps[k].id in sys.live && sys.live[steps[k].id] == Launched ==> Waits(Fold(sys.log), steps[k].id)
  {
    forall j | 0 <= j < k
      ensures LaunchesAnew(Run(cfg, log, steps[..k][..j]), steps[..k][j])
      ensures LeavesLaunched(Run(cfg, log, steps[..k][..j]), steps[..k][j])
    {
      assert steps[..k][..j] == steps[..j];
    }
    RunKeepsWaiting(cfg, log, steps[..k]);
  }

  // --- Exactly when what follows is safe ---------------------------------------------------------

  ghost function RunFrom(cfg: Config, sys: Sys, steps: seq<Step>): Sys {
    if steps == [] then sys else Next(cfg, RunFrom(cfg, sys, steps[..|steps| - 1]), steps[|steps| - 1])
  }

  ghost predicate GuardedFrom(cfg: Config, sys: Sys, steps: seq<Step>) {
    forall k :: 0 <= k < |steps| ==>
      LaunchesAnew(RunFrom(cfg, sys, steps[..k]), steps[k]) && LeavesLaunched(RunFrom(cfg, sys, steps[..k]), steps[k])
  }

  /** If the step is a claim, its ticket waits for it. */
  predicate ClaimFindsWaiting(sys: Sys, step: Step) {
    step.Claim? && step.id in sys.live && sys.live[step.id] == Launched ==> Waits(Fold(sys.log), step.id)
  }

  /** Whatever guarded steps follow, every claim finds its ticket waiting. */
  ghost predicate SafeFrom(cfg: Config, sys: Sys) {
    forall more :: GuardedFrom(cfg, sys, more) ==> AllFindWaiting(cfg, sys, more)
  }

  ghost predicate AllFindWaiting(cfg: Config, sys: Sys, steps: seq<Step>) {
    forall k :: 0 <= k < |steps| ==> ClaimFindsWaiting(RunFrom(cfg, sys, steps[..k]), steps[k])
  }

  lemma {:induction false} WaitingFrom(cfg: Config, sys: Sys, steps: seq<Step>)
    requires LaunchedWait(sys.log, sys.live) && GuardedFrom(cfg, sys, steps)
    ensures LaunchedWait(RunFrom(cfg, sys, steps).log, RunFrom(cfg, sys, steps).live)
  {
    if steps != [] {
      var n := |steps| - 1;
      GuardedUpTo(cfg, sys, steps, n);
      WaitingFrom(cfg, sys, steps[..n]);
      KeepsWaiting(cfg, RunFrom(cfg, sys, steps[..n]), steps[n]);
    }
  }

  lemma GuardedUpTo(cfg: Config, sys: Sys, steps: seq<Step>, n: nat)
    requires n <= |steps| && GuardedFrom(cfg, sys, steps)
    ensures GuardedFrom(cfg, sys, steps[..n])
  {
    forall k | 0 <= k < n
      ensures LaunchesAnew(RunFrom(cfg, sys, steps[..n][..k]), steps[..n][k])
      ensures LeavesLaunched(RunFrom(cfg, sys, steps[..n][..k]), steps[..n][k])
    {
      assert steps[..n][..k] == steps[..k];
    }
  }

  lemma KeepsWaiting(cfg: Config, sys: Sys, step: Step)
    requires LaunchedWait(sys.log, sys.live) && LaunchesAnew(sys, step) && LeavesLaunched(sys, step)
    ensures LaunchedWait(Next(cfg, sys, step).log, Next(cfg, sys, step).live)
  {
    if Appends(sys, step).Some? { LoudKeepsWaiting(cfg, sys, step); } else { SilentKeepsWaiting(cfg, sys, step); }
  }

  /** Wherever the machine stands, what follows reopens nothing if and only if every ticket
      launched and not yet claimed waits. */
  lemma SafeExactly(cfg: Config, sys: Sys)
    ensures SafeFrom(cfg, sys) <==> LaunchedWait(sys.log, sys.live)
  {
    if LaunchedWait(sys.log, sys.live) {
      forall more | GuardedFrom(cfg, sys, more) ensures AllFindWaiting(cfg, sys, more) {
        forall k | 0 <= k < |more| ensures ClaimFindsWaiting(RunFrom(cfg, sys, more[..k]), more[k]) {
          GuardedUpTo(cfg, sys, more, k);
          WaitingFrom(cfg, sys, more[..k]);
        }
      }
    }
    if SafeFrom(cfg, sys) {
      forall id | id in sys.live && sys.live[id] == Launched ensures Waits(Fold(sys.log), id) {
        ClaimedAtOnce(cfg, sys, id);
      }
    }
  }

  lemma ClaimedAtOnce(cfg: Config, sys: Sys, id: string)
    requires SafeFrom(cfg, sys) && id in sys.live && sys.live[id] == Launched
    ensures Waits(Fold(sys.log), id)
  {
    var now := [Claim(id, 0)];
    assert now[..0] == [];
    assert GuardedFrom(cfg, sys, now);
    assert AllFindWaiting(cfg, sys, now);
    assert ClaimFindsWaiting(RunFrom(cfg, sys, now[..0]), now[0]);
  }

  /** After any guarded run, a launch is safe, whatever guarded steps follow it, if and only
      if its ticket waits on the log as it then is. */
  lemma LaunchIsSafeExactly(cfg: Config, log: seq<Event>, steps: seq<Step>)
    requires Guarded(cfg, log, steps)
    requires Run(cfg, log, steps).phase.Launching? && Run(cfg, log, steps).phase.todo != []
    ensures var sys := Run(cfg, log, steps);
            SafeFrom(cfg, Next(cfg, sys, Launch)) <==> Waits(Fold(sys.log), sys.phase.todo[0])
  {
    RunKeepsWaiting(cfg, log, steps);
    var sys := Run(cfg, log, steps);
    assert Next(cfg, sys, Launch) == LaunchNext(sys);
    SafeExactly(cfg, LaunchNext(sys));
  }

  /** And an append about a launched ticket is, if and only if the ticket waits after it. */
  lemma NoteIsSafeExactly(cfg: Config, log: seq<Event>, steps: seq<Step>, id: string, e: Event)
    requires Guarded(cfg, log, steps) && ChargeOf(e.body).None? && Moves(e, id)
    requires id in Run(cfg, log, steps).live && Run(cfg, log, steps).live[id] == Launched
    ensures var sys := Run(cfg, log, steps);
            SafeFrom(cfg, Next(cfg, sys, Note(e))) <==> Waits(Fold(Append(sys, e).log), id)
  {
    RunKeepsWaiting(cfg, log, steps);
    NotedIsSafe(cfg, Run(cfg, log, steps), id, e);
  }

  lemma NotedIsSafe(cfg: Config, sys: Sys, id: string, e: Event)
    requires LaunchedWait(sys.log, sys.live) && ChargeOf(e.body).None? && Moves(e, id)
    requires id in sys.live && sys.live[id] == Launched
    ensures SafeFrom(cfg, Next(cfg, sys, Note(e))) <==> Waits(Fold(Append(sys, e).log), id)
  {
    assert Next(cfg, sys, Note(e)) == Append(sys, e);
    NotedWaits(sys, id, e);
    SafeExactly(cfg, Append(sys, e));
  }

  lemma NotedWaits(sys: Sys, id: string, e: Event)
    requires LaunchedWait(sys.log, sys.live) && Moves(e, id) && id in sys.live && sys.live[id] == Launched
    ensures LaunchedWait(Append(sys, e).log, sys.live) <==> Waits(Fold(Append(sys, e).log), id)
  {
    forall x | x in sys.live && sys.live[x] == Launched && x != id ensures Waits(Fold(Append(sys, e).log), x) {
      StillWaits(sys.log, e.(num := |sys.log| + 1), x);
    }
  }

  // --- Runs in which one does --------------------------------------------------------------------

  lemma Stepped(cfg: Config, log: seq<Event>, steps: seq<Step>, step: Step)
    ensures Run(cfg, log, steps + [step]) == Next(cfg, Run(cfg, log, steps), step)
  {
    assert (steps + [step])[..|steps|] == steps;
  }

  /** A state read by a pass in which one ticket waits and a slot is free. */
  predicate Roomy(cfg: Config, s: State, id: string) {
    Waits(s, id) && ActiveAttempts(s.ticketOrder, s, map[]) < cfg.concurrency && cfg.limits.IsZero()
  }

  /** The rest of a pass, which picks the ticket and launches it. */
  lemma Picks(cfg: Config, log: seq<Event>, steps: seq<Step>, s: State, id: string) returns (more: seq<Step>)
    requires Run(cfg, log, steps).live == map[] && Run(cfg, log, steps).phase == Snapped(s) && Roomy(cfg, s, id)
    ensures var sys := Run(cfg, log, steps);
            Run(cfg, log, more) == sys.(phase := Launching([id]))
  {
    var sys := Run(cfg, log, steps);
    var slots := cfg.concurrency - ActiveAttempts(s.ticketOrder, s, map[]);
    Stepped(cfg, log, steps, Count);
    more := steps + [Count];
    Stepped(cfg, log, more, ReadSpend);
    more := more + [ReadSpend];
    assert Run(cfg, log, more) == sys.(phase := Picking(s, slots, []));
    Stepped(cfg, log, more, Consider(id));
    more := more + [Consider(id)];
    assert Run(cfg, log, more) == sys.(phase := Picking(s, slots, [id])) by { assert [] + [id] == [id]; }
    Stepped(cfg, log, more, StartLaunching);
    more := more + [StartLaunching];
  }

  lemma LaunchesIt(cfg: Config, log: seq<Event>, steps: seq<Step>, id: string)
    requires Run(cfg, log, steps).live == map[] && Run(cfg, log, steps).phase == Launching([id])
    ensures Run(cfg, log, steps + [Launch]) ==
            Run(cfg, log, steps).(live := map[id := Launched], phase := Launching([]))
  {
    Stepped(cfg, log, steps, Launch);
    assert [id][1..] == [];
  }

  function Proposal(id: string): Event {
    Event(0, 0, "orchestrator", ProposalSubmitted(id, "worker/" + id, "", NoCommit, "", "", NO_CHARGE))
  }

  function Merge(id: string): Event { Event(0, 0, "orchestrator", Merged(id, "worker/" + id, NoCommit, "")) }

  lemma LaunchedOnce(cfg: Config, log: seq<Event>, id: string) returns (steps: seq<Step>)
    requires Roomy(cfg, Fold(log), id)
    ensures Run(cfg, log, steps) == Sys(log, map[id := Launched], Launching([]))
  {
    Stepped(cfg, log, [], Snap);
    assert [] + [Snap] == [Snap];
    steps := Picks(cfg, log, [Snap], Fold(log), id);
    LaunchesIt(cfg, log, steps, id);
    steps := steps + [Launch];
  }

  /** The first pass launches the ticket, and ends. */
  lemma FirstPass(cfg: Config, log: seq<Event>, id: string) returns (steps: seq<Step>)
    requires Roomy(cfg, Fold(log), id)
    ensures Run(cfg, log, steps) == Sys(log, map[id := Launched], Idle)
  {
    steps := LaunchedOnce(cfg, log, id);
    Stepped(cfg, log, steps, Launch);
    steps := steps + [Launch];
  }

  /** An attempt is claimed, closed and gone while the Scheduler is elsewhere. */
  lemma ComesAndGoes(cfg: Config, log: seq<Event>, steps: seq<Step>, log0: seq<Event>, id: string, phase: Phase)
    returns (more: seq<Step>, log': seq<Event>)
    requires Run(cfg, log, steps) == Sys(log0, map[id := Launched], phase)
    ensures Run(cfg, log, more) == Sys(log', map[], phase) && log' == Reproposed(log0, id)
  {
    var claimed := log0 + [ClaimOf(id, 0).(num := |log0| + 1)];
    log' := claimed + [Proposal(id).(num := |log0| + 2)];
    Stepped(cfg, log, steps, Claim(id, 0));
    more := steps + [Claim(id, 0)];
    assert Run(cfg, log, more) == Sys(claimed, map[id := Working], phase);
    Stepped(cfg, log, more, Close(id, Proposal(id)));
    more := more + [Close(id, Proposal(id))];
    assert Run(cfg, log, more) == Sys(log', map[id := Closed], phase);
    Stepped(cfg, log, more, Exit(id));
    more := more + [Exit(id)];
  }

  /** One more attempt, claimed and proposed. */
  function Reproposed(log: seq<Event>, id: string): seq<Event> {
    log + [ClaimOf(id, 0).(num := |log| + 1)] + [Proposal(id).(num := |log| + 2)]
  }

  /** The second pass reads the log before the attempt is claimed, and looks at what is
      in flight after it is gone. */
  lemma SecondPass(cfg: Config, log: seq<Event>, steps: seq<Step>, id: string)
    returns (more: seq<Step>, log': seq<Event>)
    requires Run(cfg, log, steps) == Sys(log, map[id := Launched], Idle) && Roomy(cfg, Fold(log), id)
    ensures Run(cfg, log, more) == Sys(log', map[id := Launched], Launching([]))
    ensures log' == Reproposed(log, id)
  {
    Stepped(cfg, log, steps, Snap);
    more, log' := ComesAndGoes(cfg, log, steps + [Snap], log, id, Snapped(Fold(log)));
    more := Picks(cfg, log, more, Fold(log), id);
    LaunchesIt(cfg, log, more, id);
    more := more + [Launch];
  }

  lemma Notes(cfg: Config, log: seq<Event>, steps: seq<Step>, log0: seq<Event>, live: map<string, Worker>,
              phase: Phase, e: Event)
    requires Run(cfg, log, steps) == Sys(log0, live, phase) && ChargeOf(e.body).None?
    ensures Run(cfg, log, steps + [Note(e)]) == Sys(log0 + [e.(num := |log0| + 1)], live, phase)
  {
    Stepped(cfg, log, steps, Note(e));
  }

  lemma MovesOne(log: seq<Event>, e: Event, id: string)
    requires id in Fold(log).tickets && Moves(e, id)
    ensures id in Fold(log + [e]).tickets
    ensures var t, t' := Fold(log).tickets[id], Fold(log + [e]).tickets[id];
            t' == StepTicket(t, e).(spend := t'.spend)
  {
    assert (log + [e])[..|log|] == log;
    ApplyIsLocal(Fold(log), e);
    assert TicketBecomes(Fold(log).tickets[id], e, id, Fold(log + [e]).tickets[id]);
  }

  lemma ProposalLands(log: seq<Event>, id: string, num: int)
    requires id in Fold(log).tickets && Fold(log).tickets[id].status == Claimed
    ensures var s := Fold(log + [Proposal(id).(num := num)]); id in s.tickets && s.tickets[id].status == Proposed
  {
    MovesOne(log, Proposal(id).(num := num), id);
  }

  lemma ClaimReopens(log: seq<Event>, id: string, num: int)
    requires id in Fold(log).tickets
    ensures var s := Fold(log + [ClaimOf(id, 0).(num := num)]); id in s.tickets && s.tickets[id].status == Claimed
  {
    MovesOne(log, ClaimOf(id, 0).(num := num), id);
  }

  lemma Reclaims(cfg: Config, log: seq<Event>, steps: seq<Step>, log': seq<Event>, id: string)
    requires Run(cfg, log, steps) == Sys(log', map[id := Launched], Launching([])) && id in Fold(log').tickets
    ensures (steps + [Claim(id, 0)])[..|steps|] == steps
    ensures var after := Fold(Run(cfg, log, steps + [Claim(id, 0)]).log);
            id in after.tickets && after.tickets[id].status == Claimed
  {
    Stepped(cfg, log, steps, Claim(id, 0));
    ClaimReopens(log', id, |log'| + 1);
  }

  /** An event ends a ticket that is launched; its claim reopens it. */
  lemma EndsAndReclaims(cfg: Config, log: seq<Event>, steps: seq<Step>, log0: seq<Event>, id: string, e: Event)
    returns (more: seq<Step>)
    requires Run(cfg, log, steps) == Sys(log0, map[id := Launched], Launching([])) && id in Fold(log0).tickets
    requires Moves(e, id) && ChargeOf(e.body).None?
    ensures more == steps + [Note(e)] + [Claim(id, 0)] && more[..|more| - 1] == steps + [Note(e)]
    ensures Run(cfg, log, steps + [Note(e)]).log == log0 + [e.(num := |log0| + 1)]
    ensures var after := Fold(Run(cfg, log, more).log); id in after.tickets && after.tickets[id].status == Claimed
  {
    var e' := e.(num := |log0| + 1);
    Notes(cfg, log, steps, log0, map[id := Launched], Launching([]), e);
    MovesOne(log0, e', id);
    Reclaims(cfg, log, steps + [Note(e)], log0 + [e'], id);
    more := steps + [Note(e)] + [Claim(id, 0)];
  }

  lemma MergeEnds(log: seq<Event>, id: string, num: int)
    requires id in Fold(log).tickets
    ensures var s := Fold(log + [Merge(id).(num := num)]); id in s.tickets && s.tickets[id].status == MergedIn
  {
    MovesOne(log, Merge(id).(num := num), id);
  }

  /** Read before the claim, and looked at after the attempt was gone: the ticket is
      launched a second time, and its claim reopens it when it has been merged. */
  lemma MergedIsReopened(cfg: Config, log: seq<Event>, id: string) returns (steps: seq<Step>)
    requires Roomy(cfg, Fold(log), id)
    ensures steps != [] && steps[|steps| - 1] == Claim(id, 0)
    ensures var before, after := Fold(Run(cfg, log, steps[..|steps| - 1]).log), Fold(Run(cfg, log, steps).log);
            && id in before.tickets && before.tickets[id].status == MergedIn
            && id in after.tickets && after.tickets[id].status == Claimed
  {
    var log';
    steps := FirstPass(cfg, log, id);
    steps, log' := SecondPass(cfg, log, steps, id);
    ProposesAgain(log, id);
    MergeEnds(log', id, |log'| + 1);
    steps := EndsAndReclaims(cfg, log, steps, log', id, Merge(id));
  }

  // --- And merges it a second time ---------------------------------------------------------------

  function Pass(id: string): Event { Event(0, 0, "orchestrator", VerificationPassed(id, "worker/" + id)) }

  /** A merge right after a Gate pass, of a ticket then proposed. */
  ghost predicate MergedHere(log: seq<Event>, i: nat, id: string) {
    && 0 < i < |log| && Merges(log[i], id) && log[i].actor == "orchestrator" && Passes(log[i - 1], id)
    && id in Fold(log[..i]).tickets && Fold(log[..i]).tickets[id].status == Proposed
  }

  lemma StillMergedHere(log: seq<Event>, log': seq<Event>, i: nat, id: string)
    requires MergedHere(log, i, id) && log <= log'
    ensures MergedHere(log', i, id)
  {
    assert log'[..i] == log[..i];
  }

  function Concluded(log: seq<Event>, id: string): seq<Event> {
    log + [Pass(id).(num := |log| + 1)] + [Merge(id).(num := |log| + 2)]
  }

  /** The merge queue passes and merges the proposal. */
  lemma Concludes(cfg: Config, log: seq<Event>, steps: seq<Step>, log0: seq<Event>, live: map<string, Worker>,
                  phase: Phase, id: string)
    returns (more: seq<Step>)
    requires Run(cfg, log, steps) == Sys(log0, live, phase)
    ensures Run(cfg, log, more) == Sys(Concluded(log0, id), live, phase)
  {
    Notes(cfg, log, steps, log0, live, phase, Pass(id));
    Notes(cfg, log, steps + [Note(Pass(id))], log0 + [Pass(id).(num := |log0| + 1)], live, phase, Merge(id));
    more := steps + [Note(Pass(id))] + [Note(Merge(id))];
  }

  lemma ConcludedMerges(log: seq<Event>, id: string)
    requires id in Fold(log).tickets && Fold(log).tickets[id].status == Proposed
    ensures MergedHere(Concluded(log, id), |log| + 1, id) && id in Fold(Concluded(log, id)).tickets
  {
    PassStays(log, id, |log| + 1);
    MergeEnds(log + [Pass(id).(num := |log| + 1)], id, |log| + 2);
    ConcludedEnds(log, id);
    MergedLast(Concluded(log, id), log, Pass(id).(num := |log| + 1), id);
  }

  lemma MergedLast(all: seq<Event>, log: seq<Event>, pass: Event, id: string)
    requires |all| == |log| + 2 && all[..|log| + 1] == log + [pass] && all[|log|] == pass && Passes(pass, id)
    requires Merges(all[|log| + 1], id) && all[|log| + 1].actor == "orchestrator"
    requires id in Fold(log + [pass]).tickets && Fold(log + [pass]).tickets[id].status == Proposed
    ensures MergedHere(all, |log| + 1, id)
  {
  }

  lemma ConcludedEnds(log: seq<Event>, id: string)
    ensures var all, pass := Concluded(log, id), Pass(id).(num := |log| + 1);
            && |all| == |log| + 2 && all[..|log| + 1] == log + [pass] && all[|log|] == pass
            && all == log + [pass] + [Merge(id).(num := |log| + 2)]
            && all[|log| + 1] == Merge(id).(num := |log| + 2)
  {
  }

  lemma PassStays(log: seq<Event>, id: string, num: int)
    requires id in Fold(log).tickets
    ensures var s := Fold(log + [Pass(id).(num := num)]);
            id in s.tickets && s.tickets[id].status == Fold(log).tickets[id].status
  {
    MovesOne(log, Pass(id).(num := num), id);
  }

  lemma ProposesAgain(log: seq<Event>, id: string)
    requires id in Fold(log).tickets
    ensures var s := Fold(Reproposed(log, id)); id in s.tickets && s.tickets[id].status == Proposed
    ensures log <= Reproposed(log, id)
  {
    ClaimReopens(log, id, |log| + 1);
    ProposalLands(log + [ClaimOf(id, 0).(num := |log| + 1)], id, |log| + 2);
  }

  lemma ConcludedGrows(log: seq<Event>, log': seq<Event>, id: string)
    requires log <= log'
    ensures log <= Concluded(log', id) && |Concluded(log', id)| == |log'| + 2
  {
  }

  /** Launched twice, and merged in between. */
  lemma MergedOnce(cfg: Config, log: seq<Event>, id: string) returns (steps: seq<Step>, merged: seq<Event>, i: nat)
    requires Roomy(cfg, Fold(log), id)
    ensures Run(cfg, log, steps) == Sys(merged, map[id := Launched], Launching([]))
    ensures i < |merged| && MergedHere(merged, i, id) && id in Fold(merged).tickets
  {
    var log1;
    steps := FirstPass(cfg, log, id);
    steps, log1 := SecondPass(cfg, log, steps, id);
    ProposesAgain(log, id);
    steps := Concludes(cfg, log, steps, log1, map[id := Launched], Launching([]), id);
    ConcludedMerges(log1, id);
    merged, i := Concluded(log1, id), |log1| + 1;
  }

  lemma MergedAgain(cfg: Config, log: seq<Event>, steps: seq<Step>, merged: seq<Event>, id: string)
    returns (more: seq<Step>, all: seq<Event>, j: nat)
    requires Run(cfg, log, steps) == Sys(merged, map[id := Launched], Launching([])) && id in Fold(merged).tickets
    ensures Run(cfg, log, more).log == all && merged <= all && |merged| <= j && MergedHere(all, j, id)
  {
    var log3;
    more, log3 := ComesAndGoes(cfg, log, steps, merged, id, Launching([]));
    ProposesAgain(merged, id);
    more := Concludes(cfg, log, more, log3, map[], Launching([]), id);
    ConcludedMerges(log3, id);
    ConcludedGrows(merged, log3, id);
    all, j := Concluded(log3, id), |log3| + 1;
  }

  /** The reopened ticket is worked on again, proposed again, and merged a second time: the
      rule that a ticket is merged once is broken. */
  lemma MergedTwice(cfg: Config, log: seq<Event>, id: string) returns (steps: seq<Step>, i: nat, j: nat)
    requires Roomy(cfg, Fold(log), id)
    ensures var all := Run(cfg, log, steps).log;
            i < j && MergedHere(all, i, id) && MergedHere(all, j, id) && !MergeIsOnce(MarksOf(all[..j]), all[j])
  {
    var merged, all;
    steps, merged, i := MergedOnce(cfg, log, id);
    steps, all, j := MergedAgain(cfg, log, steps, merged, id);
    StillMergedHere(merged, all, i, id);
    OnceMeans(all, j);
  }

  function BudgetFailure(id: string, reason: string): Event {
    Event(0, 0, "orchestrator", TicketFailed(id, "", reason, "", NO_CHARGE))
  }

  lemma FailureEnds(log: seq<Event>, id: string, reason: string, num: int)
    requires Waits(Fold(log), id)
    ensures var s := Fold(log + [BudgetFailure(id, reason).(num := num)]);
      id in s.tickets && s.tickets[id].status == Failed
  {
    MovesOne(log, BudgetFailure(id, reason).(num := num), id);
  }

  /** A Goal's budget fails its ready tickets whether or not they are in flight; the
      claim of one launched already reopens it. */
  lemma FailedIsReopened(cfg: Config, log: seq<Event>, id: string, reason: string) returns (steps: seq<Step>)
    requires Roomy(cfg, Fold(log), id)
    ensures steps != [] && steps[|steps| - 1] == Claim(id, 0)
    ensures var before, after := Fold(Run(cfg, log, steps[..|steps| - 1]).log), Fold(Run(cfg, log, steps).log);
            && id in before.tickets && before.tickets[id].status == Failed
            && id in after.tickets && after.tickets[id].status == Claimed
  {
    steps := LaunchedOnce(cfg, log, id);
    FailureEnds(log, id, reason, |log| + 1);
    steps := EndsAndReclaims(cfg, log, steps, log, id, BudgetFailure(id, reason));
  }
}
