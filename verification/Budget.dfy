/** Spend budgets (internal/orchestrator/budget.go), and how far a run can go past
    one while workers and the Scheduler's separate reads interleave. */
module Budget {
  import opened Events
  import opened Spending
  import opened Replay
  import opened Usage

  /** Limits on a window; zero is no limit. */
  datatype Limits = Limits(usd: real, tokens: nat, goals: nat) {
    predicate IsZero() { this == Limits(0.0, 0, 0) }
  }

  ghost predicate SpendReached(b: Limits, u: Window, pricing: Pricing) {
    (b.usd > 0.0 && Reading(u.spend, Cost(pricing)) >= b.usd) || (b.tokens > 0 && u.spend.tokens >= b.tokens)
  }

  predicate GoalsReached(b: Limits, u: Window) {
    b.goals > 0 && u.goals >= b.goals
  }

  // --- The check ---------------------------------------------------------------------------------

  datatype Account = Account(scope: string, limits: Limits, used: Window)

  ghost predicate Trips(a: Account, pricing: Pricing) {
    !a.limits.IsZero() && (SpendReached(a.limits, a.used, pricing) || GoalsReached(a.limits, a.used))
  }

  ghost predicate Blocks(a: Account, pricing: Pricing) {
    !a.limits.IsZero() && SpendReached(a.limits, a.used, pricing)
  }

  const UNLIMITED: int := -1

  method CostOf(sp: Spend, pricing: Pricing) returns (usd: real)
    ensures usd == Reading(sp, Cost(pricing))
  {
    var priced := USD(sp.toPrice, pricing);
    usd := sp.reported + priced;
  }

  /** What the windows hold back: whether no attempt may start, how many more Goals
      may, and which windows tripped. */
  method BudgetsReached(accounts: seq<Account>, pricing: Pricing)
    returns (spend: bool, goalsLeft: int, tripped: seq<Account>)
    ensures spend <==> exists a :: a in accounts && Blocks(a, pricing)
    ensures forall a :: a in tripped <==> a in accounts && Trips(a, pricing)
    ensures goalsLeft >= UNLIMITED && (goalsLeft == 0 <==> tripped != [])
    ensures goalsLeft == UNLIMITED <==> !spend && forall a :: a in accounts ==> a.limits.goals == 0
    ensures goalsLeft > 0 ==> forall a :: a in accounts && a.limits.goals > 0 ==>
            a.used.goals + goalsLeft <= a.limits.goals
  {
    spend, goalsLeft, tripped := false, UNLIMITED, [];
    for i := 0 to |accounts|
      invariant spend <==> exists a :: a in accounts[..i] && Blocks(a, pricing)
      invariant forall a :: a in tripped <==> a in accounts[..i] && Trips(a, pricing)
      invariant goalsLeft >= UNLIMITED && (goalsLeft == 0 <==> tripped != [])
      invariant goalsLeft == UNLIMITED <==> !spend && forall a :: a in accounts[..i] ==> a.limits.goals == 0
      invariant goalsLeft > 0 ==> forall a :: a in accounts[..i] && a.limits.goals > 0 ==>
                a.used.goals + goalsLeft <= a.limits.goals
    {
      var a := accounts[i];
      assert accounts[..i + 1] == accounts[..i] + [a];
      if a.limits.IsZero() { continue; }
      if a.limits.goals > 0 {
        var left := if a.limits.goals > a.used.goals then a.limits.goals - a.used.goals else 0;
        if goalsLeft == UNLIMITED || left < goalsLeft { goalsLeft := left; }
      }
      var cost := CostOf(a.used.spend, pricing);
      var reached := (a.limits.usd > 0.0 && cost >= a.limits.usd) ||
          (a.limits.tokens > 0 && a.used.spend.tokens >= a.limits.tokens);
      assert reached <==> Blocks(a, pricing);
      assert a in accounts[..i + 1];
      if reached { spend, goalsLeft := true, 0; }
      if !reached && !GoalsReached(a.limits, a.used) { continue; }
      tripped := tripped + [a];
    }
    assert accounts[..|accounts|] == accounts;
  }

  // --- One process: the Scheduler and its workers ------------------------------------------------

  /** A dispatch goroutine, from launch to exit. Closing appends the one event that
      carries the attempt's charge. */
  datatype Worker = Launched | Working | Closed

  /** Where the Scheduler is in a pass. `Snapped` has read the log, `Counted` the
      in-flight map after it, `Picking` the spend after that. */
  datatype Phase =
    | Idle
    | Snapped(s: State)
    | Counted(s: State, slots: int)
    | Picking(s: State, slots: int, picked: seq<string>)
    | Launching(todo: seq<string>)

  datatype Sys = Sys(log: seq<Event>, live: map<string, Worker>, phase: Phase)

  datatype Config = Config(concurrency: nat, since: int, limits: Limits, pricing: Pricing)

  datatype Step =
    | Snap | Count | ReadSpend
    | Consider(id: string)      // dispatchable, reading the in-flight map for one ticket
    | StartLaunching | Launch
    | Claim(id: string, ts: int)
    | Note(e: Event)            // any append that charges nothing, by anyone
    | Close(id: string, e: Event)
    | Exit(id: string)          // also when an append of its own failed

  predicate InFlight(live: map<string, Worker>, id: string) { id in live }

  /** Attempts in progress: per ticket, the larger of what the log and the in-flight
      map say. */
  function ActiveAttempts(order: seq<string>, s: State, live: map<string, Worker>): nat {
    if order == [] then 0 else
    var id := order[|order| - 1];
    var logged := if id in s.tickets then |s.tickets[id].activeWorkers| else 0;
    var running := if id in live then 1 else 0;
    ActiveAttempts(order[..|order| - 1], s, live) + if logged > running then logged else running
  }

  predicate Dispatches(s: State, id: string, live: map<string, Worker>) {
    && id in s.tickets
    && (s.tickets[id].status == Ready || s.tickets[id].status == Claimed || s.tickets[id].status == Running)
    && s.tickets[id].activeWorkers == [] && id !in live
  }

  function Append(sys: Sys, e: Event): Sys {
    sys.(log := sys.log + [e.(num := |sys.log| + 1)])
  }

  function CountSlots(cfg: Config, sys: Sys): Sys {
    if !sys.phase.Snapped? then sys else
    var s := sys.phase.s;
    sys.(phase := Counted(s, cfg.concurrency - ActiveAttempts(s.ticketOrder, s, sys.live)))
  }

  function Choose(sys: Sys, id: string): Sys {
    if sys.phase.Picking? && |sys.phase.picked| < sys.phase.slots && id !in sys.phase.picked &&
        Dispatches(sys.phase.s, id, sys.live)
    then sys.(phase := sys.phase.(picked := sys.phase.picked + [id])) else sys
  }

  function LaunchNext(sys: Sys): Sys {
    if !sys.phase.Launching? then sys
    else if sys.phase.todo == [] then sys.(phase := Idle)
    else sys.(live := sys.live[sys.phase.todo[0] := Launched], phase := Launching(sys.phase.todo[1..]))
  }

  function ClaimOf(id: string, ts: int): Event {
    Event(0, ts, "orchestrator", TicketClaimed(id, "worker/" + id))
  }

  ghost function Next(cfg: Config, sys: Sys, step: Step): Sys {
    match step
    case Snap => if sys.phase.Idle? then sys.(phase := Snapped(Fold(sys.log))) else sys
    case Count => CountSlots(cfg, sys)
    case ReadSpend =>
      if !sys.phase.Counted? then sys else
      var spent := SpendReached(cfg.limits, UsageOf(sys.log, RunWindow(cfg.since)), cfg.pricing);
      sys.(phase := Picking(sys.phase.s, if spent then 0 else sys.phase.slots, []))
    case Consider(id) => Choose(sys, id)
    case StartLaunching => if sys.phase.Picking? then sys.(phase := Launching(sys.phase.picked)) else sys
    case Launch => LaunchNext(sys)
    case Claim(id, ts) =>
      if id in sys.live && sys.live[id] == Launched
      then Append(sys, ClaimOf(id, ts)).(live := sys.live[id := Working])
      else sys
    case Note(e) => if ChargeOf(e.body).None? then Append(sys, e) else sys
    case Close(id, e) =>
      if id in sys.live && sys.live[id] == Working then Append(sys, e).(live := sys.live[id := Closed]) else sys
    case Exit(id) => sys.(live := sys.live - {id})
  }

  ghost function Run(cfg: Config, log: seq<Event>, steps: seq<Step>): Sys {
    if steps == [] then Sys(log, map[], Idle) else Next(cfg, Run(cfg, log, steps[..|steps| - 1]), steps[|steps| - 1])
  }

  // --- The bound ---------------------------------------------------------------------------------

  /** A limit of the run, and the figure it is read on. */
  ghost predicate Limit(cfg: Config, m: Meter, limit: real) {
    limit > 0.0 &&
    ((m == Tokens && cfg.limits.tokens as real == limit) || (m == Cost(cfg.pricing) && cfg.limits.usd == limit))
  }

  ghost function Spent(cfg: Config, log: seq<Event>, m: Meter): real {
    Reading(UsageOf(log, RunWindow(cfg.since)).spend, m)
  }

  /** No attempt's charge is more than `cap`. */
  ghost predicate Capped(step: Step, m: Meter, cap: real) {
    step.Close? && ChargeOf(step.e.body).Some? ==> Weight(ChargeOf(step.e.body).value, m) <= cap
  }

  /** Attempts that have yet to be charged. */
  function Owing(live: map<string, Worker>): set<string> {
    set id | id in live && live[id] != Closed
  }

  /** n charges of `cap` each. */
  ghost function Times(n: nat, cap: real): real {
    if n == 0 then 0.0 else Times(n - 1, cap) + cap
  }

  lemma {:induction false} TimesIsProduct(n: nat, cap: real)
    ensures Times(n, cap) == n as real * cap
  {
    if n > 0 { TimesIsProduct(n - 1, cap); }
  }

  lemma {:induction false} FewerCost(a: nat, b: nat, cap: real)
    requires cap >= 0.0 && a <= b
    ensures Times(a, cap) <= Times(b, cap)
  {
    if a < b { FewerCost(a, b - 1, cap); }
  }

  /** Launches the phase may still make. */
  function Promised(phase: Phase): nat {
    match phase
    case Picking(_, slots, _) => if slots > 0 then slots else 0
    case Launching(todo) => |todo|
    case _ => 0
  }

  /** `known` are the tickets on the log, which only ever grow. */
  ghost predicate PhaseInv(workers: nat, live: map<string, Worker>, phase: Phase, known: set<string>) {
    match phase
    case Idle => true
    case Snapped(s) => Listed(s) && live.Keys <= s.tickets.Keys <= known
    case Counted(s, slots) => s.tickets.Keys <= known && |live| + slots <= workers
    case Picking(s, slots, picked) =>
      && s.tickets.Keys <= known && |live| + Promised(phase) <= workers
      && |picked| <= Promised(phase) && forall id :: id in picked ==> id in s.tickets
    case Launching(todo) => |live| + |todo| <= workers && forall id :: id in todo ==> id in known
  }

  /** What is spent, and what attempts live or promised may still be charged. */
  ghost function Exposure(live: map<string, Worker>, phase: Phase, spent: real, cap: real): real {
    spent + Times(|Owing(live)| + Promised(phase), cap)
  }

  ghost predicate Inv(cfg: Config, live: map<string, Worker>, phase: Phase, known: set<string>, spent: real,
                      limit: real, cap: real) {
    && |live| <= cfg.concurrency
    && live.Keys <= known
    && PhaseInv(cfg.concurrency, live, phase, known)
    && Exposure(live, phase, spent, cap) < limit + Times(cfg.concurrency, cap)
  }

  lemma SubsetSize<T>(a: set<T>, b: set<T>)
    requires a <= b
    ensures |a| <= |b|
  {
    if a != b { assert b == a + (b - a); }
  }

  lemma KeyCount(live: map<string, Worker>)
    ensures |live| == |live.Keys|
  {
  }

  lemma PhaseKept(n: nat, live: map<string, Worker>, live': map<string, Worker>, phase: Phase, known: set<string>,
                  known': set<string>)
    requires PhaseInv(n, live, phase, known) && live'.Keys <= live.Keys && known <= known'
    ensures PhaseInv(n, live', phase, known') && |live'| <= |live|
  {
    SubsetSize(live'.Keys, live.Keys);
    KeyCount(live);
    KeyCount(live');
  }

  lemma CloseSettlesOne(live: map<string, Worker>, id: string)
    requires id in live && live[id] == Working
    ensures |Owing(live)| == |Owing(live[id := Closed])| + 1
  {
    assert Owing(live[id := Closed]) == Owing(live) - {id} && id in Owing(live);
  }

  lemma CloseKeepsInv(cfg: Config, live: map<string, Worker>, phase: Phase, known: set<string>, known': set<string>,
                      id: string,
                      spent: real, charge: real, limit: real, cap: real)
    requires Inv(cfg, live, phase, known, spent, limit, cap) && charge <= cap && known <= known'
    requires id in live && live[id] == Working
    ensures Inv(cfg, live[id := Closed], phase, known', spent + charge, limit, cap)
  {
    PhaseKept(cfg.concurrency, live, live[id := Closed], phase, known, known');
    CloseSettlesOne(live, id);
  }

  lemma NoteKeepsInv(cfg: Config, live: map<string, Worker>, live': map<string, Worker>, phase: Phase,
                     known: set<string>, known': set<string>,
                     spent: real, limit: real, cap: real)
    requires Inv(cfg, live, phase, known, spent, limit, cap) && known <= known'
    requires live'.Keys == live.Keys && Owing(live') == Owing(live)
    ensures Inv(cfg, live', phase, known', spent, limit, cap)
  {
    PhaseKept(cfg.concurrency, live, live', phase, known, known');
  }

  lemma OneFewerLive(live: map<string, Worker>, id: string)
    ensures |Owing(live - {id})| <= |Owing(live)|
  {
    SubsetSize(Owing(live - {id}), Owing(live));
  }

  /** Fewer attempts live, and no more owing, with the phase as it was. */
  lemma FewerKeepsInv(cfg: Config, live: map<string, Worker>, less: map<string, Worker>, phase: Phase,
                      known: set<string>, spent: real, limit: real, cap: real)
    requires Inv(cfg, live, phase, known, spent, limit, cap) && cap >= 0.0
    requires less.Keys <= live.Keys && |Owing(less)| <= |Owing(live)|
    ensures Inv(cfg, less, phase, known, spent, limit, cap)
  {
    PhaseKept(cfg.concurrency, live, less, phase, known, known);
    FewerCost(|Owing(less)| + Promised(phase), |Owing(live)| + Promised(phase), cap);
  }

  lemma ExitKeepsInv(cfg: Config, live: map<string, Worker>, phase: Phase, known: set<string>, id: string,
                     spent: real, limit: real, cap: real)
    requires Inv(cfg, live, phase, known, spent, limit, cap) && cap >= 0.0
    ensures Inv(cfg, live - {id}, phase, known, spent, limit, cap)
  {
    OneFewerLive(live, id);
    FewerKeepsInv(cfg, live, live - {id}, phase, known, spent, limit, cap);
  }

  lemma OneMoreLive(live: map<string, Worker>, id: string)
    ensures var more := live[id := Launched];
            |more| <= |live| + 1 && |Owing(more)| <= |Owing(live)| + 1
  {
    var more := live[id := Launched];
    assert more.Keys == live.Keys + {id} && Owing(more) == Owing(live) + {id};
    KeyCount(more);
    KeyCount(live);
  }

  lemma LaunchKeepsInv(cfg: Config, live: map<string, Worker>, todo: seq<string>, known: set<string>, spent: real,
                       limit: real, cap: real)
    requires Inv(cfg, live, Launching(todo), known, spent, limit, cap) && cap >= 0.0 && todo != []
    ensures Inv(cfg, live[todo[0] := Launched], Launching(todo[1..]), known, spent, limit, cap)
  {
    var more := live[todo[0] := Launched];
    OneMoreLive(live, todo[0]);
    FewerCost(|Owing(more)| + |todo| - 1, |Owing(live)| + |todo|, cap);
  }

  /** Spend is read after the slots were counted, so at that moment every attempt
      still owing a charge is one the count saw. */
  lemma ReadSpendKeepsInv(cfg: Config, live: map<string, Worker>, s: State, slots: int, slots': int,
                          known: set<string>, spent: real, limit: real, cap: real)
    requires Inv(cfg, live, Counted(s, slots), known, spent, limit, cap) && cap >= 0.0
    requires slots' == 0 || (slots' == slots && spent < limit)
    ensures Inv(cfg, live, Picking(s, slots', []), known, spent, limit, cap)
  {
    SubsetSize(Owing(live), live.Keys);
    KeyCount(live);
    if slots' > 0 { FewerCost(|Owing(live)| + slots', cfg.concurrency, cap); }
  }

  lemma {:induction false} CountsTheLive(order: seq<string>, s: State, live: map<string, Worker>)
    ensures |set id | id in order && id in live| <= ActiveAttempts(order, s, live)
  {
    if order != [] {
      var init, id := order[..|order| - 1], order[|order| - 1];
      CountsTheLive(init, s, live);
      var before := set x | x in init && x in live;
      var here := set x | x in order && x in live;
      assert order == init + [id];
      assert here == before + if id in live then {id} else {};
    }
  }

  lemma CountKeepsInv(cfg: Config, live: map<string, Worker>, s: State, known: set<string>, spent: real, limit: real,
                      cap: real)
    requires Inv(cfg, live, Snapped(s), known, spent, limit, cap)
    ensures Inv(cfg, live, Counted(s, cfg.concurrency - ActiveAttempts(s.ticketOrder, s, live)), known, spent, limit,
                cap)
  {
    CountsTheLive(s.ticketOrder, s, live);
    assert (set id | id in s.ticketOrder && id in live) == live.Keys;
    KeyCount(live);
  }

  lemma StartKeepsInv(cfg: Config, live: map<string, Worker>, phase: Phase, known: set<string>, spent: real,
                      limit: real, cap: real)
    requires phase.Picking? && Inv(cfg, live, phase, known, spent, limit, cap) && cap >= 0.0
    ensures Inv(cfg, live, Launching(phase.picked), known, spent, limit, cap)
  {
    FewerCost(|Owing(live)| + |phase.picked|, |Owing(live)| + Promised(phase), cap);
  }

  // --- The same of the machine -------------------------------------------------------------------

  ghost function Known(log: seq<Event>): set<string> {
    Fold(log).tickets.Keys
  }

  function ChargedBy(e: Event, m: Meter): real {
    if ChargeOf(e.body).Some? then Weight(ChargeOf(e.body).value, m) else 0.0
  }

  /** Appending an event keeps what is known and moves the run's meter by what it charges. */
  lemma AppendSpends(cfg: Config, log: seq<Event>, e: Event, m: Meter)
    requires e.num > cfg.since
    ensures Known(log) <= Known(log + [e])
    ensures Spent(cfg, log + [e], m) == Spent(cfg, log, m) + ChargedBy(e, m)
  {
    assert (log + [e])[..|log|] == log;
    TransitionIsLocal(Fold(log), e);
    if ChargeOf(e.body).Some? { AddReads(UsageOf(log, RunWindow(cfg.since)).spend, ChargeOf(e.body).value, m); }
  }

  /** The event a step appends, if it appends one. */
  function Appends(sys: Sys, step: Step): Option<Event> {
    var num := |sys.log| + 1;
    match step
    case Claim(id, ts) =>
      if id in sys.live && sys.live[id] == Launched
      then Some(ClaimOf(id, ts).(num := num)) else None
    case Note(e) => if ChargeOf(e.body).None? then Some(e.(num := num)) else None
    case Close(id, e) => if id in sys.live && sys.live[id] == Working then Some(e.(num := num)) else None
    case _ => None
  }

  lemma AppendsIsNext(cfg: Config, sys: Sys, step: Step)
    ensures Next(cfg, sys, step).log == sys.log + if Appends(sys, step).Some? then [Appends(sys, step).value] else []
  {
    if Appends(sys, step).None? { assert sys.log + [] == sys.log; }
  }

  lemma WorkerKeepsInv(cfg: Config, sys: Sys, step: Step, m: Meter, known: set<string>, known': set<string>,
                       spent: real, limit: real, cap: real)
    requires Inv(cfg, sys.live, sys.phase, known, spent, limit, cap) && known <= known' && cap >= 0.0
    requires Capped(step, m, cap)
    requires Appends(sys, step).Some?
    ensures var sys' := Next(cfg, sys, step);
            Inv(cfg, sys'.live, sys'.phase, known', spent + ChargedBy(Appends(sys, step).value, m), limit, cap)
  {
    match step {
      case Claim(id, _) =>
        assert Owing(sys.live[id := Working]) == Owing(sys.live);
        NoteKeepsInv(cfg, sys.live, sys.live[id := Working], sys.phase, known, known', spent, limit, cap);
      case Note(_) => NoteKeepsInv(cfg, sys.live, sys.live, sys.phase, known, known', spent, limit, cap);
      case Close(id, e) => CloseKeepsInv(cfg, sys.live, sys.phase, known, known', id, spent, ChargedBy(e, m), limit,
                                         cap);
    }
  }

  lemma SnapKeepsInv(cfg: Config, sys: Sys, known: set<string>, spent: real, limit: real, cap: real)
    requires Inv(cfg, sys.live, sys.phase, known, spent, limit, cap) && sys.phase.Idle? && known == Known(sys.log)
    ensures Inv(cfg, sys.live, Snapped(Fold(sys.log)), known, spent, limit, cap)
  {
    TotalIsTicketSum(sys.log, Tokens);
  }

  ghost predicate SysInv(cfg: Config, sys: Sys, known: set<string>, spent: real, limit: real, cap: real) {
    Inv(cfg, sys.live, sys.phase, known, spent, limit, cap)
  }

  lemma ChooseKeepsInv(cfg: Config, sys: Sys, id: string, known: set<string>, spent: real, limit: real, cap: real)
    requires SysInv(cfg, sys, known, spent, limit, cap)
    ensures SysInv(cfg, Choose(sys, id), known, spent, limit, cap)
  {
    var sys' := Choose(sys, id);
    if sys' != sys {
      assert sys'.live == sys.live && sys'.phase == sys.phase.(picked := sys.phase.picked + [id]);
      assert Promised(sys'.phase) == Promised(sys.phase);
      assert Exposure(sys'.live, sys'.phase, spent, cap) == Exposure(sys.live, sys.phase, spent, cap);
    }
  }

  lemma LaunchStepKeepsInv(cfg: Config, sys: Sys, known: set<string>, spent: real, limit: real, cap: real)
    requires SysInv(cfg, sys, known, spent, limit, cap) && cap >= 0.0
    ensures SysInv(cfg, LaunchNext(sys), known, spent, limit, cap)
  {
    if sys.phase.Launching? {
      if sys.phase.todo == [] {
        assert Exposure(sys.live, Idle, spent, cap) == Exposure(sys.live, sys.phase, spent, cap);
      } else {
        LaunchKeepsInv(cfg, sys.live, sys.phase.todo, known, spent, limit, cap);
      }
    }
  }

  /** Steps of the Scheduler and exits, none of which appends. */
  lemma QuietKeepsInv(cfg: Config, sys: Sys, step: Step, known: set<string>, spent: real, limit: real, cap: real)
    requires SysInv(cfg, sys, known, spent, limit, cap) && cap >= 0.0
    requires step.Count? || step.Consider? || step.StartLaunching? || step.Launch? || step.Exit?
    ensures SysInv(cfg, Next(cfg, sys, step), known, spent, limit, cap)
  {
    if step.Count? {
      assert Next(cfg, sys, step) == CountSlots(cfg, sys);
      if sys.phase.Snapped? { CountKeepsInv(cfg, sys.live, sys.phase.s, known, spent, limit, cap); }
    } else if step.Consider? {
      assert Next(cfg, sys, step) == Choose(sys, step.id);
      ChooseKeepsInv(cfg, sys, step.id, known, spent, limit, cap);
    } else if step.StartLaunching? {
      if sys.phase.Picking? { StartKeepsInv(cfg, sys.live, sys.phase, known, spent, limit, cap); }
    } else if step.Launch? {
      assert Next(cfg, sys, step) == LaunchNext(sys);
      LaunchStepKeepsInv(cfg, sys, known, spent, limit, cap);
    } else {
      ExitKeepsInv(cfg, sys.live, sys.phase, known, step.id, spent, limit, cap);
    }
  }

  /** A read that lets work start finds the run below its limit. */
  lemma ReadSpendIsBelow(cfg: Config, sys: Sys, m: Meter, limit: real)
    requires Limit(cfg, m, limit) && sys.phase.Counted?
    ensures var slots' := Next(cfg, sys, ReadSpend).phase.slots;
            slots' == 0 || (slots' == sys.phase.slots && Spent(cfg, sys.log, m) < limit)
  {
  }

  lemma {:induction false} NothingYet(log: seq<Event>, since: int)
    requires forall i :: 0 <= i < |log| ==> log[i].num <= since
    ensures UsageOf(log, RunWindow(since)) == Window(NO_SPEND, 0)
  {
    if log != [] { NothingYet(log[..|log| - 1], since); }
  }

  /** A run starts at the end of the log it finds. */
  ghost predicate StartsAtEnd(cfg: Config, log: seq<Event>) {
    cfg.since == |log| && forall i :: 0 <= i < |log| ==> log[i].num <= |log|
  }

  /** A step that appends nothing. */
  lemma SilentKeepsInv(cfg: Config, sys: Sys, step: Step, m: Meter, known: set<string>, spent: real, limit: real,
                       cap: real)
    requires Limit(cfg, m, limit) && cap >= 0.0 && Appends(sys, step).None?
    requires SysInv(cfg, sys, known, spent, limit, cap) && known == Known(sys.log) && spent == Spent(cfg, sys.log, m)
    ensures SysInv(cfg, Next(cfg, sys, step), known, spent, limit, cap)
  {
    if step.Snap? {
      if sys.phase.Idle? { SnapKeepsInv(cfg, sys, known, spent, limit, cap); }
    } else if step.ReadSpend? {
      if sys.phase.Counted? {
        ReadSpendIsBelow(cfg, sys, m, limit);
        var slots' := Next(cfg, sys, step).phase.slots;
        ReadSpendKeepsInv(cfg, sys.live, sys.phase.s, sys.phase.slots, slots', known, spent, limit, cap);
      }
    } else if step.Count? || step.Consider? || step.StartLaunching? || step.Launch? || step.Exit? {
      QuietKeepsInv(cfg, sys, step, known, spent, limit, cap);
    }
  }

  /** A step that appends an event. */
  lemma LoudKeepsInv(cfg: Config, sys: Sys, step: Step, e: Event, m: Meter, known: set<string>, spent: real,
                     limit: real, cap: real)
    returns (known': set<string>, spent': real)
    requires Appends(sys, step) == Some(e) && cfg.since <= |sys.log| && cap >= 0.0 && Capped(step, m, cap)
    requires SysInv(cfg, sys, known, spent, limit, cap) && known == Known(sys.log) && spent == Spent(cfg, sys.log, m)
    ensures known' == Known(sys.log + [e]) && spent' == Spent(cfg, sys.log + [e], m)
    ensures SysInv(cfg, Next(cfg, sys, step), known', spent', limit, cap)
  {
    AppendSpends(cfg, sys.log, e, m);
    known', spent' := Known(sys.log + [e]), spent + ChargedBy(e, m);
    WorkerKeepsInv(cfg, sys, step, m, known, known', spent, limit, cap);
  }

  lemma NextKeepsInv(cfg: Config, sys: Sys, step: Step, m: Meter, known: set<string>, spent: real, limit: real,
                     cap: real)
    returns (known': set<string>, spent': real)
    requires cfg.since <= |sys.log| && Limit(cfg, m, limit) && cap >= 0.0 && Capped(step, m, cap)
    requires SysInv(cfg, sys, known, spent, limit, cap) && known == Known(sys.log) && spent == Spent(cfg, sys.log, m)
    ensures var sys' := Next(cfg, sys, step);
            && known' == Known(sys'.log) && spent' == Spent(cfg, sys'.log, m) && cfg.since <= |sys'.log|
            && SysInv(cfg, sys', known', spent', limit, cap)
  {
    AppendsIsNext(cfg, sys, step);
    if Appends(sys, step).Some? {
      known', spent' := LoudKeepsInv(cfg, sys, step, Appends(sys, step).value, m, known, spent, limit, cap);
    } else {
      assert sys.log + [] == sys.log;
      SilentKeepsInv(cfg, sys, step, m, known, spent, limit, cap);
      known', spent' := known, spent;
    }
  }

  lemma {:induction false} RunKeepsInv(cfg: Config, log: seq<Event>, steps: seq<Step>, m: Meter, limit: real, cap: real)
    returns (known: set<string>, spent: real)
    requires StartsAtEnd(cfg, log) && Limit(cfg, m, limit) && cap >= 0.0
    requires forall i :: 0 <= i < |steps| ==> Capped(steps[i], m, cap)
    ensures var sys := Run(cfg, log, steps);
            && known == Known(sys.log) && spent == Spent(cfg, sys.log, m) && cfg.since <= |sys.log|
            && SysInv(cfg, sys, known, spent, limit, cap)
  {
    if steps == [] {
      known, spent := Known(log), 0.0;
      NothingYet(log, |log|);
      NothingRead(m);
      FewerCost(0, cfg.concurrency, cap);
    } else {
      var init, step := steps[..|steps| - 1], steps[|steps| - 1];
      known, spent := RunKeepsInv(cfg, log, init, m, limit, cap);
      known, spent := NextKeepsInv(cfg, Run(cfg, log, init), step, m, known, spent, limit, cap);
    }
  }

  /** Under every interleaving: at most `concurrency` attempts are ever live, and what
      the run spends, in tokens or in dollars, stays below its limit plus
      `concurrency` times the most any one attempt is charged. */
  lemma OvershootIsBounded(cfg: Config, log: seq<Event>, steps: seq<Step>, m: Meter, limit: real, cap: real)
    requires StartsAtEnd(cfg, log) && Limit(cfg, m, limit) && cap >= 0.0
    requires forall i :: 0 <= i < |steps| ==> Capped(steps[i], m, cap)
    ensures var sys := Run(cfg, log, steps);
            |sys.live| <= cfg.concurrency && Spent(cfg, sys.log, m) < limit + cfg.concurrency as real * cap
  {
    var known, spent := RunKeepsInv(cfg, log, steps, m, limit, cap);
    var sys := Run(cfg, log, steps);
    Bounded(cfg, sys.live, sys.phase, known, spent, limit, cap);
  }

  lemma Bounded(cfg: Config, live: map<string, Worker>, phase: Phase, known: set<string>, spent: real, limit: real,
                cap: real)
    requires Inv(cfg, live, phase, known, spent, limit, cap) && cap >= 0.0
    ensures |live| <= cfg.concurrency && spent < limit + cfg.concurrency as real * cap
  {
    FewerCost(0, |Owing(live)| + Promised(phase), cap);
    TimesIsProduct(cfg.concurrency, cap);
  }
}
