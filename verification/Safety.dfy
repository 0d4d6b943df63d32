/** The Scheduler machine's invariant, and what it says of every run. */
module Safety {
  import opened Events
  import opened Spending
  import opened Replay
  import opened TaskGraph
  import opened Plans
  import opened History
  import opened Lifecycle
  import opened Scheduler
  import D = Decompose
  import G = GraphGrowth

  // --- The invariant -----------------------------------------------------------------------------

  /** A decomposition is of its own ticket, into children of the ticket's Goal whose ids
      extend the ticket's. */
  predicate PlanOk(s: State, id: string, plan: D.InFlight)
    requires id in s.tickets
  {
    && plan.job.ticketId == id && plan.job.goalId == s.tickets[id].origin.goalId && plan.worker == WorkerOf(id)
    && forall c :: c in plan.todo ==> IsUnder(c.id, id)
  }

  predicate IsUnder(child: string, id: string) {
    |child| > |id| && child[..|id| + 1] == id + "/"
  }

  predicate JobOk(s: State, id: string, job: Job) {
    id in s.tickets && InHand(s.tickets[id]) && (job.Splitting? ==> PlanOk(s, id, job.plan))
  }

  ghost predicate JobsOk(s: State, jobs: map<string, Job>) {
    forall id :: id in jobs ==> JobOk(s, id, jobs[id])
  }

  /** The creation of a Goal's first ticket. */
  predicate IsSeed(b: Body) {
    b.TicketCreated? && D.Slashless(b.goalId) && b == G.SeedBody(b.goalId, b.title)
  }

  lemma SeedIsOfGoal(b: Body)
    requires IsSeed(b)
    ensures OfGoal(b.ticketId, b.goalId)
  {
    assert '/' !in b.goalId + "-impl";
    RootOfSlashless(b.ticketId);
  }

  /** An append a step decided on is still legal when its turn comes. */
  ghost predicate Due(s: State, jobs: map<string, Job>, b: Body) {
    || IsSeed(b)
    || b.GoalBudgetExceeded?
    || (b.TicketReady? && b.ticketId in s.tickets && DepsSatisfied(s, s.tickets[b.ticketId]))
    || (b.TicketFailed? && b.ticketId in s.tickets && !InHand(s.tickets[b.ticketId]) && ChargeOf(b).None?)
    || ((b.WorkerStalled? || b.WorkerRestarted?) && b.ticketId in s.tickets && InHand(s.tickets[b.ticketId]) &&
          b.ticketId !in jobs && b.worker == WorkerOf(b.ticketId))
  }

  /** Only the last append of a plan may take a ticket out of hand. */
  ghost predicate AllDue(s: State, jobs: map<string, Job>, todo: seq<Body>) {
    && (forall b :: b in todo ==> Due(s, jobs, b))
    && forall i :: 0 <= i < |todo| - 1 ==> !todo[i].WorkerRestarted?
  }

  /** A proposal in the queue is as the log has it. */
  predicate Current(s: State, t: Ticket) {
    t.origin.id in s.tickets && s.tickets[t.origin.id] == t && t.status == Proposed
  }

  ghost predicate QueueOk(s: State, queue: seq<Ticket>) {
    && (forall t :: t in queue ==> Current(s, t))
    && forall i, j :: 0 <= i < j < |queue| ==> queue[i].origin.id != queue[j].origin.id
  }

  /** Any cancel of the ticket's Goal came after its last proposal or approval. */
  predicate CancelOk(a: Marks, t: Ticket) {
    At(a.cancelledAt, t.origin.goalId) > 0 ==> At(a.movedAt, t.origin.id) <= At(a.cancelledAt, t.origin.goalId)
  }

  /** c is the merge of a branch onto tip. */
  predicate Onto(c: Commit, tip: Commit, branch: string) {
    if HasBranch(tip, branch) then c == tip else c.Join? && c.onto == tip && c.side == branch
  }

  ghost predicate StageOk(cfg: Config, a: Marks, tips: map<string, Commit>, t: Ticket, stage: Stage) {
    var g := t.origin.goalId;
    match stage
    case Waiting => true
    case Landing(c) => cfg.gate(c) && (cfg.opt.prMode ==> g in tips && Onto(c, tips[g], t.candidate.branch))
    case Kept(c) => cfg.gate(c) && (cfg.opt.prMode ==> g in tips && tips[g] == c)
    case Recorded(c) => cfg.gate(c) && (cfg.opt.prMode ==> g in tips && tips[g] == c) && PassedSince(a, t.origin.id)
    case Parking(_) => !t.approved
    case Parked(_) => !t.approved && PassedSince(a, t.origin.id)
  }

  ghost predicate Pushable(cfg: Config, s: State, lands: Landings, br: Branches, g: string, tip: Commit) {
    && cfg.opt.prMode && g in s.goals && !s.goals[g].delivered && GoalComplete(s, g)
    && g in br.tips && br.tips[g] == tip && g in lands.last && (g in br.lost || lands.last[g] == tip)
  }

  ghost predicate PhaseOk(cfg: Config, s: State, a: Marks, lands: Landings, jobs: map<string, Job>, br: Branches,
                          phase: Phase) {
    match phase
    case Resting => true
    case Emitting(todo) => AllDue(s, jobs, todo)
    case Draining(queue, clear, stage) =>
      && QueueOk(s, queue) && clear <= |queue| && (forall i :: 0 <= i < clear ==> CancelOk(a, queue[i]))
      && (stage != Waiting ==> clear > 0 && StageOk(cfg, a, br.tips, queue[0], stage))
    case Delivering(_) => cfg.opt.prMode
    case Pushing(g, tip, _) => Pushable(cfg, s, lands, br, g, tip)
  }

  /** A ticket whose work may be on its Goal's branch without being recorded as
      merged: it is still to be merged, or it failed, so its Goal is not complete. */
  predicate Witness(t: Ticket, tip: Commit, g: string) {
    t.origin.goalId == g &&
    (t.status == Failed || ((t.status == Proposed || t.status == Awaiting) && HasBranch(tip, t.candidate.branch)))
  }

  ghost predicate Witnessed(s: State, tip: Commit, g: string) {
    exists id :: id in s.tickets && Witness(s.tickets[id], tip, g)
  }

  ghost predicate TipOk(s: State, lands: Landings, br: Branches, g: string) {
    g in lands.last ==> g in br.tips && (g in br.lost || lands.last[g] == br.tips[g] || Witnessed(s, br.tips[g], g))
  }

  /** A Goal that lost track of its branch: the tip is not its latest merge. */
  predicate LostOk(lands: Landings, br: Branches) {
    forall g :: g in br.lost ==> g in br.tips && LastMerge(lands, g) != br.tips[g]
  }

  /** A tip grew from the base its branch was cut from, by merges the Gate passed. */
  predicate GrownFromBase(cfg: Config, br: Branches, g: string)
    requires g in br.tips
  {
    && g in br.bases && br.bases[g].Root? && Under(br.bases[g], br.tips[g])
    && (br.tips[g] == br.bases[g] || cfg.gate(br.tips[g]))
  }

  ghost predicate TipsOk(cfg: Config, s: State, lands: Landings, br: Branches) {
    && br.bases.Keys == br.tips.Keys && (forall g :: g in br.tips ==> GrownFromBase(cfg, br, g))
    && (forall p :: p in lands.all ==> p.0 in br.tips && Under(p.1, br.tips[p.0]) && cfg.gate(p.1))
    && (forall g :: g in lands.last ==> (g, lands.last[g]) in lands.all)
    && LostOk(lands, br)
    && (forall g :: TipOk(s, lands, br, g))
    && (forall g :: g in s.goals && s.goals[g].branch != "" ==> g in lands.last)
  }

  ghost predicate GoalsPlain(s: State) {
    forall g :: g in s.goals ==> D.Slashless(g)
  }

  ghost predicate Inv(cfg: Config, sys: Sys) {
    && Core(|sys.log|, sys.state, sys.marks)
    && GoalsPlain(sys.state)
    && JobsOk(sys.state, sys.jobs)
    && PhaseOk(cfg, sys.state, sys.marks, sys.lands, sys.jobs, sys.br, sys.phase)
    && (if cfg.opt.prMode then TipsOk(cfg, sys.state, sys.lands, sys.br) else sys.br == NO_BRANCHES)
  }

  // --- Appending ---------------------------------------------------------------------------------

  /** sys' has one event more, whatever else a step changed. */
  ghost predicate Grew(sys: Sys, sys': Sys, e: Event) {
    && e.num == |sys.log| + 1 && sys'.log == sys.log + [e]
    && After(sys.state, e, sys'.state)
    && sys'.marks == Mark(sys.marks, e) && sys'.lands == Land(sys.lands, sys'.state, e)
  }

  lemma AppendGrows(sys: Sys, ts: int, actor: string, b: Body) returns (e: Event)
    ensures e == Event(|sys.log| + 1, ts, actor, b) && Grew(sys, Append(sys, ts, actor, b), e)
    ensures var sys' := Append(sys, ts, actor, b);
            sys'.jobs == sys.jobs && sys'.phase == sys.phase && sys'.br == sys.br
  {
    e := Event(|sys.log| + 1, ts, actor, b);
    var sys' := Append(sys, ts, actor, b);
    assert sys'.state == Apply(sys.state, e);
    ApplyIsAfter(sys.state, e);
  }

  lemma PlainKept(s: State, e: Event, s': State)
    requires GoalsPlain(s) && After(s, e, s') && (e.body.GoalSubmitted? ==> D.Slashless(e.body.goalId))
    ensures GoalsPlain(s')
  {
  }

  lemma JobKept(s: State, e: Event, s': State, id: string, job: Job)
    requires JobOk(s, id, job) && Onward(s, e, s') && (Moves(e, id) ==> InHand(s'.tickets[id]))
    ensures JobOk(s', id, job)
  {
    assert OnwardAt(s, e, s', id);
  }

  /** An append still due is due after any event but a claim, unless the event itself
      took its ticket out of hand. */
  lemma DueKept(s: State, e: Event, s': State, jobs: map<string, Job>, jobs': map<string, Job>, b: Body)
    requires Due(s, jobs, b) && Onward(s, e, s') && !e.body.TicketClaimed? && jobs'.Keys <= jobs.Keys
    requires (b.WorkerStalled? || b.WorkerRestarted?) && Moves(e, b.ticketId) ==> InHand(s'.tickets[b.ticketId])
    ensures Due(s', jobs', b)
  {
    if NamesTicket(b) && !b.TicketCreated? && b.ticketId in s.tickets {
      assert OnwardAt(s, e, s', b.ticketId);
      if b.TicketReady? { DepsKept(s, s', s.tickets[b.ticketId], s'.tickets[b.ticketId]); }
    }
  }

  /** Events by workers and front doors move only tickets in hand of a live worker, or
      parked ones; any other they name stays as it is. */
  ghost predicate Bystander(s: State, jobs: map<string, Job>, e: Event, s': State) {
    && !e.body.TicketClaimed? && !e.body.Merged? && !e.body.Delivered?
    && (e.body.ProposalSubmitted? ==> e.body.ticketId in jobs)
    && (e.body.ApprovalGranted? ==> e.body.ticketId in s.tickets && s.tickets[e.body.ticketId].status == Awaiting)
    && (forall id :: id in s.tickets && Moves(e, id) ==>
          id in jobs || (id in s'.tickets && s'.tickets[id] == s.tickets[id]) ||
          (s.tickets[id].status == Awaiting && (e.body.ApprovalGranted? || e.body.ApprovalDenied?)))
    && (e.body.TicketCreated? ==>
          exists id :: id in s.tickets && InHand(s.tickets[id]) && s.tickets[id].origin.goalId == e.body.goalId)
  }

  lemma CurrentKept(s: State, jobs: map<string, Job>, e: Event, s': State, t: Ticket)
    requires Current(s, t) && Onward(s, e, s') && Bystander(s, jobs, e, s') && JobsOk(s, jobs)
    ensures Current(s', t)
  {
    assert OnwardAt(s, e, s', t.origin.id);
    assert t.origin.id in jobs ==> JobOk(s, t.origin.id, jobs[t.origin.id]);
  }

  /** What the marks say of a queued ticket does not change under others' events,
      except that its Goal may be cancelled, and then later than it moved. */
  lemma MarksStay(n: int, s: State, jobs: map<string, Job>, a: Marks, e: Event, s': State, t: Ticket)
    requires Current(s, t) && Bystander(s, jobs, e, s') && JobsOk(s, jobs) && Onward(s, e, s') && Dated(n, a)
    requires e.num == n + 1
    requires t.origin.id !in jobs
    ensures CancelOk(a, t) ==> CancelOk(Mark(a, e), t)
    ensures PassedSince(a, t.origin.id) ==> PassedSince(Mark(a, e), t.origin.id)
  {
    assert 0 <= At(a.movedAt, t.origin.id) <= n && At(a.proposedAt, t.origin.id) <= n &&
        At(a.passedAt, t.origin.id) <= n;
    assert 0 <= At(a.cancelledAt, t.origin.goalId);
  }

  lemma GoalStaysComplete(s: State, jobs: map<string, Job>, e: Event, s': State, g: string)
    requires GoalComplete(s, g) && After(s, e, s') && Onward(s, e, s') && Bystander(s, jobs, e, s')
    ensures GoalComplete(s', g)
  {
    VerdictsStay(s, s');
    var x :| x in s.tickets && s.tickets[x].origin.goalId == g;
    assert OnwardAt(s, e, s', x);
    forall p | p in s.tickets && s.tickets[p].origin.goalId == g
        ensures !InHand(s.tickets[p]) { assert Complete(s, p); }
    assert e.body.TicketCreated? ==> e.body.goalId != g;
    forall id | id in s'.tickets && s'.tickets[id].origin.goalId == g ensures Complete(s', id) {
      if id in s.tickets { assert OnwardAt(s, e, s', id); }
    }
  }

  // --- Others' events leave the Scheduler's phase in order ---------------------------------------

  lemma QueueKept(n: int, s: State, jobs: map<string, Job>, a: Marks, e: Event, s': State, queue: seq<Ticket>,
                  clear: nat)
    requires QueueOk(s, queue) && clear <= |queue| && (forall i :: 0 <= i < clear ==> CancelOk(a, queue[i]))
    requires Onward(s, e, s') && Bystander(s, jobs, e, s') && JobsOk(s, jobs) && Dated(n, a) && e.num == n + 1
    ensures QueueOk(s', queue) && (forall i :: 0 <= i < clear ==> CancelOk(Mark(a, e), queue[i]))
    ensures forall t :: t in queue && PassedSince(a, t.origin.id) ==> PassedSince(Mark(a, e), t.origin.id)
  {
    forall t | t in queue
      ensures Current(s', t) && (CancelOk(a, t) ==> CancelOk(Mark(a, e), t))
      ensures PassedSince(a, t.origin.id) ==> PassedSince(Mark(a, e), t.origin.id)
    {
      CurrentKept(s, jobs, e, s', t);
      assert t.origin.id in jobs ==> JobOk(s, t.origin.id, jobs[t.origin.id]);
      assert OnwardAt(s, e, s', t.origin.id);
      MarksStay(n, s, jobs, a, e, s', t);
    }
  }

  lemma WitnessKept(s: State, jobs: map<string, Job>, e: Event, s': State, tip: Commit, g: string)
    requires Onward(s, e, s') && Bystander(s, jobs, e, s') && JobsOk(s, jobs) && Witnessed(s, tip, g)
    ensures Witnessed(s', tip, g)
  {
    var id :| id in s.tickets && Witness(s.tickets[id], tip, g);
    assert OnwardAt(s, e, s', id);
    assert id in jobs ==> JobOk(s, id, jobs[id]);
    assert Witness(s'.tickets[id], tip, g);
  }

  lemma TipsKeptByOthers(cfg: Config, s: State, lands: Landings, jobs: map<string, Job>, br: Branches, e: Event,
                         s': State)
    requires TipsOk(cfg, s, lands, br) && After(s, e, s') && Onward(s, e, s') && Bystander(s, jobs, e, s')
    requires JobsOk(s, jobs)
    ensures TipsOk(cfg, s', lands, br)
  {
    forall g ensures TipOk(s', lands, br, g) {
      assert TipOk(s, lands, br, g);
      if g in lands.last && g !in br.lost && lands.last[g] != br.tips[g] { WitnessKept(s, jobs, e, s', br.tips[g], g); }
    }
    forall g | g in s'.goals && s'.goals[g].branch != "" ensures g in lands.last {
      if g in s.goals { assert GoalBecomes(s, e, g, s'.goals[g]); }
    }
  }

  lemma PushKept(cfg: Config, s: State, lands: Landings, jobs: map<string, Job>, br: Branches, e: Event, s': State,
                 g: string, tip: Commit)
    requires Pushable(cfg, s, lands, br, g, tip)
    requires After(s, e, s') && Onward(s, e, s') && Bystander(s, jobs, e, s')
    ensures Pushable(cfg, s', lands, br, g, tip)
  {
    GoalStaysComplete(s, jobs, e, s', g);
    assert GoalBecomes(s, e, g, s'.goals[g]);
  }

  lemma DueKeptByOthers(s: State, jobs: map<string, Job>, jobs': map<string, Job>, e: Event, s': State, todo: seq<Body>)
    requires AllDue(s, jobs, todo) && Onward(s, e, s') && Bystander(s, jobs, e, s') && jobs'.Keys <= jobs.Keys
    ensures AllDue(s', jobs', todo)
  {
    forall b | b in todo ensures Due(s', jobs', b) {
      DueKept(s, e, s', jobs, jobs', b);
    }
  }

  lemma PhaseKeptByOthers(cfg: Config, n: int, s: State, a: Marks, lands: Landings, jobs: map<string, Job>,
                          jobs': map<string, Job>,
                          br: Branches, phase: Phase, e: Event, s': State)
    requires PhaseOk(cfg, s, a, lands, jobs, br, phase) && jobs'.Keys <= jobs.Keys
    requires After(s, e, s') && Onward(s, e, s') && Bystander(s, jobs, e, s') && JobsOk(s, jobs) && Dated(n, a)
    requires e.num == n + 1
    ensures PhaseOk(cfg, s', Mark(a, e), lands, jobs', br, phase)
  {
    match phase {
      case Resting =>
      case Delivering(_) =>
      case Emitting(todo) => DueKeptByOthers(s, jobs, jobs', e, s', todo);
      case Pushing(g, tip, _) => PushKept(cfg, s, lands, jobs, br, e, s', g, tip);
      case Draining(queue, clear, stage) =>
        QueueKept(n, s, jobs, a, e, s', queue, clear);
        if stage != Waiting { assert queue[0] in queue; }
    }
  }

  // --- Steps -------------------------------------------------------------------------------------

  /** What a step puts on the log keeps every rule. */
  ghost predicate Writes(sys: Sys, sys': Sys, w: Option<Event>) {
    match w
    case None => sys'.log == sys.log && sys'.state == sys.state && sys'.marks == sys.marks && sys'.lands == sys.lands
    case Some(e) =>
      && Grew(sys, sys', e) && Lawful(sys.marks, sys.state, e) && Settles(sys.state, sys'.state)
      && (e.body.Merged? ==> e.body.ticketId in sys.state.tickets) && DeliversAsKnown(sys, e)
  }

  /** A delivery is of the Goal's latest merge exactly if the Goal has not lost track
      of its branch. */
  predicate DeliversAsKnown(sys: Sys, e: Event) {
    e.body.Delivered? ==>
      e.body.goalId in sys.lands.last && (DeliveryIsExact(sys.lands, e) <==> e.body.goalId !in sys.br.lost)
  }

  /** An event by a worker or a front door. */
  ghost predicate ByOther(sys: Sys, sys': Sys, e: Event) {
    && Grew(sys, sys', e) && Legal(sys.state, sys.marks, e.body) && Bystander(sys.state, sys.jobs, e, sys'.state)
    && sys'.jobs.Keys <= sys.jobs.Keys && sys'.phase == sys.phase && sys'.br == sys.br
    && (e.body.GoalSubmitted? ==> D.Slashless(e.body.goalId))
  }

  lemma OthersAreLawful(cfg: Config, sys: Sys, sys': Sys, e: Event)
    requires Inv(cfg, sys) && ByOther(sys, sys', e)
    ensures Writes(sys, sys', Some(e)) && Onward(sys.state, e, sys'.state) && Core(|sys'.log|, sys'.state, sys'.marks)
  {
    CoreKept(|sys.log|, sys.state, sys.marks, e, sys'.state);
    LegalIsLawful(|sys.log|, sys.state, sys.marks, e);
  }

  lemma OthersKeepInv(cfg: Config, sys: Sys, sys': Sys, e: Event)
    requires Inv(cfg, sys) && ByOther(sys, sys', e) && JobsOk(sys'.state, sys'.jobs)
    ensures Inv(cfg, sys') && Writes(sys, sys', Some(e))
  {
    var s, s' := sys.state, sys'.state;
    OthersAreLawful(cfg, sys, sys', e);
    PlainKept(s, e, s');
    assert sys'.lands == sys.lands;
    PhaseKeptByOthers(cfg, |sys.log|, s, sys.marks, sys.lands, sys.jobs, sys'.jobs, sys.br, sys.phase, e, s');
    if cfg.opt.prMode { TipsKeptByOthers(cfg, s, sys.lands, sys.jobs, sys.br, e, s'); }
  }

  /** The jobs a worker's event leaves as they were. */
  lemma OtherJobsKept(sys: Sys, e: Event, s': State, id: string)
    requires JobsOk(sys.state, sys.jobs) && Onward(sys.state, e, s') && forall x :: Moves(e, x) ==> x == id
    ensures JobsOk(s', sys.jobs - {id})
  {
    forall x | x in sys.jobs && x != id ensures JobOk(s', x, sys.jobs[x]) {
      JobKept(sys.state, e, s', x, sys.jobs[x]);
    }
  }

  // --- Workers -----------------------------------------------------------------------------------

  predicate EndsAttempt(id: string, b: Body) {
    (b.TicketInvalidated? || b.ProposalSubmitted? || b.WorkerRestarted? || b.TicketFailed? || b.TicketDecomposed?) &&
    b.ticketId == id && b.worker == WorkerOf(id)
  }

  predicate CarriesOn(id: string, b: Body) {
    (b.WorkStarted? || b.Heartbeat? || b.TicketAmended?) && b.ticketId == id
  }

  /** A worker's event about its own ticket. */
  predicate OwnEvent(id: string, b: Body) { EndsAttempt(id, b) || CarriesOn(id, b) }

  lemma OwnIsLegalOn(s: State, t: Ticket, a: Marks, id: string, b: Body)
    requires TicketOk(id, t) && InHand(t) && OwnEvent(id, b)
    ensures LegalOn(s, t, a, b)
  {
  }

  lemma OwnIsLegal(s: State, a: Marks, id: string, b: Body)
    requires id in s.tickets && TicketOk(id, s.tickets[id]) && InHand(s.tickets[id]) && OwnEvent(id, b)
    ensures Legal(s, a, b)
  {
    OwnIsLegalOn(s, s.tickets[id], a, id, b);
  }

  lemma OwnIsBystander(s: State, jobs: map<string, Job>, id: string, e: Event, s': State)
    requires id in jobs && OwnEvent(id, e.body)
    ensures Bystander(s, jobs, e, s')
  {
  }

  /** A worker's event, and the jobs after it. */
  ghost predicate ByWorker(sys: Sys, sys': Sys, e: Event, jobs': map<string, Job>) {
    Grew(sys, sys', e) && sys'.jobs == jobs' && sys'.phase == sys.phase && sys'.br == sys.br
  }

  lemma HeldByJob(n: int, s: State, a: Marks, jobs: map<string, Job>, id: string)
    requires Core(n, s, a) && JobsOk(s, jobs) && id in jobs
    ensures id in s.tickets && TicketOk(id, s.tickets[id]) && InHand(s.tickets[id])
  {
    assert JobOk(s, id, jobs[id]) && Fits(id, s, s.tickets[id], a);
  }

  lemma OwnFacts(n: int, s: State, a: Marks, jobs: map<string, Job>, id: string, e: Event, s': State)
    requires Core(n, s, a) && JobsOk(s, jobs) && id in jobs && OwnEvent(id, e.body)
    ensures Legal(s, a, e.body) && Bystander(s, jobs, e, s') && !e.body.GoalSubmitted?
  {
    HeldByJob(n, s, a, jobs, id);
    OwnIsLegal(s, a, id, e.body);
    OwnIsBystander(s, jobs, id, e, s');
  }

  lemma OwnIsByOther(sys: Sys, sys': Sys, id: string, e: Event, jobs': map<string, Job>)
    requires Core(|sys.log|, sys.state, sys.marks) && JobsOk(sys.state, sys.jobs)
    requires id in sys.jobs && OwnEvent(id, e.body) && ByWorker(sys, sys', e, jobs') && jobs'.Keys <= sys.jobs.Keys
    ensures ByOther(sys, sys', e)
  {
    OwnFacts(|sys.log|, sys.state, sys.marks, sys.jobs, id, e, sys'.state);
  }

  lemma StaysInHand(s: State, e: Event, s': State, id: string, was: Job, job: Job)
    requires JobOk(s, id, was) && Onward(s, e, s') && CarriesOn(id, e.body) && !job.Splitting?
    ensures JobOk(s', id, job)
  {
    assert OnwardAt(s, e, s', id);
  }

  lemma EndKept(cfg: Config, sys: Sys, sys': Sys, id: string, e: Event)
    requires Inv(cfg, sys) && id in sys.jobs && EndsAttempt(id, e.body) && ByWorker(sys, sys', e, sys.jobs - {id})
    ensures Inv(cfg, sys') && Writes(sys, sys', Some(e))
  {
    OwnIsByOther(sys, sys', id, e, sys.jobs - {id});
    OthersAreLawful(cfg, sys, sys', e);
    OtherJobsKept(sys, e, sys'.state, id);
    OthersKeepInv(cfg, sys, sys', e);
  }

  /** One job replaced by another that is in order. */
  lemma JobReplaced(s: State, jobs: map<string, Job>, id: string, job: Job)
    requires JobsOk(s, jobs - {id}) && JobOk(s, id, job)
    ensures JobsOk(s, jobs[id := job])
  {
    var jobs' := jobs[id := job];
    forall x | x in jobs' ensures JobOk(s, x, jobs'[x]) {
      if x != id { assert (jobs - {id})[x] == jobs[x]; }
    }
  }

  lemma CarryKept(cfg: Config, sys: Sys, sys': Sys, id: string, e: Event, job: Job)
    requires Inv(cfg, sys) && id in sys.jobs && CarriesOn(id, e.body) && !job.Splitting?
    requires ByWorker(sys, sys', e, sys.jobs[id := job])
    ensures Inv(cfg, sys') && Writes(sys, sys', Some(e))
  {
    OwnIsByOther(sys, sys', id, e, sys.jobs[id := job]);
    OthersAreLawful(cfg, sys, sys', e);
    OtherJobsKept(sys, e, sys'.state, id);
    StaysInHand(sys.state, e, sys'.state, id, sys.jobs[id], job);
    JobReplaced(sys'.state, sys.jobs, id, job);
    OthersKeepInv(cfg, sys, sys', e);
  }

  lemma ChildIsLegal(s: State, a: Marks, n: int, id: string, plan: D.InFlight)
    requires Core(n, s, a) && id in s.tickets && PlanOk(s, id, plan) && plan.todo != []
    ensures var b := D.NextBody(plan);
            b.TicketCreated? && b.goalId == s.tickets[id].origin.goalId && OfGoal(b.ticketId, b.goalId) &&
                Legal(s, a, b)
  {
    assert Fits(id, s, s.tickets[id], a);
    assert plan.todo[0] in plan.todo;
    RootOfChild(id, plan.todo[0].id);
  }

  lemma ChildIsBystander(s: State, jobs: map<string, Job>, id: string, e: Event, s': State)
    requires id in s.tickets && InHand(s.tickets[id]) && e.body.TicketCreated?
    requires e.body.goalId == s.tickets[id].origin.goalId
    ensures Bystander(s, jobs, e, s')
  {
  }

  lemma StillSplitting(s: State, e: Event, s': State, id: string, plan: D.InFlight)
    requires JobOk(s, id, Splitting(plan)) && Onward(s, e, s') && e.body.TicketCreated? && plan.todo != []
    ensures JobOk(s', id, Splitting(plan.(todo := plan.todo[1..])))
  {
    assert OnwardAt(s, e, s', id);
    forall c | c in plan.todo[1..] ensures c in plan.todo {}
  }

  lemma ChildIsByOther(cfg: Config, sys: Sys, sys': Sys, id: string, plan: D.InFlight, e: Event,
                       jobs': map<string, Job>)
    requires Inv(cfg, sys) && id in sys.jobs && sys.jobs[id] == Splitting(plan) && plan.todo != []
    requires e.body == D.NextBody(plan)
    requires ByWorker(sys, sys', e, jobs') && jobs'.Keys <= sys.jobs.Keys
    ensures ByOther(sys, sys', e) && e.body.TicketCreated?
  {
    assert JobOk(sys.state, id, sys.jobs[id]);
    ChildIsLegal(sys.state, sys.marks, |sys.log|, id, plan);
    ChildIsBystander(sys.state, sys.jobs, id, e, sys'.state);
  }

  lemma ChildKept(cfg: Config, sys: Sys, sys': Sys, id: string, plan: D.InFlight, e: Event)
    requires Inv(cfg, sys) && id in sys.jobs && sys.jobs[id] == Splitting(plan) && plan.todo != []
    requires e.body == D.NextBody(plan)
    requires ByWorker(sys, sys', e, sys.jobs[id := Splitting(plan.(todo := plan.todo[1..]))])
    ensures Inv(cfg, sys') && Writes(sys, sys', Some(e))
  {
    var job' := Splitting(plan.(todo := plan.todo[1..]));
    ChildIsByOther(cfg, sys, sys', id, plan, e, sys.jobs[id := job']);
    OthersAreLawful(cfg, sys, sys', e);
    OtherJobsKept(sys, e, sys'.state, id);
    StillSplitting(sys.state, e, sys'.state, id, plan);
    JobReplaced(sys'.state, sys.jobs, id, job');
    OthersKeepInv(cfg, sys, sys', e);
  }

  lemma WorkerAppends(sys: Sys, ts: int, b: Body, jobs': map<string, Job>) returns (e: Event)
    ensures e == Event(|sys.log| + 1, ts, "orchestrator", b)
    ensures ByWorker(sys, Append(sys, ts, "orchestrator", b).(jobs := jobs'), e, jobs')
  {
    e := AppendGrows(sys, ts, "orchestrator", b);
  }

  lemma FewerDue(s: State, jobs: map<string, Job>, jobs': map<string, Job>, todo: seq<Body>)
    requires AllDue(s, jobs, todo) && jobs'.Keys <= jobs.Keys
    ensures AllDue(s, jobs', todo)
  {
    forall b | b in todo ensures Due(s, jobs', b) { assert Due(s, jobs, b); }
  }

  /** Nothing is appended, and the jobs are the same or fewer, or one starts splitting. */
  lemma JobsOnly(cfg: Config, sys: Sys, jobs': map<string, Job>)
    requires Inv(cfg, sys) && jobs'.Keys <= sys.jobs.Keys && JobsOk(sys.state, jobs')
    ensures Inv(cfg, sys.(jobs := jobs'))
  {
    if sys.phase.Emitting? { FewerDue(sys.state, sys.jobs, jobs', sys.phase.todo); }
  }

  lemma BegunIsOk(s: State, id: string, subs: seq<D.Subtask>, charge: Charge)
    requires id in s.tickets
    ensures PlanOk(s, id, D.Begun(s, DispatchedAs(s, id), WorkerOf(id), subs, charge))
  {
    var j := DispatchedAs(s, id);
    forall c | c in D.New(D.Plan(s, j, subs)) ensures IsUnder(c.id, id) {
      D.NewIsNamed(s, j, subs, c);
      var i :| 0 <= i < |subs| && c.id == D.ChildId(id, subs[i].localId);
    }
  }

  lemma SplitKeepsInv(cfg: Config, sys: Sys, id: string, subs: seq<D.Subtask>, charge: Charge)
    requires Inv(cfg, sys) && id in sys.jobs && id in sys.state.tickets
    ensures var plan := D.Begun(sys.state, DispatchedAs(sys.state, id), WorkerOf(id), subs, charge);
            Inv(cfg, sys.(jobs := sys.jobs[id := Splitting(plan)]))
  {
    var job := Splitting(D.Begun(sys.state, DispatchedAs(sys.state, id), WorkerOf(id), subs, charge));
    assert JobOk(sys.state, id, sys.jobs[id]);
    BegunIsOk(sys.state, id, subs, charge);
    JobReplaced(sys.state, sys.jobs, id, job);
    JobsOnly(cfg, sys, sys.jobs[id := job]);
  }

  lemma EndKeepsInv(cfg: Config, sys: Sys, ts: int, id: string, b: Body) returns (w: Option<Event>)
    requires Inv(cfg, sys) && id in sys.jobs && EndsAttempt(id, b)
    ensures var sys' := EndJob(sys, ts, id, b);
            Inv(cfg, sys') && Writes(sys, sys', w)
  {
    var e := WorkerAppends(sys, ts, b, sys.jobs - {id});
    EndKept(cfg, sys, EndJob(sys, ts, id, b), id, e);
    w := Some(e);
  }

  lemma CarryKeepsInv(cfg: Config, sys: Sys, ts: int, id: string, b: Body, job: Job) returns (w: Option<Event>)
    requires Inv(cfg, sys) && id in sys.jobs && CarriesOn(id, b) && !job.Splitting?
    ensures var sys' := Append(sys, ts, "orchestrator", b).(jobs := sys.jobs[id := job]);
            Inv(cfg, sys') && Writes(sys, sys', w)
  {
    var e := WorkerAppends(sys, ts, b, sys.jobs[id := job]);
    CarryKept(cfg, sys, Append(sys, ts, "orchestrator", b).(jobs := sys.jobs[id := job]), id, e, job);
    w := Some(e);
  }

  lemma AppendPlanKeepsInv(cfg: Config, sys: Sys, ts: int, id: string, plan: D.InFlight) returns (w: Option<Event>)
    requires Inv(cfg, sys) && id in sys.jobs && sys.jobs[id] == Splitting(plan)
    ensures var sys' := AppendPlan(sys, ts, id, plan);
            Inv(cfg, sys') && Writes(sys, sys', w)
  {
    assert JobOk(sys.state, id, sys.jobs[id]);
    if plan.todo == [] {
      w := EndKeepsInv(cfg, sys, ts, id, D.NextBody(plan));
    } else {
      var jobs' := sys.jobs[id := Splitting(plan.(todo := plan.todo[1..]))];
      var e := WorkerAppends(sys, ts, D.NextBody(plan), jobs');
      ChildKept(cfg, sys, AppendPlan(sys, ts, id, plan), id, plan, e);
      w := Some(e);
    }
  }

  lemma CarriesKeepInv(cfg: Config, sys: Sys, ts: int, id: string, deed: Worker) returns (w: Option<Event>)
    requires Inv(cfg, sys) && (deed.Start? || deed.Beat? || deed.Retitle?)
    ensures var sys' := WorkerDoes(cfg, sys, ts, id, deed);
            Inv(cfg, sys') && Writes(sys, sys', w)
  {
    w := None;
    if id in sys.jobs {
      if deed.Start? {
        if sys.jobs[id].Launched? { w := CarryKeepsInv(cfg, sys, ts, id, WorkStarted(id, WorkerOf(id)), Working); }
      } else if sys.jobs[id].Working? {
        assert sys.jobs[id := sys.jobs[id]] == sys.jobs;
        var b := if deed.Beat? then Heartbeat(id, WorkerOf(id))
            else TicketAmended(id, WorkerOf(id), deed.title, deed.guidance);
        w := CarryKeepsInv(cfg, sys, ts, id, b, sys.jobs[id]);
      }
    }
  }

  lemma InvalidatingKeepsInv(cfg: Config, sys: Sys, ts: int, id: string, deed: Worker) returns (w: Option<Event>)
    requires Inv(cfg, sys) && deed.Invalidates?
    ensures var sys' := WorkerDoes(cfg, sys, ts, id, deed);
            Inv(cfg, sys') && Writes(sys, sys', w)
  {
    w := None;
    if id in sys.jobs && sys.jobs[id].Working? {
      var b := TicketInvalidated(id, WorkerOf(id), deed.reason);
      assert WorkerDoes(cfg, sys, ts, id, deed) == EndJob(sys, ts, id, b);
      w := EndKeepsInv(cfg, sys, ts, id, b);
    }
  }

  lemma ProposingKeepsInv(cfg: Config, sys: Sys, ts: int, id: string, deed: Worker) returns (w: Option<Event>)
    requires Inv(cfg, sys) && deed.Proposes?
    ensures var sys' := WorkerDoes(cfg, sys, ts, id, deed);
            Inv(cfg, sys') && Writes(sys, sys', w)
  {
    w := None;
    if id in sys.jobs && sys.jobs[id].Working? {
      var b := ProposalSubmitted(id, WorkerOf(id), deed.branch, deed.commit, deed.summary, deed.trace, deed.charge);
      assert WorkerDoes(cfg, sys, ts, id, deed) == EndJob(sys, ts, id, b);
      w := EndKeepsInv(cfg, sys, ts, id, b);
    }
  }

  lemma FailingKeepsInv(cfg: Config, sys: Sys, ts: int, id: string, deed: Worker) returns (w: Option<Event>)
    requires Inv(cfg, sys) && deed.Fails?
    ensures var sys' := WorkerDoes(cfg, sys, ts, id, deed);
            Inv(cfg, sys') && Writes(sys, sys', w)
  {
    w := None;
    if id in sys.jobs {
      var b := if deed.terminal then TicketFailed(id, WorkerOf(id), deed.reason, deed.worktree, deed.charge)
               else WorkerRestarted(id, WorkerOf(id), deed.reason, deed.charge);
      assert WorkerDoes(cfg, sys, ts, id, deed) == EndJob(sys, ts, id, b);
      w := EndKeepsInv(cfg, sys, ts, id, b);
    }
  }

  lemma SplitJobKeepsInv(cfg: Config, sys: Sys, ts: int, id: string, subs: seq<D.Subtask>, charge: Charge)
    returns (w: Option<Event>)
    requires Inv(cfg, sys) && id in sys.jobs && id in sys.state.tickets
    ensures var sys' := SplitJob(cfg, sys, ts, id, subs, charge);
            Inv(cfg, sys') && Writes(sys, sys', w)
  {
    w := None;
    var j := DispatchedAs(sys.state, id);
    if D.Accepts(sys.state, j, subs, cfg.gov) {
      SplitKeepsInv(cfg, sys, id, subs, charge);
    } else {
      w := EndKeepsInv(cfg, sys, ts, id, D.RefusedBody(j, WorkerOf(id), charge));
    }
  }

  lemma SplittingKeepsInv(cfg: Config, sys: Sys, ts: int, id: string, deed: Worker) returns (w: Option<Event>)
    requires Inv(cfg, sys) && (deed.Splits? || deed.AppendsPlan? || deed.Abandons?)
    ensures var sys' := WorkerDoes(cfg, sys, ts, id, deed);
            Inv(cfg, sys') && Writes(sys, sys', w)
  {
    w := None;
    if id in sys.jobs {
      var job := sys.jobs[id];
      assert JobOk(sys.state, id, job);
      if deed.Abandons? {
        JobsOnly(cfg, sys, sys.jobs - {id});
      } else if deed.Splits? {
        if job.Working? { w := SplitJobKeepsInv(cfg, sys, ts, id, deed.subs, deed.charge); }
      } else if job.Splitting? {
        w := AppendPlanKeepsInv(cfg, sys, ts, id, job.plan);
      }
    }
  }

  lemma WorkKeepsInv(cfg: Config, sys: Sys, ts: int, id: string, deed: Worker) returns (w: Option<Event>)
    requires Inv(cfg, sys)
    ensures var sys' := WorkerDoes(cfg, sys, ts, id, deed);
            Inv(cfg, sys') && Writes(sys, sys', w)
  {
    if deed.Start? || deed.Beat? || deed.Retitle? {
      w := CarriesKeepInv(cfg, sys, ts, id, deed);
    } else if deed.Invalidates? {
      w := InvalidatingKeepsInv(cfg, sys, ts, id, deed);
    } else if deed.Proposes? {
      w := ProposingKeepsInv(cfg, sys, ts, id, deed);
    } else if deed.Fails? {
      w := FailingKeepsInv(cfg, sys, ts, id, deed);
    } else {
      w := SplittingKeepsInv(cfg, sys, ts, id, deed);
    }
  }

  // --- Front doors, notes and crashes ------------------------------------------------------------

  /** What a front door appends. */
  predicate FromDoor(s: State, b: Body) {
    || (b.GoalSubmitted? && D.Slashless(b.goalId))
    || b.GoalAmended?
    || (b.GoalCancelled? && b.goalId in s.goals)
    || ((b.ApprovalGranted? || b.ApprovalDenied?) && b.ticketId in s.tickets &&
        s.tickets[b.ticketId].status == Awaiting)
  }

  lemma DoorAppends(s: State, door: FrontDoor)
    requires FrontDoorAppends(s, door).Some?
    ensures FromDoor(s, FrontDoorAppends(s, door).value)
  {
  }

  /** What the Scheduler notes without moving anything. */
  predicate IsNote(s: State, b: Body) {
    (b.RegressionEscaped? && b.ticketId in s.tickets) || b.BudgetExhausted?
  }

  lemma OutsideIsLegal(s: State, a: Marks, b: Body)
    requires FromDoor(s, b) || IsNote(s, b)
    ensures Legal(s, a, b)
  {
  }

  lemma OutsideIsBystander(s: State, jobs: map<string, Job>, e: Event, s': State)
    requires Onward(s, e, s') && (FromDoor(s, e.body) || IsNote(s, e.body))
    ensures Bystander(s, jobs, e, s')
  {
    if IsNote(s, e.body) && e.body.RegressionEscaped? { assert OnwardAt(s, e, s', e.body.ticketId); }
  }

  lemma OutsideKept(cfg: Config, sys: Sys, sys': Sys, e: Event)
    requires Inv(cfg, sys) && (FromDoor(sys.state, e.body) || IsNote(sys.state, e.body))
    requires ByWorker(sys, sys', e, sys.jobs)
    ensures Inv(cfg, sys') && Writes(sys, sys', Some(e))
  {
    OutsideIsLegal(sys.state, sys.marks, e.body);
    CoreKept(|sys.log|, sys.state, sys.marks, e, sys'.state);
    OutsideIsBystander(sys.state, sys.jobs, e, sys'.state);
    OthersAreLawful(cfg, sys, sys', e);
    OutsideLeavesJobs(sys.state, sys.jobs, e, sys'.state);
    OthersKeepInv(cfg, sys, sys', e);
  }

  lemma OutsideLeavesJobs(s: State, jobs: map<string, Job>, e: Event, s': State)
    requires JobsOk(s, jobs) && Onward(s, e, s') && (FromDoor(s, e.body) || IsNote(s, e.body))
    ensures JobsOk(s', jobs)
  {
    forall id | id in jobs ensures JobOk(s', id, jobs[id]) {
      assert JobOk(s, id, jobs[id]) && OnwardAt(s, e, s', id);
      JobKept(s, e, s', id, jobs[id]);
    }
  }

  lemma OutsideKeepsInv(cfg: Config, sys: Sys, ts: int, actor: string, b: Body) returns (w: Option<Event>)
    requires Inv(cfg, sys) && (FromDoor(sys.state, b) || IsNote(sys.state, b))
    ensures Inv(cfg, Append(sys, ts, actor, b)) && Writes(sys, Append(sys, ts, actor, b), w)
  {
    var e := AppendGrows(sys, ts, actor, b);
    OutsideKept(cfg, sys, Append(sys, ts, actor, b), e);
    w := Some(e);
  }

  lemma CrashKeepsInv(cfg: Config, sys: Sys)
    requires Inv(cfg, sys)
    ensures Inv(cfg, sys.(jobs := map[], phase := Resting))
  {
  }

  // --- The Scheduler's appends -------------------------------------------------------------------

  /** The Scheduler leaves the tickets of live workers alone. */
  ghost predicate LeavesJobs(jobs: map<string, Job>, e: Event) {
    forall id :: id in jobs ==> !Moves(e, id) || e.body.TicketReady?
  }

  lemma JobsKept(s: State, jobs: map<string, Job>, e: Event, s': State)
    requires JobsOk(s, jobs) && Onward(s, e, s') && LeavesJobs(jobs, e)
    ensures JobsOk(s', jobs)
  {
    forall id | id in jobs ensures JobOk(s', id, jobs[id]) {
      assert JobOk(s, id, jobs[id]) && OnwardAt(s, e, s', id);
      JobKept(s, e, s', id, jobs[id]);
    }
  }

  /** A refused proposal whose work is not on its Goal's branch was no witness. */
  ghost predicate RefusalIsSound(s: State, lands: Landings, br: Branches, e: Event) {
    e.body.VerificationFailed? && e.body.ticketId in s.tickets ==>
      var t := s.tickets[e.body.ticketId];
      var g := t.origin.goalId;
      g in br.tips && HasBranch(br.tips[g], t.candidate.branch) ==> g in br.lost || LastMerge(lands, g) == br.tips[g]
  }

  lemma WitnessMoves(s: State, lands: Landings, br: Branches, e: Event, s': State, g: string)
    requires Onward(s, e, s') && g in br.tips && Witnessed(s, br.tips[g], g)
    requires !e.body.Merged? && RefusalIsSound(s, lands, br, e) && g !in br.lost && LastMerge(lands, g) != br.tips[g]
    ensures Witnessed(s', br.tips[g], g)
  {
    var tip := br.tips[g];
    var id :| id in s.tickets && Witness(s.tickets[id], tip, g);
    assert OnwardAt(s, e, s', id);
    assert Witness(s'.tickets[id], tip, g);
  }

  /** The branches are as before, but for Goals that lost track of theirs. */
  predicate Loosens(lands: Landings, br: Branches, br': Branches) {
    && br'.tips == br.tips && br'.bases == br.bases && br.lost <= br'.lost
    && forall g :: g in br'.lost && g !in br.lost ==> g in br.tips && LastMerge(lands, g) != br.tips[g]
  }

  lemma TipsKept(cfg: Config, s: State, lands: Landings, br: Branches, br': Branches, e: Event, s': State)
    requires TipsOk(cfg, s, lands, br) && After(s, e, s') && Onward(s, e, s') && !e.body.Merged?
    requires Loosens(lands, br, br') && RefusalIsSound(s, lands, br', e)
    ensures TipsOk(cfg, s', lands, br')
  {
    forall g | g in br'.tips ensures GrownFromBase(cfg, br', g) { assert GrownFromBase(cfg, br, g); }
    forall g ensures TipOk(s', lands, br', g) {
      assert TipOk(s, lands, br, g);
      if g in lands.last && g !in br'.lost && lands.last[g] != br.tips[g] { WitnessMoves(s, lands, br', e, s', g); }
    }
    forall g | g in s'.goals && s'.goals[g].branch != "" ensures g in lands.last {
      if g in s.goals { assert GoalBecomes(s, e, g, s'.goals[g]); }
    }
  }

  /** The Scheduler appended e and moved to a phase that is in order. */
  ghost predicate ByScheduler(sys: Sys, sys': Sys, e: Event) {
    && Grew(sys, sys', e) && Legal(sys.state, sys.marks, e.body) && e.actor == "orchestrator"
    && sys'.jobs == sys.jobs && Loosens(sys.lands, sys.br, sys'.br)
    && LeavesJobs(sys.jobs, e) && !e.body.GoalSubmitted? && !e.body.Merged?
    && DeliversAsKnown(sys, e) && RefusalIsSound(sys.state, sys.lands, sys'.br, e)
  }

  lemma SchedulerIsLawful(cfg: Config, sys: Sys, sys': Sys, e: Event)
    requires Inv(cfg, sys) && ByScheduler(sys, sys', e)
    ensures Writes(sys, sys', Some(e)) && Onward(sys.state, e, sys'.state) && Core(|sys'.log|, sys'.state, sys'.marks)
  {
    CoreKept(|sys.log|, sys.state, sys.marks, e, sys'.state);
    LegalIsLawful(|sys.log|, sys.state, sys.marks, e);
  }

  lemma SchedulerKeepsInv(cfg: Config, sys: Sys, sys': Sys, e: Event)
    requires Inv(cfg, sys) && ByScheduler(sys, sys', e)
    requires PhaseOk(cfg, sys'.state, sys'.marks, sys'.lands, sys'.jobs, sys'.br, sys'.phase)
    ensures Inv(cfg, sys') && Writes(sys, sys', Some(e))
  {
    SchedulerIsLawful(cfg, sys, sys', e);
    JobsKept(sys.state, sys.jobs, e, sys'.state);
    PlainKept(sys.state, e, sys'.state);
    if cfg.opt.prMode { TipsKept(cfg, sys.state, sys.lands, sys.br, sys'.br, e, sys'.state); }
  }

  // --- Emitting ----------------------------------------------------------------------------------

  lemma DueOnTicketIsLegal(s: State, a: Marks, jobs: map<string, Job>, b: Body)
    requires Due(s, jobs, b) && (b.TicketReady? || b.TicketFailed? || b.WorkerStalled? || b.WorkerRestarted?)
    requires TicketOk(b.ticketId, s.tickets[b.ticketId])
    ensures Legal(s, a, b)
  {
  }

  lemma DueIsLegal(n: int, s: State, a: Marks, jobs: map<string, Job>, b: Body)
    requires Core(n, s, a) && Due(s, jobs, b)
    ensures Legal(s, a, b)
  {
    if b.TicketReady? || b.TicketFailed? || b.WorkerStalled? || b.WorkerRestarted? {
      assert Fits(b.ticketId, s, s.tickets[b.ticketId], a);
      DueOnTicketIsLegal(s, a, jobs, b);
    } else if b.TicketCreated? {
      SeedIsOfGoal(b);
    }
  }

  lemma DueLeavesJobs(s: State, jobs: map<string, Job>, e: Event)
    requires JobsOk(s, jobs) && Due(s, jobs, e.body)
    ensures LeavesJobs(jobs, e)
  {
    forall id | id in jobs ensures !Moves(e, id) || e.body.TicketReady? { assert JobOk(s, id, jobs[id]); }
  }

  lemma StillInHand(s: State, jobs: map<string, Job>, e: Event, s': State, b: Body)
    requires Due(s, jobs, b) && Due(s, jobs, e.body) && Onward(s, e, s') && !e.body.WorkerRestarted?
    ensures (b.WorkerStalled? || b.WorkerRestarted?) && Moves(e, b.ticketId) ==> InHand(s'.tickets[b.ticketId])
  {
    if (b.WorkerStalled? || b.WorkerRestarted?) && Moves(e, b.ticketId) { assert OnwardAt(s, e, s', b.ticketId); }
  }

  lemma RestDue(s: State, jobs: map<string, Job>, e: Event, s': State, todo: seq<Body>)
    requires todo != [] && AllDue(s, jobs, todo) && e.body == todo[0] && Onward(s, e, s')
    ensures AllDue(s', jobs, todo[1..])
  {
    assert Due(s, jobs, todo[0]);
    forall b | b in todo[1..] ensures Due(s', jobs, b) {
      assert b in todo && !todo[0].WorkerRestarted?;
      assert Due(s, jobs, b);
      StillInHand(s, jobs, e, s', b);
      DueKept(s, e, s', jobs, jobs, b);
    }
  }

  /** An append by the Scheduler that leaves everything else but its phase. */
  ghost predicate Phased(sys: Sys, sys': Sys, e: Event, phase': Phase) {
    && Grew(sys, sys', e) && e.actor == "orchestrator"
    && sys'.jobs == sys.jobs && Loosens(sys.lands, sys.br, sys'.br) && sys'.phase == phase'
  }

  lemma SchedulerAppends(sys: Sys, ts: int, b: Body, phase': Phase) returns (e: Event)
    ensures e == Event(|sys.log| + 1, ts, "orchestrator", b)
    ensures Phased(sys, Append(sys, ts, "orchestrator", b).(phase := phase'), e, phase')
  {
    e := AppendGrows(sys, ts, "orchestrator", b);
  }

  lemma DueIsByScheduler(sys: Sys, sys': Sys, e: Event, phase': Phase)
    requires Core(|sys.log|, sys.state, sys.marks) && JobsOk(sys.state, sys.jobs)
    requires Due(sys.state, sys.jobs, e.body) && Phased(sys, sys', e, phase')
    ensures ByScheduler(sys, sys', e)
  {
    DueIsLegal(|sys.log|, sys.state, sys.marks, sys.jobs, e.body);
    DueLeavesJobs(sys.state, sys.jobs, e);
  }

  lemma EmitKept(cfg: Config, sys: Sys, sys': Sys, e: Event)
    requires Inv(cfg, sys) && sys.phase.Emitting? && sys.phase.todo != [] && e.body == sys.phase.todo[0]
    requires Phased(sys, sys', e, Emitting(sys.phase.todo[1..]))
    ensures Inv(cfg, sys') && Writes(sys, sys', Some(e))
  {
    assert Due(sys.state, sys.jobs, sys.phase.todo[0]);
    DueIsByScheduler(sys, sys', e, sys'.phase);
    SchedulerIsLawful(cfg, sys, sys', e);
    RestDue(sys.state, sys.jobs, e, sys'.state, sys.phase.todo);
    SchedulerKeepsInv(cfg, sys, sys', e);
  }

  lemma EmitKeepsInv(cfg: Config, sys: Sys, ts: int) returns (w: Option<Event>)
    requires Inv(cfg, sys)
    ensures Inv(cfg, EmitNext(sys, ts)) && Writes(sys, EmitNext(sys, ts), w)
  {
    w := None;
    if sys.phase.Emitting? && sys.phase.todo != [] {
      var e := SchedulerAppends(sys, ts, sys.phase.todo[0], Emitting(sys.phase.todo[1..]));
      EmitKept(cfg, sys, EmitNext(sys, ts), e);
      w := Some(e);
    }
  }

  // --- What the steps of a pass decide -----------------------------------------------------------

  /** A plan of appends that are all due, none of them a restart. */
  ghost predicate TodoOk(s: State, jobs: map<string, Job>, todo: seq<Body>) {
    forall b :: b in todo ==> Due(s, jobs, b) && !b.WorkerRestarted?
  }

  lemma SweepOk(s: State, jobs: map<string, Job>, order: seq<string>, act: (State, string) -> seq<Body>)
    requires forall id :: TodoOk(s, jobs, act(s, id))
    ensures TodoOk(s, jobs, Sweep(s, order, act))
  {
    forall b | b in Sweep(s, order, act) ensures Due(s, jobs, b) && !b.WorkerRestarted? {
      SweepIsExact(s, order, act, b);
      var id :| id in order && b in act(s, id);
      assert TodoOk(s, jobs, act(s, id));
    }
  }

  lemma StartIsDue(s: State, jobs: map<string, Job>, order: seq<string>)
    requires GoalsPlain(s)
    ensures TodoOk(s, jobs, Sweep(s, order, StartGoal))
  {
    forall g ensures TodoOk(s, jobs, StartGoal(s, g)) {}
    SweepOk(s, jobs, order, StartGoal);
  }

  lemma CancelIsDue(s: State, jobs: map<string, Job>, order: seq<string>, skip: set<string>)
    requires forall id :: id in s.tickets ==> s.tickets[id].origin.id == id
    ensures TodoOk(s, jobs, Sweep(s, order, Plans.Cancel(skip)))
  {
    forall id ensures TodoOk(s, jobs, Plans.Cancel(skip)(s, id)) {}
    SweepOk(s, jobs, order, Plans.Cancel(skip));
  }

  lemma StopIsDue(s: State, jobs: map<string, Job>, order: seq<string>, g: string)
    requires forall id :: id in s.tickets ==> s.tickets[id].origin.id == id
    ensures TodoOk(s, jobs, [GoalBudgetExceeded(g)] + Sweep(s, order, OverBudget(g)))
  {
    forall id ensures TodoOk(s, jobs, OverBudget(g)(s, id)) {}
    SweepOk(s, jobs, order, OverBudget(g));
  }

  lemma PromoteIsDue(s: State, jobs: map<string, Job>, order: seq<string>)
    ensures TodoOk(s, jobs, Sweep(s, order, Promote))
  {
    forall id ensures TodoOk(s, jobs, Promote(s, id)) {}
    SweepOk(s, jobs, order, Promote);
  }

  lemma BlockIsDue(n: int, s: State, a: Marks, jobs: map<string, Job>, order: seq<string>)
    requires Core(n, s, a)
    ensures TodoOk(s, jobs, Sweep(s, order, FailBlocked))
  {
    forall id ensures TodoOk(s, jobs, FailBlocked(s, id)) {
      if id in s.tickets && IsBlocked(s, s.tickets[id]) {
        OnlyPendingIsBlocked(n, s, a, id);
        assert Fits(id, s, s.tickets[id], a);
      }
    }
    SweepOk(s, jobs, order, FailBlocked);
  }

  lemma RestartIsDue(sys: Sys, id: string)
    requires Core(|sys.log|, sys.state, sys.marks) && Lost(sys, id)
    ensures AllDue(sys.state, sys.jobs, [WorkerStalled(id, sys.state.tickets[id].worker),
                                         WorkerRestarted(id, sys.state.tickets[id].worker, "", NO_CHARGE)])
  {
    assert Fits(id, sys.state, sys.state.tickets[id], sys.marks);
  }

  lemma DecisionIsDue(cfg: Config, sys: Sys, move: Move)
    requires Inv(cfg, sys) && IsDecision(move)
    ensures AllDue(sys.state, sys.jobs, Decision(sys, move))
  {
    var n, s, a, jobs, order := |sys.log|, sys.state, sys.marks, sys.jobs, sys.state.ticketOrder;
    forall id | id in s.tickets ensures s.tickets[id].origin.id == id { assert Fits(id, s, s.tickets[id], a); }
    if move.StartGoals? {
      StartIsDue(s, jobs, move.goals);
    } else if move.FailCancelled? {
      CancelIsDue(s, jobs, order, move.skip);
    } else if move.StopGoal? {
      StopIsDue(s, jobs, order, move.goal);
    } else if move.Promotes? {
      PromoteIsDue(s, jobs, order);
    } else if move.FailsBlocked? {
      BlockIsDue(n, s, a, jobs, order);
    } else if Lost(sys, move.id) {
      RestartIsDue(sys, move.id);
    }
    if !move.RestartsLost? { PlanIsDue(s, jobs, Decision(sys, move)); }
  }

  lemma PlanIsDue(s: State, jobs: map<string, Job>, todo: seq<Body>)
    requires TodoOk(s, jobs, todo)
    ensures AllDue(s, jobs, todo)
  {
    forall i | 0 <= i < |todo| - 1 ensures !todo[i].WorkerRestarted? { assert todo[i] in todo; }
  }

  // --- Dispatch ----------------------------------------------------------------------------------

  lemma DispatchIsLegal(n: int, s: State, a: Marks, opt: Options, id: string, inFlight: set<string>, now: int)
    requires Core(n, s, a) && Dispatchable(opt, s, id, inFlight, now)
    ensures Legal(s, a, TicketClaimed(id, WorkerOf(id)))
  {
    assert Fits(id, s, s.tickets[id], a);
  }

  lemma NewTip(cfg: Config, s: State, lands: Landings, br: Branches, g: string, base: string)
    requires TipsOk(cfg, s, lands, br)
    ensures TipsOk(cfg, s, lands, Cut(br, g, base))
  {
    var br' := Cut(br, g, base);
    forall x | x in br'.tips ensures GrownFromBase(cfg, br', x) {
      if x in br.tips { assert GrownFromBase(cfg, br, x); }
    }
    forall x ensures TipOk(s, lands, br', x) { assert TipOk(s, lands, br, x); }
  }

  lemma DispatchJobs(s: State, jobs: map<string, Job>, e: Event, s': State, id: string)
    requires JobsOk(s, jobs) && Onward(s, e, s') && e.body.TicketClaimed? && e.body.ticketId == id && id in s.tickets
    ensures JobsOk(s', jobs[id := Launched])
  {
    forall x | x in jobs && x != id ensures JobOk(s', x, jobs[x]) {
      assert JobOk(s, x, jobs[x]);
      JobKept(s, e, s', x, jobs[x]);
    }
    assert OnwardAt(s, e, s', id);
    JobReplaced(s', jobs, id, Launched);
  }

  lemma DispatchTips(cfg: Config, s: State, lands: Landings, br: Branches, e: Event, s': State, g: string, base: string)
    requires TipsOk(cfg, s, lands, br) && After(s, e, s') && Onward(s, e, s') && e.body.TicketClaimed?
    ensures TipsOk(cfg, s', lands, Cut(br, g, base))
  {
    TipsKept(cfg, s, lands, br, br, e, s');
    NewTip(cfg, s', lands, br, g, base);
  }

  lemma ClaimIsLawful(n: int, s: State, a: Marks, cfg: Config, id: string, inFlight: set<string>, now: int, e: Event,
                      s': State)
    requires Core(n, s, a) && Dispatchable(cfg.opt, s, id, inFlight, now) && After(s, e, s') && e.num == n + 1
    requires e.body == TicketClaimed(id, WorkerOf(id))
    ensures Core(n + 1, s', Mark(a, e)) && Onward(s, e, s') && Lawful(a, s, e)
  {
    DispatchIsLegal(n, s, a, cfg.opt, id, inFlight, now);
    CoreKept(n, s, a, e, s');
    LegalIsLawful(n, s, a, e);
  }

  lemma DispatchKept(cfg: Config, sys: Sys, sys': Sys, id: string, g: string, base: string, now: int, e: Event)
    requires Inv(cfg, sys) && sys.phase.Resting? && Dispatchable(cfg.opt, sys.state, id, sys.jobs.Keys, now)
    requires Grew(sys, sys', e) && e.body == TicketClaimed(id, WorkerOf(id)) && sys'.jobs == sys.jobs[id := Launched]
    requires sys'.br == if cfg.opt.prMode then Cut(sys.br, g, base) else sys.br
    requires sys'.phase == Resting
    ensures Inv(cfg, sys') && Writes(sys, sys', Some(e))
  {
    ClaimIsLawful(|sys.log|, sys.state, sys.marks, cfg, id, sys.jobs.Keys, now, e, sys'.state);
    PlainKept(sys.state, e, sys'.state);
    DispatchJobs(sys.state, sys.jobs, e, sys'.state, id);
    if cfg.opt.prMode { DispatchTips(cfg, sys.state, sys.lands, sys.br, e, sys'.state, g, base); }
  }

  lemma DispatchGrows(cfg: Config, sys: Sys, ts: int, id: string, base: string, now: int) returns (e: Event)
    requires sys.phase.Resting? && Dispatchable(cfg.opt, sys.state, id, sys.jobs.Keys, now)
    ensures e.body == TicketClaimed(id, WorkerOf(id)) && Grew(sys, DispatchOne(cfg, sys, ts, id, base, now), e)
    ensures var sys', g := DispatchOne(cfg, sys, ts, id, base, now), sys.state.tickets[id].origin.goalId;
            && sys'.jobs == sys.jobs[id := Launched] && sys'.phase == Resting
            && sys'.br == if cfg.opt.prMode then Cut(sys.br, g, base) else sys.br
  {
    e := AppendGrows(sys, ts, "orchestrator", TicketClaimed(id, WorkerOf(id)));
  }

  lemma DispatchKeepsInv(cfg: Config, sys: Sys, ts: int, id: string, base: string, now: int) returns (w: Option<Event>)
    requires Inv(cfg, sys)
    ensures var sys' := DispatchOne(cfg, sys, ts, id, base, now);
            Inv(cfg, sys') && Writes(sys, sys', w)
  {
    w := None;
    if sys.phase.Resting? && Dispatchable(cfg.opt, sys.state, id, sys.jobs.Keys, now) {
      var e := DispatchGrows(cfg, sys, ts, id, base, now);
      DispatchKept(cfg, sys, DispatchOne(cfg, sys, ts, id, base, now), id, sys.state.tickets[id].origin.goalId, base,
                   now, e);
      w := Some(e);
    }
  }

  // --- The queue ---------------------------------------------------------------------------------

  lemma {:induction false} QueueIsDistinct(s: State, order: seq<string>)
    requires forall i, j :: 0 <= i < j < |order| ==> order[i] != order[j]
    requires forall id :: id in s.tickets ==> s.tickets[id].origin.id == id
    ensures forall i, j :: 0 <= i < j < |InOrder(s, order, IsProposed)| ==>
              InOrder(s, order, IsProposed)[i].origin.id != InOrder(s, order, IsProposed)[j].origin.id
  {
    if order != [] {
      var init, id := order[..|order| - 1], order[|order| - 1];
      QueueIsDistinct(s, init);
      forall t | t in InOrder(s, init, IsProposed) ensures t.origin.id in init && t.origin.id != id {
        InOrderIsExact(s, init, IsProposed, t);
      }
    }
  }

  lemma DrainIsOk(n: int, s: State, a: Marks)
    requires Core(n, s, a)
    ensures QueueOk(s, InOrder(s, s.ticketOrder, IsProposed))
  {
    forall id | id in s.tickets ensures s.tickets[id].origin.id == id { assert Fits(id, s, s.tickets[id], a); }
    QueueIsDistinct(s, s.ticketOrder);
    forall t | t in InOrder(s, s.ticketOrder, IsProposed) ensures Current(s, t) {
      InOrderIsExact(s, s.ticketOrder, IsProposed, t);
    }
  }

  /** What an event about another ticket leaves of a queued one. */
  lemma UntouchedInQueue(s: State, a: Marks, e: Event, s': State, t: Ticket)
    requires Current(s, t) && Onward(s, e, s') && NamesTicket(e.body) && e.body.ticketId != t.origin.id
    requires !e.body.TicketCreated?
    ensures Current(s', t) && (CancelOk(a, t) ==> CancelOk(Mark(a, e), t))
    ensures PassedSince(a, t.origin.id) ==> PassedSince(Mark(a, e), t.origin.id)
  {
    assert OnwardAt(s, e, s', t.origin.id);
  }

  /** The queue without the ticket an event was about. */
  lemma RestOfQueue(s: State, a: Marks, e: Event, s': State, queue: seq<Ticket>, k: nat)
    requires QueueOk(s, queue) && k < |queue| && Onward(s, e, s') && NamesTicket(e.body) && !e.body.TicketCreated?
    requires e.body.ticketId == queue[k].origin.id
    ensures var rest := queue[..k] + queue[k + 1..];
            QueueOk(s', rest) && forall t :: t in rest && CancelOk(a, t) ==> CancelOk(Mark(a, e), t)
  {
    var rest := queue[..k] + queue[k + 1..];
    forall t | t in rest ensures Current(s', t) && (CancelOk(a, t) ==> CancelOk(Mark(a, e), t)) {
      var i :| 0 <= i < |rest| && rest[i] == t;
      assert t == queue[if i < k then i else i + 1];
      UntouchedInQueue(s, a, e, s', t);
    }
    assert forall i :: 0 <= i < |rest| ==> rest[i] == queue[if i < k then i else i + 1];
  }

  /** The Scheduler appended an event about the k-th proposal and took it off the queue. */
  lemma DroppedKept(cfg: Config, sys: Sys, sys': Sys, e: Event, k: nat, clear': nat)
    requires Inv(cfg, sys) && sys.phase.Draining? && k < |sys.phase.queue| && ByScheduler(sys, sys', e)
    requires NamesTicket(e.body) && !e.body.TicketCreated? && e.body.ticketId == sys.phase.queue[k].origin.id
    requires var q := sys.phase.queue; sys'.phase == Draining(q[..k] + q[k + 1..], clear', Waiting)
    requires clear' == if k < sys.phase.clear then sys.phase.clear - 1 else sys.phase.clear
    requires k < sys.phase.clear || k == sys.phase.clear
    ensures Inv(cfg, sys') && Writes(sys, sys', Some(e))
  {
    SchedulerIsLawful(cfg, sys, sys', e);
    var q := sys.phase.queue;
    RestOfQueue(sys.state, sys.marks, e, sys'.state, q, k);
    ClearedRest(sys.marks, sys'.marks, q, q[..k] + q[k + 1..], k, sys.phase.clear, clear');
    SchedulerKeepsInv(cfg, sys, sys', e);
  }

  lemma ClearedRest(a: Marks, a': Marks, q: seq<Ticket>, rest: seq<Ticket>, k: nat, clear: nat, clear': nat)
    requires k < |q| && k <= clear <= |q| && clear' == (if k < clear then clear - 1 else clear)
    requires rest == q[..k] + q[k + 1..]
    requires forall i :: 0 <= i < clear ==> CancelOk(a, q[i])
    requires forall t :: t in rest && CancelOk(a, t) ==> CancelOk(a', t)
    ensures clear' <= |rest| && forall i :: 0 <= i < clear' ==> CancelOk(a', rest[i])
  {
    forall i | 0 <= i < clear' ensures CancelOk(a', rest[i]) {
      assert rest[i] == q[if i < k then i else i + 1] && rest[i] in rest;
    }
  }

  /** A proposal in the queue is no live worker's. */
  lemma QueuedIsFree(s: State, jobs: map<string, Job>, t: Ticket, e: Event)
    requires Current(s, t) && JobsOk(s, jobs) && NamesTicket(e.body) && e.body.ticketId == t.origin.id
    ensures LeavesJobs(jobs, e)
  {
    forall id | id in jobs ensures !Moves(e, id) { assert JobOk(s, id, jobs[id]); }
  }

  /** What the queue appends about a proposal before its merge is recorded. */
  predicate QueueBody(t: Ticket, b: Body) {
    && (b.TicketFailed? || b.VerificationFailed? || b.VerificationPassed? || b.ApprovalRequested?)
    && b.ticketId == t.origin.id && b.worker == t.worker && ChargeOf(b).None? && (b.ApprovalRequested? ==> !t.approved)
  }

  lemma QueueIsLegal(s: State, a: Marks, t: Ticket, b: Body)
    requires Current(s, t) && QueueBody(t, b)
    ensures Legal(s, a, b)
  {
  }

  lemma QueueIsByScheduler(sys: Sys, sys': Sys, e: Event, t: Ticket, phase': Phase)
    requires JobsOk(sys.state, sys.jobs) && Current(sys.state, t) && QueueBody(t, e.body)
    requires Phased(sys, sys', e, phase')
    requires RefusalIsSound(sys.state, sys.lands, sys'.br, e)
    ensures ByScheduler(sys, sys', e)
  {
    QueueIsLegal(sys.state, sys.marks, t, e.body);
    QueuedIsFree(sys.state, sys.jobs, t, e);
  }

  lemma UncancelledIsOk(n: int, s: State, a: Marks, t: Ticket)
    requires Core(n, s, a) && !Withdrawn(s, t)
    ensures CancelOk(a, t)
  {
    assert Marked(s, t.origin.goalId, a);
  }

  lemma DropKeepsInv(cfg: Config, sys: Sys, sys': Sys, e: Event, k: nat, clear': nat)
    requires Inv(cfg, sys) && sys.phase.Draining? && k < |sys.phase.queue| && QueueBody(sys.phase.queue[k], e.body)
    requires RefusalIsSound(sys.state, sys.lands, sys'.br, e)
    requires var q := sys.phase.queue; Phased(sys, sys', e, Draining(q[..k] + q[k + 1..], clear', Waiting))
    requires clear' == if k < sys.phase.clear then sys.phase.clear - 1 else sys.phase.clear
    requires k < sys.phase.clear || k == sys.phase.clear
    ensures Inv(cfg, sys') && Writes(sys, sys', Some(e))
  {
    assert sys.phase.queue[k] in sys.phase.queue;
    QueueIsByScheduler(sys, sys', e, sys.phase.queue[k], sys'.phase);
    DroppedKept(cfg, sys, sys', e, k, clear');
  }

  lemma FailWithdrawn(cfg: Config, sys: Sys, ts: int) returns (w: Option<Event>)
    requires Inv(cfg, sys) && sys.phase.Draining? && sys.phase.clear < |sys.phase.queue|
    ensures var q, k := sys.phase.queue, sys.phase.clear;
            var sys' := Append(sys, ts, "orchestrator", Plans.Fails(q[k], "goal cancelled")).(
                          phase := Draining(q[..k] + q[k + 1..], k, Waiting));
            Inv(cfg, sys') && Writes(sys, sys', w)
  {
    var q, k := sys.phase.queue, sys.phase.clear;
    var b, phase' := Plans.Fails(q[k], "goal cancelled"), Draining(q[..k] + q[k + 1..], k, Waiting);
    var e := SchedulerAppends(sys, ts, b, phase');
    DropKeepsInv(cfg, sys, Append(sys, ts, "orchestrator", b).(phase := phase'), e, k, k);
    w := Some(e);
  }

  lemma ClearOne(cfg: Config, sys: Sys)
    requires Inv(cfg, sys) && sys.phase.Draining? && sys.phase.clear < |sys.phase.queue| && sys.phase.stage == Waiting
    requires !Withdrawn(sys.state, sys.phase.queue[sys.phase.clear])
    ensures Inv(cfg, sys.(phase := Draining(sys.phase.queue, sys.phase.clear + 1, Waiting)))
  {
    UncancelledIsOk(|sys.log|, sys.state, sys.marks, sys.phase.queue[sys.phase.clear]);
  }

  lemma ClearKeepsInv(cfg: Config, sys: Sys, ts: int) returns (w: Option<Event>)
    requires Inv(cfg, sys)
    ensures Inv(cfg, ClearNext(sys, ts)) && Writes(sys, ClearNext(sys, ts), w)
  {
    w := None;
    if sys.phase.Draining? && sys.phase.clear < |sys.phase.queue| && sys.phase.stage == Waiting {
      if Withdrawn(sys.state, sys.phase.queue[sys.phase.clear]) { w := FailWithdrawn(cfg, sys, ts); } else {
        ClearOne(cfg, sys);
      }
    }
  }

  // --- Judging -----------------------------------------------------------------------------------

  /** A refusal that is no error of the queue's own is of a branch not yet in the tip. */
  lemma RefusedIsSound(cfg: Config, sys: Sys, t: Ticket, e: Event)
    requires Inv(cfg, sys) && Current(sys.state, t) && NamesTicket(e.body) && e.body.ticketId == t.origin.id
    requires MayRefuse(cfg, sys, t)
    ensures RefusalIsSound(sys.state, sys.lands, sys.br, e)
  {
    if cfg.opt.prMode { assert GrownFromBase(cfg, sys.br, t.origin.goalId); }
  }

  lemma RejectKept(cfg: Config, sys: Sys, sys': Sys, e: Event, reason: string, output: string)
    requires Inv(cfg, sys) && AtHead(sys)
    requires e.body == RejectOrFail(cfg.opt, sys.phase.queue[0], reason, output)
    requires Phased(sys, sys', e, Draining(sys.phase.queue[1..], sys.phase.clear - 1, Waiting))
    requires RefusalIsSound(sys.state, sys.lands, sys'.br, e)
    ensures Inv(cfg, sys') && Writes(sys, sys', Some(e))
  {
    var q := sys.phase.queue;
    assert q[..0] + q[1..] == q[1..];
    DropKeepsInv(cfg, sys, sys', e, 0, sys.phase.clear - 1);
  }

  /** The Gate's own refusals: not of a branch whose work is in a passing tip. */
  ghost predicate MayRefuse(cfg: Config, sys: Sys, t: Ticket) {
    cfg.opt.prMode ==>
      && t.origin.goalId in sys.br.tips
      && !(HasBranch(sys.br.tips[t.origin.goalId], t.candidate.branch) && cfg.gate(sys.br.tips[t.origin.goalId]))
  }

  lemma RefuseKept(cfg: Config, sys: Sys, sys': Sys, e: Event, reason: string, output: string)
    requires Inv(cfg, sys) && AtHead(sys)
    requires e.body == RejectOrFail(cfg.opt, sys.phase.queue[0], reason, output)
    requires MayRefuse(cfg, sys, sys.phase.queue[0])
    requires Phased(sys, sys', e, Draining(sys.phase.queue[1..], sys.phase.clear - 1, Waiting))
    ensures Inv(cfg, sys') && Writes(sys, sys', Some(e))
  {
    assert sys.phase.queue[0] in sys.phase.queue;
    RefusedIsSound(cfg, sys, sys.phase.queue[0], e);
    RejectKept(cfg, sys, sys', e, reason, output);
  }

  lemma RefuseKeepsInv(cfg: Config, sys: Sys, ts: int, reason: string, output: string) returns (w: Option<Event>)
    requires Inv(cfg, sys) && AtHead(sys) && MayRefuse(cfg, sys, sys.phase.queue[0])
    ensures var sys' := Rejects(cfg, sys, ts, sys.phase.queue[0], reason, output);
            Inv(cfg, sys') && Writes(sys, sys', w)
  {
    var q := sys.phase.queue;
    var e := SchedulerAppends(sys, ts, RejectOrFail(cfg.opt, q[0], reason, output),
                              Draining(q[1..], sys.phase.clear - 1, Waiting));
    RefuseKept(cfg, sys, Rejects(cfg, sys, ts, q[0], reason, output), e, reason, output);
    w := Some(e);
  }

  /** Whatever an error refuses, the Goal has lost track of its branch, or its tip is
      its latest merge, or the work is not on the branch. */
  lemma ErrKept(cfg: Config, sys: Sys, sys': Sys, e: Event, reason: string)
    requires Inv(cfg, sys) && AtHead(sys)
    requires e.body == RejectOrFail(cfg.opt, sys.phase.queue[0], reason, "")
    requires Phased(sys, sys', e, Draining(sys.phase.queue[1..], sys.phase.clear - 1, Waiting))
    requires sys'.br == AfterError(cfg, sys, sys.phase.queue[0])
    ensures Inv(cfg, sys') && Writes(sys, sys', Some(e))
  {
    assert sys.phase.queue[0] in sys.phase.queue;
    RejectKept(cfg, sys, sys', e, reason, "");
  }

  lemma ErrKeepsInv(cfg: Config, sys: Sys, ts: int, reason: string) returns (w: Option<Event>)
    requires Inv(cfg, sys) && AtHead(sys)
    ensures var t := sys.phase.queue[0];
            var sys' := Rejects(cfg, sys, ts, t, reason, "").(br := AfterError(cfg, sys, t));
            Inv(cfg, sys') && Writes(sys, sys', w)
  {
    var q, br' := sys.phase.queue, AfterError(cfg, sys, sys.phase.queue[0]);
    var e := SchedulerAppends(sys, ts, RejectOrFail(cfg.opt, q[0], reason, ""),
                              Draining(q[1..], sys.phase.clear - 1, Waiting));
    ErrKept(cfg, sys, Rejects(cfg, sys, ts, q[0], reason, "").(br := br'), e, reason);
    w := Some(e);
  }

  lemma PassKeepsInv(cfg: Config, sys: Sys, stamp: nat, local: Commit)
    requires Inv(cfg, sys) && AtHead(sys)
    requires var t := sys.phase.queue[0];
             (cfg.opt.prMode ==> t.origin.goalId in sys.br.tips) && cfg.gate(LandsAs(cfg, sys, t, stamp, local))
    ensures var t, c := sys.phase.queue[0], LandsAs(cfg, sys, sys.phase.queue[0], stamp, local);
            && Inv(cfg, sys.(phase := sys.phase.(stage := Landing(c))))
            && (Parks(cfg.opt, t) ==> Inv(cfg, sys.(phase := sys.phase.(stage := Parking(c)))))
  {
  }

  lemma JudgeKeepsInv(cfg: Config, sys: Sys, ts: int, outcome: Outcome) returns (w: Option<Event>)
    requires Inv(cfg, sys)
    ensures Inv(cfg, JudgeHead(cfg, sys, ts, outcome)) && Writes(sys, JudgeHead(cfg, sys, ts, outcome), w)
  {
    w := None;
    if AtHead(sys) && sys.phase.stage == Waiting {
      var t := sys.phase.queue[0];
      if !(cfg.opt.prMode && TipOf(sys, t).None?) {
        if outcome.Errs? {
          w := ErrKeepsInv(cfg, sys, ts, outcome.reason);
        } else if outcome.Refuses? {
          if !(cfg.opt.prMode && HasBranch(TipOf(sys, t).value, t.candidate.branch) && cfg.gate(TipOf(sys, t).value)) {
            w := RefuseKeepsInv(cfg, sys, ts, outcome.reason, outcome.output);
          }
        } else if cfg.gate(LandsAs(cfg, sys, t, outcome.stamp, outcome.local)) {
          PassKeepsInv(cfg, sys, outcome.stamp, outcome.local);
        }
      }
    }
  }

  // --- Recording what passed ---------------------------------------------------------------------

  lemma {:induction false} UnderOnto(p: Commit, c: Commit, tip: Commit, branch: string)
    requires Under(p, tip) && Onto(c, tip, branch)
    ensures Under(p, c) && (tip == c || HasBranch(c, branch)) && HasBranch(c, branch)
  {
  }

  /** A merge commit is under no commit it was merged onto. */
  lemma {:induction false} NotUnderItself(c: Commit, tip: Commit)
    requires Under(c, tip)
    ensures c == tip || Rank(c) < Rank(tip)
  {
    if c != tip { NotUnderItself(c, tip.onto); }
  }

  function Rank(c: Commit): nat { if c.Join? then Rank(c.onto) + 1 else 0 }

  /** A Goal's latest merge is none of the commits its tip moves on to. */
  lemma StillLost(cfg: Config, s: State, lands: Landings, br: Branches, g: string, c: Commit, branch: string)
    requires TipsOk(cfg, s, lands, br) && g in br.lost && Onto(c, br.tips[g], branch)
    ensures LastMerge(lands, g) != c
  {
    if c != br.tips[g] && g in lands.last {
      assert (g, lands.last[g]) in lands.all;
      NotUnderItself(lands.last[g], br.tips[g]);
    }
  }

  /** Moving a Goal's branch to a merge the Gate passed. */
  lemma TipMoves(cfg: Config, s: State, lands: Landings, br: Branches, t: Ticket, c: Commit)
    requires TipsOk(cfg, s, lands, br) && Current(s, t) && t.origin.goalId in br.tips
    requires cfg.gate(c) && Onto(c, br.tips[t.origin.goalId], t.candidate.branch)
    ensures TipsOk(cfg, s, lands, Advance(br, t.origin.goalId, c))
  {
    var g, branch := t.origin.goalId, t.candidate.branch;
    var br', tip := Advance(br, g, c), br.tips[g];
    UnderOnto(tip, c, tip, branch);
    forall p | p in lands.all ensures p.0 in br'.tips && Under(p.1, br'.tips[p.0]) {
      if p.0 == g { UnderOnto(p.1, c, tip, branch); }
    }
    forall x | x in br'.tips ensures GrownFromBase(cfg, br', x) {
      assert GrownFromBase(cfg, br, x);
      if x == g { UnderOnto(br.bases[g], c, tip, branch); }
    }
    if g in br.lost { StillLost(cfg, s, lands, br, g, c, branch); }
    assert Witness(s.tickets[t.origin.id], c, g);
    forall x ensures TipOk(s, lands, br', x) { assert TipOk(s, lands, br, x); }
  }

  lemma AdvanceKeepsInv(cfg: Config, sys: Sys, ts: int)
    requires Inv(cfg, sys) && AtHead(sys) && sys.phase.stage.Landing?
    ensures Inv(cfg, ProceedHead(cfg, sys, ts))
  {
    var t, c := sys.phase.queue[0], sys.phase.stage.commit;
    assert t in sys.phase.queue;
    if cfg.opt.prMode { TipMoves(cfg, sys.state, sys.lands, sys.br, t, c); }
  }

  /** A recorded pass leaves the queue as it was, and dates the head's pass. */
  lemma PassedQueue(n: int, s: State, a: Marks, e: Event, s': State, queue: seq<Ticket>, clear: nat)
    requires QueueOk(s, queue) && queue != [] && clear <= |queue|
    requires forall i :: 0 <= i < clear ==> CancelOk(a, queue[i])
    requires Onward(s, e, s') && e.body.VerificationPassed? && e.body.ticketId == queue[0].origin.id && e.num == n + 1
    requires Dated(n, a)
    ensures QueueOk(s', queue) && (forall i :: 0 <= i < clear ==> CancelOk(Mark(a, e), queue[i]))
    ensures PassedSince(Mark(a, e), queue[0].origin.id)
  {
    forall t | t in queue ensures Current(s', t) { assert OnwardAt(s, e, s', t.origin.id); }
    assert 0 <= At(a.proposedAt, queue[0].origin.id) <= n && 0 <= n;
  }

  predicate NextStage(stage: Stage, stage': Stage) {
    (stage.Kept? && stage' == Recorded(stage.commit)) || (stage.Parking? && stage' == Parked(stage.commit))
  }

  lemma RecordedPhase(cfg: Config, n: int, s: State, a: Marks, lands: Landings, jobs: map<string, Job>, br: Branches,
                      phase: Phase,
                      e: Event, s': State, stage': Stage)
    requires PhaseOk(cfg, s, a, lands, jobs, br, phase) && phase.Draining? && phase.queue != [] && phase.clear > 0
    requires Onward(s, e, s') && e.num == n + 1 && Dated(n, a) && NextStage(phase.stage, stage')
    requires e.body.VerificationPassed? && e.body.ticketId == phase.queue[0].origin.id
    ensures PhaseOk(cfg, s', Mark(a, e), lands, jobs, br, phase.(stage := stage'))
  {
    PassedQueue(n, s, a, e, s', phase.queue, phase.clear);
  }

  lemma RecordIsByScheduler(sys: Sys, sys': Sys, e: Event, t: Ticket)
    requires JobsOk(sys.state, sys.jobs) && Current(sys.state, t) && e.body == VerificationPassed(t.origin.id, t.worker)
    requires Phased(sys, sys', e, sys'.phase)
    ensures ByScheduler(sys, sys', e)
  {
    QueueIsByScheduler(sys, sys', e, t, sys'.phase);
  }

  lemma RecordKept(cfg: Config, sys: Sys, sys': Sys, e: Event, stage': Stage)
    requires Inv(cfg, sys) && AtHead(sys) && NextStage(sys.phase.stage, stage')
    requires e.body == VerificationPassed(sys.phase.queue[0].origin.id, sys.phase.queue[0].worker)
    requires Phased(sys, sys', e, sys.phase.(stage := stage')) && sys'.br == sys.br
    ensures Inv(cfg, sys') && Writes(sys, sys', Some(e))
  {
    assert sys.phase.queue[0] in sys.phase.queue;
    RecordIsByScheduler(sys, sys', e, sys.phase.queue[0]);
    SchedulerIsLawful(cfg, sys, sys', e);
    RecordedPhase(cfg, |sys.log|, sys.state, sys.marks, sys.lands, sys.jobs, sys.br, sys.phase, e, sys'.state, stage');
    SchedulerKeepsInv(cfg, sys, sys', e);
  }

  lemma RecordKeepsInv(cfg: Config, sys: Sys, ts: int, stage': Stage) returns (w: Option<Event>)
    requires Inv(cfg, sys) && AtHead(sys)
    requires NextStage(sys.phase.stage, stage')
    ensures Inv(cfg, ProceedHead(cfg, sys, ts)) && Writes(sys, ProceedHead(cfg, sys, ts), w)
  {
    var t, phase' := sys.phase.queue[0], sys.phase.(stage := stage');
    var e := SchedulerAppends(sys, ts, VerificationPassed(t.origin.id, t.worker), phase');
    assert ProceedHead(cfg, sys, ts) == Append(sys, ts, "orchestrator",
                                               VerificationPassed(t.origin.id, t.worker)).(phase := phase');
    RecordKept(cfg, sys, ProceedHead(cfg, sys, ts), e, stage');
    w := Some(e);
  }

  lemma ParkKeepsInv(cfg: Config, sys: Sys, ts: int) returns (w: Option<Event>)
    requires Inv(cfg, sys) && AtHead(sys) && sys.phase.stage.Parked?
    ensures Inv(cfg, ProceedHead(cfg, sys, ts)) && Writes(sys, ProceedHead(cfg, sys, ts), w)
  {
    var q, c := sys.phase.queue, sys.phase.stage.commit;
    var b, phase' := ApprovalRequested(q[0].origin.id, q[0].worker, c), Draining(q[1..], sys.phase.clear - 1, Waiting);
    var e := SchedulerAppends(sys, ts, b, phase');
    assert ProceedHead(cfg, sys, ts) == Append(sys, ts, "orchestrator", b).(phase := phase');
    assert q[..0] + q[1..] == q[1..];
    DropKeepsInv(cfg, sys, ProceedHead(cfg, sys, ts), e, 0, sys.phase.clear - 1);
    w := Some(e);
  }

  // --- Merging -----------------------------------------------------------------------------------

  lemma MergeIsLegal(n: int, s: State, a: Marks, t: Ticket, b: Body)
    requires Core(n, s, a) && Current(s, t) && PassedSince(a, t.origin.id) && CancelOk(a, t)
    requires b.Merged? && b.ticketId == t.origin.id && b.worker == t.worker
    ensures Legal(s, a, b)
  {
    assert Fits(t.origin.id, s, t, a);
  }

  /** The merge event's ticket and its Goal's landings. */
  lemma MergeLands(s: State, lands: Landings, e: Event, s': State, t: Ticket, c: Commit)
    requires Current(s, t) && Onward(s, e, s') && e.body.Merged? && e.body.ticketId == t.origin.id && e.body.commit == c
    ensures Land(lands, s', e) == Landings(lands.last[t.origin.goalId := c], lands.all + {(t.origin.goalId, c)})
  {
    assert OnwardAt(s, e, s', t.origin.id);
  }

  lemma OtherWitness(s: State, e: Event, s': State, t: Ticket, tip: Commit, g: string)
    requires Current(s, t) && Onward(s, e, s') && e.body.Merged? && e.body.ticketId == t.origin.id
    requires g != t.origin.goalId
    requires Witnessed(s, tip, g)
    ensures Witnessed(s', tip, g)
  {
    var id :| id in s.tickets && Witness(s.tickets[id], tip, g);
    assert OnwardAt(s, e, s', id);
    assert Witness(s'.tickets[id], tip, g);
  }

  /** What the branches owe the landings, when one more merge is at its Goal's tip. */
  lemma MergeLandings(cfg: Config, s: State, lands: Landings, lands': Landings, br: Branches, g: string, c: Commit)
    requires TipsOk(cfg, s, lands, br) && g in br.tips && br.tips[g] == c && cfg.gate(c)
    requires lands' == Landings(lands.last[g := c], lands.all + {(g, c)})
    ensures LostOk(lands', Found(br, g))
    ensures forall p :: p in lands'.all ==> p.0 in br.tips && Under(p.1, br.tips[p.0]) && cfg.gate(p.1)
    ensures forall x :: x in lands'.last ==> (x, lands'.last[x]) in lands'.all
  {
  }

  lemma MergeTip(s: State, lands: Landings, lands': Landings, br: Branches, e: Event, s': State, t: Ticket, c: Commit,
                 g: string)
    requires TipOk(s, lands, br, g) && lands'.last == lands.last[t.origin.goalId := c]
    requires Current(s, t) && Onward(s, e, s') && e.body.Merged? && e.body.ticketId == t.origin.id
    requires t.origin.goalId in br.tips && br.tips[t.origin.goalId] == c
    ensures TipOk(s', lands', Found(br, t.origin.goalId), g)
  {
    if g != t.origin.goalId && g in lands.last && g !in br.lost && lands.last[g] != br.tips[g] {
      OtherWitness(s, e, s', t, br.tips[g], g);
    }
  }

  /** Recording a merge: the Goal's tip is its latest merge again. */
  lemma MergeTips(cfg: Config, s: State, lands: Landings, br: Branches, e: Event, s': State, t: Ticket, c: Commit)
    requires TipsOk(cfg, s, lands, br) && Current(s, t) && After(s, e, s') && Onward(s, e, s')
    requires e.body.Merged? && e.body.ticketId == t.origin.id && e.body.commit == c
    requires t.origin.goalId in br.tips && br.tips[t.origin.goalId] == c && cfg.gate(c)
    ensures TipsOk(cfg, s', Land(lands, s', e), Found(br, t.origin.goalId))
  {
    var h := t.origin.goalId;
    var lands', br' := Land(lands, s', e), Found(br, h);
    MergeLands(s, lands, e, s', t, c);
    MergeLandings(cfg, s, lands, lands', br, h, c);
    forall g | g in br'.tips ensures GrownFromBase(cfg, br', g) { assert GrownFromBase(cfg, br, g); }
    forall g ensures TipOk(s', lands', br', g) { MergeTip(s, lands, lands', br, e, s', t, c, g); }
    MergeBranches(s, lands, e, s', t);
  }

  /** Only Goals something was merged for have a branch on record. */
  lemma MergeBranches(s: State, lands: Landings, e: Event, s': State, t: Ticket)
    requires forall g :: g in s.goals && s.goals[g].branch != "" ==> g in lands.last
    requires Current(s, t) && After(s, e, s') && Onward(s, e, s') && e.body.Merged? && e.body.ticketId == t.origin.id
    ensures forall g :: g in s'.goals && s'.goals[g].branch != "" ==> g in Land(lands, s', e).last
  {
    assert OnwardAt(s, e, s', t.origin.id);
    forall g | g in s'.goals && s'.goals[g].branch != "" ensures g in Land(lands, s', e).last {
      if g in s.goals { assert GoalBecomes(s, e, g, s'.goals[g]); }
    }
  }

  lemma MergedQueue(s: State, a: Marks, e: Event, s': State, queue: seq<Ticket>, clear: nat)
    requires QueueOk(s, queue) && queue != [] && 0 < clear <= |queue|
    requires forall i :: 0 <= i < clear ==> CancelOk(a, queue[i])
    requires Onward(s, e, s') && e.body.Merged? && e.body.ticketId == queue[0].origin.id
    ensures QueueOk(s', queue[1..]) && forall i :: 0 <= i < clear - 1 ==> CancelOk(Mark(a, e), queue[1..][i])
  {
    assert queue[..0] + queue[1..] == queue[1..];
    RestOfQueue(s, a, e, s', queue, 0);
    ClearedRest(a, Mark(a, e), queue, queue[1..], 0, clear, clear - 1);
  }

  /** The Scheduler appended the merge it recorded the pass of. */
  ghost predicate ByMerge(sys: Sys, sys': Sys, e: Event, t: Ticket, c: Commit) {
    && Grew(sys, sys', e) && e.actor == "orchestrator"
    && e.body.Merged? && e.body.ticketId == t.origin.id && e.body.worker == t.worker && e.body.commit == c
    && sys'.jobs == sys.jobs && sys'.br == Found(sys.br, t.origin.goalId)
  }

  lemma MergeIsLawful(n: int, s: State, a: Marks, e: Event, s': State, t: Ticket)
    requires Core(n, s, a) && Current(s, t) && PassedSince(a, t.origin.id) && CancelOk(a, t) && After(s, e, s')
    requires e.num == n + 1
    requires e.actor == "orchestrator" && e.body.Merged? && e.body.ticketId == t.origin.id && e.body.worker == t.worker
    ensures Core(n + 1, s', Mark(a, e)) && Onward(s, e, s') && Lawful(a, s, e)
  {
    MergeIsLegal(n, s, a, t, e.body);
    CoreKept(n, s, a, e, s');
    LegalIsLawful(n, s, a, e);
  }

  lemma MergeLeaves(s: State, jobs: map<string, Job>, a: Marks, e: Event, s': State, queue: seq<Ticket>, clear: nat,
                    t: Ticket)
    requires JobsOk(s, jobs) && GoalsPlain(s) && After(s, e, s') && Onward(s, e, s')
    requires QueueOk(s, queue) && 0 < clear <= |queue| && (forall i :: 0 <= i < clear ==> CancelOk(a, queue[i]))
    requires t == queue[0]
    requires e.body.Merged? && e.body.ticketId == t.origin.id
    ensures JobsOk(s', jobs) && GoalsPlain(s')
    ensures QueueOk(s', queue[1..]) && forall i :: 0 <= i < clear - 1 ==> CancelOk(Mark(a, e), queue[1..][i])
  {
    assert t in queue;
    PlainKept(s, e, s');
    QueuedIsFree(s, jobs, t, e);
    JobsKept(s, jobs, e, s');
    MergedQueue(s, a, e, s', queue, clear);
  }

  lemma MergeWrites(cfg: Config, sys: Sys, sys': Sys, e: Event, t: Ticket, c: Commit)
    requires Inv(cfg, sys) && Current(sys.state, t) && PassedSince(sys.marks, t.origin.id) && CancelOk(sys.marks, t)
    requires ByMerge(sys, sys', e, t, c)
    ensures Writes(sys, sys', Some(e)) && Onward(sys.state, e, sys'.state) && Core(|sys'.log|, sys'.state, sys'.marks)
  {
    MergeIsLawful(|sys.log|, sys.state, sys.marks, e, sys'.state, t);
  }

  lemma MergeKept(cfg: Config, sys: Sys, sys': Sys, e: Event, t: Ticket, c: Commit)
    requires Inv(cfg, sys) && AtHead(sys) && sys.phase.stage == Recorded(c)
    requires t == sys.phase.queue[0] && ByMerge(sys, sys', e, t, c)
    requires sys'.phase == Draining(sys.phase.queue[1..], sys.phase.clear - 1, Waiting)
    ensures Inv(cfg, sys') && Writes(sys, sys', Some(e))
  {
    assert t in sys.phase.queue;
    MergeWrites(cfg, sys, sys', e, t, c);
    MergeLeaves(sys.state, sys.jobs, sys.marks, e, sys'.state, sys.phase.queue, sys.phase.clear, t);
    if cfg.opt.prMode { MergeTips(cfg, sys.state, sys.lands, sys.br, e, sys'.state, t, c); } else {
      assert sys'.br == sys.br;
    }
  }

  function MergedBody(cfg: Config, t: Ticket, c: Commit): Body {
    Merged(t.origin.id, t.worker, c, if cfg.opt.prMode then GoalBranch(t.origin.goalId) else "")
  }

  lemma MergeGrows(cfg: Config, sys: Sys, ts: int, t: Ticket, c: Commit) returns (e: Event)
    requires AtHead(sys) && sys.phase.stage == Recorded(c) && t == sys.phase.queue[0]
    ensures var sys' := ProceedHead(cfg, sys, ts);
            ByMerge(sys, sys', e, t, c) && sys'.phase == Draining(sys.phase.queue[1..], sys.phase.clear - 1, Waiting)
  {
    var phase' := Draining(sys.phase.queue[1..], sys.phase.clear - 1, Waiting);
    e := AppendGrows(sys, ts, "orchestrator", MergedBody(cfg, t, c));
    assert ProceedHead(cfg, sys, ts) ==
           Append(sys, ts, "orchestrator", MergedBody(cfg, t, c)).(
             phase := phase', br := Found(sys.br, t.origin.goalId));
  }

  lemma MergeKeepsInv(cfg: Config, sys: Sys, ts: int) returns (w: Option<Event>)
    requires Inv(cfg, sys) && AtHead(sys) && sys.phase.stage.Recorded?
    ensures Inv(cfg, ProceedHead(cfg, sys, ts)) && Writes(sys, ProceedHead(cfg, sys, ts), w)
  {
    var t, c := sys.phase.queue[0], sys.phase.stage.commit;
    var e := MergeGrows(cfg, sys, ts, t, c);
    MergeKept(cfg, sys, ProceedHead(cfg, sys, ts), e, t, c);
    w := Some(e);
  }

  lemma ProceedKeepsInv(cfg: Config, sys: Sys, ts: int) returns (w: Option<Event>)
    requires Inv(cfg, sys)
    ensures Inv(cfg, ProceedHead(cfg, sys, ts)) && Writes(sys, ProceedHead(cfg, sys, ts), w)
  {
    w := None;
    if AtHead(sys) {
      match sys.phase.stage {
        case Waiting =>
        case Landing(_) => AdvanceKeepsInv(cfg, sys, ts);
        case Kept(c) => w := RecordKeepsInv(cfg, sys, ts, Recorded(c));
        case Recorded(_) => w := MergeKeepsInv(cfg, sys, ts);
        case Parking(c) => w := RecordKeepsInv(cfg, sys, ts, Parked(c));
        case Parked(_) => w := ParkKeepsInv(cfg, sys, ts);
      }
    }
  }

  // --- Delivery ----------------------------------------------------------------------------------

  /** A complete Goal has nothing on its branch that is not recorded. */
  lemma CompleteHasNoWitness(s: State, tip: Commit, g: string)
    requires GoalComplete(s, g)
    ensures !Witnessed(s, tip, g)
  {
    forall id | id in s.tickets ensures !Witness(s.tickets[id], tip, g) {
      if s.tickets[id].origin.goalId == g { assert Complete(s, id); }
    }
  }

  lemma TryWritesNothing(sys: Sys)
    ensures Writes(sys, TryDelivery(sys), None)
  {
  }

  lemma TryKeepsInv(cfg: Config, sys: Sys)
    requires Inv(cfg, sys)
    ensures Inv(cfg, TryDelivery(sys))
  {
    if sys.phase.Delivering? && sys.phase.goals != [] {
      var g := sys.phase.goals[0];
      if Deliverable(sys.state, g) && g in sys.br.tips {
        CompleteHasNoWitness(sys.state, sys.br.tips[g], g);
        assert TipOk(sys.state, sys.lands, sys.br, g);
        assert Pushable(cfg, sys.state, sys.lands, sys.br, g, sys.br.tips[g]);
      }
    }
  }

  /** What a push ends in: a delivery of the tip pushed, or a failure. */
  predicate PushBody(g: string, tip: Commit, b: Body) {
    b.DeliveryFailed? || (b.Delivered? && b.goalId == g && b.commit == tip)
  }

  lemma PushIsLegal(cfg: Config, s: State, a: Marks, lands: Landings, br: Branches, g: string, tip: Commit, b: Body)
    requires Pushable(cfg, s, lands, br, g, tip) && PushBody(g, tip, b)
    ensures Legal(s, a, b)
  {
  }

  lemma PushIsKnown(cfg: Config, sys: Sys, e: Event)
    requires Inv(cfg, sys) && sys.phase.Pushing? && PushBody(sys.phase.goal, sys.phase.tip, e.body)
    ensures DeliversAsKnown(sys, e)
  {
  }

  lemma PushIsByScheduler(cfg: Config, sys: Sys, sys': Sys, e: Event)
    requires Inv(cfg, sys) && sys.phase.Pushing? && Phased(sys, sys', e, Delivering(sys.phase.goals))
    requires PushBody(sys.phase.goal, sys.phase.tip, e.body)
    ensures ByScheduler(sys, sys', e)
  {
    PushIsLegal(cfg, sys.state, sys.marks, sys.lands, sys.br, sys.phase.goal, sys.phase.tip, e.body);
    PushIsKnown(cfg, sys, e);
  }

  lemma PushKeptInv(cfg: Config, sys: Sys, sys': Sys, e: Event)
    requires Inv(cfg, sys) && sys.phase.Pushing? && Phased(sys, sys', e, Delivering(sys.phase.goals))
    requires PushBody(sys.phase.goal, sys.phase.tip, e.body)
    ensures Inv(cfg, sys') && Writes(sys, sys', Some(e))
  {
    PushIsByScheduler(cfg, sys, sys', e);
    SchedulerKeepsInv(cfg, sys, sys', e);
  }

  lemma PushKeepsInv(cfg: Config, sys: Sys, ts: int, url: Option<string>, reason: string) returns (w: Option<Event>)
    requires Inv(cfg, sys)
    ensures Inv(cfg, Push(sys, ts, url, reason)) && Writes(sys, Push(sys, ts, url, reason), w)
  {
    w := None;
    if sys.phase.Pushing? {
      var g := sys.phase.goal;
      var b := if url.Some? then Delivered(g, GoalBranch(g), sys.phase.tip, url.value)
          else DeliveryFailed(g, GoalBranch(g), reason);
      var e := SchedulerAppends(sys, ts, b, Delivering(sys.phase.goals));
      assert Push(sys, ts, url, reason) == Append(sys, ts, "orchestrator", b).(phase := Delivering(sys.phase.goals));
      PushKeptInv(cfg, sys, Push(sys, ts, url, reason), e);
      w := Some(e);
    }
  }

  // --- Every step --------------------------------------------------------------------------------

  lemma DrainKeepsInv(cfg: Config, sys: Sys)
    requires Inv(cfg, sys)
    ensures Inv(cfg, sys.(phase := Draining(InOrder(sys.state, sys.state.ticketOrder, IsProposed), 0, Waiting)))
  {
    DrainIsOk(|sys.log|, sys.state, sys.marks);
  }

  lemma DecideKeepsInv(cfg: Config, sys: Sys, ts: int, move: Move)
    requires Inv(cfg, sys) && IsDecision(move)
    ensures Inv(cfg, SchedulerDoes(cfg, sys, ts, move))
  {
    DecisionIsDue(cfg, sys, move);
  }

  lemma QueueStepKeepsInv(cfg: Config, sys: Sys, ts: int, move: Move) returns (w: Option<Event>)
    requires Inv(cfg, sys) && (move.Drains? || move.Clears? || move.Judges? || move.Proceeds?)
    ensures var sys' := SchedulerDoes(cfg, sys, ts, move);
            Inv(cfg, sys') && Writes(sys, sys', w)
  {
    w := None;
    if move.Drains? {
      DrainKeepsInv(cfg, sys);
    } else if move.Clears? {
      assert SchedulerDoes(cfg, sys, ts, move) == ClearNext(sys, ts);
      w := ClearKeepsInv(cfg, sys, ts);
    } else if move.Judges? {
      assert SchedulerDoes(cfg, sys, ts, move) == JudgeHead(cfg, sys, ts, move.outcome);
      w := JudgeKeepsInv(cfg, sys, ts, move.outcome);
    } else {
      assert SchedulerDoes(cfg, sys, ts, move) == ProceedHead(cfg, sys, ts);
      w := ProceedKeepsInv(cfg, sys, ts);
    }
  }

  lemma DeliversKeepsInv(cfg: Config, sys: Sys, ts: int, goals: seq<string>)
    requires Inv(cfg, sys)
    ensures Inv(cfg, SchedulerDoes(cfg, sys, ts, DeliversReady(goals)))
  {
  }

  lemma TriesKeepsInv(cfg: Config, sys: Sys, ts: int)
    requires Inv(cfg, sys)
    ensures var sys' := SchedulerDoes(cfg, sys, ts, TriesDelivery);
            Inv(cfg, sys') && Writes(sys, sys', None)
  {
    var sys' := TryDelivery(sys);
    assert SchedulerDoes(cfg, sys, ts, TriesDelivery) == sys';
    TryKeepsInv(cfg, sys);
    TryWritesNothing(sys);
  }

  lemma PushStepKeepsInv(cfg: Config, sys: Sys, ts: int, move: Move) returns (w: Option<Event>)
    requires Inv(cfg, sys) && (move.Pushed? || move.PushFails?)
    ensures var sys' := SchedulerDoes(cfg, sys, ts, move);
            Inv(cfg, sys') && Writes(sys, sys', w)
  {
    var url, reason := if move.Pushed? then Some(move.url) else None, if move.Pushed? then "" else move.reason;
    assert SchedulerDoes(cfg, sys, ts, move) == Push(sys, ts, url, reason);
    w := PushKeepsInv(cfg, sys, ts, url, reason);
  }

  lemma PassStepKeepsInv(cfg: Config, sys: Sys, ts: int, move: Move) returns (w: Option<Event>)
    requires Inv(cfg, sys)
    ensures var sys' := SchedulerDoes(cfg, sys, ts, move);
            Inv(cfg, sys') && Writes(sys, sys', w)
  {
    w := None;
    if IsDecision(move) {
      DecideKeepsInv(cfg, sys, ts, move);
    } else if move.Dispatches? {
      w := DispatchKeepsInv(cfg, sys, ts, move.id, move.base, move.now);
    } else if move.Drains? || move.Clears? || move.Judges? || move.Proceeds? {
      w := QueueStepKeepsInv(cfg, sys, ts, move);
    } else if move.DeliversReady? {
      DeliversKeepsInv(cfg, sys, ts, move.goals);
    } else if move.TriesDelivery? {
      TriesKeepsInv(cfg, sys, ts);
    } else if move.Pushed? || move.PushFails? {
      w := PushStepKeepsInv(cfg, sys, ts, move);
    } else if move.Emits? {
      w := EmitKeepsInv(cfg, sys, ts);
    }
  }

  /** Every step of every actor keeps the invariant, and what it appends keeps every rule. */
  lemma NextKeepsInv(cfg: Config, sys: Sys, step: Step) returns (w: Option<Event>)
    requires Inv(cfg, sys)
    ensures Inv(cfg, Next(cfg, sys, step)) && Writes(sys, Next(cfg, sys, step), w)
  {
    w := None;
    match step {
      case Front(ts, door) =>
        if FrontDoorAppends(sys.state, door).Some? {
          DoorAppends(sys.state, door);
          w := OutsideKeepsInv(cfg, sys, ts, "human", FrontDoorAppends(sys.state, door).value);
        }
      case Work(ts, id, deed) => w := WorkKeepsInv(cfg, sys, ts, id, deed);
      case Pass(ts, move) => w := PassStepKeepsInv(cfg, sys, ts, move);
      case Observe(ts, b) => if IsNote(sys.state, b) { w := OutsideKeepsInv(cfg, sys, ts, "orchestrator", b); }
      case Crash => CrashKeepsInv(cfg, sys);
    }
  }

  // --- Every run ---------------------------------------------------------------------------------

  lemma StartIsOk(cfg: Config)
    ensures Inv(cfg, START)
  {
  }
}
