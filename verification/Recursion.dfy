/** When the task graph's recursions return (ticketComplete and ticketDead in
    internal/state/state.go): they follow decomposed tickets to their children, which
    the cycle check on dependencies says nothing about. */
module Recursion {
  import opened Events
  import opened Replay
  import opened Digraph
  import opened Sequences
  import opened TaskGraph
  import D = Decompose
  import G = GraphGrowth

  /** The children a call's loop comes to: all of them, or those up to the first whose
      verdict ends it. */
  ghost function Visited(s: State, q: Query, cs: seq<string>): seq<string> {
    var e := LoopEnd(s, q, cs, 0);
    if e < |cs| then cs[..e + 1] else cs
  }

  /** What the recursion follows. */
  ghost function Calls(s: State, q: Query): Graph {
    map id | id in s.tickets && s.tickets[id].status == Decomposed :: Visited(s, q, s.tickets[id].children)
  }

  /** Calls that start on `id` come to some ticket twice, each within the one before. */
  ghost predicate ComesBack(s: State, q: Query, id: string) {
    exists p :: IsTrail(s, q, id, p) && !Distinct(p)
  }

  ghost predicate IsTrail(s: State, q: Query, id: string, p: seq<string>) {
    p != [] && p[0] == id && IsPath(Calls(s, q), p)
  }

  lemma VisitedIsReached(s: State, q: Query, cs: seq<string>, c: string)
    ensures c in Visited(s, q, cs) <==> exists k :: ComesTo(s, q, cs, k) && cs[k] == c
  {
    var e := LoopEnd(s, q, cs, 0);
    if c in Visited(s, q, cs) {
      var k :| 0 <= k < |Visited(s, q, cs)| && Visited(s, q, cs)[k] == c;
      assert ComesTo(s, q, cs, k) && cs[k] == c;
    }
    if k :| ComesTo(s, q, cs, k) && cs[k] == c {
      assert Visited(s, q, cs)[k] == c;
    }
  }

  lemma CallGoesDown(s: State, q: Query, n: string, c: string)
    requires Edge(Calls(s, q), n, c) && Returns(s, q, n)
    ensures Returns(s, q, c) && Depth(s, q, c) < Depth(s, q, n)
  {
    VisitedIsReached(s, q, s.tickets[n].children, c);
    var k :| ComesTo(s, q, s.tickets[n].children, k) && s.tickets[n].children[k] == c;
    CallsLessDeep(s, q, n, k);
  }

  lemma {:induction false} TrailGoesDown(s: State, q: Query, p: seq<string>, i: nat, j: nat)
    requires IsPath(Calls(s, q), p) && i < j < |p| && Returns(s, q, p[i])
    ensures Returns(s, q, p[j]) && Depth(s, q, p[j]) < Depth(s, q, p[i])
    decreases j - i
  {
    if j > i + 1 { TrailGoesDown(s, q, p, i, j - 1); }
    assert Edge(Calls(s, q), p[j - 1], p[j]);
    CallGoesDown(s, q, p[j - 1], p[j]);
  }

  /** Some call a call that never returns makes never returns. */
  lemma HangsBelow(s: State, q: Query, id: string) returns (c: string)
    requires !Returns(s, q, id)
    ensures Edge(Calls(s, q), id, c) && !Returns(s, q, c)
  {
    if forall k :: IsSplit(s, id) && ComesTo(s, q, s.tickets[id].children, k) ==>
         Returns(s, q, s.tickets[id].children[k]) {
      LoopAnswers(s, q, id);
    }
    var k :| IsSplit(s, id) && ComesTo(s, q, s.tickets[id].children, k) && !Returns(s, q, s.tickets[id].children[k]);
    c := s.tickets[id].children[k];
    VisitedIsReached(s, q, s.tickets[id].children, c);
  }

  /** Calls that never return go on until they come back. */
  lemma {:induction false} HangsComesBack(s: State, q: Query, id: string, p: seq<string>)
    requires IsTrail(s, q, id, p) && Distinct(p) && forall n :: n in p ==> !Returns(s, q, n) && n in s.tickets
    ensures ComesBack(s, q, id)
    decreases |s.tickets| - |p|
  {
    var c := HangsBelow(s, q, p[|p| - 1]);
    var more := p + [c];
    assert IsTrail(s, q, id, more);
    if c in p {
      var i :| 0 <= i < |p| && p[i] == c;
      assert more[i] == more[|p|];
    } else {
      assert c in s.tickets by { if c !in s.tickets { LoopAnswers(s, q, c); } }
      DistinctSize(more, s.tickets.Keys);
      assert |s.tickets.Keys| == |s.tickets|;
      HangsComesBack(s, q, id, more);
    }
  }

  /** A call returns exactly if the calls it makes, each within the one before, never come
      back to a ticket. */
  lemma ReturnsExactly(s: State, q: Query, id: string)
    ensures Returns(s, q, id) <==> !ComesBack(s, q, id)
  {
    if Returns(s, q, id) {
      forall p | IsTrail(s, q, id, p) ensures Distinct(p) {
        forall i, j | 0 <= i < j < |p| ensures p[i] != p[j] {
          if i > 0 { TrailGoesDown(s, q, p, 0, i); }
          TrailGoesDown(s, q, p, i, j);
        }
      }
    } else {
      assert id in s.tickets by { if id !in s.tickets { LoopAnswers(s, q, id); } }
      HangsComesBack(s, q, id, [id]);
    }
  }

  /** So calls on every ticket return exactly if the calls form no cycle. */
  lemma AllReturnExactly(s: State, q: Query)
    ensures (forall id :: Returns(s, q, id)) <==> !Cyclic(Calls(s, q))
  {
    if p :| IsCycle(Calls(s, q), p) {
      assert IsTrail(s, q, p[0], p);
      ReturnsExactly(s, q, p[0]);
    }
    if id :| !Returns(s, q, id) {
      ReturnsExactly(s, q, id);
      var p :| IsTrail(s, q, id, p) && !Distinct(p);
      var i, j :| 0 <= i < j < |p| && p[i] == p[j];
      assert IsCycle(Calls(s, q), p[i..j + 1]);
    }
  }

  /** A ticket may be its own descendant, and all calls return, if a child before it ends
      the loop. */
  lemma FailedSiblingReturns(s: State, p: string, a: string, q: Query, id: string)
    requires s.tickets.Keys == {p, a} && p != a && s.tickets[a].status == Failed
    requires IsSplit(s, p) && s.tickets[p].children == [a, p]
    ensures Returns(s, q, id)
  {
    assert Answers(s, q, a, q.Stop());
    if id == p { assert Answers(s, q, p, q.Stop()) by { assert s.tickets[p].children[0] == a; } }
    else { assert Answers(s, q, id, Leaf(s, q, id)); }
  }

  /** One whose only child is itself never returns. */
  lemma OwnChildHangs(s: State, p: string, q: Query)
    requires IsSplit(s, p) && s.tickets[p].children == [p]
    ensures !Returns(s, q, p)
  {
    assert ComesTo(s, q, [p], 0);
    if Returns(s, q, p) { CallsLessDeep(s, q, p, 0); }
  }

  // --- Only a decomposition gives a ticket children ----------------------------------------------

  predicate NoNewSplit(t: Ticket, t': Ticket) {
    t'.children == t.children && (t'.status == Decomposed ==> t.status == Decomposed)
  }

  lemma AttemptsDoNotSplit(t: Ticket, e: Event)
    requires e.body.ProposalSubmitted? || e.body.WorkerRestarted? || e.body.VerificationFailed? ||
             e.body.TicketFailed? ||
             e.body.TicketInvalidated?
    ensures NoNewSplit(t, StepTicket(t, e))
  {
  }

  lemma StepKeepsChildren(t: Ticket, e: Event)
    requires !e.body.TicketDecomposed?
    ensures NoNewSplit(t, StepTicket(t, e))
  {
    if e.body.ProposalSubmitted? || e.body.WorkerRestarted? || e.body.VerificationFailed? || e.body.TicketFailed? ||
       e.body.TicketInvalidated? {
      AttemptsDoNotSplit(t, e);
    }
  }

  lemma SplitBefore(s: State, e: Event, s': State, id: string)
    requires Becomes(s, e, s') && !e.body.TicketDecomposed? && id in s'.tickets && s'.tickets[id].status == Decomposed
    ensures id in s.tickets && s.tickets[id].status == Decomposed && s.tickets[id].children == s'.tickets[id].children
  {
    if id in s.tickets {
      assert TicketBecomes(s.tickets[id], e, id, s'.tickets[id]);
      StepKeepsChildren(s.tickets[id], e);
    }
  }

  // --- Runs that adopt nothing -------------------------------------------------------------------

  /** No accepted plan adopts a ticket that is on the log already. */
  ghost predicate AdoptsNothing(sys: G.Sys, step: G.Step) {
    step.Begin? && G.Accepted(sys, step.job, step.subs, step.gov) ==>
      forall c :: c in D.Plan(sys.state, step.job, step.subs) ==> !c.adopt
  }

  predicate Longer(id: string, children: seq<string>) { forall c :: c in children ==> |c| > |id| }

  /** Every child's id is longer than its parent's. */
  ghost predicate Downward(s: State) {
    forall id :: id in s.tickets && s.tickets[id].status == Decomposed ==> Longer(id, s.tickets[id].children)
  }

  ghost predicate PlansDown(plans: map<string, D.InFlight>) {
    forall p :: p in plans ==> plans[p].job.ticketId == p && Longer(p, plans[p].children)
  }

  /** Then no call comes back: ids only grow along the way. */
  lemma DownwardReturns(s: State, q: Query, id: string)
    requires Downward(s)
    ensures Returns(s, q, id)
  {
    forall p | IsTrail(s, q, id, p) ensures Distinct(p) {
      forall i: nat, j: nat | i < j < |p| ensures p[i] != p[j] { TrailGrows(s, q, p, i, j); }
    }
    ReturnsExactly(s, q, id);
  }

  lemma {:induction false} TrailGrows(s: State, q: Query, p: seq<string>, i: nat, j: nat)
    requires Downward(s) && IsPath(Calls(s, q), p) && i < j < |p|
    ensures |p[j]| > |p[i]|
    decreases j - i
  {
    if j > i + 1 { TrailGrows(s, q, p, i, j - 1); }
    assert Edge(Calls(s, q), p[j - 1], p[j]) && Longer(p[j - 1], s.tickets[p[j - 1]].children);
  }

  lemma NewPlanIsDown(s: State, j: D.Job, worker: string, subs: seq<D.Subtask>, charge: Charge)
    requires forall c :: c in D.Plan(s, j, subs) ==> !c.adopt
    ensures Longer(j.ticketId, D.Begun(s, j, worker, subs, charge).children)
  {
    var cs := D.Plan(s, j, subs);
    D.PlanIsShaped(s, j, subs);
    forall id | id in D.Ids(cs) ensures |id| > |j.ticketId| {
      var i :| 0 <= i < |cs| && cs[i].id == id;
      assert cs[i] in cs && D.Shaped(s, j.ticketId, subs, cs[i]);
    }
  }

  lemma OtherKeepsDown(s: State, e: Event)
    requires Downward(s) && !e.body.TicketDecomposed?
    ensures Downward(Apply(s, e))
  {
    var s' := Apply(s, e);
    ApplyIsLocal(s, e);
    forall id | id in s'.tickets && s'.tickets[id].status == Decomposed ensures Longer(id, s'.tickets[id].children) {
      SplitBefore(s, e, s', id);
    }
  }

  lemma SplitKeepsDown(s: State, e: Event)
    requires Downward(s) && e.body.TicketDecomposed? && Longer(e.body.ticketId, e.body.children)
    ensures Downward(Apply(s, e))
  {
    var s' := Apply(s, e);
    ApplyIsLocal(s, e);
    forall id | id in s'.tickets && s'.tickets[id].status == Decomposed ensures Longer(id, s'.tickets[id].children) {
      assert TicketBecomes(s.tickets[id], e, id, s'.tickets[id]);
    }
  }

  ghost predicate Down(sys: G.Sys) { Downward(sys.state) && PlansDown(sys.plans) }

  lemma EmitKeepsDown(sys: G.Sys, id: string, ts: int)
    requires Down(sys) && id in sys.plans
    ensures Down(G.Emitted(sys, id, ts))
  {
    var p := sys.plans[id];
    var e := Event(sys.state.lastSeq + 1, ts, "orchestrator", D.NextBody(p));
    assert G.Emitted(sys, id, ts) == sys.(state := Apply(sys.state, e), plans := G.Rest(sys.plans, id));
    if p.todo == [] { SplitKeepsDown(sys.state, e); } else { OtherKeepsDown(sys.state, e); }
  }

  lemma AppendKeepsDown(sys: G.Sys, sys': G.Sys, e: Event)
    requires Down(sys) && !e.body.TicketDecomposed? && sys' == sys.(state := Apply(sys.state, e))
    ensures Down(sys')
  {
    OtherKeepsDown(sys.state, e);
  }

  lemma RefusedKeepsDown(sys: G.Sys, ts: int, b: Body)
    requires Down(sys) && b.TicketFailed?
    ensures Down(G.Appended(sys, ts, b))
  {
    AppendKeepsDown(sys, G.Appended(sys, ts, b), Event(sys.state.lastSeq + 1, ts, "orchestrator", b));
  }

  lemma SeededKeepsDown(sys: G.Sys, ts: int, b: Body)
    requires Down(sys) && b.TicketCreated?
    ensures Down(G.Appended(sys, ts, b))
  {
    AppendKeepsDown(sys, G.Appended(sys, ts, b), Event(sys.state.lastSeq + 1, ts, "orchestrator", b));
  }

  lemma BeginKeepsDown(sys: G.Sys, step: G.Step)
    requires Down(sys) && step.Begin? && AdoptsNothing(sys, step)
    ensures Down(G.Next(sys, step))
  {
    var j := step.job;
    if G.Accepted(sys, j, step.subs, step.gov) {
      NewPlanIsDown(sys.state, j, step.worker, step.subs, step.charge);
    } else if j.ticketId !in sys.plans {
      RefusedKeepsDown(sys, step.ts, D.RefusedBody(j, step.worker, step.charge));
    }
  }

  lemma NextKeepsDown(sys: G.Sys, step: G.Step)
    requires Down(sys) && AdoptsNothing(sys, step)
    ensures Down(G.Next(sys, step))
  {
    if step.Begin? {
      BeginKeepsDown(sys, step);
    } else if step.Emit? {
      if step.id in sys.plans { EmitKeepsDown(sys, step.id, step.ts); }
    } else if step.Seed? {
      SeededKeepsDown(sys, step.ts, G.SeedBody(step.goalId, step.title));
    } else if step.Other? && !step.e.body.TicketCreated? && !step.e.body.TicketDecomposed? {
      OtherKeepsDown(sys.state, step.e);
    }
  }

  ghost predicate NeverAdopts(steps: seq<G.Step>) {
    forall k :: 0 <= k < |steps| ==> AdoptsNothing(G.Run(steps[..k]), steps[k])
  }

  lemma {:induction false} RunIsDown(steps: seq<G.Step>)
    requires NeverAdopts(steps)
    ensures Down(G.Run(steps))
  {
    if steps != [] {
      var n := |steps| - 1;
      forall k | 0 <= k < n ensures AdoptsNothing(G.Run(steps[..n][..k]), steps[..n][k]) {
        assert steps[..n][..k] == steps[..k];
      }
      RunIsDown(steps[..n]);
      NextKeepsDown(G.Run(steps[..n]), steps[n]);
    }
  }

  /** As long as no plan adopts, the recursions return, whatever else happens. */
  lemma NonAdoptingReturns(steps: seq<G.Step>, q: Query, id: string)
    requires NeverAdopts(steps)
    ensures Returns(G.Run(steps).state, q, id)
  {
    RunIsDown(steps);
    DownwardReturns(G.Run(steps).state, q, id);
  }
}
