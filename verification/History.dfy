/** What an event history must satisfy (internal/invariant/invariant.go), as rules on
    each event given the ones before it. */
module History {
  import opened Events
  import opened Replay
  import opened TaskGraph

  /** What the rules remember of the events so far: by ticket, the numbers of its
      latest proposal, Gate pass, and proposal or approval; by Goal, its first
      cancel. */
  datatype Marks = Marks(
    proposedAt: map<string, int>, passedAt: map<string, int>, merged: set<string>,
    requested: set<string>, granted: set<string>,
    goalOf: map<string, string>, cancelledAt: map<string, int>, movedAt: map<string, int>, delivered: set<string>)

  const NO_MARKS := Marks(map[], map[], {}, {}, {}, map[], map[], map[], {})

  function At(m: map<string, int>, k: string): int {
    if k in m then m[k] else 0
  }

  predicate Passes(e: Event, id: string) { e.body.VerificationPassed? && e.body.ticketId == id }

  predicate Proposes(e: Event, id: string) { e.body.ProposalSubmitted? && e.body.ticketId == id }

  predicate MovesOn(e: Event, id: string) {
    (e.body.ProposalSubmitted? || e.body.ApprovalGranted?) && e.body.ticketId == id
  }

  predicate Cancels(e: Event, g: string) { e.body.GoalCancelled? && e.body.goalId == g }

  predicate Merges(e: Event, id: string) { e.body.Merged? && e.body.ticketId == id }

  predicate Requests(e: Event, id: string) { e.body.ApprovalRequested? && e.body.ticketId == id }

  predicate Grants(e: Event, id: string) { e.body.ApprovalGranted? && e.body.ticketId == id }

  predicate Delivers(e: Event, g: string) { e.body.Delivered? && e.body.goalId == g }

  function DateIf(m: map<string, int>, dates: bool, e: Event): map<string, int>
    requires dates ==> NamesTicket(e.body)
  {
    if dates then m[e.body.ticketId := e.num] else m
  }

  function Listing(ids: set<string>, lists: bool, b: Body): set<string>
    requires lists ==> NamesTicket(b)
  {
    if lists then ids + {b.ticketId} else ids
  }

  function Mark(a: Marks, e: Event): Marks {
    var b := e.body;
    Marks(DateIf(a.proposedAt, b.ProposalSubmitted?, e),
          DateIf(a.passedAt, b.VerificationPassed?, e),
          Listing(a.merged, b.Merged?, b),
          Listing(a.requested, b.ApprovalRequested?, b),
          Listing(a.granted, b.ApprovalGranted?, b),
          if b.TicketCreated? then a.goalOf[b.ticketId := b.goalId] else a.goalOf,
          if b.GoalCancelled? && At(a.cancelledAt, b.goalId) == 0 then a.cancelledAt[b.goalId := e.num]
          else a.cancelledAt,
          DateIf(a.movedAt, b.ProposalSubmitted? || b.ApprovalGranted?, e),
          if b.Delivered? then a.delivered + {b.goalId} else a.delivered)
  }

  function MarksOf(log: seq<Event>): Marks {
    if log == [] then NO_MARKS else Mark(MarksOf(log[..|log| - 1]), log[|log| - 1])
  }

  /** By Goal, the commit of its latest merge; and every commit ever merged for it. */
  datatype Landings = Landings(last: map<string, Commit>, all: set<(string, Commit)>)

  const NO_LANDINGS := Landings(map[], {})

  /** `s` is the state the event leads to. */
  function Land(l: Landings, s: State, e: Event): Landings {
    if e.body.Merged? && e.body.ticketId in s.tickets then
      var t := s.tickets[e.body.ticketId];
      Landings(l.last[t.origin.goalId := t.candidate.commit], l.all + {(t.origin.goalId, t.candidate.commit)})
    else l
  }

  function LandingsOf(log: seq<Event>): Landings {
    if log == [] then NO_LANDINGS else Land(LandingsOf(log[..|log| - 1]), Fold(log), log[|log| - 1])
  }

  function LastMerge(l: Landings, g: string): Commit {
    if g in l.last then l.last[g] else NoCommit
  }

  // --- The rules ---------------------------------------------------------------------------------

  function GoalFor(a: Marks, id: string): string {
    if id in a.goalOf then a.goalOf[id] else ""
  }

  /** The Gate passed since the ticket's latest proposal. */
  predicate PassedSince(a: Marks, id: string) {
    At(a.passedAt, id) != 0 && At(a.passedAt, id) >= At(a.proposedAt, id)
  }

  /** The ticket was proposed, or approved, after its Goal's cancel. */
  predicate MovedAfterCancel(a: Marks, id: string) {
    At(a.cancelledAt, GoalFor(a, id)) > 0 && At(a.movedAt, id) > At(a.cancelledAt, GoalFor(a, id))
  }

  predicate MergeIsVerified(a: Marks, e: Event) { e.body.Merged? ==> PassedSince(a, e.body.ticketId) }

  predicate MergeIsOnce(a: Marks, e: Event) {
    e.body.Merged? ==> e.body.ticketId !in a.merged && e.actor == "orchestrator"
  }

  predicate MergeIsApproved(a: Marks, e: Event) {
    e.body.Merged? ==> (e.body.ticketId in a.requested ==> e.body.ticketId in a.granted)
  }

  predicate CancelIsHonoured(a: Marks, e: Event) { e.body.Merged? ==> !MovedAfterCancel(a, e.body.ticketId) }

  ghost predicate DeliveryIsOnce(a: Marks, s: State, e: Event) {
    e.body.Delivered? ==> e.body.goalId !in a.delivered && GoalComplete(s, e.body.goalId)
  }

  predicate DeliveryIsExact(l: Landings, e: Event) {
    e.body.Delivered? ==> e.body.commit == LastMerge(l, e.body.goalId)
  }

  ghost predicate Lawful(a: Marks, s: State, e: Event) {
    MergeIsVerified(a, e) && MergeIsOnce(a, e) && MergeIsApproved(a, e) && CancelIsHonoured(a, e) &&
        DeliveryIsOnce(a, s, e)
  }

  ghost predicate LawfulAt(log: seq<Event>, m: nat)
    requires m < |log|
  {
    Lawful(MarksOf(log[..m]), Fold(log[..m]), log[m])
  }

  /** Every event of the history keeps every rule. */
  ghost predicate Obeys(log: seq<Event>) {
    forall m :: 0 <= m < |log| ==> LawfulAt(log, m)
  }

  ghost predicate DeliveredExactlyAt(log: seq<Event>, m: nat)
    requires m < |log|
  {
    DeliveryIsExact(LandingsOf(log[..m]), log[m])
  }

  // --- What the rules mean, by position ----------------------------------------------------------

  predicate Gapless(log: seq<Event>) {
    forall i :: 0 <= i < |log| ==> log[i].num == i + 1
  }

  /** The number of the last event that satisfies p, 0 when none does. */
  ghost function LastNum(log: seq<Event>, p: Event -> bool): int {
    if log == [] then 0 else if p(log[|log| - 1]) then log[|log| - 1].num else LastNum(log[..|log| - 1], p)
  }

  lemma {:induction false} LastNumIsLast(log: seq<Event>, p: Event -> bool)
    requires Gapless(log)
    ensures 0 <= LastNum(log, p) <= |log|
    ensures LastNum(log, p) > 0 ==> p(log[LastNum(log, p) - 1])
    ensures forall i :: LastNum(log, p) <= i < |log| ==> !p(log[i])
  {
    if log != [] && !p(log[|log| - 1]) {
      var init := log[..|log| - 1];
      LastNumIsLast(init, p);
      forall i | LastNum(log, p) <= i < |log| ensures !p(log[i]) {
        if i < |init| { assert init[i] == log[i]; }
      }
    }
  }

  lemma MarkMoves(a: Marks, e: Event, id: string)
    ensures At(Mark(a, e).proposedAt, id) == if Proposes(e, id) then e.num else At(a.proposedAt, id)
    ensures At(Mark(a, e).passedAt, id) == if Passes(e, id) then e.num else At(a.passedAt, id)
    ensures At(Mark(a, e).movedAt, id) == if MovesOn(e, id) then e.num else At(a.movedAt, id)
  {
  }

  lemma {:induction false} MarksAreLast(log: seq<Event>, id: string)
    ensures At(MarksOf(log).proposedAt, id) == LastNum(log, e => Proposes(e, id))
    ensures At(MarksOf(log).passedAt, id) == LastNum(log, e => Passes(e, id))
    ensures At(MarksOf(log).movedAt, id) == LastNum(log, e => MovesOn(e, id))
  {
    if log != [] {
      MarksAreLast(log[..|log| - 1], id);
      MarkMoves(MarksOf(log[..|log| - 1]), log[|log| - 1], id);
    }
  }

  lemma {:induction false} FirstCancel(log: seq<Event>, g: string)
    requires Gapless(log)
    ensures var c := At(MarksOf(log).cancelledAt, g);
            && 0 <= c <= |log|
            && (c > 0 ==> Cancels(log[c - 1], g))
            && forall i :: 0 <= i < |log| && Cancels(log[i], g) ==> 0 < c <= i + 1
  {
    if log != [] {
      var init, e := log[..|log| - 1], log[|log| - 1];
      FirstCancel(init, g);
      forall i | 0 <= i < |log| && Cancels(log[i], g) ensures 0 < At(MarksOf(log).cancelledAt, g) <= i + 1 {
        if i < |init| { assert init[i] == log[i]; }
      }
    }
  }

  /** Some event satisfies p. */
  ghost predicate Seen(log: seq<Event>, p: Event -> bool) {
    exists i: nat :: i < |log| && p(log[i])
  }

  lemma SeenOneMore(log: seq<Event>, p: Event -> bool)
    requires log != []
    ensures Seen(log, p) <==> Seen(log[..|log| - 1], p) || p(log[|log| - 1])
  {
    var init := log[..|log| - 1];
    if Seen(init, p) {
      var i: nat :| i < |init| && p(init[i]);
      assert p(log[i]);
    }
    if Seen(log, p) && !p(log[|log| - 1]) {
      var i: nat :| i < |log| && p(log[i]);
      assert p(init[i]);
    }
  }

  lemma SeenBefore(log: seq<Event>, m: nat, p: Event -> bool)
    requires m <= |log|
    ensures Seen(log[..m], p) <==> exists i: nat :: i < m && p(log[i])
  {
    assert forall i :: 0 <= i < m ==> log[..m][i] == log[i];
  }

  lemma {:induction false} MarksAreSeen(log: seq<Event>, id: string)
    ensures id in MarksOf(log).merged <==> Seen(log, e => Merges(e, id))
    ensures id in MarksOf(log).requested <==> Seen(log, e => Requests(e, id))
    ensures id in MarksOf(log).granted <==> Seen(log, e => Grants(e, id))
    ensures id in MarksOf(log).delivered <==> Seen(log, e => Delivers(e, id))
  {
    if log != [] {
      MarksAreSeen(log[..|log| - 1], id);
      SeenOneMore(log, e => Merges(e, id));
      SeenOneMore(log, e => Requests(e, id));
      SeenOneMore(log, e => Grants(e, id));
      SeenOneMore(log, e => Delivers(e, id));
    }
  }

  /** A merge that keeps the rules comes after a Gate pass, with no proposal of its
      ticket in between. */
  lemma VerifiedMeans(log: seq<Event>, m: nat)
    requires Gapless(log) && m < |log| && log[m].body.Merged?
    ensures MergeIsVerified(MarksOf(log[..m]), log[m]) <==>
            exists v :: 0 <= v < m && Passes(log[v], log[m].body.ticketId) &&
                        forall k :: v < k < m ==> !Proposes(log[k], log[m].body.ticketId)
  {
    var before, id := log[..m], log[m].body.ticketId;
    MarksAreLast(before, id);
    LastNumIsLast(before, e => Proposes(e, id));
    LastNumIsLast(before, e => Passes(e, id));
    var prop, pass := At(MarksOf(before).proposedAt, id), At(MarksOf(before).passedAt, id);
    assert forall k :: 0 <= k < m ==> before[k] == log[k];
    if pass != 0 && pass >= prop {
      assert Passes(log[pass - 1], id);
      forall k | pass - 1 < k < m ensures !Proposes(log[k], id) { assert before[k] == log[k]; }
    }
    if v :| 0 <= v < m && Passes(log[v], id) && forall k :: v < k < m ==> !Proposes(log[k], id) {
      assert Passes(before[v], id);
      assert pass > v;
      assert prop > 0 ==> Proposes(log[prop - 1], id);
    }
  }

  /** A merge that honours cancels is of a ticket neither proposed nor approved after
      a cancel of the Goal it was created for. */
  lemma HonouredMeans(log: seq<Event>, m: nat)
    requires Gapless(log) && m < |log| && log[m].body.Merged?
    ensures var id := log[m].body.ticketId;
            var g := GoalFor(MarksOf(log[..m]), id);
            CancelIsHonoured(MarksOf(log[..m]), log[m]) <==>
            !exists c, k :: 0 <= c < k < m && Cancels(log[c], g) && MovesOn(log[k], id)
  {
    var before, id := log[..m], log[m].body.ticketId;
    var g := GoalFor(MarksOf(before), id);
    MarksAreLast(before, id);
    LastNumIsLast(before, e => MovesOn(e, id));
    FirstCancel(before, g);
    var c, k := At(MarksOf(before).cancelledAt, g), At(MarksOf(before).movedAt, id);
    assert forall i :: 0 <= i < m ==> before[i] == log[i];
    if c > 0 && k > c {
      assert Cancels(log[c - 1], g) && MovesOn(log[k - 1], id);
    }
    if c', k' :| 0 <= c' < k' < m && Cancels(log[c'], g) && MovesOn(log[k'], id) {
      assert Cancels(before[c'], g) && MovesOn(before[k'], id);
    }
  }

  /** A merge that is once is the Scheduler's, and its ticket's first. */
  lemma OnceMeans(log: seq<Event>, m: nat)
    requires m < |log| && log[m].body.Merged?
    ensures MergeIsOnce(MarksOf(log[..m]), log[m]) <==>
            log[m].actor == "orchestrator" && forall i :: 0 <= i < m ==> !Merges(log[i], log[m].body.ticketId)
  {
    MarksAreSeen(log[..m], log[m].body.ticketId);
    SeenBefore(log, m, e => Merges(e, log[m].body.ticketId));
  }

  /** A merge that is approved: if its ticket was ever parked, it was approved. */
  lemma ApprovedMeans(log: seq<Event>, m: nat)
    requires m < |log| && log[m].body.Merged?
    ensures var id := log[m].body.ticketId;
            MergeIsApproved(MarksOf(log[..m]), log[m]) <==>
            ((exists i: nat :: i < m && Requests(log[i], id)) ==> exists i: nat :: i < m && Grants(log[i], id))
  {
    var id := log[m].body.ticketId;
    MarksAreSeen(log[..m], id);
    SeenBefore(log, m, e => Requests(e, id));
    SeenBefore(log, m, e => Grants(e, id));
  }

  /** A delivery that is once is its Goal's first. */
  lemma DeliveredOnceMeans(log: seq<Event>, m: nat)
    requires m < |log| && log[m].body.Delivered?
    ensures log[m].body.goalId !in MarksOf(log[..m]).delivered <==>
            forall i: nat :: i < m ==> !Delivers(log[i], log[m].body.goalId)
  {
    MarksAreSeen(log[..m], log[m].body.goalId);
    SeenBefore(log, m, e => Delivers(e, log[m].body.goalId));
  }

  // --- Landings, by position ---------------------------------------------------------------------

  /** The i-th event records a merge for the Goal. */
  ghost predicate LandsFor(log: seq<Event>, i: nat, g: string)
    requires i < |log|
  {
    var s, e := Fold(log[..i]), log[i];
    e.body.Merged? && e.body.ticketId in s.tickets && s.tickets[e.body.ticketId].origin.goalId == g
  }

  /** A merge lands its own commit for the Goal of its ticket; nothing else does. */
  lemma LandMoves(l: Landings, s: State, e: Event, g: string)
    ensures var lands := e.body.Merged? && e.body.ticketId in s.tickets &&
            s.tickets[e.body.ticketId].origin.goalId == g;
            var l' := Land(l, Apply(s, e), e);
            && (g in l'.last <==> lands || g in l.last)
            && LastMerge(l', g) == if lands then e.body.commit else LastMerge(l, g)
  {
    ApplyIsLocal(s, e);
    if e.body.Merged? && e.body.ticketId in s.tickets {
      assert TicketBecomes(s.tickets[e.body.ticketId], e, e.body.ticketId, Apply(s, e).tickets[e.body.ticketId]);
    }
  }

  lemma LandStep(log: seq<Event>, g: string)
    requires log != []
    ensures var n, l := |log| - 1, LandingsOf(log[..|log| - 1]);
            && (g in LandingsOf(log).last <==> LandsFor(log, n, g) || g in l.last)
            && LastMerge(LandingsOf(log), g) == if LandsFor(log, n, g) then log[n].body.commit else LastMerge(l, g)
  {
    LandMoves(LandingsOf(log[..|log| - 1]), Fold(log[..|log| - 1]), log[|log| - 1], g);
  }

  lemma LandsInPrefix(log: seq<Event>, n: nat, i: nat, g: string)
    requires i < n <= |log|
    ensures LandsFor(log[..n], i, g) == LandsFor(log, i, g)
  {
    assert log[..n][..i] == log[..i];
  }

  /** The last merge recorded for the Goal is the i-th event. */
  ghost predicate LastLands(log: seq<Event>, i: nat, g: string) {
    i < |log| && LandsFor(log, i, g) && forall k: nat :: i < k < |log| ==> !LandsFor(log, k, g)
  }

  ghost predicate NoneLands(log: seq<Event>, g: string) {
    forall k: nat :: k < |log| ==> !LandsFor(log, k, g)
  }

  lemma StillLast(log: seq<Event>, i: nat, g: string)
    requires log != [] && !LandsFor(log, |log| - 1, g)
    ensures LastLands(log[..|log| - 1], i, g) ==> LastLands(log, i, g)
    ensures NoneLands(log[..|log| - 1], g) ==> NoneLands(log, g)
  {
    var n := |log| - 1;
    forall k: nat | k < n ensures LandsFor(log[..n], k, g) == LandsFor(log, k, g) { LandsInPrefix(log, n, k, g); }
  }

  /** A Goal's latest landing is that of the last merge recorded for it, if any was. */
  lemma {:induction false} LandedMeans(log: seq<Event>, g: string) returns (i: nat)
    ensures g in LandingsOf(log).last ==> LastLands(log, i, g) && LastMerge(LandingsOf(log), g) == log[i].body.commit
    ensures g !in LandingsOf(log).last ==> NoneLands(log, g)
  {
    i := 0;
    if log != [] {
      var n := |log| - 1;
      LandStep(log, g);
      if LandsFor(log, n, g) {
        i := n;
      } else {
        i := LandedMeans(log[..n], g);
        StillLast(log, i, g);
      }
    }
  }

  lemma OneLast(log: seq<Event>, i: nat, j: nat, g: string)
    requires LastLands(log, i, g) && LastLands(log, j, g)
    ensures i == j
  {
  }

  /** The m-th event delivers the commit of the last merge recorded for its Goal. */
  ghost predicate DeliversLatest(log: seq<Event>, m: nat)
    requires m < |log| && log[m].body.Delivered?
  {
    exists i: nat :: LastLands(log[..m], i, log[m].body.goalId) && log[m].body.commit == log[i].body.commit
  }

  lemma DeliversLatestMeans(log: seq<Event>, m: nat)
    requires m < |log| && log[m].body.Delivered? && log[m].body.goalId in LandingsOf(log[..m]).last
    ensures DeliversLatest(log, m) <==> log[m].body.commit == LastMerge(LandingsOf(log[..m]), log[m].body.goalId)
  {
    var before, g := log[..m], log[m].body.goalId;
    var i := LandedMeans(before, g);
    assert before[i] == log[i];
    forall j: nat | LastLands(before, j, g) ensures j == i { OneLast(before, i, j, g); }
  }

  /** All that is promised of a merge: it is its ticket's only one; the Gate passed its
      ticket, with no proposal since; if the ticket was ever parked it was approved; and
      after no cancel of its Goal was it proposed or approved. */
  ghost predicate SoundMerge(log: seq<Event>, m: nat)
    requires m < |log| && log[m].body.Merged?
  {
    var id, s := log[m].body.ticketId, Fold(log[..m]);
    && log[m].actor == "orchestrator" && (forall i: nat :: i < m ==> !Merges(log[i], id))
    && (exists v: nat :: v < m && Passes(log[v], id) && forall k :: v < k < m ==> !Proposes(log[k], id))
    && ((exists i: nat :: i < m && Requests(log[i], id)) ==> exists i: nat :: i < m && Grants(log[i], id))
    && id in s.tickets
    && !exists c: nat, k: nat :: c < k < m && Cancels(log[c], s.tickets[id].origin.goalId) && MovesOn(log[k], id)
  }

  lemma SoundMeans(log: seq<Event>, m: nat)
    requires Gapless(log) && m < |log| && log[m].body.Merged? && LawfulAt(log, m)
    requires var id := log[m].body.ticketId;
             id in Fold(log[..m]).tickets && GoalFor(MarksOf(log[..m]), id) == Fold(log[..m]).tickets[id].origin.goalId
    ensures SoundMerge(log, m)
  {
    VerifiedMeans(log, m);
    OnceMeans(log, m);
    ApprovedMeans(log, m);
    HonouredMeans(log, m);
  }

  lemma ObeysOneMore(log: seq<Event>, e: Event)
    requires Obeys(log) && Lawful(MarksOf(log), Fold(log), e)
    ensures Obeys(log + [e])
  {
    var more := log + [e];
    forall m | 0 <= m < |more| ensures LawfulAt(more, m) {
      if m < |log| {
        assert more[..m] == log[..m] && LawfulAt(log, m);
      } else {
        assert more[..m] == log;
      }
    }
  }
}
