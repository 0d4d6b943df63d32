/** The invariant checkers (internal/invariant/invariant.go). Each is proved to name
    exactly the events that break its rule. */
module Checkers {
  import opened Events
  import opened Replay
  import opened TaskGraph
  import opened History
  import opened Digraph
  import D = Decompose

  /** Positions of the events that break a rule. */
  type Violations = seq<nat>

  method MonotonicGaplessSeq(events: seq<Event>) returns (vs: Violations)
    ensures forall m: nat :: m in vs <==> m < |events| && events[m].num != m + 1
    ensures vs == [] <==> Gapless(events)
  {
    vs := [];
    for i := 0 to |events|
      invariant forall m: nat :: m in vs <==> m < i && events[m].num != m + 1
    {
      if events[i].num != i + 1 { vs := vs + [i]; }
    }
    if vs != [] { assert vs[0] in vs; }
  }

  ghost predicate Unverified(events: seq<Event>, m: nat)
    requires m < |events|
  {
    !MergeIsVerified(MarksOf(events[..m]), events[m])
  }

  ghost predicate Repeated(events: seq<Event>, m: nat)
    requires m < |events|
  {
    !MergeIsOnce(MarksOf(events[..m]), events[m])
  }

  ghost predicate Unapproved(events: seq<Event>, m: nat)
    requires m < |events|
  {
    !MergeIsApproved(MarksOf(events[..m]), events[m])
  }

  ghost predicate Dishonoured(events: seq<Event>, m: nat)
    requires m < |events|
  {
    !CancelIsHonoured(MarksOf(events[..m]), events[m])
  }

  lemma MarksStep(events: seq<Event>, i: nat) returns (a': Marks)
    requires i < |events|
    ensures a' == MarksOf(events[..i + 1]) == Mark(MarksOf(events[..i]), events[i])
  {
    assert events[..i + 1][..i] == events[..i];
    a' := MarksOf(events[..i + 1]);
  }

  method MergeImpliesVerified(events: seq<Event>) returns (vs: Violations)
    ensures forall m: nat :: m in vs <==> m < |events| && Unverified(events, m)
  {
    var propSeq: map<string, int>, passSeq: map<string, int> := map[], map[];
    ghost var a := NO_MARKS;
    vs := [];
    for i := 0 to |events|
      invariant a == MarksOf(events[..i]) && propSeq == a.proposedAt && passSeq == a.passedAt
      invariant forall m: nat :: m in vs <==> m < i && Unverified(events, m)
    {
      var e := events[i];
      assert Unverified(events, i) <==> !MergeIsVerified(a, e);
      if e.body.ProposalSubmitted? {
        propSeq := propSeq[e.body.ticketId := e.num];
      } else if e.body.VerificationPassed? {
        passSeq := passSeq[e.body.ticketId := e.num];
      } else if e.body.Merged? && (At(passSeq, e.body.ticketId) == 0 ||
                                   At(passSeq, e.body.ticketId) < At(propSeq, e.body.ticketId)) {
        vs := vs + [i];
      }
      a := MarksStep(events, i);
    }
  }

  method MergedAtMostOnceByQueue(events: seq<Event>) returns (vs: Violations)
    ensures forall m: nat :: m in vs <==> m < |events| && Repeated(events, m)
  {
    var merged: set<string> := {};
    ghost var a := NO_MARKS;
    vs := [];
    for i := 0 to |events|
      invariant a == MarksOf(events[..i]) && merged == a.merged
      invariant forall m: nat :: m in vs <==> m < i && Repeated(events, m)
    {
      var e := events[i];
      assert Repeated(events, i) <==> !MergeIsOnce(a, e);
      a := MarksStep(events, i);
      if !e.body.Merged? { continue; }
      if e.body.ticketId in merged { vs := vs + [i]; }
      merged := merged + {e.body.ticketId};
      if e.actor != "orchestrator" { vs := vs + [i]; }
    }
  }

  method ApprovalGate(events: seq<Event>) returns (vs: Violations)
    ensures forall m: nat :: m in vs <==> m < |events| && Unapproved(events, m)
  {
    var requested: set<string>, granted: set<string> := {}, {};
    ghost var a := NO_MARKS;
    vs := [];
    for i := 0 to |events|
      invariant a == MarksOf(events[..i]) && requested == a.requested && granted == a.granted
      invariant forall m: nat :: m in vs <==> m < i && Unapproved(events, m)
    {
      var e := events[i];
      assert Unapproved(events, i) <==> !MergeIsApproved(a, e);
      if e.body.ApprovalRequested? {
        requested := requested + {e.body.ticketId};
      } else if e.body.ApprovalGranted? {
        granted := granted + {e.body.ticketId};
      } else if e.body.Merged? && e.body.ticketId in requested && e.body.ticketId !in granted {
        vs := vs + [i];
      }
      a := MarksStep(events, i);
    }
  }

  method CancelHonored(events: seq<Event>) returns (vs: Violations)
    ensures forall m: nat :: m in vs <==> m < |events| && Dishonoured(events, m)
  {
    var goalOf: map<string, string>, cancelledAt: map<string, int>, lastProposal: map<string, int> := map[], map[],
        map[];
    ghost var a := NO_MARKS;
    vs := [];
    for i := 0 to |events|
      invariant a == MarksOf(events[..i])
      invariant goalOf == a.goalOf && cancelledAt == a.cancelledAt && lastProposal == a.movedAt
      invariant forall m: nat :: m in vs <==> m < i && Dishonoured(events, m)
    {
      var e := events[i];
      assert Dishonoured(events, i) <==> !CancelIsHonoured(a, e);
      a := MarksStep(events, i);
      if e.body.TicketCreated? {
        goalOf := goalOf[e.body.ticketId := e.body.goalId];
      } else if e.body.GoalCancelled? {
        if At(cancelledAt, e.body.goalId) == 0 { cancelledAt := cancelledAt[e.body.goalId := e.num]; }
      } else if e.body.ProposalSubmitted? || e.body.ApprovalGranted? {
        lastProposal := lastProposal[e.body.ticketId := e.num];
      } else if e.body.Merged? {
        var id := e.body.ticketId;
        var c := At(cancelledAt, if id in goalOf then goalOf[id] else "");
        if c > 0 && At(lastProposal, id) > c { vs := vs + [i]; }
      }
    }
  }

  ghost predicate DeliversWell(events: seq<Event>, m: nat)
    requires m < |events|
  {
    DeliveryIsOnce(MarksOf(events[..m]), Fold(events[..m]), events[m]) &&
        DeliveryIsExact(LandingsOf(events[..m]), events[m])
  }

  lemma OneMore(events: seq<Event>, i: nat)
    requires i < |events|
    ensures Fold(events[..i + 1]) == Apply(Fold(events[..i]), events[i])
    ensures MarksOf(events[..i + 1]) == Mark(MarksOf(events[..i]), events[i])
    ensures LandingsOf(events[..i + 1]) == Land(LandingsOf(events[..i]), Fold(events[..i + 1]), events[i])
  {
    assert events[..i + 1][..i] == events[..i];
  }

  /** One delivery, against what came before it. */
  method CheckDelivery(s: State, delivered: set<string>, last: map<string, Commit>, e: Event) returns (ok: bool)
    requires e.body.Delivered? && CompletionReturns(s, e.body.goalId)
    ensures ok <==>
      (e.body.goalId !in delivered && GoalComplete(s, e.body.goalId) &&
       e.body.commit == (if e.body.goalId in last then last[e.body.goalId] else NoCommit))
  {
    var g := e.body.goalId;
    var complete := IsGoalComplete(s, g);
    ok := g !in delivered && complete && e.body.commit == if g in last then last[g] else NoCommit;
  }

  method Landed(last: map<string, Commit>, s: State, e: Event) returns (last': map<string, Commit>)
    ensures forall all :: last' == Land(Landings(last, all), s, e).last
  {
    last' := last;
    if e.body.Merged? && e.body.ticketId in s.tickets {
      var t := s.tickets[e.body.ticketId];
      last' := last[t.origin.goalId := t.candidate.commit];
    }
  }

  method Step(s: State, e: Event) returns (s': State)
    ensures s' == Apply(s, e)
  {
    s' := Apply(s, e);
  }

  /** The calls that checking a delivery makes return. */
  ghost predicate DeliveryReturns(events: seq<Event>, m: nat)
    requires m < |events|
  {
    events[m].body.Delivered? ==> CompletionReturns(Fold(events[..m]), events[m].body.goalId)
  }

  method DeliveredOnceAndVerified(events: seq<Event>) returns (vs: Violations)
    requires forall m: nat :: m < |events| ==> DeliveryReturns(events, m)
    ensures forall m: nat :: m in vs <==> m < |events| && !DeliversWell(events, m)
  {
    var s := EMPTY;
    var delivered: set<string>, last: map<string, Commit> := {}, map[];
    vs := [];
    for i := 0 to |events|
      invariant s == Fold(events[..i]) && delivered == MarksOf(events[..i]).delivered
      invariant last == LandingsOf(events[..i]).last
      invariant forall m: nat :: m in vs <==> m < i && !DeliversWell(events, m)
    {
      var e := events[i];
      if e.body.Delivered? {
        assert DeliveryReturns(events, i);
        var ok := CheckDelivery(s, delivered, last, e);
        if !ok { vs := vs + [i]; }
        delivered := delivered + {e.body.goalId};
      }
      OneMore(events, i);
      s := Step(s, e);
      last := Landed(last, s, e);
    }
  }

  method AcyclicGraph(events: seq<Event>) returns (cyclic: bool)
    ensures cyclic <==> Cyclic(D.DependsOn(Fold(events)))
  {
    var s := EMPTY;
    for i := 0 to |events|
      invariant s == Fold(events[..i])
    {
      OneMore(events, i);
      s := Step(s, events[i]);
    }
    assert events[..|events|] == events;
    cyclic := HasCycle(D.DependsOn(s));
  }

  // --- Keys --------------------------------------------------------------------------------------

  /** Every keyed ticket is the one its key maps to. */
  ghost predicate KeysPoint(s: State) {
    forall id :: id in s.tickets && s.tickets[id].origin.key != "" ==>
      s.tickets[id].origin.key in s.keyToTicket && s.keyToTicket[s.tickets[id].origin.key] == id
  }

  lemma CreatePoints(s: State, e: Event)
    requires KeysPoint(s) && e.body.TicketCreated?
    ensures KeysPoint(CreateTicket(s, e))
  {
    forall id | id in CreateTicket(s, e).tickets && CreateTicket(s, e).tickets[id].origin.key != ""
      ensures var s' := CreateTicket(s, e);
        s'.tickets[id].origin.key in s'.keyToTicket && s'.keyToTicket[s'.tickets[id].origin.key] == id
    {
      if id in s.tickets { OlderPoints(s, e, id); }
    }
  }

  lemma OlderPoints(s: State, e: Event, id: string)
    requires KeysPoint(s) && e.body.TicketCreated? && id in s.tickets && s.tickets[id].origin.key != ""
    ensures var s', key := CreateTicket(s, e), s.tickets[id].origin.key;
            s'.tickets[id] == s.tickets[id] && key in s'.keyToTicket && s'.keyToTicket[key] == id
  {
  }

  lemma ApplyPoints(s: State, e: Event)
    requires KeysPoint(s)
    ensures KeysPoint(Apply(s, e))
  {
    var s' := Apply(s, e);
    if e.body.TicketCreated? {
      CreatePoints(s, e);
      assert s' == CreateTicket(s, e).(lastSeq := e.num);
    } else {
      ApplyIsLocal(s, e);
      forall id | id in s'.tickets ensures s'.tickets[id].origin == s.tickets[id].origin {
        assert TicketBecomes(s.tickets[id], e, id, s'.tickets[id]);
      }
    }
  }

  lemma {:induction false} FoldPoints(log: seq<Event>)
    ensures KeysPoint(Fold(log))
  {
    if log != [] {
      FoldPoints(log[..|log| - 1]);
      ApplyPoints(Fold(log[..|log| - 1]), log[|log| - 1]);
    }
  }

  /** On every log whatsoever, no two tickets share a key. */
  lemma KeysAreUnique(log: seq<Event>, i: string, j: string)
    requires i in Fold(log).tickets && j in Fold(log).tickets
    requires Fold(log).tickets[i].origin.key == Fold(log).tickets[j].origin.key != ""
    ensures i == j
  {
    FoldPoints(log);
  }

  function Keyed(keys: map<string, string>, e: Event): map<string, string> {
    if e.body.TicketCreated? && e.body.key != "" then keys[e.body.ticketId := e.body.key] else keys
  }

  /** The key the last keyed creation of each ticket gave. */
  function KeysOf(events: seq<Event>): map<string, string> {
    if events == [] then map[] else Keyed(KeysOf(events[..|events| - 1]), events[|events| - 1])
  }

  /** The key a merge is of, "" when it is of none. */
  function MergedKey(keys: map<string, string>, e: Event): string {
    if e.body.Merged? && e.body.ticketId in keys then keys[e.body.ticketId] else ""
  }

  /** The keyed merges: key and ticket. */
  function KeyedMerges(keys: map<string, string>, events: seq<Event>): set<(string, string)> {
    if events == [] then {} else
    var e := events[|events| - 1];
    KeyedMerges(keys, events[..|events| - 1]) + if MergedKey(keys, e) != ""
        then {(MergedKey(keys, e), e.body.ticketId)} else {}
  }

  ghost predicate Clash(ms: set<(string, string)>) {
    exists p, q :: p in ms && q in ms && p.0 == q.0 && p.1 != q.1
  }

  /** `first` names a ticket for each merged key, and `clash` says whether another
      shares it. */
  ghost predicate Sorted(ms: set<(string, string)>, first: map<string, string>, clash: bool) {
    && (forall key :: key in first ==> (key, first[key]) in ms)
    && (forall p :: p in ms ==> p.0 in first && (!clash ==> first[p.0] == p.1))
    && (clash ==> Clash(ms))
  }

  lemma MoreSorted(ms: set<(string, string)>, first: map<string, string>, clash: bool, key: string, id: string)
    requires Sorted(ms, first, clash)
    ensures Sorted(ms + {(key, id)}, if key in first then first else first[key := id], clash ||
                   (key in first && first[key] != id))
  {
    var more := ms + {(key, id)};
    if key in first && first[key] != id {
      assert (key, first[key]) in more && (key, id) in more;
      assert Clash(more);
    }
    if Clash(ms) {
      var p, q :| p in ms && q in ms && p.0 == q.0 && p.1 != q.1;
      assert p in more && q in more;
    }
  }

  method CollectKeys(events: seq<Event>) returns (keys: map<string, string>)
    ensures keys == KeysOf(events)
  {
    keys := map[];
    for i := 0 to |events|
      invariant keys == KeysOf(events[..i])
    {
      assert events[..i + 1][..i] == events[..i];
      keys := Keyed(keys, events[i]);
    }
    assert events[..|events|] == events;
  }

  /** Whether two tickets with one key were both merged. */
  method NoDuplicateMergedKey(events: seq<Event>) returns (clash: bool)
    ensures clash <==> Clash(KeyedMerges(KeysOf(events), events))
  {
    var keys := CollectKeys(events);
    var first: map<string, string> := map[];
    clash := false;
    for i := 0 to |events|
      invariant Sorted(KeyedMerges(keys, events[..i]), first, clash)
    {
      var e := events[i];
      assert events[..i + 1][..i] == events[..i];
      var key := MergedKey(keys, e);
      if key == "" { continue; }
      MoreSorted(KeyedMerges(keys, events[..i]), first, clash, key, e.body.ticketId);
      if key in first {
        if first[key] != e.body.ticketId { clash := true; }
      } else {
        first := first[key := e.body.ticketId];
      }
    }
    assert events[..|events|] == events;
  }
}
