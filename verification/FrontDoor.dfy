/** The write verbs of the front doors (submitGoal, decideTicket and cancelGoal in
    cmd/aoa/main.go): each reads the log and decides in one transaction. */
module FrontDoor {
  import opened Events
  import opened Replay
  import opened TaskGraph

  /** Append an event; report what is already on the log, with the number of the event
      that put it there; or refuse. */
  datatype Answer = Appends(body: Body) | Already(id: string, num: int) | Refused(reason: string)

  datatype Request = Request(goalId: string, text: string, source: string, key: string, ref: string, author: string)

  /** `r.goalId` is the id the door would pick, which is no Goal's yet. */
  function Submit(s: State, r: Request): Answer {
    if r.key != "" && r.key in s.keyToGoal then
      var id := s.keyToGoal[r.key];
      Already(id, if id in s.goals then s.goals[id].submittedSeq else 0)
    else if r.goalId in s.goals then Refused("id taken")
    else Appends(GoalSubmitted(r.goalId, r.text, r.source, r.key, r.ref, r.author))
  }

  function DecideTicket(s: State, id: string, approve: bool, author: string, reason: string): Answer {
    if id !in s.tickets then Refused("unknown ticket") else
    var t := s.tickets[id];
    if t.status == Awaiting then
      Appends(if approve then ApprovalGranted(id, author, reason)
              else ApprovalDenied(id, author, if reason == "" then "rejected by operator" else reason))
    else if (approve && t.approved) || (!approve && t.rejected) then Already(id, t.decidedSeq)
    else if t.approved || t.rejected then Refused("already decided otherwise")
    else Refused("not awaiting approval")
  }

  ghost function CancelGoal(s: State, g: string, author: string, reason: string): Answer {
    if g !in s.goals then Refused("unknown goal")
    else if s.goals[g].cancelled then Already(g, s.goals[g].cancelledSeq)
    else if GoalOutcome(s, g) in {Some(Landed), Some(FailedOutcome), Some(DeliveredOutcome)}
        then Refused("already settled")
    else Appends(GoalCancelled(g, author, reason))
  }

  // --- Retrying is safe --------------------------------------------------------------------------

  lemma NoCharge(s: State, e: Event)
    requires e.body.GoalSubmitted? || e.body.GoalCancelled? || e.body.ApprovalGranted? || e.body.ApprovalDenied?
    ensures Apply(s, e) == Transition(s, e).(lastSeq := e.num)
  {
  }

  /** A keyed submit that went through answers every later one with its own Goal and
      event. */
  lemma SubmitOnce(s: State, r: Request, e: Event, again: Request)
    requires Submit(s, r).Appends? && e.body == Submit(s, r).body && r.key != "" && again.key == r.key
    ensures Submit(Apply(s, e), again) == Already(r.goalId, e.num)
  {
    NoCharge(s, e);
  }

  /** A decision that went through is reported, with its event, to whoever repeats it,
      and refused to whoever contradicts it. */
  lemma DecideOnce(s: State, id: string, approve: bool, author: string, reason: string, e: Event, author': string,
                   reason': string)
    requires DecideTicket(s, id, approve, author, reason).Appends?
    requires e.body == DecideTicket(s, id, approve, author, reason).body
    requires !s.tickets[id].approved && !s.tickets[id].rejected
    ensures var s' := Apply(s, e);
            && DecideTicket(s', id, approve, author', reason') == Already(id, e.num)
            && DecideTicket(s', id, !approve, author', reason').Refused?
  {
    NoCharge(s, e);
    assert Apply(s, e).tickets[id] == StepTicket(s.tickets[id], e);
  }

  /** So is a cancel, and the Goal's outcome is cancelled from then on. */
  lemma CancelOnce(s: State, g: string, author: string, reason: string, e: Event, author': string, reason': string)
    requires CancelGoal(s, g, author, reason).Appends? && e.body == CancelGoal(s, g, author, reason).body
    ensures var s' := Apply(s, e);
            CancelGoal(s', g, author', reason') == Already(g, e.num) && GoalOutcome(s', g) == Some(CancelledOutcome)
  {
    NoCharge(s, e);
    assert Apply(s, e).goals[g] == StepGoal(s.goals[g], e);
  }
}
