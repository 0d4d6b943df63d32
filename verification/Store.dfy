/** The replayed state as the program holds it: one record, updated event by event
    (Apply, charge and Fold in internal/state/state.go). */
module Store {
  import opened Events
  import opened Spending
  import opened Replay

  class Replica {
    var goals: map<string, Goal>
    var tickets: map<string, Ticket>
    var ticketOrder: seq<string>
    var keyToTicket: map<string, string>
    var keyToGoal: map<string, string>
    var lastSeq: int
    var spend: Spend
    var budgetsExhausted: map<string, int>

    ghost function View(): State
      reads this
    {
      State(goals, tickets, ticketOrder, keyToTicket, keyToGoal, lastSeq, spend, budgetsExhausted)
    }

    constructor ()
      ensures View() == EMPTY
    {
      goals, tickets, ticketOrder, keyToTicket, keyToGoal := map[], map[], [], map[], map[];
      lastSeq, spend, budgetsExhausted := 0, NO_SPEND, map[];
    }

    method Submit(e: Event)
      requires e.body.GoalSubmitted?
      modifies this
      ensures View() == SubmitGoal(old(View()), e)
    {
      var b := e.body;
      if b.key != "" {
        if b.key in keyToGoal { return; }
        keyToGoal := keyToGoal[b.key := b.goalId];
      }
      if b.goalId in goals { return; }
      goals := goals[b.goalId := NewGoal(e)];
    }

    method Create(e: Event)
      requires e.body.TicketCreated?
      modifies this
      ensures View() == CreateTicket(old(View()), e)
    {
      var b := e.body;
      if b.key != "" {
        if b.key in keyToTicket { return; }
        keyToTicket := keyToTicket[b.key := b.ticketId];
      }
      if b.ticketId in tickets { return; }
      tickets := tickets[b.ticketId := NewTicket(e)];
      ticketOrder := ticketOrder + [b.ticketId];
    }

    method MoveTicket(e: Event)
      requires NamesTicket(e.body) && !e.body.TicketCreated?
      modifies this
      ensures View() == OnTicket(old(View()), e)
    {
      var id := e.body.ticketId;
      if id !in tickets { return; }
      var g := tickets[id].origin.goalId;
      tickets := tickets[id := StepTicket(tickets[id], e)];
      if e.body.Merged? && g in goals && e.body.branch != "" {
        goals := goals[g := goals[g].(branch := e.body.branch)];
      }
    }

    method MoveGoal(e: Event)
      requires !NamesTicket(e.body) && !e.body.BudgetExhausted?
      modifies this
      ensures View() == OnGoal(old(View()), e)
    {
      var g := e.body.goalId;
      if g in goals { goals := goals[g := StepGoal(goals[g], e)]; }
    }

    method Charge(id: string, c: Charge)
      modifies this
      ensures View() == ChargeTo(old(View()), id, c)
    {
      if id !in tickets { return; }
      var g := tickets[id].origin.goalId;
      tickets := tickets[id := ChargeTicket(tickets[id], c)];
      spend := Add(spend, c);
      if g in goals { goals := goals[g := goals[g].(spend := Add(goals[g].spend, c))]; }
    }

    method Apply(e: Event)
      modifies this
      ensures View() == Replay.Apply(old(View()), e)
    {
      if e.body.GoalSubmitted? {
        Submit(e);
      } else if e.body.TicketCreated? {
        Create(e);
      } else if e.body.BudgetExhausted? {
        budgetsExhausted := budgetsExhausted[BudgetWindow(e.body.scope, e.body.day) := e.num];
      } else if NamesTicket(e.body) {
        MoveTicket(e);
      } else {
        MoveGoal(e);
      }
      assert View() == Transition(old(View()), e);
      var charge := ChargeOf(e.body);
      if charge.Some? { Charge(TicketIdOf(e.body), charge.value); }
      lastSeq := e.num;
    }
  }

  /** The state of a whole log. */
  method Load(events: seq<Event>) returns (s: Replica)
    ensures fresh(s) && s.View() == Fold(events)
  {
    s := new Replica();
    for i := 0 to |events|
      invariant fresh(s) && s.View() == Fold(events[..i])
    {
      assert events[..i + 1][..i] == events[..i];
      s.Apply(events[i]);
    }
    assert events[..|events|] == events;
  }
}
