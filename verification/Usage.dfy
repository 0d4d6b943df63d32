/** What a window of the log spent, and why every way of adding spend up agrees
    (internal/state/spend.go, internal/state/budget.go). */
module Usage {
  import opened Sequences
  import opened Events
  import opened Spending
  import opened Replay

  type Pricing = map<string, real>

  function Price(pricing: Pricing, model: string): real {
    if model in pricing then pricing[model] else 0.0
  }

  function Dollars(tokens: int, price: real): real {
    tokens as real / 1000000.0 * price
  }

  /** A per-model tally in dollars. Over reals the order models are summed in does
      not matter, so none is fixed. */
  ghost function Usd(tally: map<string, int>, pricing: Pricing): real
    decreases |tally|
  {
    if tally == map[] then 0.0 else
    var model :| model in tally;
    Dollars(tally[model], Price(pricing, model)) + Usd(tally - {model}, pricing)
  }

  lemma {:induction false} UsdSplits(tally: map<string, int>, pricing: Pricing, model: string)
    requires model in tally
    ensures Usd(tally, pricing) == Dollars(tally[model], Price(pricing, model)) + Usd(tally - {model}, pricing)
    decreases |tally|
  {
    var first :| first in tally && Usd(tally, pricing) ==
      Dollars(tally[first], Price(pricing, first)) + Usd(tally - {first}, pricing);
    if first != model {
      UsdSplits(tally - {first}, pricing, model);
      UsdSplits(tally - {model}, pricing, first);
      assert tally - {first} - {model} == tally - {model} - {first};
    }
  }

  method USD(tally: map<string, int>, pricing: Pricing) returns (total: real)
    ensures total == Usd(tally, pricing)
  {
    total := 0.0;
    var rest := tally;
    while rest != map[]
      invariant Usd(tally, pricing) == total + Usd(rest, pricing)
      decreases |rest|
    {
      var model :| model in rest;
      UsdSplits(rest, pricing, model);
      total := total + Dollars(rest[model], Price(pricing, model));
      rest := rest - {model};
    }
  }

  /** A model's tally is worth what it was and what is added to it. */
  lemma DollarsAdd(a: int, b: int, price: real)
    ensures Dollars(a + b, price) == Dollars(a, price) + Dollars(b, price)
  {
  }

  lemma UsdAdds(tally: map<string, int>, pricing: Pricing, model: string, tokens: int)
    ensures Usd(tally[model := Tally(tally, model) + tokens], pricing) ==
            Usd(tally, pricing) + Dollars(tokens, Price(pricing, model))
  {
    var before := Tally(tally, model);
    var more := tally[model := before + tokens];
    UsdSplits(more, pricing, model);
    assert more - {model} == tally - {model};
    DollarsAdd(before, tokens, Price(pricing, model));
    if model in tally {
      UsdSplits(tally, pricing, model);
    } else {
      assert tally - {model} == tally;
    }
  }

  // --- Meters ------------------------------------------------------------------------------------

  /** The figures read off a spend. */
  datatype Meter = Tokens | Reported | ByModel(model: string) | ToPrice(model: string) | Cost(pricing: Pricing)

  ghost function Reading(sp: Spend, m: Meter): real {
    match m
    case Tokens => sp.tokens as real
    case Reported => sp.reported
    case ByModel(model) => Tally(sp.byModel, model) as real
    case ToPrice(model) => Tally(sp.toPrice, model) as real
    case Cost(pricing) => sp.reported + Usd(sp.toPrice, pricing)
  }

  predicate Priced(c: Charge) {
    c.tokens > 0 && c.model != "" && c.costUsd == 0.0
  }

  /** What one charge puts on a meter. */
  function Weight(c: Charge, m: Meter): real {
    var reported := if c.costUsd > 0.0 then c.costUsd else 0.0;
    match m
    case Tokens => if c.tokens > 0 then c.tokens as real else 0.0
    case Reported => reported
    case ByModel(model) => if c.tokens > 0 && model != "" && c.model == model then c.tokens as real else 0.0
    case ToPrice(model) => if Priced(c) && c.model == model then c.tokens as real else 0.0
    case Cost(pricing) => reported + if Priced(c) then Dollars(c.tokens, Price(pricing, c.model)) else 0.0
  }

  /** Every meter is additive: charging an attempt moves it by that attempt's weight. */
  lemma AddReads(sp: Spend, c: Charge, m: Meter)
    ensures Reading(Add(sp, c), m) == Reading(sp, m) + Weight(c, m)
  {
    if m.Cost? && Priced(c) {
      UsdAdds(sp.toPrice, m.pricing, c.model, c.tokens);
    }
  }

  lemma NothingRead(m: Meter)
    ensures Reading(NO_SPEND, m) == 0.0
  {
  }

  // --- Windows -----------------------------------------------------------------------------------

  datatype Window = Window(spend: Spend, goals: nat)

  /** UTC days, counted from the epoch. */
  function Day(ts: int): int { ts / 86400 }

  /** The Goals whose first task is among these events. */
  function Started(events: seq<Event>): set<string> {
    set i | 0 <= i < |events| && events[i].body.TicketCreated? :: events[i].body.goalId
  }

  predicate StartsGoal(before: seq<Event>, e: Event) {
    e.body.TicketCreated? && e.body.goalId !in Started(before)
  }

  function Count(u: Window, e: Event, starts: bool): Window {
    var u1 := if starts then u.(goals := u.goals + 1) else u;
    match ChargeOf(e.body)
    case Some(c) => u1.(spend := Add(u1.spend, c))
    case None => u1
  }

  /** The spend and Goal starts of the events a window selects. */
  ghost function UsageOf(events: seq<Event>, selects: Event -> bool): Window {
    if events == [] then Window(NO_SPEND, 0) else
    var before, e := events[..|events| - 1], events[|events| - 1];
    var u := UsageOf(before, selects);
    if selects(e) then Count(u, e, StartsGoal(before, e)) else u
  }

  method ComputeUsage(events: seq<Event>, selects: Event -> bool) returns (u: Window)
    ensures u == UsageOf(events, selects)
  {
    u := Window(NO_SPEND, 0);
    var started: set<string> := {};
    for i := 0 to |events|
      invariant u == UsageOf(events[..i], selects) && started == Started(events[..i])
    {
      var e := events[i];
      assert events[..i + 1][..i] == events[..i];
      StartedGrows(events[..i], e);
      assert events[..i + 1] == events[..i] + [e];
      if e.body.TicketCreated? && e.body.goalId !in started {
        started := started + {e.body.goalId};
        if selects(e) { u := u.(goals := u.goals + 1); }
      }
      var c := ChargeOf(e.body);
      if c.Some? && selects(e) { u := u.(spend := Add(u.spend, c.value)); }
    }
    assert events[..|events|] == events;
  }

  lemma StartedGrows(before: seq<Event>, e: Event)
    ensures Started(before + [e]) == Started(before) + if e.body.TicketCreated? then {e.body.goalId} else {}
  {
    var after := before + [e];
    forall g | g in Started(before) ensures g in Started(after) {
      var i :| 0 <= i < |before| && before[i].body.TicketCreated? && before[i].body.goalId == g;
      assert after[i] == before[i];
    }
    if e.body.TicketCreated? { assert after[|before|] == e; }
  }

  function AnyEvent(): Event -> bool { e => true }
  function RunWindow(since: int): Event -> bool { (e: Event) => e.num > since }
  function DayWindow(day: int): Event -> bool { (e: Event) => Day(e.ts) == day }

  // --- Conservation ------------------------------------------------------------------------------

  /** Every charge on the log names a ticket already on it. */
  ghost predicate ChargesNamed(log: seq<Event>) {
    forall i :: 0 <= i < |log| && ChargeOf(log[i].body).Some? ==> TicketIdOf(log[i].body) in Fold(log[..i]).tickets
  }

  lemma ChargesNamedSplits(log: seq<Event>)
    requires log != []
    ensures var before, e := log[..|log| - 1], log[|log| - 1];
            ChargesNamed(log) <==>
            ChargesNamed(before) && (ChargeOf(e.body).Some? ==> TicketIdOf(e.body) in Fold(before).tickets)
  {
    var before := log[..|log| - 1];
    assert forall i :: 0 <= i <= |before| ==> before[..i] == log[..i];
    assert before == log[..|log| - 1];
  }

  lemma SettleSpends(s: State, e: Event)
    ensures Settle(s, e).spend ==
            if ChargeOf(e.body).Some? && TicketIdOf(e.body) in s.tickets then Add(s.spend, ChargeOf(e.body).value)
            else s.spend
  {
  }

  /** What replay adds to the whole log's spend for one event. */
  lemma ApplySpends(s: State, e: Event)
    ensures Apply(s, e).spend ==
            if ChargeOf(e.body).Some? && TicketIdOf(e.body) in s.tickets then Add(s.spend, ChargeOf(e.body).value)
            else s.spend
  {
    TransitionIsLocal(s, e);
    SettleSpends(Transition(s, e), e);
  }

  /** Replay's total is the whole-log window's, to the last figure. */
  lemma {:induction false} TotalIsWindow(log: seq<Event>)
    requires ChargesNamed(log)
    ensures Fold(log).spend == UsageOf(log, AnyEvent()).spend
  {
    if log != [] {
      ChargesNamedSplits(log);
      TotalIsWindow(log[..|log| - 1]);
      ApplySpends(Fold(log[..|log| - 1]), log[|log| - 1]);
    }
  }

  ghost function Burn(sp: Spend): real {
    Reading(sp, Tokens) + Reading(sp, Reported)
  }

  lemma {:induction false} ReplayNeverOverstates(log: seq<Event>)
    ensures Burn(Fold(log).spend) <= Burn(UsageOf(log, AnyEvent()).spend)
    ensures !ChargesNamed(log) ==> Burn(Fold(log).spend) < Burn(UsageOf(log, AnyEvent()).spend)
  {
    if log != [] {
      var before, e := log[..|log| - 1], log[|log| - 1];
      ReplayNeverOverstates(before);
      ApplySpends(Fold(before), e);
      var c := ChargeOf(e.body);
      if c.Some? {
        AddReads(Fold(before).spend, c.value, Tokens);
        AddReads(Fold(before).spend, c.value, Reported);
        AddReads(UsageOf(before, AnyEvent()).spend, c.value, Tokens);
        AddReads(UsageOf(before, AnyEvent()).spend, c.value, Reported);
        assert Weight(c.value, Tokens) + Weight(c.value, Reported) > 0.0;
      }
      ChargesNamedSplits(log);
    }
  }

  /** The two totals agree exactly when every charge names a ticket on the log. */
  lemma TotalsAgreeExactly(log: seq<Event>)
    ensures Fold(log).spend == UsageOf(log, AnyEvent()).spend <==> ChargesNamed(log)
  {
    if ChargesNamed(log) { TotalIsWindow(log); } else { ReplayNeverOverstates(log); }
  }

  // Over tickets.

  ghost function OverTickets(order: seq<string>, tickets: map<string, Ticket>, m: Meter): real {
    if order == [] then 0.0 else
    OverTickets(order[..|order| - 1], tickets, m) +
    if order[|order| - 1] in tickets then Reading(tickets[order[|order| - 1]].spend, m) else 0.0
  }

  lemma {:induction false} OverTicketsSame(order: seq<string>, a: map<string, Ticket>, b: map<string, Ticket>, m: Meter)
    requires forall id :: id in order ==> (id in a <==> id in b) && (id in a ==> a[id].spend == b[id].spend)
    ensures OverTickets(order, a, m) == OverTickets(order, b, m)
  {
    if order != [] {
      assert order[|order| - 1] in order;
      OverTicketsSame(order[..|order| - 1], a, b, m);
    }
  }

  lemma {:induction false} OverTicketsCharged(order: seq<string>, tickets: map<string, Ticket>, id: string, c: Charge,
                                              m: Meter)
    requires id in tickets && id in order
    requires forall i, j :: 0 <= i < j < |order| ==> order[i] != order[j]
    ensures OverTickets(order, tickets[id := tickets[id].(spend := Add(tickets[id].spend, c))], m) ==
            OverTickets(order, tickets, m) + Weight(c, m)
  {
    var init := order[..|order| - 1];
    var charged := tickets[id := tickets[id].(spend := Add(tickets[id].spend, c))];
    AddReads(tickets[id].spend, c, m);
    if order[|order| - 1] == id {
      OverTicketsSame(init, tickets, charged, m);
    } else {
      OverTicketsCharged(init, tickets, id, c, m);
    }
  }

  /** A ticket the event names, or any other, has spent what it had. */
  lemma SpendStays(s: State, e: Event, s1: State, id: string)
    requires TicketsAfter(s, e, s1) && id in s.tickets
    ensures id in s1.tickets && s1.tickets[id].spend == s.tickets[id].spend
  {
    assert TicketAfter(s.tickets[id], e, id, s1.tickets[id]);
  }

  lemma SumAfter(s: State, e: Event, s1: State, m: Meter)
    requires Listed(s) && TicketsAfter(s, e, s1)
    ensures Listed(s1) && s1.spend == s.spend
    ensures OverTickets(s1.ticketOrder, s1.tickets, m) == OverTickets(s.ticketOrder, s.tickets, m)
  {
    forall id | id in s.tickets ensures id in s1.tickets && s1.tickets[id].spend == s.tickets[id].spend {
      SpendStays(s, e, s1, id);
    }
    OverTicketsSame(s.ticketOrder, s.tickets, s1.tickets, m);
    if Creates(s, e).Some? {
      assert s1.ticketOrder[..|s1.ticketOrder| - 1] == s.ticketOrder;
      NothingRead(m);
    }
  }

  lemma TransitionKeepsTicketSum(s: State, e: Event, m: Meter) returns (s1: State)
    requires Listed(s)
    ensures s1 == Transition(s, e) && Listed(s1) && s1.spend == s.spend
    ensures OverTickets(s1.ticketOrder, s1.tickets, m) == OverTickets(s.ticketOrder, s.tickets, m)
  {
    s1 := Transition(s, e);
    TransitionIsLocal(s, e);
    SumAfter(s, e, s1, m);
  }

  lemma ChargeKeepsTicketSum(s: State, id: string, c: Charge, m: Meter)
    requires Listed(s) && Reading(s.spend, m) == OverTickets(s.ticketOrder, s.tickets, m)
    ensures var s1 := ChargeTo(s, id, c);
            Listed(s1) && Reading(s1.spend, m) == OverTickets(s1.ticketOrder, s1.tickets, m)
  {
    if id in s.tickets {
      OverTicketsCharged(s.ticketOrder, s.tickets, id, c, m);
      AddReads(s.spend, c, m);
    }
  }

  /** On every log, the total spend is the sum of what its tickets spent. */
  lemma {:induction false} TotalIsTicketSum(log: seq<Event>, m: Meter)
    ensures var s := Fold(log);
            Listed(s) && Reading(s.spend, m) == OverTickets(s.ticketOrder, s.tickets, m)
  {
    if log == [] {
      NothingRead(m);
    } else {
      TotalIsTicketSum(log[..|log| - 1], m);
      var s, e := Fold(log[..|log| - 1]), log[|log| - 1];
      var s1 := TransitionKeepsTicketSum(s, e, m);
      if ChargeOf(e.body).Some? { ChargeKeepsTicketSum(s1, TicketIdOf(e.body), ChargeOf(e.body).value, m); }
    }
  }

  // Over days.

  ghost function SpendOverDays(events: seq<Event>, days: seq<int>, m: Meter): real {
    if days == [] then 0.0
    else SpendOverDays(events, days[1..], m) + Reading(UsageOf(events, DayWindow(days[0])).spend, m)
  }

  ghost function GoalsOverDays(events: seq<Event>, days: seq<int>): nat {
    if days == [] then 0 else GoalsOverDays(events, days[1..]) + UsageOf(events, DayWindow(days[0])).goals
  }

  /** One more event adds its weight to the days' sum once, if its day is listed. */
  lemma {:induction false} OneMoreEvent(before: seq<Event>, e: Event, days: seq<int>, m: Meter)
    requires Distinct(days)
    ensures var listed := Day(e.ts) in days;
            var c := ChargeOf(e.body);
            && SpendOverDays(before + [e], days, m) ==
               SpendOverDays(before, days, m) + (if listed && c.Some? then Weight(c.value, m) else 0.0)
            && GoalsOverDays(before + [e], days) ==
               GoalsOverDays(before, days) + (if listed && StartsGoal(before, e) then 1 else 0)
  {
    if days != [] {
      OneMoreEvent(before, e, days[1..], m);
      assert (before + [e])[..|before|] == before;
      var c := ChargeOf(e.body);
      if c.Some? { AddReads(UsageOf(before, DayWindow(days[0])).spend, c.value, m); }
      if Day(e.ts) == days[0] {
        forall i | 0 <= i < |days[1..]| ensures days[1..][i] != days[0] { assert days[1..][i] == days[i + 1]; }
      }
    }
  }

  lemma {:induction false} NoEventsNoDays(days: seq<int>, m: Meter)
    ensures SpendOverDays([], days, m) == 0.0 && GoalsOverDays([], days) == 0
  {
    if days != [] {
      NoEventsNoDays(days[1..], m);
      NothingRead(m);
    }
  }

  lemma WholeGrows(before: seq<Event>, e: Event, m: Meter)
    ensures var u, u', c := UsageOf(before, AnyEvent()), UsageOf(before + [e], AnyEvent()), ChargeOf(e.body);
            && u'.goals == u.goals + (if StartsGoal(before, e) then 1 else 0)
            && Reading(u'.spend, m) == Reading(u.spend, m) + (if c.Some? then Weight(c.value, m) else 0.0)
  {
    assert (before + [e])[..|before|] == before;
    var c := ChargeOf(e.body);
    if c.Some? { AddReads(UsageOf(before, AnyEvent()).spend, c.value, m); }
  }

  /** The day windows partition the log: their spends sum to the whole-log window's
      and each started Goal is counted in exactly one of them. */
  lemma {:induction false} DaysPartition(log: seq<Event>, days: seq<int>, m: Meter)
    requires Distinct(days) && forall e :: e in log ==> Day(e.ts) in days
    ensures SpendOverDays(log, days, m) == Reading(UsageOf(log, AnyEvent()).spend, m)
    ensures GoalsOverDays(log, days) == UsageOf(log, AnyEvent()).goals == |Started(log)|
  {
    if log == [] {
      NoEventsNoDays(days, m);
      NothingRead(m);
    } else {
      var before, e := log[..|log| - 1], log[|log| - 1];
      assert log == before + [e];
      DaysPartition(before, days, m);
      OneMoreEvent(before, e, days, m);
      StartedGrows(before, e);
      WholeGrows(before, e, m);
    }
  }

  /** Spend conservation: the replayed total, the sum over tickets, the whole-log
      window and the sum of the day windows are one figure. */
  lemma SpendIsConserved(log: seq<Event>, days: seq<int>, m: Meter)
    requires ChargesNamed(log) && Distinct(days) && forall e :: e in log ==> Day(e.ts) in days
    ensures var s := Fold(log);
            Reading(s.spend, m)
            == OverTickets(s.ticketOrder, s.tickets, m)
            == Reading(UsageOf(log, AnyEvent()).spend, m)
            == SpendOverDays(log, days, m)
  {
    TotalIsTicketSum(log, m);
    TotalIsWindow(log);
    DaysPartition(log, days, m);
  }
}
