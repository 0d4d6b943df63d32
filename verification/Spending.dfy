/** What agent attempts consumed: charges, tallies and dollars. */
module Spending {
  import opened Events

  /** The spend an event records and the ticket it is charged to. Only the four
      events that close an attempt carry one. */
  function ChargeOf(b: Body): Option<Charge> {
    match b
    case ProposalSubmitted(_, _, _, _, _, _, c) => Spent(c)
    case TicketDecomposed(_, _, _, c) => Spent(c)
    case TicketFailed(_, _, _, _, c) => Spent(c)
    case WorkerRestarted(_, _, _, c) => Spent(c)
    case _ => None
  }

  function Spent(c: Charge): Option<Charge> {
    if c.tokens > 0 || c.costUsd > 0.0 then Some(c) else None
  }

  datatype Spend = Spend(tokens: int, byModel: map<string, int>, reported: real, toPrice: map<string, int>)

  const NO_SPEND := Spend(0, map[], 0.0, map[])

  function Tally(m: map<string, int>, model: string): int {
    if model in m then m[model] else 0
  }

  /** Charges one attempt. Tokens with no model count only in `tokens`; only the
      tokens of attempts that reported no cost of their own are left to price. */
  function Add(sp: Spend, c: Charge): Spend {
    var sp1 := if c.costUsd > 0.0 then sp.(reported := sp.reported + c.costUsd) else sp;
    if c.tokens <= 0 then sp1 else
    var sp2 := sp1.(tokens := sp1.tokens + c.tokens);
    if c.model == "" then sp2 else
    var sp3 := sp2.(byModel := sp2.byModel[c.model := Tally(sp2.byModel, c.model) + c.tokens]);
    if c.costUsd == 0.0 then sp3.(toPrice := sp3.toPrice[c.model := Tally(sp3.toPrice, c.model) + c.tokens]) else sp3
  }

}
