/**
 * The records the back end returns, with the fields the views read.
 * Rates and amounts are reals; the views only compare and subtract them.
 */
module Types {
  import opened Wrappers

  /** A closed deal. `stage` is kept as the string the back end sends. */
  datatype Deal = Deal(
    id: string,
    name: string,
    stage: string,
    amount: real,
    lossReason: Option<string>,
    competitor: Option<string>,
    companyName: Option<string>)

  /** One row of a breakdown by a dimension (industry, source, ...). */
  datatype BreakdownItem = BreakdownItem(
    category: string,
    total: nat,
    won: nat,
    lost: nat,
    winRate: real)

  /** How the team fares against one competitor. */
  datatype CompetitorMetrics = CompetitorMetrics(
    competitor: string,
    dealsFaced: nat,
    wins: nat,
    losses: nat,
    winRate: real,
    industries: seq<string>)

  /** A recurring objection and what happens when it is raised. */
  datatype ObjectionTheme = ObjectionTheme(
    objection: string,
    frequency: nat,
    percentage: real,
    industries: seq<string>,
    winRateWhenRaised: real)
}
