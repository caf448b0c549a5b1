/**
 * The hard-coded table of illustrative UK utility inputs (CPIH-real), keyed by ticker,
 * used when no live beta is available.
 */
module Examples {
  import opened Wrappers
  import Capm

  /** One illustrative company: its name, ticker and the seven scalar inputs of a computation. */
  datatype Example = Example(
    name: string,
    ticker: string,
    riskFreeRate: real,
    totalMarketReturn: real,
    equityBeta: real,
    gearing: real,
    costOfDebt: real,
    taxRate: real)

  const NationalGrid := Example("National Grid plc", "NG.L", 0.012, 0.055, 0.65, 0.60, 0.020, 0.25)
  const Sse := Example("SSE plc", "SSE.L", 0.012, 0.055, 0.70, 0.55, 0.022, 0.25)
  const SevernTrent := Example("Severn Trent plc", "SVT.L", 0.012, 0.055, 0.72, 0.60, 0.019, 0.25)

  /** The example table, keyed by ticker. */
  const Table: map<string, Example> := map["NG.L" := NationalGrid, "SSE.L" := Sse, "SVT.L" := SevernTrent]

  /** What every entry must satisfy for the formula library to be applied to it:
      gearing in [0, 1) so de-levering and re-levering are defined, a tax rate in
      [0, 1], and a positive equity risk premium. */
  predicate WellFormed(e: Example) {
    && 0.0 <= e.gearing < 1.0
    && 0.0 <= e.taxRate <= 1.0
    && e.totalMarketReturn > e.riskFreeRate
  }

  /** Looks up a ticker in the table; `None` for tickers the table does not hold. */
  function Lookup(ticker: string): (r: Option<Example>)
    ensures r.Some? <==> ticker in {"NG.L", "SSE.L", "SVT.L"}
    ensures r.Some? ==> r.value.ticker == ticker && WellFormed(r.value)
    ensures r.Some? ==> r.value == Table[ticker]
  {
    TableIsWellFormed();
    if ticker in Table then Some(Table[ticker]) else None
  }

  /** The table holds exactly three tickers, each entry's ticker is its key, and
      each entry is well formed. */
  lemma TableIsWellFormed()
    ensures Table.Keys == {"NG.L", "SSE.L", "SVT.L"}
    ensures forall k :: k in Table ==> Table[k].ticker == k && WellFormed(Table[k])
  {
  }

  /** Every entry's premium is positive and it can be de-levered. */
  lemma EntriesCanBeLevered(k: string)
    requires k in Table
    ensures Capm.EquityRiskPremium(Table[k].riskFreeRate, Table[k].totalMarketReturn) > 0.0
    ensures Capm.CanLever(Table[k].gearing, Table[k].taxRate)
  {
  }

  /** National Grid's inputs give Ke = 1.2% + 0.65 * 4.3% = 3.995% and vanilla
      WACC = 3.995% * 0.40 + 2.0% * 0.60 = 2.798%. */
  lemma NationalGridScenario()
    ensures Capm.CostOfEquity(NationalGrid.riskFreeRate, NationalGrid.totalMarketReturn, NationalGrid.equityBeta) == 0.03995
    ensures Capm.VanillaWACC(NationalGrid.riskFreeRate, NationalGrid.totalMarketReturn, NationalGrid.equityBeta,
                             NationalGrid.gearing, NationalGrid.costOfDebt) == 0.02798
  {
  }
}
