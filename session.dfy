/**
 * The calculator's session state: the cost list, the exchange rate, the chosen
 * calculation mode and both targets. Each piece is only ever replaced whole, so
 * the state is a value and the displayed figures are functions of it.
 */
module Session {
  import opened Costs
  import opened Allocation

  /** Everything the figures depend on; both targets are kept whatever the mode. */
  datatype State = State(
    costs: seq<CostItem>,
    exchangeRate: real,
    calcMode: CalcMode,
    targetUsers: int,
    targetPercentage: real)

  /** The state the calculator starts in. */
  function Initial(): (s: State)
    ensures UniqueIds(s.costs) && NonNegative(s.costs)
    ensures s.exchangeRate > 0.0 && s.targetUsers > 0 && 0.0 <= s.targetPercentage <= 100.0
  {
    State(
      [ CostItem("1", "Assinatura Railway", 20.0, USD),
        CostItem("2", "Taxas Apple Developer", 20.0, USD),
        CostItem("3", "VPS temporária Hostinger", 109.99, BRL) ],
      5.50, Percentage, 50, 8.0)
  }

  /** The headline total in BRL. */
  function TotalCostsBRL(s: State): (r: real)
    ensures r == Sum(s.costs, s.exchangeRate)
    ensures NonNegative(s.costs) && s.exchangeRate >= 0.0 ==> r >= 0.0
  {
    SumNonNegativeIfApplicable(s);
    Total(s.costs, s.exchangeRate)
  }

  /** Helper for TotalCostsBRL: its sign under non-negative inputs. */
  lemma SumNonNegativeIfApplicable(s: State)
    ensures NonNegative(s.costs) && s.exchangeRate >= 0.0 ==> Sum(s.costs, s.exchangeRate) >= 0.0
  {
    if NonNegative(s.costs) && s.exchangeRate >= 0.0 {
      SumNonNegative(s.costs, s.exchangeRate);
    }
  }

  /** The headline cost per user for the current mode. */
  function PerUser(s: State): (r: real)
    ensures s.calcMode == Users && s.targetUsers > 0 ==> r * (s.targetUsers as real) == Sum(s.costs, s.exchangeRate)
    ensures s.calcMode == Users && s.targetUsers <= 0 ==> r == 0.0
    ensures s.calcMode == Percentage ==> 100.0 * r == Sum(s.costs, s.exchangeRate) * s.targetPercentage
  {
    CostPerUser(s.calcMode, s.targetUsers, s.targetPercentage, TotalCostsBRL(s))
  }

  /** The mode selector: only the mode is replaced, both targets are kept. */
  function SetCalcMode(s: State, mode: CalcMode): (r: State)
    ensures r.calcMode == mode
    ensures r.costs == s.costs && r.exchangeRate == s.exchangeRate
    ensures r.targetUsers == s.targetUsers && r.targetPercentage == s.targetPercentage
  {
    s.(calcMode := mode)
  }

  /** Switching the mode away and back restores the state, so neither target is lost. */
  lemma ModeRoundTrip(s: State, other: CalcMode)
    ensures SetCalcMode(SetCalcMode(s, other), s.calcMode) == s
  {
  }

  /** In users mode the figure reads only the costs, the rate and the user target. */
  lemma UsersFigureReadsUserTarget(s: State, t: State)
    requires s.costs == t.costs && s.exchangeRate == t.exchangeRate && s.targetUsers == t.targetUsers
    ensures PerUser(SetCalcMode(s, Users)) == PerUser(SetCalcMode(t, Users))
  {
  }

  /** In percentage mode the figure reads only the costs, the rate and the percentage. */
  lemma PercentageFigureReadsPercentage(s: State, t: State)
    requires s.costs == t.costs && s.exchangeRate == t.exchangeRate && s.targetPercentage == t.targetPercentage
    ensures PerUser(SetCalcMode(s, Percentage)) == PerUser(SetCalcMode(t, Percentage))
  {
  }

  /** The starting figures: 20 USD + 20 USD + 109.99 BRL at 5.50 is 329.99 BRL,
      8% of it is 26.3992 and split over 50 users it is 6.5998. */
  lemma InitialFigures()
    ensures UniqueIds(Initial().costs)
    ensures TotalCostsBRL(Initial()) == 329.99
    ensures PerUser(Initial()) == 26.3992
    ensures PerUser(SetCalcMode(Initial(), Users)) == 6.5998
  {
  }
}
