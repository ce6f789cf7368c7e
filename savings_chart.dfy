/**
 * The savings chart: the running totals it plots for each month, computed by the
 * source as a sum over each prefix of the projections, and the totals it hands to
 * the marketing-plan download.
 */
module Chart {
  import opened Wrappers
  import opened Calculations

  /** The three figures of a projection entry that the chart accumulates. */
  datatype Series = Savings | ThirdPartyFees | InnowiFees

  function Figure(p: MonthlyProjection, k: Series): real {
    match k
    case Savings => p.savings
    case ThirdPartyFees => p.thirdPartyFees
    case InnowiFees => p.innowiFees
  }

  /** One chart row: the month and the three running totals ('Monthly Savings', '3P Platform Fees', 'Innowi Fees'). */
  datatype ChartPoint = ChartPoint(month: string, monthlySavings: real, platformFees: real, innowiFees: real)

  function Cumulative(point: ChartPoint, k: Series): real {
    match k
    case Savings => point.monthlySavings
    case ThirdPartyFees => point.platformFees
    case InnowiFees => point.innowiFees
  }

  /** `ps.reduce((sum, p) => sum + p.x, 0)`: the figures added from the first entry on. */
  function Sum(ps: seq<MonthlyProjection>, k: Series): real {
    if ps == [] then 0.0 else Sum(ps[..|ps| - 1], k) + Figure(ps[|ps| - 1], k)
  }

  /** The chart data: for each entry, its month and the sums of the figures of the entries up to and including it. */
  function ChartData(ps: seq<MonthlyProjection>): (r: seq<ChartPoint>)
    ensures |r| == |ps|
    ensures forall i | 0 <= i < |ps| :: r[i].month == ps[i].month
    ensures forall i, k | 0 <= i < |ps| :: Cumulative(r[i], k) == Sum(ps[..i + 1], k)
  {
    seq(|ps|, i requires 0 <= i < |ps| =>
      ChartPoint(ps[i].month, Sum(ps[..i + 1], Savings), Sum(ps[..i + 1], ThirdPartyFees), Sum(ps[..i + 1], InnowiFees)))
  }

  /**
   * The running-sum form of the chart data: the first total is the first figure,
   * and each later total is the previous one plus this entry's figure.
   */
  lemma RunningSum(ps: seq<MonthlyProjection>, i: nat, k: Series)
    requires i < |ps|
    ensures i == 0 ==> Cumulative(ChartData(ps)[0], k) == Figure(ps[0], k)
    ensures i > 0 ==> Cumulative(ChartData(ps)[i], k) == Cumulative(ChartData(ps)[i - 1], k) + Figure(ps[i], k)
  {
    var prefix := ps[..i + 1];
    assert prefix[..i] == ps[..i];
    assert prefix[i] == ps[i];
    assert Sum(prefix, k) == Sum(ps[..i], k) + Figure(ps[i], k);
    if i == 0 {
      assert ps[..0] == [];
    }
  }

  lemma CumulativeIsPrefixSum(ps: seq<MonthlyProjection>, i: nat, k: Series)
    requires i < |ps|
    ensures Cumulative(ChartData(ps)[i], k) == Sum(ps[..i + 1], k)
  {
  }

  /** With no negative monthly savings the cumulative savings never go down. */
  lemma {:induction false} CumulativeSavingsMonotone(ps: seq<MonthlyProjection>, i: nat, j: nat)
    requires forall t | 0 <= t < |ps| :: ps[t].savings >= 0.0
    requires i <= j < |ps|
    ensures ChartData(ps)[i].monthlySavings <= ChartData(ps)[j].monthlySavings
    decreases j - i
  {
    if i < j {
      CumulativeSavingsMonotone(ps, i, j - 1);
      RunningSum(ps, j, Savings);
    }
  }

  /** When every entry holds the same figure `v`, the total after entry `i` is `(i + 1) * v`. */
  lemma {:induction false} UniformSum(ps: seq<MonthlyProjection>, k: Series, v: real, n: nat)
    requires n <= |ps|
    requires forall t | 0 <= t < |ps| :: Figure(ps[t], k) == v
    ensures Sum(ps[..n], k) == n as real * v
  {
    if n > 0 {
      UniformSum(ps, k, v, n - 1);
      assert ps[..n][..n - 1] == ps[..n - 1];
    }
  }

  /** Which aggregate feeds a series. */
  function Pick(k: Series, savings: real, thirdParty: real, innowi: real): real {
    match k
    case Savings => savings
    case ThirdPartyFees => thirdParty
    case InnowiFees => innowi
  }

  /** What one generated entry holds for a series: the aggregate feeding it over the timeframe's divisor. */
  function PerEntry(k: Series, savings: real, thirdParty: real, innowi: real, timeframe: Timeframe): real {
    Pick(k, savings, thirdParty, innowi) / Divisor(timeframe)
  }

  /**
   * On projections made by the engine's generator each running total at month `i`
   * is `i + 1` times that month's figure, the aggregate over the timeframe's divisor.
   */
  lemma GeneratedCumulative(thirdParty: real, innowi: real, savings: real, timeframe: Timeframe, i: nat, k: Series)
    requires i < 12
    ensures var ps := GenerateMonthlyProjections(thirdParty, innowi, savings, timeframe);
      Cumulative(ChartData(ps)[i], k) == (i + 1) as real * PerEntry(k, savings, thirdParty, innowi, timeframe)
  {
    var ps := GenerateMonthlyProjections(thirdParty, innowi, savings, timeframe);
    GeneratedUniform(thirdParty, innowi, savings, timeframe, k);
    UniformCumulative(ps, k, PerEntry(k, savings, thirdParty, innowi, timeframe), i);
  }

  /** All entries of the generated projections hold the same figure per series. */
  lemma GeneratedUniform(thirdParty: real, innowi: real, savings: real, timeframe: Timeframe, k: Series)
    ensures var ps := GenerateMonthlyProjections(thirdParty, innowi, savings, timeframe);
      forall t | 0 <= t < |ps| :: Figure(ps[t], k) == PerEntry(k, savings, thirdParty, innowi, timeframe)
  {
    forall t | 0 <= t < 12
      ensures Figure(GenerateMonthlyProjections(thirdParty, innowi, savings, timeframe)[t], k)
        == PerEntry(k, savings, thirdParty, innowi, timeframe)
    {
      var p := GenerateMonthlyProjections(thirdParty, innowi, savings, timeframe)[t];
      Quotient(Figure(p, k), Divisor(timeframe), Pick(k, savings, thirdParty, innowi));
    }
  }

  /** A figure that times a positive divisor gives an aggregate is that aggregate over the divisor. */
  lemma Quotient(x: real, d: real, a: real)
    requires d > 0.0 && x * d == a
    ensures x == a / d
  {
  }

  /** When every entry holds the same figure `v`, the running total at entry `i` is `(i + 1) * v`. */
  lemma UniformCumulative(ps: seq<MonthlyProjection>, k: Series, v: real, i: nat)
    requires i < |ps|
    requires forall t | 0 <= t < |ps| :: Figure(ps[t], k) == v
    ensures Cumulative(ChartData(ps)[i], k) == (i + 1) as real * v
  {
    var total := Sum(ps[..i + 1], k);
    UniformSum(ps, k, v, i + 1);
    assert total == (i + 1) as real * v;
    CumulativeIsPrefixSum(ps, i, k);
    assert Cumulative(ChartData(ps)[i], k) == total;
  }

  /**
   * The chart data built with one running total per series, as a loop over the
   * projections.
   */
  method CumulativeChartData(ps: seq<MonthlyProjection>) returns (points: seq<ChartPoint>)
    ensures points == ChartData(ps)
  {
    points := [];
    var savings, platform, innowi := 0.0, 0.0, 0.0;
    var i := 0;
    while i < |ps|
      invariant 0 <= i <= |ps|
      invariant |points| == i
      invariant forall j | 0 <= j < i :: points[j] == ChartData(ps)[j]
      invariant savings == Sum(ps[..i], Savings)
      invariant platform == Sum(ps[..i], ThirdPartyFees)
      invariant innowi == Sum(ps[..i], InnowiFees)
    {
      assert ps[..i + 1][..i] == ps[..i];
      savings := savings + ps[i].savings;
      platform := platform + ps[i].thirdPartyFees;
      innowi := innowi + ps[i].innowiFees;
      points := points + [ChartPoint(ps[i].month, savings, platform, innowi)];
      i := i + 1;
    }
    assert ps[..|ps|] == ps;
  }

  /** What the download receives: the total of the plotted savings, the monthly savings and twelve times them. */
  datatype PlanTotals = PlanTotals(totalSavings: real, monthlySavings: real, annualSavings: real)

  /**
   * The download handler: nothing without results; otherwise the sum of all the
   * projected savings, the savings amount, and that amount times twelve.
   */
  function HandleModalSubmit(results: Option<CalculationResults>, ps: seq<MonthlyProjection>): (r: Option<PlanTotals>)
    ensures r.None? <==> results.None?
    ensures r.Some? ==> r.value.annualSavings == 12.0 * r.value.monthlySavings
    ensures r.Some? ==> r.value.monthlySavings == results.value.savingsAmount
    ensures r.Some? && ps != [] ==> r.value.totalSavings == ChartData(ps)[|ps| - 1].monthlySavings
    ensures r.Some? && ps == [] ==> r.value.totalSavings == 0.0
  {
    match results
    case None => None
    case Some(res) =>
      assert ps != [] ==> ps[..|ps|] == ps;
      Some(PlanTotals(Sum(ps, Savings), res.savingsAmount, res.savingsAmount * 12.0))
  }

  /**
   * For the engine's own projections the total is twelve monthly figures: the
   * aggregate itself for the annual view, and twelve times it, the annual figure
   * handed to the download, for the monthly view.
   */
  lemma EngineTotals(inputs: CalculatorInputs)
    ensures var r := CalculateSavings(inputs);
      var totals := HandleModalSubmit(Some(r), r.monthlyProjections).value;
      && (inputs.timeframe == Annual ==> totals.totalSavings == r.savingsAmount)
      && (inputs.timeframe == Monthly ==> totals.totalSavings == totals.annualSavings)
  {
    var r := CalculateSavings(inputs);
    var ps := r.monthlyProjections;
    ProjectionsUniform(inputs);
    UniformSum(ps, Savings, r.savingsAmount / Divisor(inputs.timeframe), 12);
    assert ps[..12] == ps;
  }
}
