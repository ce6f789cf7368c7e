/**
 * The savings calculation engine: from the calculator's four nullable inputs and
 * the timeframe to the third-party fees, the Innowi fees, the savings and a
 * twelve-month projection. Money is an exact rational (`real`).
 */
module Calculations {
  import opened Wrappers

  const AverageOrderValue: real := 35.0
  const ThirdPartyOrderFee: real := 4.00
  const InnowiOrderFee: real := 1.00
  /** 2.9% of the migrated volume. */
  const InnowiProcessingFee: real := 0.029
  const InnowiTransactionFee: real := 0.30

  datatype Timeframe = Monthly | Annual

  datatype CalculatorInputs = CalculatorInputs(
    totalGPV: Option<real>,
    commissionPercent: Option<real>,
    deliveryMix: Option<real>,
    migrationPercent: Option<real>,
    timeframe: Timeframe)

  datatype MonthlyProjection = MonthlyProjection(
    month: string,
    savings: real,
    thirdPartyFees: real,
    innowiFees: real)

  /**
   * `savingsPercent` is `None` where JavaScript divides by zero and produces `NaN`
   * or an infinity.
   */
  datatype CalculationResults = CalculationResults(
    thirdPartyCommissions: real,
    innowiFees: real,
    savingsAmount: real,
    savingsPercent: Option<real>,
    monthlyProjections: seq<MonthlyProjection>)

  const MonthNames: seq<string> :=
    ["Jan", "Feb", "Mar", "Apr", "May", "Jun", "Jul", "Aug", "Sep", "Oct", "Nov", "Dec"]

  /** The engine runs its formula only when all four numeric inputs are present. */
  predicate Complete(inputs: CalculatorInputs) {
    && inputs.totalGPV.Some?
    && inputs.commissionPercent.Some?
    && inputs.deliveryMix.Some?
    && inputs.migrationPercent.Some?
  }

  /** How many projection slots one aggregate figure is spread over. */
  function Divisor(timeframe: Timeframe): (d: real)
    ensures d > 0.0
  {
    if timeframe == Annual then 12.0 else 1.0
  }

  /**
   * Twelve entries, one per calendar month in order, each holding the aggregate
   * figures divided by the timeframe's divisor, so that the divisor copies of an
   * entry give back the aggregate.
   */
  function GenerateMonthlyProjections(thirdParty: real, innowi: real, savings: real, timeframe: Timeframe)
    : (r: seq<MonthlyProjection>)
    ensures |r| == 12
    ensures forall i | 0 <= i < 12 :: r[i].month == MonthNames[i]
    ensures forall i | 0 <= i < 12 ::
      && r[i].thirdPartyFees * Divisor(timeframe) == thirdParty
      && r[i].innowiFees * Divisor(timeframe) == innowi
      && r[i].savings * Divisor(timeframe) == savings
  {
    var d := Divisor(timeframe);
    seq(|MonthNames|, i requires 0 <= i < |MonthNames| =>
      MonthlyProjection(MonthNames[i], savings / d, thirdParty / d, innowi / d))
  }

  /** The delivery share of the volume: `totalGPV * deliveryMix / 100`. */
  function DeliveryGPV(totalGPV: real, deliveryMix: real): real {
    totalGPV * (deliveryMix / 100.0)
  }

  /** The delivery orders, at the fixed average order value. */
  function TotalOrders(totalGPV: real, deliveryMix: real): real {
    DeliveryGPV(totalGPV, deliveryMix) / AverageOrderValue
  }

  /**
   * The third-party commission and per-order fee on the full delivery volume,
   * scaled by the migration rate.
   */
  function ThirdPartyCommissions(totalGPV: real, commissionPercent: real, deliveryMix: real, migrationPercent: real): real {
    var m := migrationPercent / 100.0;
    m * (DeliveryGPV(totalGPV, deliveryMix) * (commissionPercent / 100.0)
         + TotalOrders(totalGPV, deliveryMix) * ThirdPartyOrderFee)
  }

  /**
   * The Innowi fees as the source computes them: the fees on the migrated orders
   * and volume, which already carry the migration rate, scaled by the migration
   * rate once more.
   */
  function InnowiFees(totalGPV: real, deliveryMix: real, migrationPercent: real): real {
    var m := migrationPercent / 100.0;
    var migratedGPV := DeliveryGPV(totalGPV, deliveryMix) * m;
    var migratedOrders := TotalOrders(totalGPV, deliveryMix) * m;
    m * (migratedOrders * InnowiOrderFee + migratedGPV * InnowiProcessingFee + migratedOrders * InnowiTransactionFee)
  }

  /** The savings as a share of `migrationRate * totalGPV`, in percent; `None` when that is zero. */
  function SavingsPercent(savings: real, totalGPV: real, migrationPercent: real): Option<real> {
    var base := (migrationPercent / 100.0) * totalGPV;
    if base == 0.0 then None else Some(savings / base * 100.0)
  }

  function CalculateSavings(inputs: CalculatorInputs): (r: CalculationResults)
    ensures |r.monthlyProjections| == 12
  {
    if !Complete(inputs) then
      CalculationResults(0.0, 0.0, 0.0, Some(0.0), GenerateMonthlyProjections(0.0, 0.0, 0.0, inputs.timeframe))
    else
      var gpv, c, d, m := inputs.totalGPV.value, inputs.commissionPercent.value,
                          inputs.deliveryMix.value, inputs.migrationPercent.value;
      var thirdParty := ThirdPartyCommissions(gpv, c, d, m);
      var innowi := InnowiFees(gpv, d, m);
      var savings := thirdParty - innowi;
      CalculationResults(thirdParty, innowi, savings, SavingsPercent(savings, gpv, m),
                         GenerateMonthlyProjections(thirdParty, innowi, savings, inputs.timeframe))
  }

  /** A missing input gives the all-zero result, projections included. */
  lemma IncompleteGivesZero(inputs: CalculatorInputs)
    requires !Complete(inputs)
    ensures var r := CalculateSavings(inputs);
      && r.thirdPartyCommissions == 0.0 && r.innowiFees == 0.0
      && r.savingsAmount == 0.0 && r.savingsPercent == Some(0.0)
      && forall i | 0 <= i < |r.monthlyProjections| ::
           r.monthlyProjections[i].savings == 0.0
           && r.monthlyProjections[i].thirdPartyFees == 0.0
           && r.monthlyProjections[i].innowiFees == 0.0
  {
  }

  /** Whatever the inputs, the projections are the twelve months from Jan to Dec. */
  lemma ProjectionMonths(inputs: CalculatorInputs)
    ensures var p := CalculateSavings(inputs).monthlyProjections;
      |p| == 12 && forall i | 0 <= i < 12 :: p[i].month == MonthNames[i]
  {
  }

  /**
   * The twelve projection entries differ only in their month: each holds the
   * aggregate figure wired to its field (third-party fees, Innowi fees, savings)
   * divided by the timeframe's divisor.
   */
  lemma ProjectionsUniform(inputs: CalculatorInputs)
    ensures var r := CalculateSavings(inputs);
      var d := Divisor(inputs.timeframe);
      forall i | 0 <= i < |r.monthlyProjections| ::
        && r.monthlyProjections[i].thirdPartyFees == r.thirdPartyCommissions / d
        && r.monthlyProjections[i].innowiFees == r.innowiFees / d
        && r.monthlyProjections[i].savings == r.savingsAmount / d
  {
  }

  /** Every projection entry balances: its savings are its third-party fees less its Innowi fees. */
  lemma {:induction false} ProjectionBalances(inputs: CalculatorInputs)
    ensures var p := CalculateSavings(inputs).monthlyProjections;
      forall i | 0 <= i < |p| :: p[i].savings == p[i].thirdPartyFees - p[i].innowiFees
  {
    var r := CalculateSavings(inputs);
    var d := Divisor(inputs.timeframe);
    assert r.savingsAmount == r.thirdPartyCommissions - r.innowiFees;
    forall i | 0 <= i < |r.monthlyProjections|
      ensures r.monthlyProjections[i].savings
           == r.monthlyProjections[i].thirdPartyFees - r.monthlyProjections[i].innowiFees
    {
      DivideDifference(r.thirdPartyCommissions, r.innowiFees, d);
    }
  }

  lemma DivideDifference(a: real, b: real, d: real)
    requires d != 0.0
    ensures (a - b) / d == a / d - b / d
  {
  }

  /**
   * The savings are the third-party fees less the Innowi fees, never clamped, and
   * the third-party fees equal the commission and per-order fee charged on the
   * migrated volume and orders alone.
   */
  lemma ThirdPartyIsMigratedShare(gpv: real, c: real, d: real, m: real, tf: Timeframe)
    ensures var inputs := CalculatorInputs(Some(gpv), Some(c), Some(d), Some(m), tf);
      var r := CalculateSavings(inputs);
      var migratedGPV := DeliveryGPV(gpv, d) * (m / 100.0);
      var migratedOrders := TotalOrders(gpv, d) * (m / 100.0);
      && r.thirdPartyCommissions == migratedGPV * (c / 100.0) + migratedOrders * ThirdPartyOrderFee
      && r.savingsAmount == r.thirdPartyCommissions - r.innowiFees
  {
    var rate := m / 100.0;
    var dg := DeliveryGPV(gpv, d);
    var orders := TotalOrders(gpv, d);
    assert rate * (dg * (c / 100.0) + orders * 4.0) == (dg * rate) * (c / 100.0) + (orders * rate) * 4.0;
  }

  /**
   * Closed forms in the migration fraction `m = migrationPercent / 100` and the
   * delivery volume `D`: the third-party fees are linear in `m`,
   * `m * D * (c / 100 + 4 / 35)`, and the Innowi fees quadratic,
   * `m * m * D * (1.30 / 35 + 0.029)`, because the source applies `m` to fees that
   * already carry it.
   */
  lemma FeesClosedForm(inputs: CalculatorInputs)
    requires Complete(inputs)
    ensures var r := CalculateSavings(inputs);
      var m := inputs.migrationPercent.value / 100.0;
      var dg := DeliveryGPV(inputs.totalGPV.value, inputs.deliveryMix.value);
      var c := inputs.commissionPercent.value / 100.0;
      && r.thirdPartyCommissions == m * dg * (c + 4.0 / 35.0)
      && r.innowiFees == m * m * dg * (1.30 / 35.0 + 0.029)
      && r.savingsAmount == m * dg * (c + 4.0 / 35.0 - m * (1.30 / 35.0 + 0.029))
  {
    var m := inputs.migrationPercent.value / 100.0;
    var dg := DeliveryGPV(inputs.totalGPV.value, inputs.deliveryMix.value);
    var c := inputs.commissionPercent.value / 100.0;
    var orders := dg / 35.0;
    assert ThirdPartyCommissions(inputs.totalGPV.value, inputs.commissionPercent.value, inputs.deliveryMix.value, inputs.migrationPercent.value)
      == m * (dg * c + orders * 4.0);
    assert m * (dg * c + orders * 4.0) == m * dg * (c + 4.0 / 35.0);
    var mo, mg := orders * m, dg * m;
    assert InnowiFees(inputs.totalGPV.value, inputs.deliveryMix.value, inputs.migrationPercent.value)
      == m * (mo * 1.00 + mg * 0.029 + mo * 0.30);
    assert mo * 1.00 + mg * 0.029 + mo * 0.30 == m * dg * (1.30 / 35.0 + 0.029);
    assert m * (m * dg * (1.30 / 35.0 + 0.029)) == m * m * dg * (1.30 / 35.0 + 0.029);
  }

  /**
   * With a positive migrated delivery volume the restaurant saves exactly when the
   * commission rate plus the per-order fee share `4 / 35` exceeds `m` times the
   * Innowi fee rate.
   */
  lemma SavingsPositiveIff(inputs: CalculatorInputs)
    requires Complete(inputs)
    requires inputs.migrationPercent.value > 0.0
    requires DeliveryGPV(inputs.totalGPV.value, inputs.deliveryMix.value) > 0.0
    ensures var m := inputs.migrationPercent.value / 100.0;
      var c := inputs.commissionPercent.value / 100.0;
      CalculateSavings(inputs).savingsAmount > 0.0 <==> c + 4.0 / 35.0 > m * (1.30 / 35.0 + 0.029)
  {
    FeesClosedForm(inputs);
    var m := inputs.migrationPercent.value / 100.0;
    var dg := DeliveryGPV(inputs.totalGPV.value, inputs.deliveryMix.value);
    var c := inputs.commissionPercent.value / 100.0;
    var k := c + 4.0 / 35.0 - m * (1.30 / 35.0 + 0.029);
    var a := m * dg;
    PositiveProduct(m, dg);
    SignOfProduct(CalculateSavings(inputs).savingsAmount, a, k);
  }

  lemma SignOfProduct(s: real, a: real, k: real)
    requires a > 0.0 && s == a * k
    ensures s > 0.0 <==> k > 0.0
  {
    PositiveProduct(a, k);
  }

  lemma PositiveProduct(a: real, b: real)
    requires a > 0.0
    ensures a * b > 0.0 <==> b > 0.0
  {
    if b <= 0.0 {
      assert a * b <= 0.0;
    }
  }

  /**
   * On inputs inside the form's ranges (non-negative volume, rates between 0 and
   * 100) both fee totals are non-negative.
   */
  lemma FeesNonNegative(inputs: CalculatorInputs)
    requires Complete(inputs)
    requires inputs.totalGPV.value >= 0.0
    requires 0.0 <= inputs.commissionPercent.value <= 100.0
    requires 0.0 <= inputs.deliveryMix.value <= 100.0
    requires 0.0 <= inputs.migrationPercent.value <= 100.0
    ensures CalculateSavings(inputs).thirdPartyCommissions >= 0.0
    ensures CalculateSavings(inputs).innowiFees >= 0.0
  {
    FeesClosedForm(inputs);
    var m := inputs.migrationPercent.value / 100.0;
    var c := inputs.commissionPercent.value / 100.0;
    var dg := DeliveryGPV(inputs.totalGPV.value, inputs.deliveryMix.value);
    NonNegativeProduct(inputs.totalGPV.value, inputs.deliveryMix.value / 100.0);
    NonNegativeProduct(m, dg);
    NonNegativeProduct(m * dg, c + 4.0 / 35.0);
    NonNegativeProduct(m, m);
    NonNegativeProduct(m * m, dg);
    NonNegativeProduct(m * m * dg, 1.30 / 35.0 + 0.029);
  }

  lemma NonNegativeProduct(a: real, b: real)
    requires a >= 0.0 && b >= 0.0
    ensures a * b >= 0.0
  {
  }

  /**
   * `savingsPercent` is undefined exactly when `migrationRate * totalGPV` is zero;
   * otherwise it is the savings as a percentage of that amount.
   */
  lemma SavingsPercentDefinedIff(inputs: CalculatorInputs)
    requires Complete(inputs)
    ensures var r := CalculateSavings(inputs);
      var base := inputs.migrationPercent.value / 100.0 * inputs.totalGPV.value;
      && (r.savingsPercent.None? <==> base == 0.0)
      && (r.savingsPercent.Some? ==> r.savingsPercent.value * base == r.savingsAmount * 100.0)
  {
  }

  /** A zero volume or a zero migration rate leaves nothing migrated: every figure is 0 and the percentage is undefined. */
  lemma NothingMigrated(inputs: CalculatorInputs)
    requires Complete(inputs)
    requires inputs.totalGPV.value == 0.0 || inputs.migrationPercent.value == 0.0
    ensures var r := CalculateSavings(inputs);
      && r.thirdPartyCommissions == 0.0 && r.innowiFees == 0.0 && r.savingsAmount == 0.0
      && r.savingsPercent == None
  {
    FeesClosedForm(inputs);
  }

  /**
   * The worked example of a monthly $20,000 volume, 30% commission, 85% delivery
   * and 40% migration, in exact rationals.
   */
  lemma WorkedExample()
    ensures var r := CalculateSavings(CalculatorInputs(Some(20000.0), Some(30.0), Some(85.0), Some(40.0), Monthly));
      && r.thirdPartyCommissions == 19720.0 / 7.0
      && r.innowiFees == 31484.0 / 175.0
      && r.savingsAmount == 461516.0 / 175.0
      && r.savingsPercent == Some(115379.0 / 3500.0)
      && r.monthlyProjections[0].savings == 461516.0 / 175.0
  {
  }
}
