/** PredictNext6Months: six months of projected income and expense. */
module Forecast {
  import opened Records
  import opened Numeric
  import opened Calendar
  import opened Growth
  import opened Seasonal

  const ForecastMonths: nat := 6

  /** The deterministic stand-in for noise: 0.95, 1.0, 1.05, repeating. */
  function Volatility(i: nat): (v: real)
    ensures 0.95 <= v <= 1.05
  {
    0.95 + ((i % 3) as real) * 0.05
  }

  /** Step `i` reads the factor of the month that continues the history's
      count of months, not the calendar month of its label. */
  function SeasonalIndex(historyLength: nat, i: nat): (k: nat)
    ensures k < 12
  {
    (historyLength + i) % 12
  }

  /** Income of step `i` before rounding: the base grown i + 1 times by the
      rate, scaled by the seasonal factor and the volatility. */
  function ProjectedIncome(base: real, rate: real, factor: real, i: nat): (p: real)
    ensures rate == 0.0 ==> p == base * factor * Volatility(i)
    ensures base == 0.0 || factor == 0.0 || rate == -1.0 ==> p == 0.0
  {
    base * Pow(1.0 + rate, i + 1) * factor * Volatility(i)
  }

  /** Expense of step `i` before rounding: no seasonal factor, and the
      volatility applied inversely. */
  function ProjectedExpense(base: real, rate: real, i: nat): (e: real)
    ensures rate == 0.0 ==> e == base * (2.0 - Volatility(i))
    ensures base == 0.0 || rate == -1.0 ==> e == 0.0
  {
    base * Pow(1.0 + rate, i + 1) * (2.0 - Volatility(i))
  }

  /** A forecast record: the amounts rounded to cents, the net flow rounded
      from the unrounded income minus expense. */
  function Rounded(name: string, income: real, expense: real): (d: FinancialData)
    ensures d.month == name
    ensures -0.005 <= d.income - income <= 0.005 && -0.005 <= d.expense - expense <= 0.005
    ensures -0.005 <= d.netFlow - (income - expense) <= 0.005
  {
    FinancialData(name, Round2(income), Round2(expense), Round2(income - expense))
  }

  /** Forecast record of step `i`, labelled with the month `i + 1` months after `now`. */
  function Prediction(historical: seq<FinancialData>, now: Date, i: nat): (p: FinancialData)
    requires historical != [] && ValidDate(now)
    ensures p.month in Months
    ensures Last(historical).income == 0.0 ==> p.income == 0.0
    ensures Last(historical).expense == 0.0 ==> p.expense == 0.0
  {
    var last := Last(historical);
    var income := ProjectedIncome(last.income, GrowthRate(historical, "income"),
                                  SeasonalFactors(historical)[SeasonalIndex(|historical|, i)], i);
    var expense := ProjectedExpense(last.expense, GrowthRate(historical, "expense"), i);
    Rounded(MonthName(AddMonths(now, i + 1)), income, expense)
  }

  /** Reference definition of the forecast. */
  function Forecast(historical: seq<FinancialData>, now: Date): (r: seq<FinancialData>)
    requires ValidDate(now)
    ensures |r| == ForecastMonths
    ensures historical == [] ==> forall i :: 0 <= i < |r| ==> r[i] == ZeroRecord
  {
    if historical == [] then seq(ForecastMonths, _ => ZeroRecord)
    else seq(ForecastMonths, i requires 0 <= i < ForecastMonths => Prediction(historical, now, i))
  }

  /** PredictNext6Months, with the wall clock passed in as `now`. */
  method PredictNext6Months(historical: seq<FinancialData>, now: Date) returns (predictions: seq<FinancialData>)
    requires ValidDate(now)
    ensures predictions == Forecast(historical, now)
    ensures |predictions| == ForecastMonths
  {
    var table := new FinancialData[ForecastMonths](_ => ZeroRecord);
    if |historical| == 0 {
      return table[..];
    }

    var incomeGrowthRate := CalculateGrowthRate(historical, "income");
    var expenseGrowthRate := CalculateGrowthRate(historical, "expense");

    var lastData := historical[|historical| - 1];
    var baseIncome, baseExpense := lastData.income, lastData.expense;

    var seasonalFactors := GetSeasonalFactors(historical);

    for i := 0 to ForecastMonths
      invariant forall j :: 0 <= j < i ==> table[j] == Prediction(historical, now, j)
    {
      var monthIndex := (|historical| + i) % 12;
      var seasonalFactor := seasonalFactors[monthIndex];

      // Growth, seasonal adjustment and volatility of this step.
      var predictedIncome := ProjectedIncome(baseIncome, incomeGrowthRate, seasonalFactor, i);
      var predictedExpense := ProjectedExpense(baseExpense, expenseGrowthRate, i);

      table[i] := Rounded(MonthName(AddMonths(now, i + 1)), predictedIncome, predictedExpense);
    }
    predictions := table[..];
    assert forall i :: 0 <= i < ForecastMonths ==> predictions[i] == Forecast(historical, now)[i];
  }

  /** A forecast record's net flow is its income minus its expense up to the
      three roundings to cents (the net flow is rounded from the unrounded amounts). */
  lemma PredictionNetFlowWithinRounding(historical: seq<FinancialData>, now: Date, i: nat)
    requires historical != [] && ValidDate(now)
    ensures var p := Prediction(historical, now, i);
            -0.015 <= p.netFlow - (p.income - p.expense) <= 0.015
  {
  }

  /** Projections of non-negative amounts with a rate above -1 are non-negative. */
  lemma ProjectionsNonNegative(base: real, rate: real, factor: real, i: nat)
    requires base >= 0.0 && factor >= 0.0 && 1.0 + rate > 0.0
    ensures ProjectedIncome(base, rate, factor, i) >= 0.0
    ensures ProjectedExpense(base, rate, i) >= 0.0
  {
    PowPositive(1.0 + rate, i + 1);
    var grown := base * Pow(1.0 + rate, i + 1);
    assert grown >= 0.0;
    assert grown * factor >= 0.0;
  }

  /** Non-negative historical amounts give non-negative forecast amounts. */
  lemma PredictionNonNegative(historical: seq<FinancialData>, now: Date, i: nat)
    requires historical != [] && ValidDate(now)
    requires forall j :: 0 <= j < |historical| ==> historical[j].income >= 0.0 && historical[j].expense >= 0.0
    ensures Prediction(historical, now, i).income >= 0.0
    ensures Prediction(historical, now, i).expense >= 0.0
  {
    FactorsNonNegative(historical);
    var last := Last(historical);
    ProjectionsNonNegative(last.income, GrowthRate(historical, "income"),
                           SeasonalFactors(historical)[SeasonalIndex(|historical|, i)], i);
    ProjectionsNonNegative(last.expense, GrowthRate(historical, "expense"), 0.0, i);
  }

  /** When the current day exists in every month (day 28 or earlier), step
      `i` is labelled with the calendar month i + 1 months after now. */
  lemma PredictionLabel(historical: seq<FinancialData>, now: Date, i: nat)
    requires historical != [] && ValidDate(now) && now.day <= 28
    ensures Prediction(historical, now, i).month == Months[(now.month + i) % 12]
  {
    var t := AddMonths(now, i + 1);
    assert t.month == (now.month + i) % 12 + 1;
    assert Prediction(historical, now, i).month == MonthName(t);
  }
}
