/** calculateGrowthRate: the average relative month-over-month change of one
    field, with a default and a clamp. */
module Growth {
  import opened Records

  const DefaultGrowthRate: real := 0.02
  const MaxGrowthRate: real := 0.30
  const MinGrowthRate: real := -0.20

  /** The selected field: income for "income", expense for any other selector. */
  function FieldValue(d: FinancialData, field: string): real
  {
    if field == "income" then d.income else d.expense
  }

  /** Period `i` compares record `i` with record `i - 1`; it counts only when
      the previous value is positive. */
  predicate IsValidPeriod(data: seq<FinancialData>, field: string, i: nat)
    requires 1 <= i < |data|
  {
    FieldValue(data[i - 1], field) > 0.0
  }

  function PeriodGrowth(data: seq<FinancialData>, field: string, i: nat): real
    requires 1 <= i < |data| && IsValidPeriod(data, field, i)
  {
    (FieldValue(data[i], field) - FieldValue(data[i - 1], field)) / FieldValue(data[i - 1], field)
  }

  /** Sum of the growth of the valid periods among 1 .. n-1. */
  function TotalGrowth(data: seq<FinancialData>, field: string, n: nat): real
    requires n <= |data|
  {
    if n <= 1 then 0.0
    else TotalGrowth(data, field, n - 1)
         + (if IsValidPeriod(data, field, n - 1) then PeriodGrowth(data, field, n - 1) else 0.0)
  }

  /** Number of valid periods among 1 .. n-1. */
  function ValidPeriods(data: seq<FinancialData>, field: string, n: nat): nat
    requires n <= |data|
  {
    if n <= 1 then 0
    else ValidPeriods(data, field, n - 1) + (if IsValidPeriod(data, field, n - 1) then 1 else 0)
  }

  function AverageGrowth(data: seq<FinancialData>, field: string): real
    requires ValidPeriods(data, field, |data|) > 0
  {
    TotalGrowth(data, field, |data|) / ValidPeriods(data, field, |data|) as real
  }

  function Clamp(rate: real): real
  {
    if rate > MaxGrowthRate then MaxGrowthRate
    else if rate < MinGrowthRate then MinGrowthRate
    else rate
  }

  /** Reference definition of the growth estimate. */
  function GrowthRate(data: seq<FinancialData>, field: string): (g: real)
    ensures MinGrowthRate <= g <= MaxGrowthRate
    ensures |data| < 2 ==> g == DefaultGrowthRate
    ensures |data| >= 2 && ValidPeriods(data, field, |data|) == 0 ==> g == DefaultGrowthRate
    ensures ValidPeriods(data, field, |data|) > 0 ==>
              var avg := AverageGrowth(data, field);
              (MinGrowthRate <= avg <= MaxGrowthRate ==> g == avg) &&
              (avg > MaxGrowthRate ==> g == MaxGrowthRate) &&
              (avg < MinGrowthRate ==> g == MinGrowthRate)
  {
    if |data| < 2 then DefaultGrowthRate
    else if ValidPeriods(data, field, |data|) == 0 then DefaultGrowthRate
    else Clamp(AverageGrowth(data, field))
  }

  /** calculateGrowthRate, accumulating over the periods in one pass. */
  method CalculateGrowthRate(data: seq<FinancialData>, field: string) returns (rate: real)
    ensures rate == GrowthRate(data, field)
    ensures MinGrowthRate <= rate <= MaxGrowthRate
  {
    if |data| < 2 {
      return DefaultGrowthRate;
    }
    var totalGrowth := 0.0;
    var validPeriods := 0;
    for i := 1 to |data|
      invariant totalGrowth == TotalGrowth(data, field, i)
      invariant validPeriods == ValidPeriods(data, field, i)
    {
      var current, previous;
      if field == "income" {
        current, previous := data[i].income, data[i - 1].income;
      } else {
        current, previous := data[i].expense, data[i - 1].expense;
      }
      if previous > 0.0 {
        var growth := (current - previous) / previous;
        totalGrowth := totalGrowth + growth;
        validPeriods := validPeriods + 1;
      }
    }
    if validPeriods == 0 {
      return DefaultGrowthRate;
    }
    var avgGrowthRate := totalGrowth / validPeriods as real;
    if avgGrowthRate > MaxGrowthRate {
      avgGrowthRate := MaxGrowthRate;
    } else if avgGrowthRate < MinGrowthRate {
      avgGrowthRate := MinGrowthRate;
    }
    return avgGrowthRate;
  }

  /** No period counts exactly when no previous value among the first n is positive. */
  lemma {:induction false} NoValidPeriodIff(data: seq<FinancialData>, field: string, n: nat)
    requires n <= |data|
    ensures ValidPeriods(data, field, n) == 0 <==>
            forall i :: 0 <= i < n - 1 ==> FieldValue(data[i], field) <= 0.0
  {
    if n > 1 {
      NoValidPeriodIff(data, field, n - 1);
      assert IsValidPeriod(data, field, n - 1) <==> FieldValue(data[n - 2], field) > 0.0;
    }
  }

  /** The default rate comes back when no previous value is positive. */
  lemma DefaultWithoutPositivePrevious(data: seq<FinancialData>, field: string)
    requires forall i :: 0 <= i < |data| - 1 ==> FieldValue(data[i], field) <= 0.0
    ensures GrowthRate(data, field) == DefaultGrowthRate
  {
    NoValidPeriodIff(data, field, |data|);
  }

  /** Record `i` is record `i - 1` scaled by 1+g. */
  predicate GrowsBy(data: seq<FinancialData>, field: string, g: real, i: nat)
    requires 1 <= i < |data|
  {
    FieldValue(data[i], field) == FieldValue(data[i - 1], field) * (1.0 + g)
  }

  /** Every value of a series that starts positive and grows by 1+g > 0 is positive. */
  lemma {:induction false} GeometricPositive(data: seq<FinancialData>, field: string, g: real, n: nat)
    requires 1 <= n <= |data|
    requires FieldValue(data[0], field) > 0.0 && 1.0 + g > 0.0
    requires forall i :: 1 <= i < |data| ==> GrowsBy(data, field, g, i)
    ensures FieldValue(data[n - 1], field) > 0.0
  {
    if n > 1 {
      GeometricPositive(data, field, g, n - 1);
      assert GrowsBy(data, field, g, n - 1);
      StepGrowth(FieldValue(data[n - 2], field), FieldValue(data[n - 1], field), g);
    }
  }

  lemma {:induction false} GeometricPrefix(data: seq<FinancialData>, field: string, g: real, n: nat)
    requires 1 <= n <= |data|
    requires FieldValue(data[0], field) > 0.0 && 1.0 + g > 0.0
    requires forall i :: 1 <= i < |data| ==> GrowsBy(data, field, g, i)
    ensures ValidPeriods(data, field, n) == n - 1
    ensures TotalGrowth(data, field, n) == g * (n - 1) as real
  {
    if n > 1 {
      GeometricPrefix(data, field, g, n - 1);
      GeometricPositive(data, field, g, n - 1);
      assert GrowsBy(data, field, g, n - 1);
      StepGrowth(FieldValue(data[n - 2], field), FieldValue(data[n - 1], field), g);
      assert PeriodGrowth(data, field, n - 1) == g;
      assert TotalGrowth(data, field, n) == TotalGrowth(data, field, n - 1) + g;
      AddOnce(g, n - 1);
    }
  }

  lemma AddOnce(g: real, k: nat)
    requires k >= 1
    ensures g * (k - 1) as real + g == g * k as real
  {
  }

  lemma StepGrowth(p: real, c: real, g: real)
    requires p > 0.0 && 1.0 + g > 0.0 && c == p * (1.0 + g)
    ensures c > 0.0 && (c - p) / p == g
  {
    assert c - p == p * g;
  }

  /** A series that grows by the same factor 1+g every month yields the rate g,
      clamped to the policy range. */
  lemma GeometricSeriesRate(data: seq<FinancialData>, field: string, g: real)
    requires |data| >= 2
    requires FieldValue(data[0], field) > 0.0 && 1.0 + g > 0.0
    requires forall i :: 1 <= i < |data| ==> GrowsBy(data, field, g, i)
    ensures GrowthRate(data, field) == Clamp(g)
  {
    GeometricPrefix(data, field, g, |data|);
    assert AverageGrowth(data, field) == g;
  }
}
