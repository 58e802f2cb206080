/** getSeasonalFactors: a 12-entry table of per-month income multipliers. */
module Seasonal {
  import opened Records
  import opened Calendar

  /** The hand-tuned table, January first, peaking in December. */
  const DefaultFactors: seq<real> :=
    [1.0, 0.95, 1.05, 1.1, 1.15, 1.2, 1.25, 1.2, 1.1, 1.05, 1.0, 1.3]

  /** Records needed before the table is learned from the history. */
  const MinRecordsForLearning: nat := 12

  function Last(data: seq<FinancialData>): FinancialData
    requires data != []
  {
    data[|data| - 1]
  }

  /** Sum of the incomes recorded under month `m`. */
  function MonthSum(data: seq<FinancialData>, m: int): real
  {
    if data == [] then 0.0
    else MonthSum(data[..|data| - 1], m)
         + (if MonthIndex(Last(data).month) == m then Last(data).income else 0.0)
  }

  /** Number of records whose month name is month `m`. */
  function MonthCount(data: seq<FinancialData>, m: int): nat
  {
    if data == [] then 0
    else MonthCount(data[..|data| - 1], m) + (if MonthIndex(Last(data).month) == m then 1 else 0)
  }

  /** The per-month entry after averaging: the mean income of an observed
      month, the (zero) sum of one never observed. */
  function MonthAvg(data: seq<FinancialData>, m: int): real
  {
    if MonthCount(data, m) > 0 then MonthSum(data, m) / MonthCount(data, m) as real
    else MonthSum(data, m)
  }

  /** Sum of the averages of the observed months among 0 .. k-1. */
  function ObservedTotal(data: seq<FinancialData>, k: nat): real
    requires k <= 12
  {
    if k == 0 then 0.0
    else ObservedTotal(data, k - 1) + (if MonthCount(data, k - 1) > 0 then MonthAvg(data, k - 1) else 0.0)
  }

  /** Number of observed months among 0 .. k-1. */
  function ObservedMonths(data: seq<FinancialData>, k: nat): (c: nat)
    requires k <= 12
    ensures c <= k
  {
    if k == 0 then 0
    else ObservedMonths(data, k - 1) + (if MonthCount(data, k - 1) > 0 then 1 else 0)
  }

  function ObservedMean(data: seq<FinancialData>): real
    requires ObservedMonths(data, 12) > 0
  {
    ObservedTotal(data, 12) / ObservedMonths(data, 12) as real
  }

  /** The table is learned from the history when it has at least twelve
      records, some recognised month, and a non-zero mean to divide by. */
  predicate Learns(data: seq<FinancialData>)
  {
    |data| >= MinRecordsForLearning && ObservedMonths(data, 12) > 0 && ObservedMean(data) != 0.0
  }

  /** Factor of month `m`: an observed month's average over the mean of the
      observed months' averages when the table is learned, the default otherwise
      (see SeasonalFactorsAsWritten for the zero-mean case). */
  function Factor(data: seq<FinancialData>, m: int): real
    requires 0 <= m < 12
  {
    if Learns(data) && MonthCount(data, m) > 0 then MonthAvg(data, m) / ObservedMean(data)
    else DefaultFactors[m]
  }

  /** Reference definition of the factor table. */
  function SeasonalFactors(data: seq<FinancialData>): (r: seq<real>)
    ensures |r| == 12
    ensures forall m :: 0 <= m < 12 ==> r[m] == Factor(data, m)
    ensures |data| < MinRecordsForLearning ==> r == DefaultFactors
    ensures forall m :: 0 <= m < 12 && MonthCount(data, m) == 0 ==> r[m] == DefaultFactors[m]
  {
    seq(12, m requires 0 <= m < 12 => Factor(data, m))
  }

  /** Extending the prefix by record k adds that record to its month only. */
  lemma PrefixStep(data: seq<FinancialData>, k: nat)
    requires k < |data|
    ensures forall m {:trigger MonthSum(data[..k + 1], m)} :: MonthSum(data[..k + 1], m) ==
              MonthSum(data[..k], m) + (if MonthIndex(data[k].month) == m then data[k].income else 0.0)
    ensures forall m {:trigger MonthCount(data[..k + 1], m)} :: MonthCount(data[..k + 1], m) ==
              MonthCount(data[..k], m) + (if MonthIndex(data[k].month) == m then 1 else 0)
  {
    assert data[..k + 1][..k] == data[..k];
  }

  /** The first pass of getSeasonalFactors: per-month income sums and record
      counts, skipping unrecognised month names. */
  method AccumulateByMonth(data: seq<FinancialData>) returns (monthlyAvgs: array<real>, monthlyCounts: array<int>)
    ensures fresh(monthlyAvgs) && fresh(monthlyCounts)
    ensures monthlyAvgs.Length == 12 && monthlyCounts.Length == 12
    ensures forall m :: 0 <= m < 12 ==> monthlyAvgs[m] == MonthSum(data, m)
    ensures forall m :: 0 <= m < 12 ==> monthlyCounts[m] == MonthCount(data, m)
  {
    monthlyAvgs := new real[12](_ => 0.0);
    monthlyCounts := new int[12](_ => 0);
    for k := 0 to |data|
      invariant forall m :: 0 <= m < 12 ==> monthlyAvgs[m] == MonthSum(data[..k], m)
      invariant forall m :: 0 <= m < 12 ==> monthlyCounts[m] == MonthCount(data[..k], m)
    {
      PrefixStep(data, k);
      var month := GetMonthIndex(data[k].month);
      if month >= 0 && month < 12 {
        monthlyAvgs[month] := monthlyAvgs[month] + data[k].income;
        monthlyCounts[month] := monthlyCounts[month] + 1;
      }
    }
    assert data[..|data|] == data;
  }

  /** The second pass of getSeasonalFactors: turn each observed month's sum
      into its average, and total the averages of the observed months. */
  method AverageByMonth(data: seq<FinancialData>, monthlyAvgs: array<real>, monthlyCounts: array<int>)
    returns (totalAvg: real, validMonths: int)
    requires monthlyAvgs.Length == 12 && monthlyCounts.Length == 12
    requires forall m :: 0 <= m < 12 ==> monthlyAvgs[m] == MonthSum(data, m)
    requires forall m :: 0 <= m < 12 ==> monthlyCounts[m] == MonthCount(data, m)
    modifies monthlyAvgs
    ensures forall m :: 0 <= m < 12 ==> monthlyAvgs[m] == MonthAvg(data, m)
    ensures totalAvg == ObservedTotal(data, 12) && validMonths == ObservedMonths(data, 12)
  {
    totalAvg, validMonths := 0.0, 0;
    for i := 0 to 12
      invariant forall m :: 0 <= m < i ==> monthlyAvgs[m] == MonthAvg(data, m)
      invariant forall m :: i <= m < 12 ==> monthlyAvgs[m] == MonthSum(data, m)
      invariant totalAvg == ObservedTotal(data, i) && validMonths == ObservedMonths(data, i)
    {
      if monthlyCounts[i] > 0 {
        monthlyAvgs[i] := monthlyAvgs[i] / monthlyCounts[i] as real;
        totalAvg := totalAvg + monthlyAvgs[i];
        validMonths := validMonths + 1;
      }
    }
  }

  /** getSeasonalFactors: accumulate per month, average, normalise. */
  method GetSeasonalFactors(data: seq<FinancialData>) returns (factors: seq<real>)
    ensures factors == SeasonalFactors(data)
    ensures |factors| == 12
  {
    var table := new real[12](m => if 0 <= m < 12 then DefaultFactors[m] else 0.0);
    assert table[..] == DefaultFactors;
    if |data| >= MinRecordsForLearning {
      var monthlyAvgs, monthlyCounts := AccumulateByMonth(data);

      var totalAvg, validMonths := AverageByMonth(data, monthlyAvgs, monthlyCounts);

      if validMonths > 0 {
        totalAvg := totalAvg / validMonths as real;
        if totalAvg != 0.0 {
          assert Learns(data) && ObservedMean(data) == totalAvg;
          ghost var averaged, counted := monthlyAvgs[..], monthlyCounts[..];
          for i := 0 to 12
            invariant monthlyAvgs[..] == averaged && monthlyCounts[..] == counted
            invariant forall m :: 0 <= m < i ==> table[m] == Factor(data, m)
            invariant forall m :: i <= m < 12 ==> table[m] == DefaultFactors[m]
          {
            if monthlyCounts[i] > 0 {
              table[i] := monthlyAvgs[i] / totalAvg;
            }
            assert table[i] == Factor(data, i);
          }
        }
      }
    }
    factors := table[..];
    assert forall m :: 0 <= m < 12 ==> factors[m] == Factor(data, m);
  }

  /** `c` added up `n` times. */
  function Times(c: real, n: nat): real
  {
    if n == 0 then 0.0 else Times(c, n - 1) + c
  }

  lemma {:induction false} TimesAverage(c: real, n: nat)
    requires n > 0
    ensures Times(c, n) / n as real == c
  {
    TimesIsProduct(c, n);
  }

  lemma {:induction false} TimesIsProduct(c: real, n: nat)
    ensures Times(c, n) == c * n as real
  {
    if n > 0 {
      TimesIsProduct(c, n - 1);
      assert c * (n - 1) as real + c == c * n as real;
    }
  }

  /** With the same income c in every record, a month's income sum is c once per record. */
  lemma {:induction false} UniformMonthSum(data: seq<FinancialData>, c: real, m: int)
    requires forall i :: 0 <= i < |data| ==> data[i].income == c
    ensures MonthSum(data, m) == Times(c, MonthCount(data, m))
  {
    if data != [] {
      var prefix := data[..|data| - 1];
      assert forall i :: 0 <= i < |prefix| ==> prefix[i] == data[i];
      UniformMonthSum(prefix, c, m);
    }
  }

  lemma {:induction false} UniformObservedTotal(data: seq<FinancialData>, c: real, k: nat)
    requires k <= 12
    requires forall m :: 0 <= m < 12 && MonthCount(data, m) > 0 ==> MonthAvg(data, m) == c
    ensures ObservedTotal(data, k) == Times(c, ObservedMonths(data, k))
  {
    if k > 0 {
      UniformObservedTotal(data, c, k - 1);
    }
  }

  lemma {:induction false} ObservedMonthsPositive(data: seq<FinancialData>, k: nat, m: nat)
    requires m < k <= 12 && MonthCount(data, m) > 0
    ensures ObservedMonths(data, k) > 0
  {
    if m < k - 1 {
      ObservedMonthsPositive(data, k - 1, m);
    }
  }

  /** Twelve or more records that all earn the same positive income give
      every observed month the factor 1. */
  lemma UniformIncomeGivesUnitFactors(data: seq<FinancialData>, c: real)
    requires |data| >= MinRecordsForLearning && c > 0.0
    requires forall i :: 0 <= i < |data| ==> data[i].income == c
    ensures forall m :: 0 <= m < 12 && MonthCount(data, m) > 0 ==> Factor(data, m) == 1.0
  {
    forall m | 0 <= m < 12 && MonthCount(data, m) > 0
      ensures MonthAvg(data, m) == c
    {
      UniformMonthSum(data, c, m);
      TimesAverage(c, MonthCount(data, m));
    }
    UniformObservedTotal(data, c, 12);
    forall m | 0 <= m < 12 && MonthCount(data, m) > 0
      ensures Factor(data, m) == 1.0
    {
      ObservedMonthsPositive(data, 12, m);
      TimesAverage(c, ObservedMonths(data, 12));
      UnitFactor(data, m, c);
    }
  }

  lemma UnitFactor(data: seq<FinancialData>, m: int, c: real)
    requires 0 <= m < 12 && |data| >= MinRecordsForLearning && c > 0.0
    requires MonthCount(data, m) > 0 && MonthAvg(data, m) == c
    requires ObservedMonths(data, 12) > 0 && ObservedTotal(data, 12) == Times(c, ObservedMonths(data, 12))
    ensures Factor(data, m) == 1.0
  {
    TimesAverage(c, ObservedMonths(data, 12));
    assert ObservedMean(data) == c;
    assert Learns(data);
    assert Factor(data, m) == c / c;
    assert c / c == 1.0;
  }

  lemma {:induction false} MonthSumNonNegative(data: seq<FinancialData>, m: int)
    requires forall i :: 0 <= i < |data| ==> data[i].income >= 0.0
    ensures MonthSum(data, m) >= 0.0
  {
    if data != [] {
      MonthSumNonNegative(data[..|data| - 1], m);
    }
  }

  lemma {:induction false} ObservedTotalNonNegative(data: seq<FinancialData>, k: nat)
    requires k <= 12
    requires forall m :: 0 <= m < 12 ==> MonthAvg(data, m) >= 0.0
    ensures ObservedTotal(data, k) >= 0.0
  {
    if k > 0 {
      ObservedTotalNonNegative(data, k - 1);
    }
  }

  /** Non-negative incomes give non-negative factors. */
  lemma FactorsNonNegative(data: seq<FinancialData>)
    requires forall i :: 0 <= i < |data| ==> data[i].income >= 0.0
    ensures forall m :: 0 <= m < 12 ==> Factor(data, m) >= 0.0
  {
    forall m | 0 <= m < 12
      ensures MonthAvg(data, m) >= 0.0
    {
      MonthSumNonNegative(data, m);
    }
    ObservedTotalNonNegative(data, 12);
  }

  /** The outcome of a float64 division: a finite value, or NaN/Inf. */
  datatype Quotient = Finite(value: real) | NonFinite

  function GoDivide(a: real, b: real): (q: Quotient)
    ensures q.NonFinite? <==> b == 0.0
  {
    if b == 0.0 then NonFinite else Finite(a / b)
  }

  /** The table as main.go computes it: after checking only that some month
      was observed, it divides by the mean, which may be zero. */
  function SeasonalFactorsAsWritten(data: seq<FinancialData>): (r: seq<Quotient>)
    ensures |r| == 12
  {
    if |data| < MinRecordsForLearning || ObservedMonths(data, 12) == 0 then
      seq(12, m requires 0 <= m < 12 => Finite(DefaultFactors[m]))
    else
      var mean := ObservedTotal(data, 12) / ObservedMonths(data, 12) as real;
      seq(12, m requires 0 <= m < 12 =>
            if MonthCount(data, m) > 0 then GoDivide(MonthAvg(data, m), mean) else Finite(DefaultFactors[m]))
  }

  /** A recorded, recognised month is observed. */
  lemma {:induction false} RecordedMonthObserved(data: seq<FinancialData>, i: nat)
    requires i < |data|
    ensures MonthCount(data, MonthIndex(data[i].month)) > 0
  {
    if i < |data| - 1 {
      assert data[..|data| - 1][i] == data[i];
      RecordedMonthObserved(data[..|data| - 1], i);
    }
  }

  /** Twelve or more records whose incomes are all zero, one of them under
      month name `m`, make main.go divide zero by zero for month `m`. */
  lemma ZeroIncomesGiveNonFiniteFactor(data: seq<FinancialData>, i: nat, m: nat)
    requires |data| >= MinRecordsForLearning && i < |data| && m < 12 && data[i].month == Months[m]
    requires forall j :: 0 <= j < |data| ==> data[j].income == 0.0
    ensures SeasonalFactorsAsWritten(data)[m].NonFinite?
  {
    MonthsDistinct();
    MonthIndexFinds(data[i].month);
    RecordedMonthObserved(data, i);
    ObservedMonthsPositive(data, 12, m);
    forall k | 0 <= k < 12 && MonthCount(data, k) > 0
      ensures MonthAvg(data, k) == 0.0
    {
      UniformMonthSum(data, 0.0, k);
      TimesAverage(0.0, MonthCount(data, k));
    }
    UniformObservedTotal(data, 0.0, 12);
    TimesAverage(0.0, ObservedMonths(data, 12));
  }

  /** The concrete case: a year of twelve January records with no income. */
  lemma ZeroIncomeJanuariesGiveNonFiniteFactor()
    ensures SeasonalFactorsAsWritten(seq(12, _ => FinancialData("Ocak", 0.0, 100.0, -100.0)))[0].NonFinite?
  {
    var data := seq(12, _ => FinancialData("Ocak", 0.0, 100.0, -100.0));
    ZeroIncomesGiveNonFiniteFactor(data, 0, 0);
  }

  /** The corrected table differs from main.go's only where main.go's entry is
      not finite, and there it keeps the default. */
  lemma CorrectedAgreesWhereFinite(data: seq<FinancialData>)
    ensures forall m :: 0 <= m < 12 ==>
              var w := SeasonalFactorsAsWritten(data)[m];
              (w.Finite? ==> Factor(data, m) == w.value) &&
              (w.NonFinite? ==> Factor(data, m) == DefaultFactors[m])
  {
  }
}
