/** generateSummary and generateRecommendations: totals over the history and
    the forecast, three threshold labels, and the advice list built from them. */
module Summary {
  import opened Records
  import opened Numeric

  const TrendRising := "Yükseliş"
  const TrendFalling := "Düşüş"
  const TrendStable := "Stabil"

  const RiskHigh := "Yüksek"
  const RiskLow := "Düşük"
  const RiskMedium := "Orta"

  const HealthRisk := "Risk"
  const HealthStrong := "Güçlü"
  const HealthNormal := "Normal"

  const UrgentAdvice: seq<string> := [
    "Acil nakit akış planı oluşturun",
    "Gereksiz giderleri kısmayı düşünün",
    "Alternatif finansman kaynaklarını araştırın"]
  const DeclineAdvice: seq<string> := [
    "Yeni pazarlama stratejileri geliştirin",
    "Maliyet optimizasyonu yapın",
    "Ürün/hizmet portföyünüzü gözden geçirin"]
  const GrowthAdvice: seq<string> := [
    "Yatırım fırsatlarını değerlendirin",
    "Büyüme stratejileri planlayın",
    "Acil durum fonu oluşturun"]
  const ProfitSharingAdvice := "Kâr paylaşım planı düşünün"
  const FallbackAdvice := "Mevcut performansınızı korumaya odaklanın"

  /** The three amounts a record carries. */
  datatype Column = IncomeColumn | ExpenseColumn | NetFlowColumn

  function Amount(d: FinancialData, c: Column): real
  {
    match c
    case IncomeColumn => d.income
    case ExpenseColumn => d.expense
    case NetFlowColumn => d.netFlow
  }

  /** Sum of one column over the records, accumulated front to back. */
  function Total(s: seq<FinancialData>, c: Column): real
  {
    if s == [] then 0.0 else Total(s[..|s| - 1], c) + Amount(s[|s| - 1], c)
  }

  /** Appending a record adds its amounts to every column's total. */
  lemma TotalSnoc(s: seq<FinancialData>, d: FinancialData)
    ensures Total(s + [d], IncomeColumn) == Total(s, IncomeColumn) + d.income
    ensures Total(s + [d], ExpenseColumn) == Total(s, ExpenseColumn) + d.expense
    ensures Total(s + [d], NetFlowColumn) == Total(s, NetFlowColumn) + d.netFlow
  {
    assert (s + [d])[..|s|] == s;
  }

  /** When every net flow is income minus expense, so is the net-flow total. */
  lemma {:induction false} NetFlowTotal(s: seq<FinancialData>)
    requires NetFlowsDerived(s)
    ensures Total(s, NetFlowColumn) == Total(s, IncomeColumn) - Total(s, ExpenseColumn)
  {
    if s != [] {
      var init := s[..|s| - 1];
      assert NetFlowsDerived(init) by {
        forall i | 0 <= i < |init| ensures init[i].netFlow == init[i].income - init[i].expense {
          assert init[i] == s[i];
        }
      }
      NetFlowTotal(init);
    }
  }

  /** Records with all amounts zero add up to zero. */
  lemma {:induction false} ZeroTotal(s: seq<FinancialData>, c: Column)
    requires forall i :: 0 <= i < |s| ==> s[i] == ZeroRecord
    ensures Total(s, c) == 0.0
  {
    if s != [] {
      ZeroTotal(s[..|s| - 1], c);
    }
  }

  /** Growth trend: rising above 110 % of the historical income, falling
      below 90 %, stable otherwise; the rising test is made first. */
  function GrowthTrend(histIncome: real, predIncome: real): (t: string)
    ensures t == TrendRising <==> predIncome > histIncome * 1.1
    ensures t == TrendFalling <==> !(predIncome > histIncome * 1.1) && predIncome < histIncome * 0.9
    ensures t == TrendStable <==> histIncome * 0.9 <= predIncome <= histIncome * 1.1
  {
    if predIncome > histIncome * 1.1 then TrendRising
    else if predIncome < histIncome * 0.9 then TrendFalling
    else TrendStable
  }

  /** For a non-negative historical income the two tests cannot both hold,
      so the trend is falling exactly when the forecast is below 90 %. */
  lemma FallingBelowNinetyPercent(histIncome: real, predIncome: real)
    requires histIncome >= 0.0
    ensures GrowthTrend(histIncome, predIncome) == TrendFalling <==> predIncome < histIncome * 0.9
  {
  }

  /** Risk level: high for a negative forecast net flow, low when it exceeds
      120 % of the historical net flow, medium otherwise. */
  function RiskLevel(histNetFlow: real, predNetFlow: real): (r: string)
    ensures r == RiskHigh <==> predNetFlow < 0.0
    ensures r == RiskLow <==> 0.0 <= predNetFlow && predNetFlow > histNetFlow * 1.2
    ensures r == RiskMedium <==> 0.0 <= predNetFlow <= histNetFlow * 1.2
  {
    if predNetFlow < 0.0 then RiskHigh
    else if predNetFlow > histNetFlow * 1.2 then RiskLow
    else RiskMedium
  }

  /** Cash-flow health compares the forecast's monthly net flow (the total
      over 6) with 150 % of the history's monthly net flow. With no history
      main.go divides the empty total 0 by 0; the quotient is NaN and the
      comparison is false, so the health is never strong. */
  function CashFlowHealth(historical: seq<FinancialData>, predNetFlow: real): (h: string)
    ensures h == HealthRisk <==> predNetFlow / 6.0 < 0.0
    ensures h == HealthStrong <==>
              predNetFlow / 6.0 >= 0.0 && historical != [] &&
              predNetFlow / 6.0 > Total(historical, NetFlowColumn) / (|historical| as real) * 1.5
    ensures historical == [] ==> h != HealthStrong
  {
    var avgNetFlow := predNetFlow / 6.0;
    if avgNetFlow < 0.0 then HealthRisk
    else if historical != [] && avgNetFlow > Total(historical, NetFlowColumn) / (|historical| as real) * 1.5 then HealthStrong
    else HealthNormal
  }

  /** The risk level is high exactly when the health is at risk: both test
      the sign of the forecast net flow. */
  lemma HighRiskIffRiskHealth(historical: seq<FinancialData>, predNetFlow: real)
    ensures RiskLevel(Total(historical, NetFlowColumn), predNetFlow) == RiskHigh <==>
            CashFlowHealth(historical, predNetFlow) == HealthRisk
  {
  }

  /** The fallback line differs from every line a rule can add. */
  lemma AdviceDistinct()
    ensures FallbackAdvice !in UrgentAdvice && FallbackAdvice !in DeclineAdvice
    ensures FallbackAdvice !in GrowthAdvice && FallbackAdvice != ProfitSharingAdvice
  {
  }

  /** The advice list: the urgent, decline and growth blocks and the
      profit-sharing line, each when its rule fires and in that order, or the
      fallback line alone when none fires. */
  function Recommendations(growth: string, risk: string, health: string, netFlow: real): (r: seq<string>)
    ensures r != []
    ensures FallbackAdvice in r <==> r == [FallbackAdvice]
    ensures r == [FallbackAdvice] ==>
              risk != RiskHigh && growth != TrendFalling && health != HealthStrong && !(netFlow > 0.0)
    ensures risk != RiskHigh && growth != TrendFalling && health != HealthStrong && !(netFlow > 0.0) ==>
              r == [FallbackAdvice]
  {
    AdviceDistinct();
    var fired := (if risk == RiskHigh then UrgentAdvice else [])
               + (if growth == TrendFalling then DeclineAdvice else [])
               + (if health == HealthStrong then GrowthAdvice else [])
               + (if netFlow > 0.0 then [ProfitSharingAdvice] else []);
    if fired == [] then [FallbackAdvice] else fired
  }

  /** Three lines per fired block, one for profit sharing, one for the fallback. */
  lemma RecommendationCount(growth: string, risk: string, health: string, netFlow: real)
    ensures var fired := (if risk == RiskHigh then 3 else 0) + (if growth == TrendFalling then 3 else 0)
                       + (if health == HealthStrong then 3 else 0) + (if netFlow > 0.0 then 1 else 0);
            |Recommendations(growth, risk, health, netFlow)| == if fired == 0 then 1 else fired
  {
  }

  /** generateRecommendations, appending line by line. */
  method GenerateRecommendations(growth: string, risk: string, health: string, netFlow: real)
    returns (recommendations: seq<string>)
    ensures recommendations == Recommendations(growth, risk, health, netFlow)
  {
    recommendations := [];
    if risk == RiskHigh {
      recommendations := recommendations + [UrgentAdvice[0]];
      recommendations := recommendations + [UrgentAdvice[1]];
      recommendations := recommendations + [UrgentAdvice[2]];
    }
    ghost var urgent := recommendations;
    assert urgent == if risk == RiskHigh then UrgentAdvice else [];
    if growth == TrendFalling {
      recommendations := recommendations + [DeclineAdvice[0]];
      recommendations := recommendations + [DeclineAdvice[1]];
      recommendations := recommendations + [DeclineAdvice[2]];
    }
    assert recommendations == urgent + if growth == TrendFalling then DeclineAdvice else [];
    ghost var decline := recommendations;
    if health == HealthStrong {
      recommendations := recommendations + [GrowthAdvice[0]];
      recommendations := recommendations + [GrowthAdvice[1]];
      recommendations := recommendations + [GrowthAdvice[2]];
    }
    assert recommendations == decline + if health == HealthStrong then GrowthAdvice else [];
    if netFlow > 0.0 {
      recommendations := recommendations + [ProfitSharingAdvice];
    }
    if |recommendations| == 0 {
      recommendations := recommendations + [FallbackAdvice];
    }
  }

  /** Reference definition of the summary: totals rounded to cents, labels
      and advice computed from the unrounded totals. */
  function Summarize(historical: seq<FinancialData>, predicted: seq<FinancialData>): (s: AnalysisSummary)
    ensures -0.005 <= s.totalHistoricalIncome - Total(historical, IncomeColumn) <= 0.005
    ensures -0.005 <= s.totalHistoricalExpense - Total(historical, ExpenseColumn) <= 0.005
    ensures -0.005 <= s.totalHistoricalNetFlow - Total(historical, NetFlowColumn) <= 0.005
    ensures -0.005 <= s.predictedTotalIncome - Total(predicted, IncomeColumn) <= 0.005
    ensures -0.005 <= s.predictedTotalExpense - Total(predicted, ExpenseColumn) <= 0.005
    ensures -0.005 <= s.predictedTotalNetFlow - Total(predicted, NetFlowColumn) <= 0.005
    ensures s.riskLevel == RiskHigh <==> Total(predicted, NetFlowColumn) < 0.0
    ensures s.cashFlowHealth == HealthRisk <==> Total(predicted, NetFlowColumn) < 0.0
    ensures s.growthTrend == TrendRising <==> Total(predicted, IncomeColumn) > Total(historical, IncomeColumn) * 1.1
    ensures s.recommendations != []
  {
    var histIncome, histExpense, histNetFlow :=
      Total(historical, IncomeColumn), Total(historical, ExpenseColumn), Total(historical, NetFlowColumn);
    var predIncome, predExpense, predNetFlow :=
      Total(predicted, IncomeColumn), Total(predicted, ExpenseColumn), Total(predicted, NetFlowColumn);
    var growthTrend := GrowthTrend(histIncome, predIncome);
    var riskLevel := RiskLevel(histNetFlow, predNetFlow);
    var cashFlowHealth := CashFlowHealth(historical, predNetFlow);
    AnalysisSummary(
      Round2(histIncome), Round2(histExpense), Round2(histNetFlow),
      Round2(predIncome), Round2(predExpense), Round2(predNetFlow),
      growthTrend, riskLevel, cashFlowHealth,
      Recommendations(growthTrend, riskLevel, cashFlowHealth, predNetFlow))
  }

  /** Running totals of the three columns over a prefix. */
  method SumColumns(records: seq<FinancialData>) returns (income: real, expense: real, netFlow: real)
    ensures income == Total(records, IncomeColumn)
    ensures expense == Total(records, ExpenseColumn)
    ensures netFlow == Total(records, NetFlowColumn)
  {
    income, expense, netFlow := 0.0, 0.0, 0.0;
    for i := 0 to |records|
      invariant income == Total(records[..i], IncomeColumn)
      invariant expense == Total(records[..i], ExpenseColumn)
      invariant netFlow == Total(records[..i], NetFlowColumn)
    {
      assert records[..i + 1][..i] == records[..i];
      income := income + records[i].income;
      expense := expense + records[i].expense;
      netFlow := netFlow + records[i].netFlow;
    }
    assert records[..|records|] == records;
  }

  /** generateSummary: sums both lists, sets the labels by conditional
      reassignment and asks for the advice. */
  method GenerateSummary(historical: seq<FinancialData>, predicted: seq<FinancialData>) returns (s: AnalysisSummary)
    ensures s == Summarize(historical, predicted)
  {
    var histIncome, histExpense, histNetFlow := SumColumns(historical);
    var predIncome, predExpense, predNetFlow := SumColumns(predicted);

    var growthTrend := TrendStable;
    if predIncome > histIncome * 1.1 {
      growthTrend := TrendRising;
    } else if predIncome < histIncome * 0.9 {
      growthTrend := TrendFalling;
    }

    var riskLevel := RiskMedium;
    if predNetFlow < 0.0 {
      riskLevel := RiskHigh;
    } else if predNetFlow > histNetFlow * 1.2 {
      riskLevel := RiskLow;
    }

    var cashFlowHealth := HealthNormal;
    var avgNetFlow := predNetFlow / 6.0;
    if avgNetFlow < 0.0 {
      cashFlowHealth := HealthRisk;
    } else if |historical| > 0 && avgNetFlow > histNetFlow / (|historical| as real) * 1.5 {
      // With no history main.go compares with 0/0, which is false.
      cashFlowHealth := HealthStrong;
    }

    var recommendations := GenerateRecommendations(growthTrend, riskLevel, cashFlowHealth, predNetFlow);

    s := AnalysisSummary(
      Round2(histIncome), Round2(histExpense), Round2(histNetFlow),
      Round2(predIncome), Round2(predExpense), Round2(predNetFlow),
      growthTrend, riskLevel, cashFlowHealth, recommendations);
  }

  /** A summary at high risk never advises profit sharing or investment: its
      advice is the urgent block, followed by the decline block when the
      trend is falling. */
  lemma HighRiskAdvice(historical: seq<FinancialData>, predicted: seq<FinancialData>)
    requires Summarize(historical, predicted).riskLevel == RiskHigh
    ensures var s := Summarize(historical, predicted);
            s.recommendations == UrgentAdvice + (if s.growthTrend == TrendFalling then DeclineAdvice else [])
  {
    var s := Summarize(historical, predicted);
    HighRiskIffRiskHealth(historical, Total(predicted, NetFlowColumn));
    assert s.cashFlowHealth == HealthRisk;
  }

  /** The history of the sample request in test.go: March to August. */
  const SampleHistory: seq<FinancialData> := [
    FinancialData("Mart", 450000.0, 380000.0, 70000.0),
    FinancialData("Nisan", 420000.0, 350000.0, 70000.0),
    FinancialData("Mayıs", 480000.0, 400000.0, 80000.0),
    FinancialData("Haziran", 550000.0, 440000.0, 110000.0),
    FinancialData("Temmuz", 600000.0, 480000.0, 120000.0),
    FinancialData("Ağustos", 580000.0, 460000.0, 120000.0)]

  /** Its totals are 3,080,000 income, 2,510,000 expense and 570,000 net flow. */
  lemma SampleTotals()
    ensures var h := SampleHistory;
            Total(h, IncomeColumn) == 3080000.0 &&
            Total(h, ExpenseColumn) == 2510000.0 &&
            Total(h, NetFlowColumn) == 570000.0
  {
    var h := SampleHistory;
    assert [] + [h[0]] == h[..1];
    TotalSnoc([], h[0]);
    assert h[..1] + [h[1]] == h[..2];
    TotalSnoc(h[..1], h[1]);
    assert h[..2] + [h[2]] == h[..3];
    TotalSnoc(h[..2], h[2]);
    assert h[..3] + [h[3]] == h[..4];
    TotalSnoc(h[..3], h[3]);
    assert h[..4] + [h[4]] == h[..5];
    TotalSnoc(h[..4], h[4]);
    assert h[..5] + [h[5]] == h;
    TotalSnoc(h[..5], h[5]);
  }
}
