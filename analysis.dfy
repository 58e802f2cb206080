/** GenerateAnalysis: the forecast and its summary, bundled with the request. */
module Analysis {
  import opened Records
  import opened Numeric
  import opened Calendar
  import opened Forecast
  import opened Summary

  /** Reference definition of an analysis made at time `now`. */
  function Analyze(req: AnalysisRequest, now: Date): (a: FinancialAnalysis)
    requires ValidDate(now)
    ensures a.company == req.company && a.historicalData == req.historicalData
    ensures |a.predictions| == ForecastMonths
    ensures a.summary.riskLevel == RiskHigh <==> Total(a.predictions, NetFlowColumn) < 0.0
  {
    var predictions := Forecast.Forecast(req.historicalData, now);
    FinancialAnalysis(req.company, req.historicalData, predictions, Summarize(req.historicalData, predictions))
  }

  /** GenerateAnalysis, with the wall clock passed in as `now` and without
      the creation timestamp. */
  method GenerateAnalysis(req: AnalysisRequest, now: Date) returns (a: FinancialAnalysis)
    requires ValidDate(now)
    ensures a == Analyze(req, now)
  {
    var predictions := PredictNext6Months(req.historicalData, now);
    var summary := GenerateSummary(req.historicalData, predictions);
    a := FinancialAnalysis(req.company, req.historicalData, predictions, summary);
  }

  /** An empty history gives six zero records and a neutral summary: zero
      totals, a stable trend, medium risk, normal health and only the
      fallback advice. */
  lemma EmptyHistoryAnalysis(company: CompanyProfile, now: Date)
    requires ValidDate(now)
    ensures var a := Analyze(AnalysisRequest(company, []), now);
            (forall i :: 0 <= i < |a.predictions| ==> a.predictions[i] == ZeroRecord) &&
            a.summary == AnalysisSummary(0.0, 0.0, 0.0, 0.0, 0.0, 0.0,
                                         TrendStable, RiskMedium, HealthNormal, [FallbackAdvice])
  {
    var predictions := Forecast.Forecast([], now);
    ZeroTotal(predictions, IncomeColumn);
    ZeroTotal(predictions, ExpenseColumn);
    ZeroTotal(predictions, NetFlowColumn);
    Round2OfWhole(0);
  }

  /** Once every historical net flow is income minus expense (as the HTTP
      handler ensures), the reported historical net-flow total matches the
      reported income and expense totals to within three roundings to cents. */
  lemma HistoricalTotalsConsistent(req: AnalysisRequest, now: Date)
    requires ValidDate(now) && NetFlowsDerived(req.historicalData)
    ensures var s := Analyze(req, now).summary;
            -0.015 <= s.totalHistoricalNetFlow - (s.totalHistoricalIncome - s.totalHistoricalExpense) <= 0.015
  {
    NetFlowTotal(req.historicalData);
  }
}
