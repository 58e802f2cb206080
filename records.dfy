/** The records the analyzer reads and produces (main.go's FinancialData,
    CompanyProfile, AnalysisSummary, FinancialAnalysis and AnalysisRequest). */
module Records {

  /** One month of income and expense; `netFlow` is income minus expense. */
  datatype FinancialData = FinancialData(month: string, income: real, expense: real, netFlow: real)

  /** Go's zero value of FinancialData. */
  const ZeroRecord := FinancialData("", 0.0, 0.0, 0.0)

  /** Passed through unchanged; the forecast never reads it. */
  datatype CompanyProfile = CompanyProfile(
    id: string, name: string, sector: string,
    monthlyAvgIncome: real, monthlyAvgExpense: real)

  datatype AnalysisSummary = AnalysisSummary(
    totalHistoricalIncome: real,
    totalHistoricalExpense: real,
    totalHistoricalNetFlow: real,
    predictedTotalIncome: real,
    predictedTotalExpense: real,
    predictedTotalNetFlow: real,
    growthTrend: string,
    riskLevel: string,
    cashFlowHealth: string,
    recommendations: seq<string>)

  datatype AnalysisRequest = AnalysisRequest(company: CompanyProfile, historicalData: seq<FinancialData>)

  /** The analysis without its creation timestamp. */
  datatype FinancialAnalysis = FinancialAnalysis(
    company: CompanyProfile,
    historicalData: seq<FinancialData>,
    predictions: seq<FinancialData>,
    summary: AnalysisSummary)

  /** What the HTTP handler establishes before analysing: every net flow is
      recomputed from its income and expense. */
  predicate NetFlowsDerived(data: seq<FinancialData>)
  {
    forall i :: 0 <= i < |data| ==> data[i].netFlow == data[i].income - data[i].expense
  }
}
