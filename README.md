# Cash-flow forecasting engine, modelled in Dafny

The service is a small Go HTTP server. It receives a company's monthly
income and expense history and answers with a financial analysis. The
analysis has three parts:

- a six-month forecast, in which each month's income and expense is grown
  from the last known month;
- seasonal factors, which are learned from the history once a full year is
  present;
- a summary, which holds totals, three threshold labels (growth trend, risk
  level, cash-flow health) and an ordered list of Turkish recommendations.

This project models the engine behind that answer: the `FinancialAnalyzer`
methods of `main.go` and the records they exchange.

| file | module | models |
|---|---|---|
| `records.dfy` | `Records` | `FinancialData`, `CompanyProfile`, `AnalysisSummary`, `AnalysisRequest`, `FinancialAnalysis` |
| `calendar.dfy` | `Calendar` | the Turkish month list, `getMonthIndex`, `getMonthName`, and Go's `AddDate(0, k, 0)` on the clock's date |
| `numeric.dfy` | `Numeric` | `math.Pow` with a whole exponent, and `math.Round(x*100)/100` (rounding half away from zero) |
| `growth.dfy` | `Growth` | `calculateGrowthRate` |
| `seasonal.dfy` | `Seasonal` | `getSeasonalFactors` |
| `forecast.dfy` | `Forecast` | `PredictNext6Months` |
| `summary.dfy` | `Summary` | `generateSummary`, `generateRecommendations` |
| `analysis.dfy` | `Analysis` | `GenerateAnalysis` |

Each loop of the Go code is a Dafny `method` with the same loop. Each method
is proved equal to a reference function (`GrowthRate`, `SeasonalFactors`,
`Forecast`, `Summarize`, `Recommendations`, `Analyze`), and the properties
the code promises are proved about those functions. The seasonal accumulators
(`monthlyAvgs`, `monthlyCounts` and the factor table) are arrays filled in
place, as in the source. Amounts are `real`s. The current time is an explicit
`now: Date` parameter.

Facts about the code that are easy to misread:

- The sample history in `test.go` has totals of 3,080,000 income, 2,510,000
  expense and 570,000 net flow (`Summary.SampleTotals`).
- A forecast record's net flow is rounded from the unrounded income minus
  the unrounded expense, not computed from the two rounded amounts.
- `generateSummary` does not need a non-empty history. With none, it
  compares against 0/0 (NaN), and that comparison is false.

## Model

| member | source | states |
|---|---|---|
| `Calendar.MonthsDistinct` | main.go:199-202 | the month list has twelve names, no two equal |
| `Calendar.MonthIndexFinds` | main.go:198-210 | the lookup gives -1 exactly when the name is not in the list; otherwise it gives the position of the one entry equal to the name |
| `Calendar.GetMonthIndex` | main.go:198-210 | the linear search gives -1 exactly for an unknown name; otherwise it gives an index in 0..11 holding the name, with no earlier entry equal to it |
| `Calendar.MonthIndex` | main.go:198-210 | the reference lookup gives -1 or an index in 0..11 |
| `Calendar.AddMonths` | main.go:97 | moving k months forward gives a valid date in the target year; it stays in the target month with the same day exactly when the day exists there, and otherwise spills into the following month (day 1..3), whose day is the excess over the target month's length; a day up to 28 keeps day and target month |
| `Calendar.AddMonthsSpillsOver` | main.go:97 | January 31 plus one month is March 3, as Go normalises it |
| `Calendar.MonthName` | main.go:213-219 | the name of a date is in the month list and looks up to that date's month minus one (round trip with `getMonthIndex`) |
| `Numeric.Pow` | main.go:88-89 | a growth factor of 1 (a zero rate) leaves every power at 1; a factor of 0 (a rate of -100 %) makes every positive power 0 |
| `Numeric.PowPositive` | main.go:88-89 | a positive growth factor raised to any whole power stays positive |
| `Numeric.RoundHalfAway` | main.go:98-100 | `math.Round` lands within one half of its argument and keeps its sign; a tie goes away from zero |
| `Numeric.Round2` | main.go:98-100 | rounding to cents gives a whole number of cents, moves the amount by at most half a cent and keeps its sign |
| `Numeric.Round2Idempotent` | main.go:98-100 | rounding an amount already rounded to cents changes nothing |
| `Numeric.Round2OfWhole` | main.go:98-100 | a whole amount is left unchanged by rounding to cents |
| `Growth.GrowthRate` | main.go:108-148 | the rate lies in [-0.20, 0.30]; it is 0.02 with fewer than two records or with no period whose previous value is positive; otherwise it is the average period growth, returned unchanged when inside the range and capped at the bound it crosses |
| `Growth.CalculateGrowthRate` | main.go:108-148 | the loop's result is the reference rate and lies in [-0.20, 0.30] |
| `Growth.NoValidPeriodIff` | main.go:116-136 | no period counts exactly when no previous value among the first n records is positive |
| `Growth.DefaultWithoutPositivePrevious` | main.go:127-136 | a history with no positive previous value gets the default rate 0.02 |
| `Growth.GeometricPrefix` | main.go:116-131 | in a positive series that grows by 1+g every month, every period counts and the growth sum is g per period |
| `Growth.GeometricSeriesRate` | main.go:116-147 | a series growing by the same factor 1+g every month gets the rate g, clamped to [-0.20, 0.30] |
| `Seasonal.SeasonalFactors` | main.go:151-195 | the table has 12 factors; with fewer than 12 records it is the default table; a month with no recognised record keeps its default factor |
| `Seasonal.PrefixStep` | main.go:164-170 | one more record adds its income and a count of one to its own month only |
| `Seasonal.AccumulateByMonth` | main.go:161-170 | the fresh 12-entry arrays hold each month's income sum and record count |
| `Seasonal.AverageByMonth` | main.go:172-181 | each observed month's sum becomes its average; the loop returns the sum of those averages and the number of observed months |
| `Seasonal.GetSeasonalFactors` | main.go:151-195 | the table filled in place equals the reference table, with 12 entries |
| `Seasonal.UniformIncomeGivesUnitFactors` | main.go:164-190 | with 12 or more records of one positive income, every observed month's factor is exactly 1.0 |
| `Seasonal.FactorsNonNegative` | main.go:164-190 | non-negative incomes give non-negative factors |
| `Seasonal.GoDivide` | main.go:188 | Go's float division is non-finite exactly when the divisor is zero |
| `Seasonal.SeasonalFactorsAsWritten` | main.go:151-195 | the table as main.go computes it, with non-finite entries where it divides by a zero mean, has 12 entries |
| `Seasonal.RecordedMonthObserved` | main.go:164-170 | the month of any record is counted at least once |
| `Seasonal.ZeroIncomesGiveNonFiniteFactor` | main.go:183-190 | 12 or more records with zero income make main.go's factor of any recorded month non-finite (0/0) |
| `Seasonal.ZeroIncomeJanuariesGiveNonFiniteFactor` | main.go:183-190 | twelve January records with no income give a non-finite January factor in main.go's table |
| `Seasonal.CorrectedAgreesWhereFinite` | main.go:183-190 | the corrected table equals main.go's wherever main.go's entry is finite, and keeps the default where it is not |
| `Forecast.Volatility` | main.go:92-94 | the volatility multiplier stays within [0.95, 1.05] |
| `Forecast.SeasonalIndex` | main.go:84-85 | step i reads the factor at (history length + i) mod 12, always an index in 0..11 |
| `Forecast.ProjectedIncome` | main.go:88-93 | with a zero rate the income is the base times the seasonal factor and the volatility; a zero base, a zero factor or a rate of -100 % gives zero |
| `Forecast.ProjectedExpense` | main.go:89-94 | with a zero rate the expense is the base times the inverse volatility; a zero base or a rate of -100 % gives zero |
| `Forecast.Prediction` | main.go:84-101 | a forecast record is labelled with a Turkish month name, and a zero last income or expense gives a zero forecast income or expense |
| `Forecast.Rounded` | main.go:96-101 | each amount of a forecast record is within half a cent of the unrounded income, expense and their difference |
| `Forecast.Forecast` | main.go:64-69 | the forecast always has 6 records; an empty history gives 6 zero records |
| `Forecast.PredictNext6Months` | main.go:64-105 | the records written into the 6-slot table are the reference forecast |
| `Forecast.PredictionNetFlowWithinRounding` | main.go:98-100 | a forecast record's net flow is its income minus its expense to within 1.5 cents |
| `Forecast.ProjectionsNonNegative` | main.go:88-94 | growing and adjusting a non-negative base by a rate above -1 gives a non-negative amount |
| `Forecast.PredictionNonNegative` | main.go:72-101 | a history with non-negative amounts gets a forecast with non-negative income and expense |
| `Forecast.PredictionLabel` | main.go:97 | when today's day is at most 28, step i is labelled with the calendar month i+1 months after today |
| `Summary.TotalSnoc` | main.go:240-250 | adding one record to a list adds its amounts to each column total |
| `Summary.NetFlowTotal` | main.go:240-244 | when every net flow is income minus expense, the net-flow total is the income total minus the expense total |
| `Summary.ZeroTotal` | main.go:246-250 | all-zero records total zero in every column |
| `Summary.GrowthTrend` | main.go:253-259 | the trend is rising exactly above 110 % of the historical income, falling exactly below 90 % when not rising, and stable exactly within the two bounds |
| `Summary.FallingBelowNinetyPercent` | main.go:253-259 | for a non-negative historical income, the trend is falling exactly when the forecast income is below 90 % of it |
| `Summary.RiskLevel` | main.go:261-266 | the risk is high exactly for a negative forecast net flow, low exactly when non-negative and above 120 % of the historical net flow, and medium otherwise |
| `Summary.CashFlowHealth` | main.go:268-274 | the health is at risk exactly when the forecast's monthly net flow is negative; it is strong exactly when that flow is non-negative, the history is non-empty, and the flow is above 150 % of the history's monthly net flow; it is never strong with no history |
| `Summary.HighRiskIffRiskHealth` | main.go:261-274 | the risk level is high exactly when the cash-flow health is at risk |
| `Summary.AdviceDistinct` | main.go:294-324 | the fallback line differs from every line a rule adds |
| `Summary.Recommendations` | main.go:294-324 | the advice is never empty; it is exactly the single fallback line when no rule fires; the fallback line appears only alone |
| `Summary.RecommendationCount` | main.go:294-324 | the advice has three lines per fired block and one for profit sharing, or the single fallback line |
| `Summary.GenerateRecommendations` | main.go:294-324 | the list appended line by line is the reference advice |
| `Summary.Summarize` | main.go:235-291 | every reported total is within half a cent of its column's sum; the risk is high and the health at risk exactly when the forecast net flow is negative; the trend is rising exactly when the forecast income exceeds 110 % of the historical income; the advice is non-empty |
| `Summary.SumColumns` | main.go:240-250 | the running sums are the three column totals |
| `Summary.GenerateSummary` | main.go:235-291 | the summary built by the loops and the conditional reassignments is the reference summary |
| `Summary.HighRiskAdvice` | main.go:261-324 | a high-risk summary advises the urgent block, followed by the decline block when the trend is falling, and never profit sharing or investment |
| `Summary.SampleTotals` | test.go:57-63 | the sample history totals 3,080,000 income, 2,510,000 expense and 570,000 net flow |
| `Analysis.Analyze` | main.go:222-233 | the analysis passes the company and the history through, carries 6 predictions, and is high-risk exactly when their net flows sum below zero |
| `Analysis.GenerateAnalysis` | main.go:222-233 | the analysis composed from the two methods is the reference analysis |
| `Analysis.EmptyHistoryAnalysis` | main.go:222-324 | an empty history gives 6 zero records, zero totals, a stable trend, medium risk, normal health and only the fallback advice |
| `Analysis.HistoricalTotalsConsistent` | main.go:366-368 | once the handler has recomputed every net flow, the reported historical net-flow total matches income minus expense to within 1.5 cents |

## Left out

- The HTTP layer is not modelled: `corsMiddleware`, `analyzeHandler`, `healthHandler`, `homeHandler`, `main` and JSON encoding are I/O. The handler's net-flow recomputation becomes the `NetFlowsDerived` precondition of `Analysis.HistoricalTotalsConsistent`.
- `test.go` is a manual HTTP client that checks nothing. Only its sample history is used, in `Summary.SampleTotals`.
- `CreatedAt` and `time.Now()` are not modelled. The clock is the `now` parameter, and `FinancialAnalysis` has no timestamp. Time zones and Go's year range are not modelled.
- IEEE-754 arithmetic is not modelled: amounts are exact reals, and `math.Pow` is exact repeated multiplication. Float rounding during accumulation, overflow and infinities are not captured. Two exceptions are modelled explicitly: the seasonal division by a zero mean (see Findings), and the 0/0 comparison against an empty history in `Summary.CashFlowHealth` (main.go:272), which is false.
- `Seasonal.GetSeasonalFactors` implements the corrected guard (the mean must be non-zero). The Go behaviour appears only as the function `Seasonal.SeasonalFactorsAsWritten`, not as a second method. The guard also changes `Forecast.Forecast`, `Forecast.PredictNext6Months` and `Analysis.Analyze` for such a history. Go computes NaN forecast amounts, and the handler then answers with HTTP 500 (main.go:373-375). The model gives finite amounts from the default factors.
- The volatility comment in the source mentions a random factor, but the code is deterministic, and the model follows the code.

## Findings

| source | as written | input that shows it | evidently intended | confidence | as-written member | corrected member |
|---|---|---|---|---|---|---|
| main.go:183-190 | divides each observed month's average income by the mean of the observed months' averages after checking only that some month is observed | 12 records named "Ocak" with income 0 and expense 100: the mean is 0 and the January factor is 0/0 (NaN), which `json.Encoder` refuses to encode | keep the default factor when the mean is zero, so the table stays finite | not executed | `Seasonal.ZeroIncomeJanuariesGiveNonFiniteFactor` | `Seasonal.GetSeasonalFactors` |
