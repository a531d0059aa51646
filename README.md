# CrashGuard core, modelled in Dafny

CrashGuard computes a daily Crash Risk Index (CRI) and classifies it into one
of four states: GREEN, YELLOW, ORANGE and RED.

- Each of eight macro and market indicators gets a score from its band table.
  The indicators are the Shiller P/E, the Buffett indicator, the unemployment
  change, CPI, GDP, the yield curve, the VIX and margin debt.
- The scores are combined by a weighted sum.
- A velocity boost is added when the index rose quickly over the last seven
  runs.
- A confluence boost is added when enough hard triggers fired.
- The result is classified against three thresholds.

A separate analyzer checks each ticker's daily closes for four technical
alerts:

- a drawdown from the 20-day high;
- a fall below the 50-day mean;
- a bearish 20/50 cross;
- a gap down.

The daily job appends each run's row to a history and keeps the last 365 rows.

The project has four modules:

- `Wrappers` (wrappers.dfy) holds the `Option` type, which stands for Python's
  `None` versus a present value.
- `Scoring` (scoring.dfy) is the scoring engine.
  - The band lookup, the velocity maximum and the trigger list are methods
    with loops and appends, as in the source.
  - Each method is proved equal to a specification function (`BandScoreOf`,
    `BoostOver`, `Triggers`, `ScoreOf`), and the lemmas are about those
    functions.
- `Stocks` (stocks.dfy) is the per-ticker analyzer.
  - A ticker's download is abstracted to a `Download`: no data, an exception,
    or the sequence of closes after `dropna`.
  - `AnalyzeTicker` appends signals check by check and is proved equal to the
    function `Analyze`.
  - `AnalyzeUniverse` is the loop with per-ticker exception capture.
- `Run` (run.dfy) is the history rule of one job run: load, score, append,
  and keep the last 365 rows.

Numbers are exact reals.

Two behaviours of the code are easy to misread:

- **The state is classified on the unrounded total.** Only the reported
  `cri` is rounded (crashguard/scoring.py:52-53), so a reported CRI equal to
  the RED threshold can come with the state ORANGE. `RoundedCriAtRedCanBeOrange`
  exhibits this: a total of 2.999 is reported as 3.0 but classified ORANGE
  against a RED threshold of 3.0.
- **A value below the first band takes the LAST band's score, not the
  first's.** The fallback (crashguard/scoring.py:17) returns the last band's
  score for any value that no band contains (`BelowFirstBandTakesLast`).

## Model

| member | source | states |
|---|---|---|
| Scoring.FirstMatch | crashguard/scoring.py:13-16 | The index found is a band that contains the value, and no earlier band contains it; it is the list length when no band does |
| Scoring.BandScore | crashguard/scoring.py:11-17 | The early-return linear search returns the first matching band's score, or the last band's score when nothing matches |
| Scoring.BandScoreFirstMatch | crashguard/scoring.py:13-16 | The first band in list order with lo <= v < hi decides the score |
| Scoring.BandScoreFallback | crashguard/scoring.py:17 | A value that no band contains gets the last band's score |
| Scoring.UpperBoundExcluded | crashguard/scoring.py:15 | A value equal to a band's upper bound is never matched by that band |
| Scoring.BoundaryGoesToUpperBand | crashguard/scoring.py:13-16 | In a table of bands laid end to end, a shared boundary is scored by the band it opens |
| Scoring.BelowFirstBandTakesLast | crashguard/scoring.py:17 | In such a table, a value below the first lower bound gets the LAST band's score |
| Scoring.AboveLastBandTakesLast | crashguard/scoring.py:17 | In such a table, a value at or above the last upper bound gets the last band's score |
| Scoring.ClassifyReachesIffClears | crashguard/scoring.py:20-24 | With yellow <= orange <= red, the state reached is at least s exactly when cri clears s's threshold |
| Scoring.ClassifyMonotone | crashguard/scoring.py:20-24 | With ordered thresholds, a larger CRI never gets a lower state |
| Scoring.ClassifyOrder | crashguard/scoring.py:20-24 | The state is RED iff cri >= red; ORANGE iff below red and at least orange; YELLOW iff below both and at least yellow; GREEN otherwise |
| Scoring.RawCriExpanded | crashguard/scoring.py:38 | The raw CRI is exactly the sum of scores[k]*w[k] over the eight score keys, with no normalisation |
| Scoring.WeightedSumIgnoresOtherWeights | crashguard/scoring.py:38 | Weights outside the score keys have no effect on the sum |
| Scoring.WeightedSumScales | crashguard/scoring.py:38 | Scaling every weight by c scales the sum by c, so the weights are not normalised |
| Scoring.ScoresOf | crashguard/scoring.py:28-37 | The score mapping has a value under each of the eight score keys |
| Scoring.ScoresReadOwnInput | crashguard/scoring.py:28-37 | Each score is the band score of its own indicator's input in its own table: unemp reads unemp_yoy, cpi reads cpi_yoy, gdp reads gdp_qoq_annualized, curve reads curve_bps, margin reads margin_z |
| Scoring.ScoreDependsOnOwnInputOnly | crashguard/scoring.py:28-37 | Inputs that agree on unemp_yoy give the same unemp score, whatever the other inputs are |
| Scoring.ScoreIndicators | crashguard/scoring.py:28-37 | The eight band lookups produce the score mapping, each one reading the input with the matching key |
| Scoring.BoostOver | crashguard/scoring.py:42-43 | The velocity maximum is >= 0 and >= every amount whose threshold the change meets, and it is 0 or one of those amounts |
| Scoring.VelocityBoost | crashguard/scoring.py:39-43 | The velocity boost is >= 0, and it is 0 without a history or with fewer than seven past values |
| Scoring.BoostOverMonotone | crashguard/scoring.py:42-43 | A larger seven-run change never yields a smaller velocity boost |
| Scoring.BoostOverTopThreshold | crashguard/scoring.py:42-43 | For a table whose amounts rise with its thresholds, a change meeting the highest threshold gets that threshold's amount |
| Scoring.VelocityMax | crashguard/scoring.py:42-43 | The loop over the velocity table computes the running maximum from 0 over the amounts whose threshold delta7 meets |
| Scoring.VelocityStep | crashguard/scoring.py:39-43 | The velocity block gives no boost without seven past values; otherwise it takes the maximum over the table for delta7 = raw - history[-7] |
| Scoring.FireTriggers | crashguard/scoring.py:45-49 | The four trigger tests append the fired trigger names to the trigger list |
| Scoring.FiredAmongExact | crashguard/scoring.py:46-49 | Filtering names by their rules keeps exactly the fired names, at most as many as were given, and keeps them distinct |
| Scoring.TriggersInOrder | crashguard/scoring.py:46-49 | The trigger list is the fired rules in the fixed order curve_inverted, vix_gt_30, shiller_gt_35, buffett_gt_180 |
| Scoring.TriggersExact | crashguard/scoring.py:46-49 | The trigger list holds exactly the fired rules, each once, at most four, and depends on the inputs alone |
| Scoring.CountPresent | crashguard/scoring.py:50 | The hard-trigger count never exceeds the number of configured hard triggers |
| Scoring.CountPresentAppend | crashguard/scoring.py:50 | The count over a concatenated hard-trigger list is the sum of the counts of its parts |
| Scoring.CountPresentAll | crashguard/scoring.py:50 | When every configured hard trigger fired, each entry counts, duplicates included |
| Scoring.CountPresentMonotone | crashguard/scoring.py:50 | Firing more triggers never lowers the count |
| Scoring.ConfluenceBoostBinary | crashguard/scoring.py:45-50 | The confluence boost is 0 or exactly the configured amount, and firing more triggers never withdraws it |
| Scoring.AllFourTriggersEscalate | crashguard/scoring.py:46-50 | When all four rules fire and all four are hard triggers, the boost is applied |
| Scoring.RepeatedHardTriggerCountsEachTime | crashguard/scoring.py:50 | A hard trigger listed three times counts three times, so one fired rule can apply the boost |
| Scoring.Round2 | crashguard/scoring.py:53 | The reported CRI is a whole number of hundredths within half a hundredth of the total |
| Scoring.Round2Exact | crashguard/scoring.py:53 | A value that already has two decimals is reported unchanged |
| Scoring.ScoreOfPipeline | crashguard/scoring.py:38-53 | The velocity boost is measured on the raw sum, before either boost; the state is classified on the unrounded total raw + velocity + confluence; the reported CRI is within half a hundredth of that total |
| Scoring.BoostsNeverLowerState | crashguard/scoring.py:44-52 | With ordered thresholds and a non-negative confluence amount, the boosts can only raise the state above that of the raw sum |
| Scoring.RoundedCriAtRedCanBeOrange | crashguard/scoring.py:52-53 | A total of 2.999 is reported as 3.0 yet classified ORANGE when RED starts at 3.0 |
| Scoring.ComputeScores | crashguard/scoring.py:26-53 | The step-by-step computation (cri updated with +=, triggers appended) returns exactly the result ScoreOf describes, whose properties the lemmas above state |
| Stocks.Sum | crashguard/stocks.py:3-4 | The sum of a non-empty run of positive closes is positive |
| Stocks.Sma | crashguard/stocks.py:3-4 | The rolling mean over positive closes is positive, so it can be divided by |
| Stocks.MaxOfIsMax | crashguard/stocks.py:23 | The recent high bounds every close in the window and is one of them |
| Stocks.Tail | crashguard/stocks.py:23 | The tail holds the last min(n, 20) closes, in order |
| Stocks.AppendIf | crashguard/stocks.py:25-46 | A conditional append adds exactly the signal whose condition holds and keeps all earlier ones |
| Stocks.LatestAtMostHigh | crashguard/stocks.py:20-23 | The latest close is positive and at most the 20-close high, because it lies in that window |
| Stocks.DrawdownNonPositive | crashguard/stocks.py:20-24 | For positive prices, the drawdown percentage is never positive |
| Stocks.PctNonPositive | crashguard/stocks.py:24 | A value at most its base gives a non-positive percentage change |
| Stocks.PctAtMost | crashguard/stocks.py:24 | A percentage change is at most the bar exactly when the value is at most (1 + bar/100) times the base |
| Stocks.DrawdownFiresAtNinetyFivePercent | crashguard/stocks.py:23-25 | The Drawdown check fires exactly when the latest close is at most 95% of the 20-close high |
| Stocks.MaFiresAtNinetySevenPercent | crashguard/stocks.py:29-31 | The MA check fires exactly when the latest close is at most 97% of the 50-close mean |
| Stocks.GapFiresAtNinetySevenPercent | crashguard/stocks.py:42-45 | The Gap check fires exactly when the latest close is at most 97% of the previous close |
| Stocks.CrossNeedsFiftyOne | crashguard/stocks.py:35-38 | The Cross check fires exactly when there are at least 51 closes, today's 20-mean is below the 50-mean, and yesterday's was not |
| Stocks.AppendIfKindsIncrease | crashguard/stocks.py:19-46 | Appending a signal of a later kind keeps the kinds in check order and adds at most one signal |
| Stocks.EmitOrdered | crashguard/stocks.py:19-46 | The four checks emit at most four signals, in the order Drawdown, MA, Cross, Gap, each at most once |
| Stocks.EmitExact | crashguard/stocks.py:25-46 | Each check emits exactly when its measure is defined and past its bar, and the signal carries that measure |
| Stocks.SignalsOrdered | crashguard/stocks.py:19-46 | A ticker's signals come in the order Drawdown, MA, Cross, Gap, each at most once, at most four |
| Stocks.SignalsExact | crashguard/stocks.py:20-46 | Drawdown is present iff the drawdown is <= -5%; MA only with >= 50 closes and iff <= -3%; Cross iff the cross fires; Gap only with >= 2 closes and iff <= -3%; each signal carries its computed percentage |
| Stocks.SumOfConstant | crashguard/stocks.py:3-4 | A sum of n copies of c is n*c |
| Stocks.SmaOfFlatWindow | crashguard/stocks.py:3-4 | Over a window of equal closes, the rolling mean is that close |
| Stocks.SingleCloseIsQuiet | crashguard/stocks.py:20-46 | A single close raises no signal |
| Stocks.FlatThenDrop | crashguard/stocks.py:20-46 | Twenty closes of 100 followed by 94 raise a 6% Drawdown and a 6% Gap, in that order, and nothing else |
| Stocks.AnalyzeReport | crashguard/stocks.py:8-49 | Only absent data gives an error entry, and it says "No data"; a report names its ticker, carries the last close and the signals, and is ALERT iff a signal fired |
| Stocks.MeasureDrawdown | crashguard/stocks.py:20-24 | The drawdown percentage from the 20-close high is never positive, and it is at most -5 exactly when the latest close is at most 95% of that high |
| Stocks.MeasureBelowMa | crashguard/stocks.py:30 | The percentage from the last 50-close mean is at most -3 exactly when the latest close is at most 97% of that mean |
| Stocks.MeasureCross | crashguard/stocks.py:35-38 | The cross holds exactly when there are at least 51 closes, today's 20-close mean is below the 50-close mean, and yesterday's was not |
| Stocks.MeasureGap | crashguard/stocks.py:42-44 | The day-over-day change is at most -3 exactly when the latest close is at most 97% of the previous close |
| Stocks.RunDrawdownCheck | crashguard/stocks.py:22-26 | Check 1 appends a Drawdown signal exactly as the specification of check 1 says |
| Stocks.RunMaCheck | crashguard/stocks.py:28-32 | Check 2 is skipped while the 50-close mean is undefined, and otherwise appends exactly as specified |
| Stocks.RunCrossCheck | crashguard/stocks.py:34-39 | Check 3 appends Cross exactly when the cross fires |
| Stocks.RunGapCheck | crashguard/stocks.py:41-46 | Check 4 is skipped without a previous close, and otherwise appends exactly as specified |
| Stocks.AnalyzeTicker | crashguard/stocks.py:6-49 | One ticker's analysis, appending signals check by check, gives exactly the outcome Analyze describes (see AnalyzeReport and SignalsExact) |
| Stocks.EntryCarriesTicker | crashguard/stocks.py:53-57 | Every universe entry, report or error, carries the ticker it was computed for |
| Stocks.AnalyzeUniverse | crashguard/stocks.py:51-58 | Exactly one entry per ticker, in input order; each entry depends only on its own ticker's download, and an exception becomes that ticker's error entry |
| Run.LoadedHistory | crashguard/run.py:15-18 | Without a history file the run starts from an empty history; otherwise from the stored rows |
| Run.SavedHistory | crashguard/run.py:20-22 | The saved history is the last min(n, 365) rows, in their original order |
| Run.ShortHistorySavedUnchanged | crashguard/run.py:22 | A history of at most 365 rows is saved unchanged |
| Run.OldestRowsDroppedFirst | crashguard/run.py:22 | Of 400 rows, the oldest 35 are dropped |
| Run.SavedHistoryIdempotent | crashguard/run.py:22 | Saving what was saved changes nothing |
| Run.NewRowIsKept | crashguard/run.py:40 | The appended row is the last saved row, so it is always kept |
| Run.SaveEachRunAgrees | crashguard/run.py:40 | Truncating at every save gives the same file as truncating once |
| Run.CriValues | crashguard/run.py:36 | The CRI list has one value per row: the cri field of each row, in row order |
| Run.PrevCri | crashguard/run.py:36 | prev_cri is None exactly when the history is empty; otherwise it is the rows' CRI values in order |
| Run.TruncationKeepsVelocityBoost | crashguard/run.py:22-36 | Keeping only 365 rows never changes the velocity boost a later run computes |
| Run.NextRunSeesThisCri | crashguard/run.py:36-40 | The next run's last past CRI is this run's CRI |
| Run.RunOnce | crashguard/run.py:24-40 | The row carries the timestamp, the inputs, and exactly the scores, cri, state and details of the scoring result computed against the loaded history's CRI values; the saved history is the last 365 rows of the loaded history plus that row |

## Left out

- Configuration and history files are not modelled: YAML loading, JSON reading and writing, and `load_dotenv` (crashguard/run.py:10-22). The stored history comes in as an `Option` and the saved history goes out as a sequence.
- The indicator fetchers are not part of this model; the eight input values are a parameter of `Run.RunOnce`.
- The price download is not modelled (crashguard/stocks.py:7), nor the one-column normalisation and `dropna` (crashguard/stocks.py:11-15). A download is a `Download`: no data, a raised message, or the closes after `dropna`. The `lookback_days` parameter is left out with it.
- The notification is not part of this model, nor the title, the printed body and the clock (crashguard/run.py:38-44). The timestamp is a parameter.
- Floating point, NaN and Python's `round` on binary floats are not modelled. Numbers are exact reals, and `Round2` rounds half to even on them. The NaN test of the 50-day mean (crashguard/stocks.py:29) becomes "at least 50 closes", which is equivalent once missing values are dropped.
- The signal's `level` ("Alert" for every signal) is not modelled. The formatted `detail` text is kept only as the percentage it prints.
- Stocks.Analyze: requires positive closes. The source would divide by zero on a zero high, mean or previous close, and that exception path is not modelled.
- Scoring.ScoresOf: its ensures states only that all eight keys are present. The value under each key is stated by the lemma `Scoring.ScoresReadOwnInput`.
- Scoring.ComputeScores: requires a non-empty band table for every indicator, a weight for every score key, and every input. The source raises on a missing key or an empty table, and those errors are not modelled.
- The daily job does not run the ticker analyzer (crashguard/run.py:24-44), so a history row has no ticker section.
