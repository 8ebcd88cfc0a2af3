# Trading dashboard metrics, watermark heatmap, SQL builder and enum codecs in Dafny

This project models the computational core of a trading dashboard service. The parts are:

- **Metrics engine.** It takes the closed trades of a `[from, to]` window and derives each trade's net result (pnl minus fee). From those it builds:
  - the daily series of net totals for every day of the window;
  - the cumulative equity curve.

  It then computes these metrics:
  - the maximum drawdown, with its peak day, trough day and recovery time;
  - the Sharpe ratio of daily excess returns on a fixed base capital of 5000;
  - expectancy: mean, median, win rate, average win and average loss;
  - the profit factor and the recovery factor.

  The risk-free rate is that of the trade with the latest exit.
- **Watermark heatmap.** Each closed trade's loss watermark is read as a percentage: a value strictly between 0 and 1 is multiplied by 100. The value then goes into one of twenty one-point bands `[20, 21) … [39, 40)`. Trades are counted per (week of the year before `to`, band) cell.
- **SQL statement builder.** It produces `INSERT`, `UPDATE`, `SELECT` and `DELETE` strings with numbered `$i` placeholders.
- **Enum codecs.** These are the integer and string conversions of `Status`, `StrategyType`, `Side`, `PriceEffect` and `AssetType`, plus the symbol alias rule.

Representation choices:

| Source value | Modelled as |
|---|---|
| Rust `Decimal` and `f64` | exact `real` |
| Dates | integer day numbers |
| A UTC timestamp (`TIMESTAMPTZ`, `DateTime<Utc>`) | integer microseconds since the Unix epoch, the column's resolution |
| The date of a UTC timestamp | the floor of its microseconds over 86 400 000 000 |
| `BTreeMap` daily series | a dense sequence with one entry per day of the window, in day order |
| Functions that panic (`get_alias`, `From<&str>`, the update builder on an empty column list, `from_row`) | a `Result` whose `Panic` case is the panic |

The square root used for the volatility is a parameter, `sqrt: real -> real`. So is the `%m/%d` rendering of a week's first day, `monthDay: int -> string`.

Most loops of the source are methods with loop invariants: the nets split, the daily series, the equity curve, the drawdown scans, the band list, the band search and the heatmap count. The summing loops of `compute_sharpe` and the sums of `compute_expectancy` are instead modelled by the recursive functions `Sum`, `Mean` and `SquaredDeviations`. Each method's contract connects it to an independent reference definition: a recursive function, a sequence comprehension or, for the metrics handler, the result-record functions applied to those definitions. Lemmas relate the definitions to one another.

Modules and files:

- `wrappers.dfy`: `Option`, `Result` and `i32`.
- `text.dfy`: decimal rendering, digit parsing, `join`.
- `sql_builder.dfy`: the SQL builder, plus a placeholder scanner used to state that the placeholders read back as `$1 … $n`.
- `sql_examples.dfy`: the unit-test strings.
- `models.dfy`: `dashboard/src/models/mod.rs`.
- `pg_int4.dfy`: the PostgreSQL `int4` binary wire form.
- `strategy.dfy`: `dashboard/src/models/strategy.rs`.
- `series.dfy`: sums and counts.
- `metrics_types.dfy`: the result records and constants.
- `metrics.dfy`: nets, daily series, equity curve.
- `drawdown.dfy`, `sharpe.dfy`, `expectancy.dfy`: one metric each.
- `metrics_service.dfy`: the two ratio metrics and the handler after its fetch.
- `watermarks.dfy`: the heatmap.

Two behaviours of the code that the model keeps as written:

- Weeks in the heatmap are not ISO weeks. They are seven-day blocks counted from `to − 365` days and clamped to 0..51, so week 51 also holds the last days of the year.
- `compute_drawdown` finds the trough by looking up its date and finds the prior peak's value by date. On a window curve, dates are unique and increasing, so this agrees with looking up by position.

## Model

| member | source | states |
|---|---|---|
| Metrics.Net | dashboard/src/service/metrics.rs:43 | a trade's net is positive exactly when its pnl exceeds its fee, and negative exactly when it falls short |
| Metrics.ExitDay | dashboard/src/service/metrics.rs:65 | the exit day is the UTC day whose microseconds contain the exit instant, also before the epoch |
| Metrics.Nets | dashboard/src/service/metrics.rs:42-51 | one net per trade, in input order, each equal to that trade's pnl minus its fee |
| Metrics.WinsAndLosses | dashboard/src/service/metrics.rs:44-50 | wins and losses never count more than all trades; wins minus absolute losses is the total net; each gross figure is positive exactly when its count is |
| Metrics.DeriveNets | dashboard/src/service/metrics.rs:35-55 | the summary holds the nets, the sum and count of the strictly positive ones, and the absolute sum and count of the strictly negative ones; zero nets count as neither |
| Metrics.DailyFromRows | dashboard/src/service/metrics.rs:57-72 | the daily series has exactly one entry per day from `from` to `to`, in order, each holding the total net of the trades exiting that day |
| Metrics.DailyIgnoresOutside | dashboard/src/service/metrics.rs:64-70 | a trade whose exit day lies outside the window changes no day of the series |
| Metrics.DailyTotal | dashboard/src/service/metrics.rs:57-72 | the daily totals add up to the net of exactly the trades exiting inside the window |
| Metrics.SumValuesBump | dashboard/src/service/metrics.rs:67-69 | adding a net to one day of a series adds it to the series' total, and a day outside the series adds nothing |
| Metrics.EquityFromDaily | dashboard/src/service/metrics.rs:74-82 | the equity curve keeps the days of the daily series and holds, at each day, the running total up to and including that day |
| Metrics.EquitySteps | dashboard/src/service/metrics.rs:77-80 | each equity value is the previous one plus that day's total, starting from zero |
| Metrics.FinalEquityIsTotal | dashboard/src/service/metrics.rs:255 | the last equity value is the total of all daily nets, and zero for an empty window |
| Drawdown.PeakIsMax | dashboard/src/service/metrics.rs:90-100 | the running peak is at least zero and every value seen so far, and is either zero or one of those values |
| Drawdown.MaxDrawdownIsMax | dashboard/src/service/metrics.rs:101-106 | the maximum drawdown is at least zero and every position's drawdown, and is either zero or attained at some position |
| Drawdown.LastNewHighIsPeak | dashboard/src/service/metrics.rs:97-100 | the peak day is absent exactly when the peak is still zero; otherwise it is the position where the current peak value was reached |
| Drawdown.FirstAtLeast | dashboard/src/service/metrics.rs:118-123 | the forward scan from the trough finds the first position at or after it whose value reaches the threshold, and finds none exactly when no such position exists |
| Drawdown.ScanPeakTrough | dashboard/src/service/metrics.rs:89-107 | the scan returns the maximum drawdown; a trough exists exactly when that drawdown is positive, and it is the first position attaining it; the peak day is the last new high up to the trough |
| Drawdown.LocateTrough | dashboard/src/service/metrics.rs:110-115 | the date lookup finds the trough's position, or reports that no position has the trough's date; on a curve with increasing days it also returns the value at the peak date |
| Drawdown.ScanRecovery | dashboard/src/service/metrics.rs:116-125 | the recovery time is the distance from the trough to the first later-or-equal position back at the prior peak value, and absent if there is none |
| Drawdown.ComputeDrawdown | dashboard/src/service/metrics.rs:89-142 | the result is the maximum drawdown, with its percentage of the base capital; it has a trough day exactly when the drawdown is positive, at the first deepest position; any peak day comes strictly before the trough; on increasing days the recovery is the first return to the peak value, at least one day after the trough |
| Drawdown.TroughAfterPeak | dashboard/src/service/metrics.rs:97-105 | at a position in drawdown the running peak did not move, so the peak position lies strictly before it and holds a strictly higher value |
| Drawdown.RiseThenFallExample | dashboard/src/service/metrics.rs:89-126 | net +50 then −30 gives a drawdown of 30 from the first day to the second, never recovered |
| Drawdown.NegativeStartExample | dashboard/src/service/metrics.rs:90-106 | the peak starts at zero, so a first day of −10 is a drawdown of 10 with no peak day |
| Sharpe.ComputeSharpe | dashboard/src/service/metrics.rs:144-169 | sample days is the length of the series; ratio, mean and volatility are present together, exactly when there are at least two days and the standard deviation is positive; the mean times the count is the sum of excess returns; the ratio is mean over volatility times √252 |
| Sharpe.SampleVarianceNonNegative | dashboard/src/service/metrics.rs:156-158 | the sample variance is never negative |
| Sharpe.ConstantSeriesHasNoSharpe | dashboard/src/service/metrics.rs:151-161 | days that all carry the same total have zero variance, so there is no ratio or volatility |
| Sharpe.VolatilityIgnoresRiskFree | dashboard/src/service/metrics.rs:152-159 | the risk-free rate shifts every excess return equally, so the volatility, and whether a ratio exists, do not depend on it |
| Expectancy.SortAsc | dashboard/src/service/metrics.rs:180-181 | the sorted nets are in ascending order and are a permutation of the nets |
| Expectancy.Insert | dashboard/src/service/metrics.rs:181 | inserting into a sorted list keeps it sorted and adds exactly one copy of the new amount |
| Expectancy.MedianOfSorted | dashboard/src/service/metrics.rs:182-183 | on a sorted list the median lies between the two middle elements, which coincide for an odd length |
| Expectancy.Median | dashboard/src/service/metrics.rs:179-184 | with no trades the median is zero; otherwise some net lies at or below it and some net at or above it |
| Expectancy.MedianSplits | dashboard/src/service/metrics.rs:179-184 | at most half the nets lie strictly below the median and at most half strictly above it |
| Expectancy.MedianBelowSorted | dashboard/src/service/metrics.rs:182-183 | on a sorted list, at most half the amounts lie below the middle element, or below the mean of the two middle elements |
| Expectancy.MedianAboveSorted | dashboard/src/service/metrics.rs:182-183 | on a sorted list, at most half the amounts lie above the median |
| Expectancy.Average | dashboard/src/service/metrics.rs:173-177 | a total over a positive count times that count gives back the total; zero for a zero count; the sign of the total is kept |
| Expectancy.AverageAtMostOne | dashboard/src/service/metrics.rs:186 | a part no larger than the count, averaged over the count, is at most one |
| Expectancy.ComputeExpectancy | dashboard/src/service/metrics.rs:171-191 | expectancy is the mean net (zero with no trades); median as above; the win rate is absent exactly for no trades and otherwise lies in [0, 1]; the average win is not negative and the average loss is not positive |
| Expectancy.MedianOddExample | dashboard/src/service/metrics.rs:182-183 | the median of 20, −10 and 5 is 5 |
| Expectancy.MedianEvenExample | dashboard/src/service/metrics.rs:183 | the median of 20 and −10 is the mean of the two middle values, 5 |
| MetricsService.ComputeProfitFactor | dashboard/src/service/metrics.rs:193-201 | the profit factor is present exactly when there is a gross loss, and then times the gross loss gives the gross profit; gross figures and counts pass through |
| MetricsService.ComputeRecovery | dashboard/src/service/metrics.rs:203-206 | the recovery factor is present exactly when the drawdown is positive, and then times the drawdown gives the net profit |
| MetricsService.LatestExit | dashboard/src/service/metrics.rs:246-250 | the chosen trade has the latest exit time, and no later trade in the list has an equal one, as `max_by_key` picks the last maximum; none only for no trades |
| MetricsService.RiskFreeAnnual | dashboard/src/service/metrics.rs:246-250 | with no trades the rate is zero; otherwise it is the rate of a trade whose exit is not earlier than any other's |
| MetricsService.WindowNetOfWindowRows | dashboard/src/service/metrics.rs:239-255 | when every trade exits inside the window, which the query guarantees, the net profit of the equity curve equals the total of all nets |
| MetricsService.WindowDrawdown | dashboard/src/service/metrics.rs:240-244 | on a window's curve: the percentage is of the base capital; the trough day is the first day attaining the maximum drawdown and exists exactly when it is positive; the peak day is the last new high up to the trough, strictly before it; the recovery is the first later return to the peak value, at least one day on; all dates lie in the window |
| MetricsService.ExpectancyOfNets | dashboard/src/service/metrics.rs:171-191 | the expectancy block of a list of nets counts every net as a trade and takes the median of those nets |
| MetricsService.SummaryExpectancy | dashboard/src/service/metrics.rs:238-252 | from the totals `derive_nets` returns, the expectancy block is that of the nets with strict wins and strict losses |
| MetricsService.SummaryProfitFactor | dashboard/src/service/metrics.rs:238-253 | from those totals, the profit factor counts every net as a trade, keeps wins and losses apart, has gross profit minus gross loss equal to the total net, and is present exactly when there is a loss, then times the gross loss giving the gross profit |
| MetricsService.NetMetrics | dashboard/src/service/metrics.rs:238-253 | one pass of `derive_nets` feeds the expectancy and profit-factor blocks of the trades' nets, with the median of the nets and the ratio as above |
| MetricsService.WindowMetrics | dashboard/src/service/metrics.rs:239-256 | over the window's daily series: the drawdown of its equity curve with its dates placed as the scan finds them, the Sharpe metrics at the latest trade's risk-free rate, and the recovery factor of the window net over the maximum drawdown |
| MetricsService.ComputeMetrics | dashboard/src/service/metrics.rs:236-266 | the response carries the window; the expectancy block is that of the trades' nets, with their median; the profit factor's gross figures and counts are the strict win and loss totals of the nets, present exactly when there is a loss and then the ratio of the two; the Sharpe block is that of the window's daily series at the latest trade's risk-free rate; the drawdown is the maximum drawdown of the window's equity curve with trough, peak and recovery placed as the scan finds them and lying in the window; the recovery factor is the window net over that drawdown; the window net equals the trades' total when all exit inside the window |
| Watermarks.YearStart | dashboard/src/service/watermarks.rs:16 | the year starts 365 days before the requested end day |
| Watermarks.Normalize | dashboard/src/service/watermarks.rs:59-63 | a value strictly between 0 and 1 is multiplied by 100; every other value passes through |
| Watermarks.NormalizeInRange | dashboard/src/service/watermarks.rs:59-63 | a normalised value lies in [20, 40) exactly when the raw value lay in [0.2, 0.4) or in [20, 40) |
| Watermarks.Points | dashboard/src/service/watermarks.rs:54-68 | at most one point per row, and every point is the normalised watermark and exit day of some row whose watermark parsed |
| Watermarks.PointsOfParsedRows | dashboard/src/service/watermarks.rs:54-68 | when every watermark parses, each row yields one point with its exit day and normalised value, in order |
| Watermarks.PointsOfUnparsedRows | dashboard/src/service/watermarks.rs:58 | rows whose watermark does not parse yield no point |
| Watermarks.ParseRows | dashboard/src/service/watermarks.rs:51-68 | the parsing loop yields exactly the points of the parsed rows, in order |
| Watermarks.BuildBands | dashboard/src/service/watermarks.rs:70-80 | there are exactly twenty contiguous one-point bands from 20 to 40, the k-th being [20 + k, 21 + k) named by its lower bound |
| Watermarks.BandLabelsDistinct | dashboard/src/service/watermarks.rs:77 | different bands carry different labels |
| Watermarks.FirstBand | dashboard/src/service/watermarks.rs:91-97 | the band chosen contains the value and no earlier band does; none is chosen only when no band contains the value |
| Watermarks.FindBand | dashboard/src/service/watermarks.rs:91-97 | the band loop with its early exit picks that first containing band |
| Watermarks.BandOfValue | dashboard/src/service/watermarks.rs:70-97 | a value gets a band exactly when it lies in [20, 40), and then it gets the band of its whole part |
| Watermarks.TruncDiv | dashboard/src/service/watermarks.rs:86 | integer division rounds toward zero: the remainder has the dividend's sign and is smaller than the divisor |
| Watermarks.WeekIndex | dashboard/src/service/watermarks.rs:85-86 | the week lies in 0..51; an exit in the first 52 weeks lands in the week whose seven days contain it; earlier exits land in week 0 and later ones in week 51 |
| Watermarks.WeekIndexIgnoresRounding | dashboard/src/service/watermarks.rs:86 | after clamping, rounding toward zero and rounding down give the same week |
| Watermarks.LastWeekAbsorbsYearEnd | dashboard/src/service/watermarks.rs:85-86 | every exit from day 357 of the year up to the end day falls in the last week |
| Watermarks.TimeLabel | dashboard/src/service/watermarks.rs:88-89 | the label is `W`, the 1-based week number in two digits, `-`, and the rendering of the week's first day, year start plus seven times the week |
| Watermarks.TimeLabelDistinct | dashboard/src/service/watermarks.rs:88-89 | different weeks have different labels, whatever the date rendering |
| Watermarks.CellIdentifiesWeekAndBand | dashboard/src/service/watermarks.rs:84-97 | two trades share a cell only when they share the week and the whole part of the watermark |
| Watermarks.CellOf | dashboard/src/service/watermarks.rs:84-97 | a point has a cell exactly when its value lies in [20, 40), and the cell is its week's label with the whole part of its value as the band label |
| Watermarks.BuildHeatmap | dashboard/src/service/watermarks.rs:82-98 | a cell appears exactly when some point falls in it; its count is the number of such points and at least one; all counts add up to the number of points in [20, 40) |
| Watermarks.CountPoint | dashboard/src/service/watermarks.rs:84-97 | one pass of the counting loop adds one to the point's cell, creating it if needed, and leaves every other cell alone; the total grows by one exactly when the value lies in [20, 40) |
| Watermarks.MapTotalUpdate | dashboard/src/service/watermarks.rs:94 | setting one cell's count changes the heatmap's total by the difference, so an increment adds one |
| Watermarks.Heatmap | dashboard/src/service/watermarks.rs:51-109 | the response reports the fixed scale 20 to 40 and, for the parsed rows, the per-cell counts and their total as above |
| Watermarks.FractionAndPercentShareBand | dashboard/src/service/watermarks.rs:59-63 | a watermark of 0.25 and one of 25 both land in the band [25, 26) |
| SqlBuilder.PrepareInsert | src/db_client.rs:35-43 | the statement starts `INSERT INTO table (columns) VALUES (` with the columns joined by `, `, and ends with `)` |
| SqlBuilder.PrepareUpdate | src/db_client.rs:45-63 | the statement exists exactly when there is a column; it starts `UPDATE table SET ` and ends with ` WHERE key = $n`, the key being the last column and n the column count |
| SqlBuilder.PrepareFetch | src/db_client.rs:65-78 | without filters the statement is `SELECT * FROM table`; with filters it starts `SELECT * FROM table WHERE ` |
| SqlBuilder.PrepareDelete | src/db_client.rs:80-93 | without columns the statement is `DELETE FROM table`; with columns it starts `DELETE FROM table WHERE ` |
| SqlBuilder.Placeholders | src/db_client.rs:37-40 | the placeholder list for 1..n has n entries, the k-th being `$` followed by k + 1 |
| SqlBuilder.Assignments | src/db_client.rs:71-73 | each column becomes `column = $i`, with i counting up from the first number |
| SqlBuilder.InsertPlaceholders | src/db_client.rs:35-43 | the insert statement's placeholders read back as exactly 1, 2, …, n for n columns |
| SqlBuilder.UpdatePlaceholders | src/db_client.rs:45-63 | with at least one column, the update statement's placeholders read back as exactly 1, 2, …, n, the last numbering the key column |
| SqlBuilder.UpdatePanicsOnlyWithoutColumns | src/db_client.rs:48-60 | the update builder panics exactly when there are no columns |
| SqlBuilder.UpdateSingleColumn | src/db_client.rs:45-63 | one example: for table `t` with only the key column `id` the statement is `UPDATE t SET  WHERE id = $1`, an empty SET list |
| SqlBuilder.FetchPlaceholders | src/db_client.rs:65-93 | the fetch and delete statements' placeholders read back as exactly 1, 2, …, n for n filters, and there are none without filters |
| SqlBuilder.DeleteMirrorsFetch | src/db_client.rs:65-93 | the delete statement is the fetch statement with `SELECT *` replaced by `DELETE` |
| SqlBuilder.PlaceholderReadsBack | src/db_client.rs:38 | the placeholder for i reads back as the number i |
| SqlBuilder.JoinReadsBack | src/db_client.rs:39-40 | joining parts that each read back as one consecutive number reads back as the whole range |
| SqlExamples.InsertExample | src/db_client.rs:135-146 | four columns give `INSERT INTO test (one, two, three, four) VALUES ($1, $2, $3, $4)` |
| SqlExamples.UpdateExample | src/db_client.rs:148-157 | four columns and a key give `UPDATE test SET one = $1, two = $2, three = $3, four = $4 WHERE local_id = $5` |
| SqlExamples.FetchExamples | src/db_client.rs:159-175 | no filter gives `SELECT * FROM test`, and three give the `WHERE … AND …` form |
| SqlExamples.DeleteExamples | src/db_client.rs:177-193 | no filter gives `DELETE FROM test`, and three give the `WHERE … AND …` form |
| Text.NatToString | src/db_client.rs:38 | the rendering is a nonempty digit string without a leading zero that reads back as the number |
| Text.NatToStringInjective | dashboard/src/service/watermarks.rs:77 | different numbers render differently |
| Text.IntToString | dashboard/src/service/watermarks.rs:77 | a signed integer renders as a nonempty string that starts with `-` exactly when the integer is negative; the digits after the sign denote its absolute value |
| Text.JoinEnds | src/db_client.rs:36-40 | a join starts with its first part, followed by the separator when there are more, and ends with its last part |
| Text.Pad2 | dashboard/src/service/watermarks.rs:89 | the padded week number has at least two digits and reads back as the number |
| Text.Pad2TwoDigits | dashboard/src/service/watermarks.rs:89 | below 100 the padded rendering is exactly two digits |
| Models.GetAlias | dashboard/src/models/mod.rs:15-20 | a symbol starting with `/` becomes its first three characters, and one shorter than three panics; any other symbol is unchanged |
| Models.GetAliasIdempotent | dashboard/src/models/mod.rs:15-20 | aliasing an alias changes nothing |
| Models.GetAliasFutures | dashboard/src/models/mod.rs:16-17 | two futures symbols share an alias exactly when their first three characters agree |
| Models.SideFromInt | dashboard/src/models/mod.rs:29-38 | 1 is Call, 2 is Put, and every other code is the neutral side |
| Models.PriceEffectToInt | dashboard/src/models/mod.rs:47-54 | Credit is 1 and Debit is 2 |
| Models.PriceEffectFromStr | dashboard/src/models/mod.rs:56-64 | `Credit` and `Short` give Credit, `Debit` and `Long` give Debit, and any other text panics |
| Models.PriceEffectName | dashboard/src/models/mod.rs:66-74 | Credit displays as `Credit` and Debit as `Debit`, and no other price effect has either name |
| Models.PriceEffectRoundTrip | dashboard/src/models/mod.rs:56-74 | parsing a price effect's display name gives it back |
| Models.PriceEffectCodesDistinct | dashboard/src/models/mod.rs:47-74 | different price effects have different codes and different names |
| Models.AssetTypeToInt | dashboard/src/models/mod.rs:97-106 | Equity is 1, EquityOption 2, Future 3 and FutureOption 4, and each code belongs to that type only |
| Models.AssetTypeFromInt | dashboard/src/models/mod.rs:85-95 | codes 1 to 4 decode to the asset type with that code, and any other code panics |
| Models.AssetTypeIntRoundTrip | dashboard/src/models/mod.rs:85-106 | decoding an asset type's code gives it back |
| Models.AssetTypeFromStr | dashboard/src/models/mod.rs:108-118 | exactly the four names `Equity`, `Future`, `Equity Option` and `Future Option` parse, to Equity, Future, EquityOption and FutureOption respectively, and any other text panics |
| Models.GetAssetType | dashboard/src/models/mod.rs:132-141 | `get_asset_type` accepts and rejects exactly what the string conversion does, with the same results |
| Models.AssetTypeNameRoundTrip | dashboard/src/models/mod.rs:108-130 | the display name parses back only for Equity and Future, since the option types display without the space their parser requires |
| Models.AssetTypeName | dashboard/src/models/mod.rs:120-130 | each asset type displays as its own name, the option types without a space: `EquityOption`, `FutureOption` |
| StrategyModel.StatusFromInt | dashboard/src/models/strategy.rs:70-78 | code 1 decodes to Open, and every other code decodes to Closed |
| StrategyModel.StatusToInt | dashboard/src/models/strategy.rs:42-49 | Open is 1 and Closed is 2, and each code belongs to that status only |
| StrategyModel.StatusIntRoundTrip | dashboard/src/models/strategy.rs:42-78 | decoding a status's code gives it back |
| StrategyModel.EncodeStatus | dashboard/src/models/strategy.rs:57-68 | the encoder writes a single byte holding the status code |
| StrategyModel.DecodeStatus | dashboard/src/models/strategy.rs:70-78 | the decoded `i32` is mapped as above; the value arrives in PostgreSQL's `int4` binary format, which has exactly four bytes, so any other length is an error (the framing is PostgreSQL's format, not code of this repository) |
| StrategyModel.EncodeStatusUnreadable | dashboard/src/models/strategy.rs:51-68 | what the encoder writes is not a value in PostgreSQL's four-byte `int4` binary format, the type the encoder declares |
| StrategyModel.EncodeStatusInt4 | dashboard/src/models/strategy.rs:51-68 | the corrected encoder writes four bytes that read back as the status code |
| StrategyModel.StatusWireRoundTrip | dashboard/src/models/strategy.rs:51-78 | the corrected encoding decodes to the same status |
| StrategyModel.StrategyTypeFromStr | dashboard/src/models/strategy.rs:108-119 | text equal to a type's display name gives that type, a non-Other result carries the text as its name, and any other text gives Other |
| StrategyModel.StrategyTypeName | dashboard/src/models/strategy.rs:90-100 | each strategy type displays as its own name, and no two share one |
| StrategyModel.StrategyTypeRoundTrip | dashboard/src/models/strategy.rs:90-119 | decoding a strategy type's display name gives it back |
| PgInt4.Int4FromWire | dashboard/src/models/strategy.rs:51-55 | PostgreSQL's `int4` binary format, which the declared type names: a value is exactly four big-endian bytes; this format is PostgreSQL's, read by the server for a bound parameter, not code of this repository |
| PgInt4.Int4RoundTrip | dashboard/src/models/strategy.rs:70-72 | four big-endian two's-complement bytes read back as the same 32-bit integer |

## Left out

- Database access (sqlx queries, the row decoding of `Strategy`), the HTTP layer (axum extractors, JSON responses, logging) and the request parsing are left out. The handlers are modelled from the point where the rows have been fetched. The query filters are assumptions on the input:
  - closed status;
  - exit inside the window for the metrics;
  - positive pnl and a present watermark for the heatmap.
- Floating point is not modelled. `f64` and `Decimal` are exact reals, so rounding, overflow of `Decimal` and the `to_f64().unwrap_or(…)` fallbacks, which cannot fail for exact values, are not modelled.
- Sharpe.ComputeSharpe: the square root is a parameter, not `f64::sqrt`. Properties that need its value assume only what they state, such as √0 = 0.
- Watermarks.TimeLabel: the `%m/%d` rendering of the week's first day is a parameter, because chrono's calendar formatting is not part of this model. The week number part is modelled exactly.
- Watermarks.Heatmap: the watermark text grammar of `Decimal::from_str` and the round trip through `to_string().parse::<f64>()` are not modelled. A row carries its parsed value, or `None` when the text is not a decimal.
- Watermarks.Heatmap: the default exit time substituted when the row's `exit_time` is unreadable is not modelled. Rows carry their exit day.
- Watermarks.BuildHeatmap: the `HashMap` iteration order of the emitted data points is not modelled. The result is the map itself.
- Metrics.Trade: exit instants are whole microseconds since the epoch, the resolution of the `TIMESTAMPTZ` column the rows come from (strategy.rs line 121); chrono's finer nanosecond field adds nothing for such rows, so `max_by_key` compares the same instants.
- Metrics.DailyFromRows: the `succ_opt().unwrap()` panic at chrono's largest date is not modelled, because days are unbounded integers.
- Expectancy.ComputeExpectancy: the `as i32` casts of the counts, which wrap for 2^31 or more trades, are not modelled. Counts are unbounded, and the divisions use the exact counts.
- Models.GetAlias: the panic for slicing a symbol starting with `/` inside a multi-byte character is not modelled. Strings are sequences of characters, and a panic is modelled only for symbols shorter than three.
- Drawdown.ComputeDrawdown: the recovery time's index facts are proved for curves with strictly increasing days. The metrics handler always builds such curves; other curves are outside the handler's use.
- The `Default` derives (`Status::Closed`, `StrategyType::Other`, `PriceEffect::Credit`, `AssetType::Equity`) are constants. They carry no contract to state.

## Findings

| source | as written | input that shows it | evidently intended | confidence | as-written member | corrected member |
|---|---|---|---|---|---|---|
| dashboard/src/models/strategy.rs:57-68 | `Status` declares the PostgreSQL type `int4` but its encoder writes one byte, the code | encoding `Status::Open` gives the single byte `1`; a parameter declared `int4` is read by the PostgreSQL server in its four-byte `int4` binary format, so that byte is not a valid value | four big-endian bytes holding the code, as the `i32` encoder writes | medium, not executed (the metrics and heatmap queries bind the `i32` code instead, so they avoid this encoder) | StrategyModel.EncodeStatusUnreadable | StrategyModel.StatusWireRoundTrip |
