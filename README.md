# sesame, modelled in Dafny

sesame is a small collection of stock-analysis tools:

- a Python script that computes the partition function of the USD/NOK exchange rate for a multifractal (MMAR) analysis;
- two Python SuperTrend indicators, one for plotting and one that feeds a web page;
- a Python 2 Bollinger-band calculator over a stored price history;
- a Python client that fetches real-time quotes and capital-flow data and parses them;
- a browser front end that draws several stocks on one main chart with lightweight-charts (two versions of it).

This project models the computational core of those tools and proves properties of the model.

| Dafny module (file) | models |
|---|---|
| `Multifractal` (`multifractal.dfy`) | `get_factors`, the two log-return series, the index pairs of each time increment and `calc_partition_function` |
| `SuperTrend` (`supertrend.dfy`) | true range, both rolling averages, the band walk, the buy/sell signals, and both `TechAnalysis.supertrend` variants (plot and web) |
| `Bollinger` (`boll.dfy`) | `data_cmp`, `Boll.get_stock_data` and `Boll.boll` |
| `StockQuote` (`quote.dfy`) | `get_stock_code`, the URL templates, the field tables of `parse_stock_data`, `parse_stock_index` and `get_flow_data`, and the `CurrentQuery` fetchers |
| `JsValues` (`js_values.dfy`) | the JavaScript values the charts handle: undefined, null, booleans, numbers including NaN and the infinities, strings and objects, with the coercions the code relies on |
| `ChartData` (`chart_utils.dfy`) | the pure validators and the candle, volume and indicator transforms of the chart code |
| `IndicatorSeries` (`indicator_series.dfy`) | `processSupertrendData`, `processSupertrendDataAdvanced` and `processSqueezeData` |
| `Events` (`events.dfy`) | the `EventEmitter` class |
| `Registry` (`registry.dfy`) | the `ChartRegistry` class, in both versions |
| `TimeScaleSync` (`time_scale.dfy`) | the `SharedTimeScale` synchroniser |
| `StockSet` (`stock_set.dfy`) | the per-stock bookkeeping of the main chart as values: visibility, normalisation ratios and the normalised data |
| `MainChartModel` (`main_chart.dfy`) | the `MainChart` class: stock storage, visibility, normalisation on and off, the time-range adjustment, the manual-zoom flag, timers and state |
| `Series`, `Wrappers` | shared helpers: sums, means and extrema of a series; `Option` and `Result` |

Floating-point arithmetic is modelled with exact `real` numbers.
Library numerics (logarithm, power, square root, rounding to three places) are function parameters.
Each lemma states only what it needs of them, for example that the square root of a non-negative number is non-negative.
Where the JavaScript code relies on NaN, undefined or falsy values, `JsValues` models them explicitly.

## Model

| member | source | states |
|---|---|---|
| Multifractal.GetFactors | mmar/parse_usd_nok.py:33-39 | the loop returns exactly the divisors of n in 1..n, strictly ascending, equal to the reference `Divisors(n)` |
| Multifractal.DivisorsAreExactlyTheFactors | mmar/parse_usd_nok.py:33-39 | `x in Divisors(n)` exactly when 1 <= x <= n and x divides n; the list is strictly ascending, so sorting it changes nothing |
| Multifractal.DivisorsStartWithOneEndWithN | mmar/parse_usd_nok.py:41 | for n >= 1 the increment list is non-empty, starts with 1 and ends with n |
| Multifractal.IndexOfIncrement | mmar/parse_usd_nok.py:186 | the column the plot divides by is the first position holding the given increment, or None when no column holds it |
| Multifractal.NormalisationColumnExists | mmar/parse_usd_nok.py:41 | the dt = 1 column used to normalise every row of the plot exists and is column 0 |
| Multifractal.RelativeLogReturns | mmar/parse_usd_nok.py:90 | one entry per row, entry i is log P[i] - log P[0], so entry 0 is 0 |
| Multifractal.AdjacentLogReturns | mmar/parse_usd_nok.py:95-97 | with the first NaN row dropped there are one fewer entries than rows, and entry i is log P[i+1] - log P[i] |
| Multifractal.AdjacentSumIsRelative | mmar/parse_usd_nok.py:90-97 | the first k adjacent returns sum to the relative return of row k |
| Multifractal.CandidatePairs | mmar/parse_usd_nok.py:126-128 | there are int(T / dt) candidate pairs before the filter |
| Multifractal.KeepInsideFilters | mmar/parse_usd_nok.py:131-133 | the filter keeps exactly the candidate pairs whose right index is below T |
| Multifractal.CandidateKeptIff | mmar/parse_usd_nok.py:126-133 | candidate i survives the filter exactly when it lies below the count of pairs that end inside the series |
| Multifractal.KeepInsideOfPrefixClosed | mmar/parse_usd_nok.py:131-133 | when the kept candidates are exactly a prefix, filtering any prefix gives a prefix |
| Multifractal.PairCountAtMostCandidates | mmar/parse_usd_nok.py:126-133 | the filter never keeps more pairs than int(T / dt) |
| Multifractal.ValidPairsAreBlocks | mmar/parse_usd_nok.py:126-133 | pair i is (i*dt, i*dt + dt), for every i below the number of pairs that end inside the series |
| Multifractal.ValidPairsInRangeAndDisjoint | mmar/parse_usd_nok.py:126-134 | every pair spans dt inside [0, T), and two different pairs never overlap |
| Multifractal.PairsTileWhenDividing | mmar/parse_usd_nok.py:126-134 | when dt divides T - 1 there are (T - 1)/dt pairs; they start at 0, join end to start and end at T - 1 |
| Multifractal.ScriptIncrementsTileTheSeries | mmar/parse_usd_nok.py:41-84 | for the script's 7561 rows and each divisor of 7560, the pairs tile the whole series exactly |
| Multifractal.SumPowersNonNegative | mmar/parse_usd_nok.py:135-137 | a sum of powers of absolute differences is never negative |
| Multifractal.PartitionCellNonNegative | mmar/parse_usd_nok.py:137 | every entry of the partition table is non-negative |
| Multifractal.LongIncrementGivesZero | mmar/parse_usd_nok.py:126-137 | an increment at least as long as the series leaves no pair, so its column is all zeros |
| Multifractal.CalcPartitionFunction | mmar/parse_usd_nok.py:120-140 | the table has one row per q and one column per dt, and cell (k, j) holds S_{q_k}(dt_j) over the valid pairs |
| SuperTrend.PyMax | indicator/tech_analysis.py:93 | Python's `max(a, b)` returns one of its arguments, the second only when it is greater, and NaN when the first is NaN |
| SuperTrend.PyMin | indicator/tech_analysis.py:94 | Python's `min(a, b)` returns one of its arguments, the second only when it is smaller, and NaN when the first is NaN |
| SuperTrend.TrueRange | indicator/tech_analysis.py:59-66 | row 0 is high - low; every later row is the largest of high - low and the two gaps to the previous close |
| SuperTrend.TrueRangeNonNegative | indicator/tech_analysis.py:59-66 | from row 1 on, the true range is never negative |
| SuperTrend.Atr | indicator/tech_analysis.py:69-72 | the rolling ATR is NaN exactly for the first period - 1 rows, and after that it is the mean of the last period true ranges |
| SuperTrend.Sma | indicator/tech_analysis.py:75-76 | the rolling SMA is defined on every row: the mean of up to the last period values |
| SuperTrend.AtrAgreesWithSmaAfterWarmUp | indicator/tech_analysis.py:69-76 | once a full window exists, the two averages agree |
| SuperTrend.AtrWithinWindow | indicator/tech_analysis.py:71 | each defined ATR lies between the smallest and largest true range of its window |
| SuperTrend.AverageRange | indicator/tech_analysis.py:81-85 | `change_atr` chooses the rolling ATR or the SMA of the true range; either way there is one value per row |
| SuperTrend.Band | indicator/tech_analysis.py:80-87 | a band is defined exactly where the average is, and its value is the midpoint minus or plus multiplier times the average |
| SuperTrend.BandsOrdered | indicator/tech_analysis.py:86-87 | with a non-negative average and multiplier, the lower band never lies above the upper band |
| SuperTrend.WalkBands | indicator/tech_analysis.py:88-101 | the loop produces the adjusted bands and the trend that the row-by-row relation `IsRun` describes |
| SuperTrend.RunTrendIsSign | indicator/tech_analysis.py:88-101 | the trend only ever holds +1 or -1 |
| SuperTrend.RunFlips | indicator/tech_analysis.py:96-101 | the trend turns up exactly when a downtrend closes above the previous upper band, turns down exactly when an uptrend closes below the previous lower band, and changes in no other case |
| SuperTrend.RunBands | indicator/tech_analysis.py:93-94 | each adjusted band is defined exactly where its raw band is and never lies on the wrong side of it; while the previous close stays beyond the band, the band only moves toward the price |
| SuperTrend.WarmUpStaysUp | indicator/tech_analysis.py:88-101 | while no band is defined, the adjusted bands stay undefined and the trend stays +1 |
| SuperTrend.BuySignal | indicator/tech_analysis.py:103 | one flag per row; SignalsMarkFlips states which rows are flagged |
| SuperTrend.SellSignal | indicator/tech_analysis.py:104 | one flag per row; SignalsMarkFlips states which rows are flagged |
| SuperTrend.SignalsMarkFlips | indicator/tech_analysis.py:96-104 | a buy flag marks exactly the upward flips and a sell flag exactly the downward flips; no row has both, every flip has one, and row 0 has neither |
| SuperTrend.PriceColumn | indicator/tech_analysis.py:80-82 | `df[name]` gives the column's prices when it exists and is numeric, and None otherwise |
| SuperTrend.TrendAsFloat | indicator/tech_analysis.py:102 | the trend column holds the trend as floats, row by row |
| SuperTrend.Supertrend | indicator/tech_analysis.py:78-110 | None exactly when high, low or close is missing or is not a price column; otherwise the input frame with the five supertrend columns set to the walk's bands, trend and signals, and every other column unchanged |
| SuperTrend.WithSupertrendColumns | indicator/tech_analysis.py:105-109 | the five columns are added or replaced and every other column is kept |
| SuperTrend.SupertrendLine | indicator/tech_analysis_web.py:31 | the line has one value per row; WebLineFollowsTrend states which band each value comes from |
| SuperTrend.Indicator | indicator/tech_analysis_web.py:36-37 | the integer flag is 1 exactly where the signal is true and 0 exactly where it is false |
| SuperTrend.WebSupertrend | indicator/tech_analysis_web.py:6-38 | None exactly when high, low, close or time is missing, or one of the three prices is not a price column; otherwise a frame of exactly time, supertrend, trend, buy and sell, filled from the walk |
| SuperTrend.WebLineFollowsTrend | indicator/tech_analysis_web.py:13-34 | the web line is the band of the current trend, and is undefined exactly for the first period - 1 rows |
| Bollinger.ParseDay | server/boll.py:8-9 | a key that parses gives a valid calendar date |
| Bollinger.DataCmp | server/boll.py:7-15 | 1, -1 or 0 exactly as the first key's day is later than, earlier than or the same as the second's; None exactly when either key does not parse |
| Bollinger.DataCmpAntisymmetric | server/boll.py:7-15 | swapping the keys negates the result, and a key is equal to itself |
| Bollinger.DataCmpTransitive | server/boll.py:7-15 | earlier-than is transitive, so the comparator orders the parseable keys |
| Bollinger.ParseDayExample | server/boll.py:8 | "2015-03-09" parses to 9 March 2015 |
| Bollinger.ParseDayRejectsMissingDay | server/boll.py:8 | "2015-02-29" is rejected, because 2015 is not a leap year |
| Bollinger.DataCmpExample | server/boll.py:7-15 | an earlier key compares as -1 |
| Bollinger.Keep2015 | server/boll.py:28 | an entry is kept exactly when it is in the history and its key starts with "2015" |
| Bollinger.CodeEntryDropped | server/boll.py:28 | the document's "code" field is never taken for a price |
| Bollinger.Dated | server/boll.py:29 | each kept entry is paired with the date its key parses to |
| Bollinger.InsertByDate | server/boll.py:29 | inserting adds exactly the one entry |
| Bollinger.InsertKeepsOrder | server/boll.py:29 | inserting into a date-ordered list keeps it date-ordered |
| Bollinger.SortByDate | server/boll.py:29 | the sort returns a date-ordered permutation of its input |
| Bollinger.Values | server/boll.py:34-36 | the prices of the entries, in order |
| Bollinger.GetStockData | server/boll.py:27-37 | an error exactly when two or more entries are kept and one key does not parse; None exactly when there is no such error and fewer than 40 entries are kept; otherwise the kept prices in date order |
| Bollinger.VarianceNonNegative | server/boll.py:47 | the population variance is never negative |
| Bollinger.BandsAroundMean | server/boll.py:45-49 | before rounding, the bands sit symmetrically around the mean, lower below and upper above, and the mean lies within its window's extremes |
| Bollinger.Boll | server/boll.py:39-55 | one row per window that has a following price: that price, and the mean and both bands of the window rounded to three places |
| Bollinger.RoundedBandsOrdered | server/boll.py:52-54 | with a monotone rounding, the published bands keep their order around the mean |
| StockQuote.FirstPlaceholder | server/model/constants.py:2-3 | the first position at or after k where a "%s" placeholder starts, or None when there is none |
| StockQuote.Format | server/model/current_query.py:46 | there is a result exactly when the template has one "%s" placeholder; with none or with more than one, Python's `%` raises TypeError, modelled as None |
| StockQuote.FormatRejectsOtherCounts | server/model/current_query.py:46 | a template without a placeholder, and one with two, give no result |
| StockQuote.SinglePlaceholder | server/model/constants.py:2-3 | a template made of a head without '%', one "%s" and a tail without '%' has exactly one placeholder, right after the head |
| StockQuote.NoPlaceholderInTail | server/model/constants.py:2-3 | no placeholder starts after the single "%s" |
| StockQuote.FormatSingle | server/model/current_query.py:46 | a template with a single placeholder has the argument put in its place |
| StockQuote.BasicUrlTemplate | server/model/current_query.py:46 | the basic query URL has exactly one placeholder, and formatting it appends the code to the host |
| StockQuote.FlowUrlTemplate | server/model/current_query.py:69 | the flow query URL of a code is the basic query URL of "ff_" followed by the code |
| StockQuote.FirstMatch | server/model/current_query.py:13-14 | the first table row at or after `from` whose prefix starts the id, or None when no row matches |
| StockQuote.StockCode | server/model/current_query.py:12-17 | "" exactly when no prefix of the table starts the id; otherwise the market of the first matching prefix followed by the id |
| StockQuote.StockCodeShape | server/model/constants.py:4-5 | a non-empty code is "sh" or "sz" followed by the original id |
| StockQuote.StockCodeShanghaiIndex | server/model/constants.py:4 | "000001" is Shanghai, because its entry comes before the generic Shenzhen "00" prefix |
| StockQuote.StockCodeShenzhenMain | server/model/constants.py:4-5 | "000002" falls through to the Shenzhen "00" prefix |
| StockQuote.StockCodeShanghaiMain | server/model/constants.py:4 | "600000" is Shanghai |
| StockQuote.StockCodeChiNext | server/model/constants.py:4-5 | "300043" is Shenzhen, by the last entry of the table |
| StockQuote.StockCodeShenzhenIndex | server/model/constants.py:4 | "399001" is Shenzhen |
| StockQuote.StockCodeUnknown | server/model/current_query.py:16-17 | an id that no prefix matches gets the empty code |
| StockQuote.IndexCodesHaveMarkets | server/model/constants.py:4-6 | every index code has a market |
| StockQuote.Split | server/model/current_query.py:54 | `split('~')` gives at least one field, and no field contains the separator |
| StockQuote.SplitJoin | server/model/current_query.py:54 | joining the fields back with the separator gives the record |
| StockQuote.LeadingRun | server/model/current_query.py:24 | the length of the run of c at the start of the string |
| StockQuote.TrailingRun | server/model/current_query.py:24 | the length of the run of c at the end of the string |
| StockQuote.StripShape | server/model/current_query.py:24 | `strip('%')` leaves a slice of the string that has only '%' characters before and after it |
| StockQuote.StripEnds | server/model/current_query.py:24 | what `strip('%')` leaves neither starts nor ends with '%' |
| StockQuote.StripExample | server/model/current_query.py:24 | "%1.25%" strips to "1.25" |
| StockQuote.Convert | server/model/current_query.py:20-27 | a field position past the end of the record raises IndexError, and only such a position does |
| StockQuote.ApplyRulesFrame | server/model/current_query.py:19-36 | running the field lines writes only their keys and keeps every other entry of stock_info |
| StockQuote.ApplyRulesSuccess | server/model/current_query.py:19-36 | when no line raises, every key of the table holds the converted value of its field, and no other key is added |
| StockQuote.ApplyRulesFailure | server/model/current_query.py:19-36 | when a line raises, exactly the lines before it have been applied, and the fault is the one that line raises |
| StockQuote.ApplyRulesAppend | server/model/current_query.py:19-36 | running the lines of a and then those of b is running a + b, stopping at the first exception |
| StockQuote.RuleTablesDiffer | server/model/current_query.py:19-36 | index quotes get no turnover and stock quotes do; volume comes from field 37 for an index and field 45 for a stock; the first six lines agree |
| StockQuote.RuleTablesDistinct | server/model/current_query.py:19-36 | within each table every key is written by one line only |
| StockQuote.StockInfo.constructor | server/model/current_query.py:38 | a new stock_info is empty |
| StockQuote.Store | server/model/current_query.py:20 | one line: the entry is written with the converted field, or nothing is written and the line's exception is returned |
| StockQuote.StoreNext | server/model/current_query.py:19-36 | given that the lines before line k ran without an exception, line k leaves the state of the first k + 1 lines; if it raises, that is the state of the whole parser |
| StockQuote.ParseStockData | server/model/current_query.py:19-27 | stock_info and the fault are the result of the eight stock lines run in order |
| StockQuote.ParseStockIndex | server/model/current_query.py:29-36 | stock_info and the fault are the result of the seven index lines run in order |
| StockQuote.GetBasicData | server/model/current_query.py:38-61 | nothing changes for an unknown id; the caller's id is stored under "code" before the fetch; a failed fetch or an empty match leaves only that; otherwise the index or stock lines are run over the first payload split on '~' |
| StockQuote.GetFlowData | server/model/current_query.py:63-85 | nothing changes for an unknown id, a failed fetch or an empty match; otherwise the seven flow lines are run over the first payload |
| StockQuote.StoreFlowFields | server/model/current_query.py:77-83 | stock_info and the fault are the result of the seven flow lines run in order |
| StockQuote.BasicDataFields | server/model/current_query.py:55-58 | when no line raises, every field of the chosen table is filled in; an index quote gets no new turnover and a stock quote gets one |
| JsValues.StringToNumberCases | static/lightweight-charts.js:876 | Number() of a string is 0 for blank text and the literal's value for a decimal literal, after trimming white space; it is NaN exactly when the trimmed text is not blank, not a signed Infinity and not a decimal literal |
| JsValues.NumberOfDecimal | static/lightweight-charts.js:876 | the decimal digits of a natural number n read back as the number n |
| JsValues.NumberOfDigitText | static/lightweight-charts.js:392 | a field holding the digits of n coerces to the number n |
| ChartData.KeepItems | static/lightweight-charts.js:339-340 | `filter` keeps exactly the object entries that pass the test, and never more entries than it was given |
| ChartData.KeepItemsAppend | static/lightweight-charts.js:339-340 | filtering distributes over concatenation, so the kept items stay in input order |
| ChartData.ConvertTimeToNumber | static/lightweight-charts.js:302-312 | a number is returned as is, a string goes through date parsing, and anything else gives NaN |
| ChartData.CalculateTimeDiff | static/lightweight-charts.js:317-328 | the result is the summed distance of the four converted ends |
| ChartData.EndsDistanceSymmetric | static/lightweight-charts.js:317-328 | the distance of two ranges does not depend on their order |
| ChartData.AbsSubSymmetric | static/lightweight-charts.js:327 | abs(a - b) == abs(b - a), also for NaN and the infinities |
| ChartData.EndsDistanceMeaning | static/lightweight-charts.js:317-328 | the distance is never negative, is Infinity when an end is NaN, and for finite ends is zero exactly when the ranges coincide |
| ChartData.TimeDiffSymmetric | static/lightweight-charts.js:317-328 | `calculateTimeDiff(a, b) == calculateTimeDiff(b, a)` |
| ChartData.IsValidTimeRange | static/lightweight-charts.js:367-374 | a valid range is an object whose converted from is strictly before its converted to |
| ChartData.ValidTimeRangeIff | static/lightweight-charts.js:367-374 | a range is valid exactly when from converts to a smaller number than to; the NaN checks add nothing, because a comparison with NaN is false |
| ChartData.GetTimeRange | static/lightweight-charts.js:864-895 | a range is returned exactly when there is a chart and a visible range whose ends coerce to non-negative numbers and whose from is not after its to, two string ends being compared as strings and anything else as numbers; what is returned is the visible range itself |
| ChartData.DigitStrings | static/lightweight-charts.js:876 | the strings "5", "7" and "10" coerce to the numbers 5, 7 and 10 |
| ChartData.GetTimeRangeStringEnds | static/lightweight-charts.js:886 | the range from "5" to "10" is refused although both ends are non-negative numbers, because "5" > "10" as strings; the range from "5" to "7" is kept |
| ChartData.GetTimeRangeV2 | static/lightweight-charts-v2.js:760-770 | the visible range is returned exactly when there is a chart and the range is valid |
| ChartData.GetTimeRangeVersions | static/lightweight-charts.js:864-895 | the versions disagree: v1 accepts the empty range 5..5 and v2 rejects it; v1 rejects the negative range -5..5 and v2 accepts it |
| ChartData.GetTimeRangeVersionsAgree | static/lightweight-charts-v2.js:760-770 | on finite, non-negative, strictly ordered numeric ends both versions return the range |
| ChartData.FilterValidData | static/lightweight-charts.js:333-362 | a non-array gives [], and an array gives its valid items in order |
| ChartData.ValidDataItemCases | static/lightweight-charts.js:339-361 | a kept item has a time, and a kept candle has four positive numeric prices |
| ChartData.ValidDataExamples | static/lightweight-charts.js:339-361 | a timed item with a negative numeric value is kept; a candle with a zero low is dropped; an item without a time is dropped |
| ChartData.FilterValidOhlcData | static/lightweight-charts.js:2233-2245 | the candles that pass the OHLC test, in order |
| ChartData.ValidOhlcIsConsistent | static/lightweight-charts.js:2234-2244 | a candle passes exactly when it has a truthy time and four finite prices with low <= open, close <= high |
| ChartData.VolumeBarOf | static/lightweight-charts.js:389-401 | an item gives a bar exactly when it is an object with a truthy time; the bar keeps the time, its value is the volume when that is not null and coerces to a finite number (a numeric string included) and 0 otherwise, it is transparent exactly when the value is 0, and otherwise it is an up bar exactly when close >= open in JavaScript's comparison |
| ChartData.VolumeBarOfStrings | static/lightweight-charts.js:392-395 | a volume of "5" is kept as "5", and a close of "10" under an open of "9" gives a down bar, since "10" < "9" as strings |
| ChartData.ProcessVolumeData | static/lightweight-charts.js:386-406 | the loop returns exactly the bars of the reference `VolumeBars` of its input |
| ChartData.VolumeBarsProperties | static/lightweight-charts.js:386-406 | one bar per timed item; every bar's volume is finite, and a bar is transparent exactly when its volume is 0 |
| ChartData.ManuallyFixLogicalRange | static/lightweight-charts.js:1090-1099 | a range is set exactly when there is a chart |
| ChartData.ManuallyFixedRangeWidth | static/lightweight-charts.js:1094-1099 | the fixed range starts at 0 and ends at the larger of the old width and 50 |
| ChartData.SafeLogicalRange | static/lightweight-charts.js:3819-3823 | the safe range starts at 0, and its right end is NaN, +Infinity or at least 50 |
| ChartData.SafeRangeKeepsRightEdge | static/lightweight-charts.js:3819-3823 | for finite ends, the safe range runs from 0 to the larger of the old right edge and 50 |
| ChartData.ZoomFactor | static/lightweight-charts.js:2958 | the zoom factor is 1.2 or 0.8, and it is above 1 exactly when deltaY > 0 |
| ChartData.ZoomedRange | static/lightweight-charts.js:2942-2967 | a new range exists exactly when there is a chart and a visible range and neither end is NaN once converted: string ends through date parsing, other ends as numbers |
| ChartData.ZoomKeepsCentre | static/lightweight-charts.js:2957-2966 | the zoomed range keeps the centre, and its width is the old width times 1.2 on scroll down or 0.8 otherwise |
| IndicatorSeries.AdvancedPoint | static/lightweight-charts.js:2448-2457 | a row contributes a point only when it is an object with a truthy time, and the point carries the row's time and supertrend value |
| IndicatorSeries.ProcessSupertrendDataAdvanced | static/lightweight-charts.js:2435-2509 | the forEach loop and the closing of the open segments give exactly `Finish(Walked(data))`, the row-by-row reference |
| IndicatorSeries.CloseSegment | static/lightweight-charts.js:2471-2474 | closing a segment moves it from the open end to the closed list, and the joined points do not change |
| IndicatorSeries.StepUp | static/lightweight-charts.js:2467-2476 | a point with direction 1 keeps the loop invariant: closed plus open segments hold exactly the points of each direction, and no closed segment is empty |
| IndicatorSeries.StepDown | static/lightweight-charts.js:2477-2486 | a point with direction -1 keeps the loop invariant |
| IndicatorSeries.StepOther | static/lightweight-charts.js:2448-2490 | a skipped row, or a row whose direction is neither 1 nor -1, keeps the loop invariant |
| IndicatorSeries.WalkedInvariant | static/lightweight-charts.js:2447-2491 | the invariant holds after every prefix of the rows |
| IndicatorSeries.WalkedSnoc | static/lightweight-charts.js:2447-2491 | walking one more row is one more step of the callback |
| IndicatorSeries.SupertrendLinesProperties | static/lightweight-charts.js:2435-2509 | the joined uptrend segments are exactly the valid points with direction 1, in order, and the downtrend segments likewise for -1; no segment is empty; the markers are exactly the valid points flagged buy === 1 or sell === 1 |
| IndicatorSeries.NeutralRowKeepsSegmentOpen | static/lightweight-charts.js:2447-2491 | a segment is closed only on a direct change between 1 and -1: the rows 1, -1, 1 give two uptrend segments, but 1, 0, -1, 1 give one, because the 0 row resets the last direction |
| IndicatorSeries.DirectChange | static/lightweight-charts.js:2467-2489 | the rows 1, -1, 1 give two uptrend segments |
| IndicatorSeries.ThroughNeutral | static/lightweight-charts.js:2447-2491 | the rows 1, 0, -1, 1 give a single uptrend segment |
| IndicatorSeries.PlainEntry | static/lightweight-charts.js:2520-2537 | a row contributes an uptrend and a downtrend point exactly when it is timed, both at the row's time |
| IndicatorSeries.ProcessSupertrendData | static/lightweight-charts.js:2514-2544 | the forEach loop gives exactly the two lines of the reference `PlainLines` |
| IndicatorSeries.PlainLinesAgreeWithSegments | static/lightweight-charts.js:2514-2544 | both lines have one point per timed row at the same times, the two are never drawn at once, and the drawn points are exactly those the segmented form puts in its segments |
| IndicatorSeries.ProcessSqueezeData | static/lightweight-charts.js:4444-4480 | the forEach loop gives exactly the bars and zero line of the reference `SqueezeLines` |
| IndicatorSeries.SqueezeLinesProperties | static/lightweight-charts.js:4444-4480 | every bar has a finite momentum and is green exactly when it is positive and red exactly when it is negative; the zero line is 0 throughout, is timed, and has at least as many points as there are bars |
| Events.Drop | static/lightweight-charts.js:429 | `filter(cb => cb !== callback)` keeps exactly the listeners not removed, and never adds one |
| Events.DropAppend | static/lightweight-charts.js:429 | dropping distributes over concatenation, so the remaining listeners keep their order |
| Events.DropTwice | static/lightweight-charts.js:429 | dropping two sets one after the other is dropping their union |
| Events.DropNothing | static/lightweight-charts.js:429 | dropping nothing keeps the list |
| Events.OnEvents | static/lightweight-charts.js:417-423 | the event's list, created when missing, gets the listener appended (a listener registered twice fires twice), and every other event is unchanged |
| Events.OffEvents | static/lightweight-charts.js:425-434 | an event without a list is unchanged; with a callback every registration of exactly that listener is removed and the list stays; without one the event is deleted |
| Events.Spent | static/lightweight-charts.js:436-455 | an emit over a list removes exactly its once wrappers whose callback returns normally |
| Events.Invoked | static/lightweight-charts.js:438-440 | one invocation per listener, in list order, each of the callback the listener stands for |
| Events.EmitRemovesSpentWrappers | static/lightweight-charts.js:436-455 | an emit removes from the event's list exactly the spent once wrappers, and touches no other event |
| Events.EmitProgressStart | static/lightweight-charts.js:438 | before any listener has run, the event's list is the one the emit started with |
| Events.EmitProgressStep | static/lightweight-charts.js:438-452 | running one more listener removes that listener exactly when it is a once wrapper whose callback returns normally |
| Events.EmitStep | static/lightweight-charts.js:438-452 | the same step, stated for the whole listener map |
| Events.SpentSnoc | static/lightweight-charts.js:438-452 | one more listener adds itself to the spent wrappers exactly when it is a once wrapper whose callback returns normally |
| Events.DropKeepsTokens | static/lightweight-charts.js:429 | removing listeners keeps every wrapper token one that once has issued |
| Events.EventEmitter.constructor | static/lightweight-charts.js:413-415 | a new emitter has no events and has created no wrappers |
| Events.EventEmitter.On | static/lightweight-charts.js:417-423 | the new listener map is `OnEvents` of the old one |
| Events.EventEmitter.Off | static/lightweight-charts.js:425-434 | the new listener map is `OffEvents` of the old one |
| Events.EventEmitter.Emit | static/lightweight-charts.js:436-447 | the callbacks are invoked in the order the listeners stood when the emit began; a thrown error is caught; afterwards exactly the spent once wrappers are gone |
| Events.EventEmitter.Once | static/lightweight-charts.js:449-455 | a new wrapper around the callback is appended with on, and the wrapper count grows by one |
| Events.OffUndoesOn | static/lightweight-charts.js:417-434 | off(event, callback) after on(event, callback) leaves no registration of that callback and keeps the other listeners in order |
| Events.OffWithoutCallback | static/lightweight-charts.js:425-434 | off(event) deletes the event; off on an event without a list changes nothing |
| Events.OffMissesOnceWrapper | static/lightweight-charts.js:449-455 | off with the original callback does not remove a once registration of it, because off compares against the wrapper closure |
| Events.OnceFiresOnce | static/lightweight-charts.js:436-455 | the first emit after once invokes the callback; the wrapper is then gone, unless the callback threw, in which case it stays |
| Events.EmitKeepsPlainListeners | static/lightweight-charts.js:436-447 | emitting an event without listeners, or with plain listeners only, changes nothing |
| Registry.Without | static/lightweight-charts.js:478 | `Map.delete` leaves exactly the other ids, in their order |
| Registry.WithoutKeepsDistinct | static/lightweight-charts.js:478 | deleting an id keeps the ids free of repeats |
| Registry.LastIsNew | static/lightweight-charts.js:466 | in an order without repeats the newest id does not occur before it |
| Registry.OccurrencesOfMember | static/lightweight-charts.js:466 | in an order without repeats an id occurs once or not at all |
| Registry.Registered | static/lightweight-charts.js:465-471 | `Map.set` stores the chart under the id, and a known id keeps its place in the order; with isMain the chart becomes the main chart; the registry stays well formed |
| Registry.Unregistered | static/lightweight-charts.js:473-480 | the id is deleted, the main-chart field is cleared when the chart under the id is the main chart, and the registry stays well formed |
| Registry.AllCharts | static/lightweight-charts.js:486-488 | the registered charts in insertion order, one per id |
| Registry.ChartUnder | static/lightweight-charts.js:490-492 | the chart under a registered id, and undefined otherwise |
| Registry.ChartRegistry.constructor | static/lightweight-charts.js:462-463 | the static initialisers give an empty Map and no main chart |
| Registry.ChartRegistry.Register | static/lightweight-charts.js:465-471 | the new contents are `Registered` of the old ones |
| Registry.ChartRegistry.Unregister | static/lightweight-charts.js:473-480 | the new contents are `Unregistered` of the old ones |
| Registry.ChartRegistry.GetMainChart | static/lightweight-charts.js:482-484 | the main-chart field |
| Registry.ChartRegistry.GetAllCharts | static/lightweight-charts.js:486-488 | the charts in insertion order, as `AllCharts` |
| Registry.ChartRegistry.GetChart | static/lightweight-charts.js:490-492 | the chart under the id, as `ChartUnder` |
| Registry.ChartRegistry.Clear | static/lightweight-charts.js:494-498 | the registry is empty and has no main chart |
| Registry.ChartRegistry.GetChartCount | static/lightweight-charts.js:500-502 | the number of registered ids |
| Registry.MapSizeIsOrderLength | static/lightweight-charts.js:500-502 | a well-formed registry has as many map entries as ids in its order |
| Registry.RegisterThenGet | static/lightweight-charts.js:465-492 | after register the chart is found under the id; the count grows only for a new id; every other id maps as before |
| Registry.UnregisterMainClearsMain | static/lightweight-charts.js:473-480 | unregistering the main chart clears the main-chart field and the id, and keeps every other entry |
| Registry.UnregisterOtherKeepsMain | static/lightweight-charts.js:473-480 | unregistering any other chart keeps the main-chart field; the comparison is by chart, not by id |
| Registry.V1MainChartIsNeverMain | static/lightweight-charts.js:1125-1167 | in v1 a new MainChart is registered, but the main-chart field stays null, so the legend callbacks find no chart |
| Registry.V2MainChartIsMain | static/lightweight-charts-v2.js:853-872 | in v2 the second registration with isMain leaves one entry under the id and makes getMainChart() return the chart |
| TimeScaleSync.IndexOfId | static/lightweight-charts.js:4608 | the position of the registration with the id, or None when no registration has it |
| TimeScaleSync.SetRegistration | static/lightweight-charts.js:4607-4619 | `Map.set` keeps the ids distinct, stores the new registration, and keeps every registration of another id |
| TimeScaleSync.RemoveRegistration | static/lightweight-charts.js:4713-4718 | `Map.delete` leaves exactly the registrations of other ids, and the ids stay distinct |
| TimeScaleSync.PrimaryChart | static/lightweight-charts.js:4748-4755 | a primary chart is found exactly when some registration is primary, and it is the instance of the first such registration in insertion order |
| TimeScaleSync.ActionsForTarget | static/lightweight-charts.js:4668-4695 | the calls for one registration go to that chart, and only when it is a non-primary chart that has a chart |
| TimeScaleSync.SyncOnlyTouchesSecondaries | static/lightweight-charts.js:4661-4708 | every call of a sync goes to a registered non-primary chart that has a chart |
| TimeScaleSync.SyncReachesEverySecondary | static/lightweight-charts.js:4667-4695 | every registered non-primary chart with a chart gets the current domain, the current logical range and the bar options, whenever those are set |
| TimeScaleSync.SyncWithoutSecondaries | static/lightweight-charts.js:4661-4708 | when no secondary chart has a chart, a sync makes no calls |
| TimeScaleSync.SharedTimeScale.constructor | static/lightweight-charts.js:4592-4602 | no domain, no logical range, a null bar spacing, a right offset of 12, no charts, and no sync running |
| TimeScaleSync.SharedTimeScale.RegisterChart | static/lightweight-charts.js:4607-4638 | the registration is set with `Map.set`; a primary instance that already has a chart gets the two listeners; nothing else changes |
| TimeScaleSync.SharedTimeScale.SyncAllCharts | static/lightweight-charts.js:4661-4708 | during a running sync nothing happens; otherwise the calls of `SyncActions` are made chart by chart in insertion order, and the flag is clear afterwards |
| TimeScaleSync.SharedTimeScale.UpdateDomain | static/lightweight-charts.js:4643-4647 | the domain is replaced and a sync follows |
| TimeScaleSync.SharedTimeScale.UpdateLogicalRange | static/lightweight-charts.js:4652-4656 | the logical range is replaced and a sync follows |
| TimeScaleSync.SharedTimeScale.OnPrimaryTimeRangeChange | static/lightweight-charts.js:4626-4630 | the primary chart's time-range listener does nothing during a sync or for a null range, and otherwise updates the domain |
| TimeScaleSync.SharedTimeScale.OnPrimaryLogicalRangeChange | static/lightweight-charts.js:4633-4637 | the logical-range listener does nothing during a sync or for a null range, and otherwise updates the logical range |
| TimeScaleSync.SharedTimeScale.UnregisterChart | static/lightweight-charts.js:4713-4718 | the registration of the id is removed and nothing else changes |
| TimeScaleSync.SharedTimeScale.GetPrimaryChart | static/lightweight-charts.js:4748-4755 | the loop returns `PrimaryChart` of the registrations |
| TimeScaleSync.SharedTimeScale.ForceSync | static/lightweight-charts.js:4723-4743 | when there is a primary chart that has a chart, the four settings are copied from its time scale, and otherwise they are kept; then a sync follows |
| TimeScaleSync.MainWithSubCharts | static/lightweight-charts.js:4607-4755 | with the main chart registered as primary and the volume and squeeze charts as secondaries, getPrimaryChart returns the main chart and no sync call goes to it |
| StockSet.ColorSchemeFor | static/lightweight-charts.js:2150-2156 | one of the three colour schemes: the index's own for the first three stocks, the first scheme otherwise |
| StockSet.StockName | static/lightweight-charts.js:2176-2179 | the name is the two-character word for "stock" followed by the code |
| StockSet.NewStockInfo | static/lightweight-charts.js:2158-2165 | the record holds the code, its display name, the data and the colour scheme of its slot, and is the main stock exactly at slot 0 |
| StockSet.PadTo | static/lightweight-charts.js:2139-2147 | the array grows to at least n slots, keeps its entries and fills the new slots |
| StockSet.PadStep | static/lightweight-charts.js:2139-2147 | one more push of a padding loop is padding to one more slot |
| StockSet.StoredSlot | static/lightweight-charts.js:2139-2168 | after padding and writing slot index, that slot holds the value, old slots keep theirs, and new slots hold the fill |
| StockSet.StoreVisibilityAgrees | static/lightweight-charts-v2.js:1715-1738 | padding visibility with true (v1) and leaving holes (v2, where a hole reads as undefined) make the same stocks visible |
| StockSet.Toggled | static/lightweight-charts.js:1353 | toggling writes only slot index |
| StockSet.ToggleFlipsOne | static/lightweight-charts.js:1353 | toggling flips the visibility of that stock and of no other; toggling twice gives the same visibility back |
| StockSet.Ratios | static/lightweight-charts.js:1527-1531 | one ratio per stock: 1 without data, else the base price over the stock's first close |
| StockSet.EffectiveRatio | static/lightweight-charts.js:1546 | the stored ratio when it is truthy, else 1; the result is always truthy |
| StockSet.ScaleCandles | static/lightweight-charts.js:1549-1555 | one candle per original candle |
| StockSet.ScaleCandlesAt | static/lightweight-charts.js:1549-1555 | every candle is scaled in its place; none is added, dropped or moved |
| StockSet.ScaledCandleFields | static/lightweight-charts.js:1549-1555 | a scaled candle multiplies the four prices by the ratio and keeps every other field; the price fields exist afterwards even where they were missing |
| StockSet.ScaleByOne | static/lightweight-charts.js:1546-1555 | a ratio of 1 leaves a candle with numeric prices as it is |
| StockSet.NormalizedFirstClose | static/lightweight-charts.js:1527-1555 | a stock whose first close is finite and non-zero is scaled so that its first close becomes the base price |
| StockSet.BaseRatioIsOne | static/lightweight-charts.js:1522-1531 | the base stock's own ratio is 1 when its first close is a finite non-zero number |
| StockSet.ScaleValues | static/lightweight-charts.js:1583-1586 | one indicator point per original point |
| StockSet.ScaleValuesAt | static/lightweight-charts.js:1583-1586 | every indicator point is scaled in its place |
| StockSet.NormalizeIndicator | static/lightweight-charts.js:1573-1596 | a price indicator with a series and original data shows its original points scaled by the ratio; any other indicator is unchanged |
| StockSet.RestoreIndicator | static/lightweight-charts.js:1635-1653 | a price indicator with a series and original data shows its original points again; any other indicator is unchanged |
| StockSet.RestoreUndoesNormalize | static/lightweight-charts.js:1573-1653 | restoring after normalising with any ratio gives the same indicator as restoring at once |
| StockSet.IndicatorKinds | static/lightweight-charts.js:1581 | a supertrend line and ma5 are price indicators; squeeze and an indicator without a type are not |
| StockSet.NormalizeAll | static/lightweight-charts.js:1573 | every indicator of the stock is normalised, in its place |
| StockSet.RestoreAll | static/lightweight-charts.js:1635 | every indicator of the stock is restored, in its place |
| StockSet.UpdatedBelowAt | static/lightweight-charts.js:1543-1564 | after the loop has visited stocks 0 to n - 1, every touched entry below n holds its new value and every other entry its old one |
| StockSet.DisableUndoesEnable | static/lightweight-charts.js:1517-1662 | disabling after enabling gives the same candles and indicator lines as disabling alone, whatever the ratios were |
| StockSet.IndicatorsRestored | static/lightweight-charts.js:1542-1662 | the indicator half of the same statement |
| StockSet.EnableAlignsFirstCloses | static/lightweight-charts.js:1517-1565 | after enabling, the candles of each stock whose first close is finite and non-zero start at the base stock's first close, one candle per stored candle |
| StockSet.ReferenceUnique | static/lightweight-charts.js:3304-3310 | there is at most one reference stock: the first visible stock with data |
| StockSet.NormalizationNotNeeded | static/lightweight-charts.js:3297-3314 | no normalisation for one stock or none, and none when no stock is visible with data |
| StockSet.EqualClosesNotNeeded | static/lightweight-charts.js:3321-3349 | equal last closes never call for normalisation |
| StockSet.NormalizationExampleFar | static/lightweight-charts.js:3336-3344 | two visible stocks ending at 10 and 14 are 40% apart, so normalisation is needed |
| StockSet.NormalizationExampleNear | static/lightweight-charts.js:3336-3344 | two visible stocks ending at 10 and 12 are 20% apart, so it is not |
| StockSet.StockTimes | static/lightweight-charts.js:1419 | the converted times without NaN, never more than there are candles |
| StockSet.FiniteExtrema | static/lightweight-charts.js:1421-1422 | over a non-empty list of finite times, the spread minimum and maximum are finite, are members of the list and bound every time in it |
| StockSet.StockTimesFinite | static/lightweight-charts.js:1419 | when no stored time converts to an infinity, every kept time is finite |
| StockSet.TimesWithinWiden | static/lightweight-charts.js:1437-1442 | times within a range are within any wider range |
| StockSet.OwnTimesWithin | static/lightweight-charts.js:1421-1422 | a stock's own minimum and maximum bound its times |
| StockSet.MinMaxFinite | static/lightweight-charts.js:1423 | folding a finite time into the running minimum, which starts at Infinity, gives a finite minimum no larger than either |
| StockSet.MaxFinite | static/lightweight-charts.js:1424 | folding a finite time into the running maximum, which starts at -Infinity, gives a finite maximum no smaller than either |
| StockSet.PrefixVisible | static/lightweight-charts.js:1416-1429 | what holds for the first stocks of the list carries over to the whole list |
| StockSet.ExtremaStepContributes | static/lightweight-charts.js:1417-1427 | a visible stock with parseable times keeps the fold's invariant |
| StockSet.ExtremaStepSkips | static/lightweight-charts.js:1417-1428 | a hidden stock, or one without data or parseable times, leaves the fold as it was |
| StockSet.SkippedStockAddsNoTime | static/lightweight-charts.js:1417-1428 | a skipped stock adds no visible time |
| StockSet.SkippedStockWithin | static/lightweight-charts.js:1417-1428 | a skipped stock keeps every visible time within the bounds |
| StockSet.VisibleExtremaBounds | static/lightweight-charts.js:1412-1434 | the extrema stay infinite exactly when no visible stock has a time, and otherwise bound every visible stock's times |
| StockSet.Margin | static/lightweight-charts.js:1437-1438 | the margin on each side is never negative |
| StockSet.AdjustedFromFinite | static/lightweight-charts.js:1437-1442 | from finite extrema lo <= hi the range runs from lo minus the margin to hi plus the margin |
| StockSet.AdjustedRangeCoversVisibleTimes | static/lightweight-charts.js:1412-1452 | no range is set exactly when no visible stock has a parseable time; otherwise the range contains every time of every visible stock |
| StockSet.V1RangeIsExactSpan | static/lightweight-charts.js:1438 | with v1's margin of 0% the range is exactly the extrema |
| MainChartModel.ToggleTwiceRestores | static/lightweight-charts.js:1494-1627 | switching normalisation on and then off leaves the candles and indicator lines as switching it off at once would, with the ratios empty |
| MainChartModel.NormalizeStep | static/lightweight-charts.js:1543-1564 | one turn of the normalising loop replaces stock i's candles and indicator lines, if it has a record, and nothing else |
| MainChartModel.RestoreStep | static/lightweight-charts.js:1612-1622 | one turn of the restoring loop puts back stock i's original candles and indicator lines, if it has a record and original data, and nothing else |
| MainChartModel.IndexOf | static/lightweight-charts.js:4006 | -1 exactly when the id is not listed; otherwise the first index holding it |
| MainChartModel.RemoveFirstMultiset | static/lightweight-charts.js:4006-4009 | clearing a timer removes one occurrence of its id when it is listed, and nothing else |
| MainChartModel.RemoveFirstLength | static/lightweight-charts.js:4006-4009 | the list shrinks by one exactly when the id is listed |
| MainChartModel.RemoveFirstAbsent | static/lightweight-charts.js:4007 | clearing an id that is not listed leaves the list as it is |
| MainChartModel.SpliceAtIndexOf | static/lightweight-charts.js:4006-4008 | splicing out the element at indexOf removes the first occurrence |
| MainChartModel.MergedState | static/lightweight-charts.js:935 | the merged state has the keys of both; each new value wins and each other key keeps its value |
| MainChartModel.ZoomWithoutRange | static/lightweight-charts.js:2942-2955 | with no visible range, or with an end that does not parse, no zoomed range is computed |
| MainChartModel.MainChart.constructor | static/lightweight-charts.js:1126-1167 | a main chart starts with no stocks, no ratios, normalisation off, no timers, no zoom in progress and the initial state |
| MainChartModel.MainChart.StoreStockInfo | static/lightweight-charts.js:2127-2171 | the three arrays are padded with null, true and null up to index; slot index then holds the new record, the data and visibility true; the arrays stay aligned |
| MainChartModel.MainChart.StoreStockInfoV2 | static/lightweight-charts-v2.js:1715-1738 | the same slots are written, but the arrays grow with holes instead of padding values |
| MainChartModel.MainChart.ToggleStockVisibility | static/lightweight-charts.js:1349-1383 | an index outside the stocks changes nothing; otherwise exactly that stock's visibility flips |
| MainChartModel.MainChart.EnableNormalization | static/lightweight-charts.js:1517-1537 | with a base stock that has data, the ratios are set from the first closes and every stock is normalised; without one nothing changes |
| MainChartModel.MainChart.ApplyNormalization | static/lightweight-charts.js:1542-1565 | every stock with a record shows its original candles and price indicators scaled by its effective ratio; the other series keep what they showed |
| MainChartModel.MainChart.ApplyIndicatorNormalization | static/lightweight-charts.js:1570-1605 | every indicator of the stock is normalised with the given ratio, and no other stock's indicators change |
| MainChartModel.MainChart.DisableNormalization | static/lightweight-charts.js:1610-1627 | every stock with a record and original data shows its original candles and price indicators again, and the ratios are emptied |
| MainChartModel.MainChart.RestoreOriginalIndicators | static/lightweight-charts.js:1632-1662 | every indicator of the stock is restored, and no other stock's indicators change |
| MainChartModel.MainChart.ShouldEnableNormalization | static/lightweight-charts.js:3296-3357 | the answer is true exactly when some other visible stock with data ends more than 30% away from the first visible stock with data |
| MainChartModel.MainChart.SmartToggleNormalization | static/lightweight-charts.js:3362-3388 | returns whether normalisation is needed; when it is not, normalisation ends up off; when it is, the flag flips and the series are normalised or restored to match |
| MainChartModel.MainChart.ManualToggleNormalization | static/lightweight-charts.js:1494-1505 | the flag always flips, and the ratios and series become those of enabling or disabling to match it |
| MainChartModel.MainChart.AdjustTimeRangeToVisibleStocks | static/lightweight-charts.js:1388-1489 | the visible range becomes the extrema of the visible stocks' times, widened by the margin; without a chart or any such time it stays as it was |
| MainChartModel.MainChart.HandleManualZoom | static/lightweight-charts.js:2934-2994 | with a chart the zoom mark is always set; the range and a clearing timer change only when a zoomed range can be computed |
| MainChartModel.MainChart.HandleManualZoomV2 | static/lightweight-charts-v2.js:2449-2509 | the same, but no clearing timer is tracked |
| MainChartModel.MainChart.HandleManualZoomGuarded | static/lightweight-charts.js:2939-2988 | the zoom mark is set only together with a new range and a clearing timer; otherwise it stays as it was |
| MainChartModel.MainChart.ZoomTimerFired | static/lightweight-charts.js:2986-2988 | once the timer fires no zoom is in progress |
| MainChartModel.MainChart.CreateTimer | static/lightweight-charts.js:3995-3999 | the new id is appended to the tracked timers and returned |
| MainChartModel.MainChart.ClearTimer | static/lightweight-charts.js:4004-4010 | the first occurrence of the id leaves the tracked timers |
| MainChartModel.MainChart.ClearAllTimers | static/lightweight-charts.js:4015-4018 | no timer stays tracked |
| MainChartModel.MainChart.SetState | static/lightweight-charts.js:933-937 | the state becomes the old state merged with the new fields; the stateChange payload is the old and the merged state |

Where the repository's tests expect something the code does not do, the model follows the code:
`EventEmitter.on` keeps duplicate listeners (`Events.OnEvents`);
`off` with a callback leaves an empty list under the event (`Events.OffEvents`);
and `off` cannot remove a `once` wrapper by the original callback (`Events.OffMissesOnceWrapper`).

## Left out

- Network and persistence: the HTTP fetches of quotes and flow data, the chart data loaders, MongoDB, the Flask routes and the Futu `DataLoader` are all I/O. The quote fetch is a function parameter whose `None` stands for a caught URL error.
- Regular-expression extraction of the quote payload and gbk decoding are inside that fetch parameter. Python's `float()` on a field is a parameter too.
- Date parsing: `strptime` is modelled as strict zero-padded `YYYY-MM-DD` parsing, and `convertTimeToNumber` on strings goes through a `parseDate` parameter. Widths `strptime` accepts beyond that, and `Date` objects, are not modelled.
- Floating point: numbers are exact reals. Rounding, overflow and negative zero are not modelled. Logarithm, real powers, the standard deviation's square root and three-place rounding are parameters, with only the facts each lemma needs.
- pandas and numpy: frames are maps from column names to columns of equal length. Index alignment, dtypes and copy semantics are not modelled.
- Python 2 `list.sort(cmp=...)` is modelled by a stable insertion sort on the parsed dates; this is the order the comparator defines.
- The plotting half of the multifractal script, its distribution tests, `plot_supertrend` and every renderer, info bar and legend drawing are left out; they are UI.
- The script's `__main__` blocks are left out; they are drivers.
- Chart-library calls are not modelled. `setData` is modelled as a map from stock index to the data a series shows. `applyOptions`, `setMarkers`, `setVisibleRange` and the logical-range calls are otherwise left out; only the visible range the code sets is kept.
- Asynchrony: `setTimeout` callbacks, `debounce`, `throttle` and `requestAnimationFrame` are not run. Only the tracked `timers` list is modelled. The timer that clears the zoom mark is a separate method, `ZoomTimerFired`. The delayed time-range adjustment after `toggleStockVisibility` is not modelled.
- Exceptions thrown by the chart library are not modelled, nor the `try`/`catch` blocks around them. This covers the `catch` in `handleManualZoom` that clears the zoom mark, and a listener that throws during `SharedTimeScale` synchronisation.
- `JSON.parse(JSON.stringify(ohlc))` is modelled as an exact copy. The conversion of NaN and the infinities to `null` is not modelled.
- Console logging and the debug-only branches are left out; they have no effect on state.
- `generateId`'s randomness: chart ids are parameters.
- `clearData` and the other `BaseChart` members outside the core are left out.
- Normalisation ratios: the model stores one number per stock. A JavaScript array hole and an explicit `undefined` read the same way, and both become a ratio of 1.
- SuperTrend.Atr: requires `period >= 1`. pandas rejects a rolling window of 0, and the only callers pass a positive period.
- SuperTrend.Sma: requires `period >= 1` for the same reason.
- SuperTrend.AverageRange: requires `period >= 1` for the same reason.
- SuperTrend.Supertrend: requires `period >= 1`, as above. It also requires a rectangular frame, which every pandas frame is.
- SuperTrend.WebSupertrend: requires `period >= 1` and a rectangular frame, as above.
- Multifractal.CalcPartitionFunction: requires every increment to be at least 1. The script passes only the factors of 7560. An increment of 0 would divide by zero, and a negative increment would give an empty set of index pairs.
- StockQuote.Format: only the "%s" conversion is interpreted. "%%" and the other conversions are not; neither URL template contains one.
- JsValues.ToNumber: exponent notation, hexadecimal, octal and binary literals, and white space other than space, tab and line breaks are read as NaN. An object coerces to NaN rather than through its string form. Strings compare by character code, which matches JavaScript's UTF-16 order for the characters in the data.
- ChartData.SafeLogicalRange: JavaScript's `+` would concatenate a string `from`; the model adds numerically, as for the numeric logical ranges the library returns.
- ChartData.ZoomedRange: when `from` is a number and `to` a string, JavaScript's `+` concatenates; the model adds numerically.
- StockQuote.StoreFlowFields: this helper is split out of `get_flow_data` so that the field mapping can be stated on its own. It is not a separate function in the source.
- Events.EventEmitter.Once: the JavaScript method returns the emitter for chaining. The model returns the wrapper it registers instead, so that callers can state facts about it.

## Findings

| source | as written | input that shows it | evidently intended | confidence | as-written member | corrected member |
|---|---|---|---|---|---|---|
| static/lightweight-charts.js:1125-1167 | the v1 `MainChart` never registers itself as the main chart; only `BaseChart` registers it, without `isMain`, so `getMainChart()` stays null and the legend callbacks do nothing | construct one `MainChart` and call `chartRegistry.getMainChart()` | the constructor registers the chart with `isMain` true, as lightweight-charts-v2.js does at line 872 | not executed | Registry.V1MainChartIsNeverMain | Registry.V2MainChartIsMain |
| static/lightweight-charts.js:2934-2994 | `handleManualZoom` sets `_userIsZooming` before it checks the visible range, then returns early with no timer to clear the mark; price-range optimisation then stays blocked | a wheel event while `getVisibleRange()` returns null, or a range whose ends do not parse | set the mark only once a zoom is applied and its clearing timer is scheduled | not executed | MainChartModel.MainChart.HandleManualZoom | MainChartModel.MainChart.HandleManualZoomGuarded |
