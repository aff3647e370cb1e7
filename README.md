# Trading-data indicators and multi-timeframe synchronisation, in Dafny

This project models the computational core of a trading-data labelling system:

- the indicator engine `TechnicalIndicators` (`technical_indicators.py`): the EMAs of the
  close, ADX, ATR, SMI and the Pine-style squeeze momentum with its squeeze state, and
  `calculate_all_indicators`, which adds all of them to a copy of an OHLC frame;
- the stand-alone indicator functions of the download script (`download_trading_data.py`):
  `calculate_ema`, `calculate_adx`, `calculate_squeeze_momentum` and the `ema_cross` and
  `price_vs_ema55` columns;
- the three multi-timeframe synchronisers, which copy values of 4H bars onto the rows of a
  finer timeframe: `sincronizar_primary_secondary` of the 4H/1H and 4H/30m pipelines and
  `add_4h_context_to_1h` of the multitemporal trading pipeline;
- the configuration record `TradingConfig` and `ConfigLoader` (`config.py`).

A pandas frame is a `Frames.Frame`: column names in order, a map from name to a column of
`Cell`s, and a height. A missing value (NaN) and the
infinities a division by zero produces are both modelled as a missing value: `Null` in a
frame and `None` in an `Option<real>` series (see "Floating point" under "## Left out"). Timestamps are `Time(minutes)`. Integers and reals are exact.

The library modules model the numerical building blocks the indicators are written with:
`Ewm` is pandas' exponentially weighted mean as pandas computes it, including missing
inputs and both `adjust` modes, proved equal to the textbook EMA recurrence
(`adjust=False`) and to the normalised weighted sum (`adjust=True`); `Rolling` holds window
means, extremes and sample variances; `Ols` is the least-squares line through
`(1, y1) … (k, yk)`, proved to be the unique solution of the normal equations; `Roots`
decides comparisons of `m * sqrt(v)` with a number without computing a square root (for
the Bollinger width); `Series` holds differences, shifts, the true range and the
directional movements; `Strings` holds `str(n)`, zero padding, `int(text)` and `split`.

The routines that work step by step are methods with loops whose postconditions tie their
results to a function of their inputs (for example `TechnicalIndicators.DxLoop`,
`TechnicalIndicators.RegressBackwards`, `Alignment.CopyRows`, `Context1H.FillContext`).
The routines that write into the frame they receive (`calculate_adx` and
`calculate_squeeze_momentum` of the download script) are methods of the class
`DownloadIndicators.Table`. `TradingConfig` is a class because `__post_init__` updates the
record in place. `calculate_ema` of the download script is the same computation as
`TechnicalIndicators.calculate_ema` and is modelled once, by `TechnicalIndicators.Ema`.

## Model

| member | source | states |
|---|---|---|
| Ewm.Alpha | technical_indicators.py:254 | the smoothing factor of a span is 2/(span+1), in (0, 1] |
| Ewm.Decay | technical_indicators.py:254 | the old weight never grows under one more observation |
| Ewm.Step | technical_indicators.py:254 | one step of pandas' ewm mean keeps a non-negative old weight, and weight 1 while nothing has been observed |
| Ewm.StateAfter | technical_indicators.py:254 | the ewm state after k inputs has a non-negative weight, 1 while no value has been observed |
| Ewm.Mean | technical_indicators.py:254 | the ewm mean has one output per input, the average of the state after that input |
| Ewm.DefinedIff | technical_indicators.py:254 | the running average is defined exactly when some input so far was present |
| Ewm.MeanDefined | technical_indicators.py:254 | output i is present exactly when one of inputs 0..i is |
| Ewm.StateWithin | technical_indicators.py:254 | the running average stays between any bounds of the inputs seen so far |
| Ewm.MeanWithin | technical_indicators.py:254 | every output lies within the bounds of the inputs up to it |
| Ewm.StateAtLeast | technical_indicators.py:254 | the running average is at least any lower bound of the inputs so far |
| Ewm.MeanAtLeast | technical_indicators.py:254 | every output is at least any lower bound of the inputs up to it |
| Ewm.NonAdjustedStep | technical_indicators.py:71 | with adjust=False one step is alpha*x + (1-alpha)*previous |
| Ewm.NonAdjustedStateIsEma | technical_indicators.py:71 | with adjust=False and no missing inputs the state is the EMA recurrence seeded with the first value |
| Ewm.NonAdjustedIsEma | technical_indicators.py:71 | with adjust=False every output equals the EMA recurrence |
| Ewm.AdjustedStepValues | technical_indicators.py:254 | with adjust=True one step multiplies the weighted sums by (1-alpha) and adds the new value |
| Ewm.AdjustedStateRec | technical_indicators.py:254 | with adjust=True the state is numerator/denominator of the (1-alpha)-weighted recurrences |
| Ewm.RecurrencesAreSums | technical_indicators.py:254 | those recurrences are the power sums of (1-alpha)^(k-1-i) * x_i and of its weights |
| Ewm.AdjustedIsWeightedAverage | technical_indicators.py:254 | with adjust=True every output is present and times the total weight equals the weighted sum |
| Rolling.SumBounds | technical_indicators.py:137 | a sum of values within [lo, hi] lies within [n*lo, n*hi] |
| Rolling.MeanBetween | technical_indicators.py:137 | a mean lies between any bounds of its values |
| Rolling.Max | technical_indicators.py:150 | the maximum is at least every element and is one of them |
| Rolling.Min | technical_indicators.py:151 | the minimum is at most every element and is one of them |
| Rolling.SampleVariance | technical_indicators.py:180 | the sample variance (n-1 denominator) is non-negative |
| Rolling.Window | technical_indicators.py:219 | the window ending at i has w elements, element k being xs[i+1-w+k] |
| Rolling.RollingMeanAt | technical_indicators.py:137 | the rolling mean is present exactly from the first full window on, and lies between the window's minimum and maximum |
| Ols.SumsClosed | technical_indicators.py:158 | the sums of x and x^2 over 1..n have their closed forms |
| Ols.Regular | technical_indicators.py:163 | with two or more points the normal equations are non-singular |
| Ols.FitIsNormal | technical_indicators.py:163 | the fitted line solves the normal equations of least squares |
| Ols.NormalIsFit | technical_indicators.py:163 | with two or more points any solution of the normal equations is the fitted line |
| Ols.OnLineIsNormal | technical_indicators.py:163 | points lying on a line satisfy that line's normal equations |
| Ols.FitOfLine | technical_indicators.py:163 | points on a line are fitted by exactly that line |
| Ols.FitSingle | technical_indicators.py:163 | a single point is fitted by the flat line through it |
| Ols.LinregOfLine | technical_indicators.py:164 | the prediction at the last x of points on c + d*x is c + d*k |
| Ols.LinregSingle | technical_indicators.py:164 | the prediction for a single point is that point |
| Ols.LinregOfConstant | technical_indicators.py:164 | the prediction for a constant window is the constant |
| Roots.RootWitness | technical_indicators.py:201-202 | the square-root-free comparisons agree with comparing m*sqrt(v) to the threshold |
| Roots.BelowAboveExclusive | technical_indicators.py:201-202 | m*sqrt(v) is never both below and above the same threshold |
| Series.Abs | technical_indicators.py:246 | the absolute value is non-negative and is x or -x |
| Series.Max3 | technical_indicators.py:249 | the row-wise maximum of three is at least each and is one of them |
| Series.Diff | technical_indicators.py:80-82 | `high.diff()` filled with 0: 0 at the first bar, then h[i] - h[i-1] |
| Series.Fall | technical_indicators.py:81-83 | `-low.diff()` filled with 0: 0 at the first bar, then l[i-1] - l[i] |
| Series.HighLow | download_trading_data.py:70 | the high-low range bar by bar |
| Series.TrueRangeAt | technical_indicators.py:239-249 | the true range is the largest of high-low, abs(high-prev close), abs(low-prev close) and is non-negative |
| Series.TrueRangeNonNegative | technical_indicators.py:239-249 | the whole true range is non-negative when the first bar's low is at most its high |
| Series.DmExclusive | technical_indicators.py:91-99 | +DM and -DM are non-negative, at most one is positive, and each is positive exactly under its branch condition |
| Series.Div | technical_indicators.py:107-108 | a division is present exactly when both operands are and the divisor is non-zero, and then quotient*divisor = dividend |
| Series.Scale | technical_indicators.py:107 | scaling keeps presence and multiplies every present value |
| Series.FillNa | technical_indicators.py:141 | `fillna(v)` replaces exactly the missing values by v |
| Frames.OfOption | technical_indicators.py:141 | a missing value becomes a Null cell, a present one a number |
| Frames.Values | technical_indicators.py:71 | a numeric column read as reals, value by value |
| Frames.WithColumn | technical_indicators.py:44 | `df[name] = vals` sets that column and appends the name only when it is new |
| Frames.AddColumns | technical_indicators.py:40-63 | assigning several columns yields exactly the old and the new names |
| Frames.AssignColumns | technical_indicators.py:43-60 | the assignment loop builds the frame `AddColumns` describes |
| Frames.AddColumnsKeeps | technical_indicators.py:40 | a column not assigned keeps its values |
| Frames.AddColumnsHolds | technical_indicators.py:43-60 | the last assignment to a name wins, so with consistent duplicates each name holds its column |
| Frames.AddColumnsOrder | technical_indicators.py:43-60 | assigning only existing names keeps the column order |
| Frames.Without | multitemporal_pipeline_4h_1h.py:100 | removing a name leaves every other name and keeps them distinct |
| Frames.Drop | multitemporal_pipeline_4h_1h.py:100 | dropping a column removes exactly it and keeps every other column |
| Frames.Renamed | multitemporal_pipeline_4h_1h.py:97 | renaming maps each name through the dictionary, unlisted names unchanged |
| Frames.Position | multitemporal_pipeline_4h_1h.py:97 | the position of a name among distinct names is unique |
| Frames.RenameMoves | multitemporal_pipeline_4h_1h.py:97 | each column's values move to its new name |
| Frames.Rename | multitemporal_pipeline_4h_1h.py:97 | `rename(columns=m)` keeps the height and moves every column to its new name |
| Strings.DigitsRoundTrip | config.py:34 | a number printed in a fixed-width decimal field reads back as itself |
| Strings.DigitCount | technical_indicators.py:44 | the number of decimal digits of n is the least k with n < 10^k |
| Strings.NatToStringInjective | technical_indicators.py:44 | `str(n)` reads back as n, so distinct periods give distinct strings |
| Strings.Pad | config.py:34 | a zero-padded field is at least its width and all digits |
| Strings.PadWidth | config.py:34 | a value that fits pads to exactly the width |
| Strings.PadRoundTrip | config.py:34 | a zero-padded field reads back as its value |
| Strings.Strip | config.py:56 | stripping never lengthens and leaves no surrounding whitespace |
| Strings.ParseInt | config.py:56 | `int(text)` succeeds only on text with non-blank content |
| Strings.StripDigits | config.py:56 | digits alone are left unchanged by stripping |
| Strings.ParseUnsigned | config.py:56 | `int` of a digit string is its decimal value |
| Strings.ParseSigned | config.py:56 | `int` of a minus sign and digits is the negated value |
| Strings.ParseIntRoundTrip | config.py:56 | `int(str(i)) == i` for every integer |
| Strings.ParseIntRejects | config.py:56 | text without any digit is a ValueError |
| Strings.EndsWithAppend | config.py:35 | a string followed by a suffix ends with it |
| Strings.AppendCancel | multitemporal_pipeline_4h_30m.py:62-66 | two names with the same suffix appended are equal only when the names are |
| Strings.IndexOf | config.py:35 | the first occurrence of a separator and no earlier one |
| Strings.SplitPrefix | config.py:35 | splitting text that starts with a separator-free field yields that field first |
| Strings.SplitFour | config.py:35 | four separator-free fields joined by the separator split back into those four |
| TechnicalIndicators.EmaIsRecurrence | technical_indicators.py:69-71 | `calculate_ema` is the EMA recurrence with alpha = 2/(period+1), seeded with the first close |
| TechnicalIndicators.EmaWithin | technical_indicators.py:69-71 | the EMA is always defined and stays between the lowest and highest close so far |
| TechnicalIndicators.EmaOfConstant | technical_indicators.py:69-71 | the EMA of a constant close is that constant |
| TechnicalIndicators.DirectionalMovement | technical_indicators.py:91-99 | the row loop writes +DM and -DM of each bar's up and down moves |
| TechnicalIndicators.DxLoop | technical_indicators.py:112-116 | the row loop computes abs(+DI - -DI)/(+DI + -DI), dividing by 1 when the sum is 0 |
| TechnicalIndicators.CalculateAdxSmiStyle | technical_indicators.py:73-120 | the ADX method computes the specified ADX series |
| TechnicalIndicators.DxRatioBounded | technical_indicators.py:112-116 | with non-negative DIs the DX ratio lies in [0, 1] |
| TechnicalIndicators.DiNonNegative | technical_indicators.py:107-108 | a DI of a non-negative movement over a non-negative range is non-negative |
| TechnicalIndicators.SmmaNonNegative | technical_indicators.py:251-254 | the smoothed average of non-negative values is non-negative |
| TechnicalIndicators.DxRatiosBounded | technical_indicators.py:104-116 | every DX ratio of a bar series is within [0, 1] |
| TechnicalIndicators.AdxBounded | technical_indicators.py:118 | every defined ADX value lies in [0, 100] |
| TechnicalIndicators.AdxOfFlat | technical_indicators.py:87-118 | a flat series has zero true range, so its ADX is undefined (NaN) everywhere |
| TechnicalIndicators.AtrAt | technical_indicators.py:122-143 | ATR is 0 before the 14th bar, then the mean of the last 14 true ranges, and non-negative |
| TechnicalIndicators.MidSource | technical_indicators.py:149-154 | the SMI source is defined exactly from the first full window on |
| TechnicalIndicators.CenteredBounded | technical_indicators.py:152-154 | close minus the average of the channel midpoint and the SMA lies within the channel width |
| TechnicalIndicators.WindowBrackets | technical_indicators.py:149-151 | with lows at most closes at most highs, the window's closes lie between its lowest low and highest high |
| TechnicalIndicators.MidSourceBounded | technical_indicators.py:149-154 | the SMI source is bounded by the window's high-low spread |
| TechnicalIndicators.Reverse | technical_indicators.py:168 | reversing maps position i to position n-1-i |
| TechnicalIndicators.RegressBackwards | technical_indicators.py:157-170 | the backward regression loop, padding and reversal give the specified SMI series |
| TechnicalIndicators.CalculateSmiSmiStyle | technical_indicators.py:145-170 | the SMI method computes the specified SMI series |
| TechnicalIndicators.FlatSource | technical_indicators.py:149-155 | on a flat series the SMI source is 0 everywhere |
| TechnicalIndicators.SmiOfFlat | technical_indicators.py:145-170 | on a flat series the SMI is 0 everywhere |
| TechnicalIndicators.StateEncodingsInjective | technical_indicators.py:256-263 | the state labels and the state numbers 1/-1/0 each identify the state |
| TechnicalIndicators.BandsAt | technical_indicators.py:177-198 | the bands exist exactly when both windows are full and the standard deviation is defined |
| TechnicalIndicators.BandTests | technical_indicators.py:201-202 | the square-root-free squeeze tests are the Pine-style comparisons of the Bollinger and Keltner bands |
| TechnicalIndicators.SqueezeStateAt | technical_indicators.py:200-235 | the state is squeeze_on exactly when the bands are inside, squeeze_off exactly when outside, else no_squeeze (also during warm-up) |
| TechnicalIndicators.Present | technical_indicators.py:221 | a window with no NaN, read as values |
| TechnicalIndicators.MomentumAt | technical_indicators.py:206-228 | the momentum is 0 until the first NaN-free window (bar 2*kc-2), then the regression line's value at x = kc over that window |
| TechnicalIndicators.MomentumLoop | technical_indicators.py:216-228 | the regression loop computes the specified momentum series |
| TechnicalIndicators.CalculateSqueezeMomentum | technical_indicators.py:172-237 | the method returns the specified momentum and states |
| TechnicalIndicators.EmaName | technical_indicators.py:44 | an EMA column name is `ema` followed by the period |
| TechnicalIndicators.DefaultEmaNames | technical_indicators.py:34-35 | the default columns are ema10, ema55 and ema200 |
| TechnicalIndicators.EmaNameInjective | technical_indicators.py:44 | distinct periods name distinct columns |
| TechnicalIndicators.EmaColumns | technical_indicators.py:43-44 | one EMA column per requested period |
| TechnicalIndicators.Labels | technical_indicators.py:233-235 | the state column holds each bar's label |
| TechnicalIndicators.StateNumbers | technical_indicators.py:63 | the numeric state column holds each bar's number |
| TechnicalIndicators.AddedNames | technical_indicators.py:43-63 | the added names are the EMA names and then adx, atr, smi and the three squeeze columns |
| TechnicalIndicators.AddedColumns | technical_indicators.py:43-63 | each added name gets its indicator's column |
| TechnicalIndicators.IndicatorFrame | technical_indicators.py:19-67 | the result has the input's height and exactly the input columns plus the added ones |
| TechnicalIndicators.FixedNamesDistinct | technical_indicators.py:47-63 | the six fixed names are distinct and none starts with `ema` |
| TechnicalIndicators.NamesCollide | technical_indicators.py:43-63 | two added names coincide only for a repeated period |
| TechnicalIndicators.Assigned | technical_indicators.py:40-63 | the copy holds the input columns, overwritten ones replaced, and each added name holds its column |
| TechnicalIndicators.IndicatorEma | technical_indicators.py:43-44 | column `ema{p}` of the result is the EMA of the closes |
| TechnicalIndicators.IndicatorOthers | technical_indicators.py:47-63 | the adx, atr, smi and squeeze columns hold their indicators |
| TechnicalIndicators.IndicatorKeeps | technical_indicators.py:40 | an input column with no indicator name is copied unchanged |
| TechnicalIndicators.BarNamesUnassigned | technical_indicators.py:40 | open, high, low, close, volume, date and timestamp are never overwritten |
| TechnicalIndicators.EmaLoop | technical_indicators.py:43-44 | the loop over periods computes the EMA columns |
| TechnicalIndicators.OtherIndicators | technical_indicators.py:47-63 | the ADX, ATR, SMI and squeeze calls compute the other columns |
| TechnicalIndicators.CalculateAllIndicators | technical_indicators.py:19-67 | the method returns the specified indicator frame, whatever `atr_period` and the Bollinger/Keltner arguments are |
| DownloadIndicators.TrueRanges | download_trading_data.py:24-30 | the true range is missing at the first bar (no previous close) and present from then on |
| DownloadIndicators.TrueRangesAt | download_trading_data.py:24-30 | from the second bar the true range is the largest of the three ranges and non-negative |
| DownloadIndicators.DmAgree | download_trading_data.py:33-43 | the `np.where` +DM/-DM columns equal the row-loop ones of the indicator engine |
| DownloadIndicators.DmFacts | download_trading_data.py:33-43 | +DM and -DM are non-negative, never both positive, and 0 at the first bar |
| DownloadIndicators.DmSmoothIsEma | download_trading_data.py:47-48 | the smoothed movements are the EMA recurrence of the movement columns |
| DownloadIndicators.DiOf | download_trading_data.py:51-52 | a DI is present exactly when the smoothed range is non-zero, and DI * range = 100 * movement |
| DownloadIndicators.Dx | download_trading_data.py:55 | DX is present exactly when the DIs do not sum to 0, and DX * sum = 100 * abs(difference) |
| DownloadIndicators.TrSmoothNonNegative | download_trading_data.py:46 | the smoothed true range is non-negative |
| DownloadIndicators.DisNonNegative | download_trading_data.py:51-52 | both DIs are non-negative |
| DownloadIndicators.DxBounded | download_trading_data.py:55 | with non-negative DIs, DX lies in [0, 100] |
| DownloadIndicators.AdxBounded | download_trading_data.py:56 | every defined ADX value lies in [0, 100] |
| DownloadIndicators.AdxColumns | download_trading_data.py:24-56 | ten helper columns are written, the last one being the ADX |
| DownloadIndicators.BandsAt | download_trading_data.py:63-72 | the bands exist exactly when both windows are full and the standard deviation is defined |
| DownloadIndicators.KeltnerWidth | download_trading_data.py:70-72 | the Keltner channel is 2 * mult times the mean high-low range wide |
| DownloadIndicators.SqueezeExclusive | download_trading_data.py:75-76 | squeeze_on and squeeze_off never hold together |
| DownloadIndicators.Momentum | download_trading_data.py:79 | the four-bar momentum is missing for the first four bars |
| DownloadIndicators.SqueezeMomentumAt | download_trading_data.py:82-86 | 0 during a squeeze, else close[i] - close[i-4], missing for the first four bars |
| DownloadIndicators.DefaultWarmUp | download_trading_data.py:60-86 | with the default periods there is no squeeze before bar 19 |
| DownloadIndicators.StdCells | download_trading_data.py:64 | the standard deviation column holds sqrt(variance) where defined |
| DownloadIndicators.BandCells | download_trading_data.py:65-66 | a band column holds basis + k * sqrt(variance) where defined |
| DownloadIndicators.Channel | download_trading_data.py:71-72 | a Keltner line is present exactly when its middle and width are |
| DownloadIndicators.Flags | download_trading_data.py:75-76 | the squeeze columns hold the boolean tests |
| DownloadIndicators.SqueezeColumns | download_trading_data.py:63-86 | twelve helper columns are written, the last one being the squeeze momentum |
| DownloadIndicators.HelperNamesDistinct | download_trading_data.py:24-86 | the helper column names of each routine are distinct |
| DownloadIndicators.BarsNotHelpers | download_trading_data.py:24-86 | no helper column overwrites a bar column |
| DownloadIndicators.Written | download_trading_data.py:24-86 | after writing distinct columns each holds its values and the others are unchanged |
| DownloadIndicators.Table.constructor | download_trading_data.py:111 | the table holds the given frame |
| DownloadIndicators.Table.CalculateAdx | download_trading_data.py:21-58 | writes the ten ADX columns into the frame and returns the ADX |
| DownloadIndicators.Table.CalculateSqueezeMomentum | download_trading_data.py:60-88 | writes the twelve squeeze columns into the frame and returns the momentum |
| DownloadIndicators.AdxFrame | download_trading_data.py:115 | after `calculate_adx` the bar columns are unchanged and `adx` holds the ADX |
| DownloadIndicators.SqueezeFrame | download_trading_data.py:118 | after `calculate_squeeze_momentum` the bar columns are unchanged and `squeeze_momentum` holds the momentum |
| DownloadIndicators.EmaCross | download_trading_data.py:121 | `ema_cross` is always 1 or -1 |
| DownloadIndicators.EmaCrossOfCloses | download_trading_data.py:121 | `ema_cross` is 1 exactly when the 10-bar EMA of the closes is above the 55-bar one |
| DownloadIndicators.PriceVsEma | download_trading_data.py:122 | `price_vs_ema55` is present exactly when ema55 is present and non-zero |
| DownloadIndicators.PriceVsEmaAt | download_trading_data.py:122 | the percentage times ema55 is 100 * (close - ema55), positive exactly above a positive EMA |
| Alignment.CoverMask | multitemporal_pipeline_4h_1h.py:75-78 | the mask holds exactly at the 4H bars whose four hours contain the time |
| Alignment.PrefixMask | trading_pipeline_multitemporal.py:64 | the mask holds exactly at the 4H bars opened at or before the time |
| Alignment.IdxMax | multitemporal_pipeline_4h_1h.py:80-81 | `any()`/`idxmax()`: present exactly when some entry holds, and then the first one that holds |
| Alignment.MatchOf | multitemporal_pipeline_4h_1h.py:75-81 | the matched 4H bar contains the time and is the first that does; none exactly when no bar contains it |
| Alignment.PrefixMatchOf | trading_pipeline_multitemporal.py:64-66 | the matched bar opened at or before the time and is the first such bar |
| Alignment.PrefixPicksFirstBar | trading_pipeline_multitemporal.py:64-66 | on sorted bars the prefix match is always bar 0 once bar 0 has opened |
| Alignment.BoundaryGoesToNextBar | multitemporal_pipeline_4h_1h.py:75-78 | a time at the end of one 4H bar belongs to the next bar (half-open interval) |
| Alignment.MatchMonotone | multitemporal_pipeline_4h_1h.py:70-81 | on increasing bars later rows never match earlier bars |
| Alignment.ScanMatches | multitemporal_pipeline_4h_1h.py:70-81 | a single merge-like scan finds the same bar as the mask for every row |
| Alignment.DateTimes | multitemporal_pipeline_4h_1h.py:58-59 | the times of the `date` column |
| Alignment.Stamp | multitemporal_pipeline_4h_1h.py:58-59 | the `timestamp` column is set to the dates and every other column is kept |
| Alignment.MissingMask | multitemporal_pipeline_4h_30m.py:87-97 | marks the source columns the primary frame lacks |
| Alignment.Missing | multitemporal_pipeline_4h_30m.py:87-97 | the first source column the primary frame lacks, none when all exist |
| Alignment.CopyRows | multitemporal_pipeline_4h_30m.py:72-97 | the copy loop fails with KeyError of the first missing source exactly when some row matches a bar; otherwise each target column is the replicated source column |
| Alignment.CopyRow | multitemporal_pipeline_4h_30m.py:77-97 | one row: fails exactly when it matches a bar and a source is missing, otherwise copies the bar's values |
| Alignment.Assembled | multitemporal_pipeline_4h_1h.py:85-87 | writing the filled target columns gives the replicated frame |
| Alignment.NullsAddedStep | multitemporal_pipeline_4h_30m.py:68-69 | assigning one more None column keeps the columns-of-None invariant |
| Alignment.ContextCopied | multitemporal_pipeline_4h_1h.py:69-87 | each target column holds, row by row, the source value of the containing 4H bar, or None |
| Alignment.ComputeIndicators | multitemporal_pipeline_4h_1h.py:54-55 | the indicators of a frame |
| Alignment.AllIndicatorsKeep | multitemporal_pipeline_4h_1h.py:54-55 | the indicator frame keeps the height, the bar columns and the dates |
| Alignment.AllIndicatorsNames | multitemporal_pipeline_4h_1h.py:54-55 | the indicator frame's columns are the input's plus ema10, ema55, ema200 and the six indicator names |
| Sync4H1H.ContextName | multitemporal_pipeline_4h_1h.py:67 | a context column name ends in `_4h` |
| Sync4H1H.SecondaryName | multitemporal_pipeline_4h_1h.py:95 | a renamed secondary column ends in `_1h` |
| Sync4H1H.ContextSources | multitemporal_pipeline_4h_1h.py:62-66 | the copied primary columns are exactly those other than date and timestamp |
| Sync4H1H.ContextNames | multitemporal_pipeline_4h_1h.py:65-67 | one `{col}_4h` name per copied column, distinct when the columns are |
| Sync4H1H.ContextNameKept | multitemporal_pipeline_4h_1h.py:93-95 | a `_4h` column is never renamed |
| Sync4H1H.SecondaryNameFresh | multitemporal_pipeline_4h_1h.py:93-95 | a renamed name is itself one the rename would touch (it ends in `_1h`) |
| Sync4H1H.AddContextColumns | multitemporal_pipeline_4h_1h.py:64-67 | adds a None column for every copied primary column |
| Sync4H1H.ContextSourcesStep | multitemporal_pipeline_4h_1h.py:65-67 | one loop step adds the name of that column exactly when it is copied |
| Sync4H1H.BuildRenameMap | multitemporal_pipeline_4h_1h.py:90-95 | the map renames exactly the columns other than date, timestamp and `*_4h`, to `{col}_1h` |
| Sync4H1H.RenamedDistinct | multitemporal_pipeline_4h_1h.py:97 | the rename never makes two columns collide |
| Sync4H1H.SynchronizePrimarySecondary | multitemporal_pipeline_4h_1h.py:45-102 | result: secondary rows in order, date kept, each secondary column renamed `_1h` with its values, each primary column replicated as `_4h` from the containing bar or None, no timestamp, no other names |
| Sync4H1H.ClosesCarried | multitemporal_pipeline_4h_1h.py:69-97 | `close_1h` is the secondary close and `close_4h` at each row is the containing bar's close, or None |
| Sync4H1H.Synchronize | multitemporal_pipeline_4h_1h.py:57-102 | the synchronisation of two indicator frames meets that description |
| Sync4H1H.ReplicateContext | multitemporal_pipeline_4h_1h.py:57-87 | after the copy loop every copied column is replicated and the secondary columns are unchanged |
| Sync4H1H.RenameSecondary | multitemporal_pipeline_4h_1h.py:89-100 | the rename and drop move each secondary column to `_1h`, keep `_4h` and date, and leave only those names |
| Sync4H1H.TargetsKept | multitemporal_pipeline_4h_1h.py:93-95 | the `_4h` targets are never renamed |
| Sync4H1H.Prepared | multitemporal_pipeline_4h_1h.py:57-67 | after stamping and adding None columns the frames are ready for the copy loop |
| Sync4H1H.Renamings | multitemporal_pipeline_4h_1h.py:97-100 | after rename and drop each column is under its new name with its values |
| Sync4H1H.ResultNames | multitemporal_pipeline_4h_1h.py:97-100 | every result name is date or ends in `_1h` or `_4h` |
| Sync4H1H.Replicas | multitemporal_pipeline_4h_1h.py:85-87 | every copied primary column appears replicated under its `_4h` name |
| Sync4H30m.PrimaryNames | multitemporal_pipeline_4h_30m.py:62-66 | one `{col}_primary` name per source, distinct when the sources are, never `timestamp` |
| Sync4H30m.SourceColumnsFresh | multitemporal_pipeline_4h_30m.py:62-97 | eleven distinct sources and eleven distinct context names, none of them `timestamp` |
| Sync4H30m.InitContext | multitemporal_pipeline_4h_30m.py:68-69 | adds a None column for every context name |
| Sync4H30m.CopyContext | multitemporal_pipeline_4h_30m.py:58-100 | fails with KeyError of the first missing source exactly when a source is missing and some row matches; otherwise the synchronised frame |
| Sync4H30m.StampedSources | multitemporal_pipeline_4h_30m.py:59 | stamping the primary frame changes none of the source columns |
| Sync4H30m.NullTargets | multitemporal_pipeline_4h_30m.py:58-69 | after stamping and adding None columns every target is None and the stamps are the dates |
| Sync4H30m.Finished | multitemporal_pipeline_4h_30m.py:98-102 | dropping `timestamp` after the copy gives the synchronised frame |
| Sync4H30m.MissingSources | multitemporal_pipeline_4h_30m.py:87-97 | with the ten computed columns present, only `rsi` can be missing |
| Sync4H30m.RsiNotComputed | multitemporal_pipeline_4h_30m.py:97 | the indicator engine never adds `rsi` |
| Sync4H30m.Present | multitemporal_pipeline_4h_30m.py:54 | the indicator frame has the ten copied columns, and `rsi` only if the input had it |
| Sync4H30m.IndicatorSources | multitemporal_pipeline_4h_30m.py:54-97 | on an indicator frame the ten sources exist and `rsi` is missing unless the raw frame had it |
| Sync4H30m.SameMatches | multitemporal_pipeline_4h_30m.py:72-83 | computing indicators does not change which rows match a bar |
| Sync4H30m.SynchronizePrimarySecondary | multitemporal_pipeline_4h_30m.py:45-102 | as written: KeyError('rsi') exactly when the raw primary lacks `rsi` and some row lies in a bar; otherwise the eleven `_primary` columns replicated |
| Sync4H30m.SynchronizeCorrected | multitemporal_pipeline_4h_30m.py:45-102 | never fails: ten `_primary` columns replicated from the containing bar, `rsi_primary` None, other columns unchanged, no timestamp |
| Context1H.ContextNamesFresh | trading_pipeline_multitemporal.py:54-83 | the nine context names are distinct and none is `timestamp` |
| Context1H.ContextRow | trading_pipeline_multitemporal.py:70-83 | the four flags are booleans and ema_alignment implies tendencia, holding exactly when tendencia does and ema55 > ema200 |
| Context1H.LastAtOrBefore | trading_pipeline_multitemporal.py:63 | the last 4H bar opened at or before the time, none exactly when no bar has opened |
| Context1H.Pick | trading_pipeline_multitemporal.py:64-67 | the chosen bar opened at or before the time, and one is chosen exactly when some bar has |
| Context1H.WriteRow | trading_pipeline_multitemporal.py:70-83 | writing a row changes exactly row idx of every context column |
| Context1H.FillStep | trading_pipeline_multitemporal.py:60-83 | one iteration extends the filled prefix by one row |
| Context1H.FillRow | trading_pipeline_multitemporal.py:61-83 | one row: the bar's context written when a bar has opened, nothing otherwise |
| Context1H.FillContext | trading_pipeline_multitemporal.py:60-83 | every row is filled, and `matched` says whether any row had a bar |
| Context1H.Falses | trading_pipeline_multitemporal.py:54-57 | a column of False |
| Context1H.ResetFlags | trading_pipeline_multitemporal.py:54-57 | the four flag columns are set to False and the others kept |
| Context1H.AssignContext | trading_pipeline_multitemporal.py:70-83 | each context column holds its values; raw columns appear only if they existed or some row matched |
| Context1H.Initial | trading_pipeline_multitemporal.py:54-57 | the context columns before the loop |
| Context1H.StampsKept | trading_pipeline_multitemporal.py:50-57 | resetting the flags keeps the stamps equal to the dates |
| Context1H.InitialCells | trading_pipeline_multitemporal.py:54-57 | before the loop a flag cell is False and a raw cell is its old value or None |
| Context1H.AddContext | trading_pipeline_multitemporal.py:50-86 | the result has the 1H rows, flags defaulting to False, each row's context from the chosen 4H bar, no timestamp |
| Context1H.Contextualized | trading_pipeline_multitemporal.py:60-86 | the loop's result after dropping `timestamp` has the context described |
| Context1H.UnmatchedRow | trading_pipeline_multitemporal.py:65 | a row before every 4H bar has all four flags False and raw columns unchanged |
| Context1H.MatchedRow | trading_pipeline_multitemporal.py:70-83 | a matched row holds exactly the four comparisons and five raw values of the chosen bar |
| Context1H.MatchedCells | trading_pipeline_multitemporal.py:70-83 | a matched row holds the chosen bar's context row |
| Context1H.AlignmentImpliesTrend | trading_pipeline_multitemporal.py:70-76 | ema_alignment_4h true implies tendencia_4h true, on every row |
| Context1H.AsWrittenPicksFirstBar | trading_pipeline_multitemporal.py:64-67 | as written, with sorted 4H bars every matched 1H row gets the context of the first 4H bar |
| Context1H.FirstBarCounterexample | trading_pipeline_multitemporal.py:64-66 | bars at 00:00 and 04:00 and a row at 05:00: idxmax picks the 00:00 bar, the containing bar is the 04:00 one |
| Context1H.CorrectedUsesContainingBar | trading_pipeline_multitemporal.py:63-67 | corrected: with 4H-spaced bars each row gets the context of the bar containing it |
| Context1H.IndicatorSources | trading_pipeline_multitemporal.py:47 | the 4H indicator frame has every column the context reads |
| Context1H.SourcesPresent | trading_pipeline_multitemporal.py:47 | close, ema10, ema55, ema200, smi and adx exist after the indicators |
| Context1H.AddContextTo1H | trading_pipeline_multitemporal.py:40-88 | as written: the 1H indicator frame with the nine context columns from the first 4H bar opened at or before the row |
| Context1H.AddContextCorrected | trading_pipeline_multitemporal.py:40-88 | corrected: the same with the latest 4H bar opened at or before the row, which is the containing one |
| Config.Timestamp | config.py:34 | `%Y%m%d_%H%M%S` is fifteen characters: eight digits, `_`, six digits |
| Config.DateRoundTrip | config.py:34 | the date digits read back as year, month and day |
| Config.TimeRoundTrip | config.py:34 | the time digits read back as hour, minute and second |
| Config.FileNameSplit | config.py:35 | the name splits on `_` into symbol, interval, date and time + `.csv` |
| Config.FileName | config.py:31-35 | the name has the fields' length plus 21, ends in `.csv` and splits back into its fields |
| Config.TradingConfig.constructor | config.py:10-39 | every field is the argument, with ema_periods defaulting to [10, 55, 200] |
| Config.TradingConfig.PostInit | config.py:37-39 | only ema_periods changes, and only from None to [10, 55, 200] |
| Config.TradingConfig.OutputFilename | config.py:31-35 | the file name of this configuration's symbol and interval at the given time |
| Config.Default | config.py:59-62 | every field holds its declared default |
| Config.GetEnv | config.py:54-55 | `os.getenv(name, fallback)`: the variable when set, else the fallback |
| Config.ThousandValue | config.py:56 | the fallback text `1000` reads as 1000 |
| Config.EnvLimit | config.py:56 | the limit is 1000 when unset, the parsed integer when it parses, else a ValueError carrying the text |
| Config.FromEnv | config.py:50-57 | fails exactly when the limit does not parse; otherwise symbol, interval and limit from the environment and defaults elsewhere |
| Config.DefaultFileNameFields | config.py:15-35 | the default file name starts with the fields BTCUSDT and 4h |

## Left out

- Downloading, the exchange client, file output, logging and `print` are not modelled; the
  synchronisers take the frames they would receive.
- The clock (`datetime.now()`) is a parameter of `Config.FileName` and
  `Config.TradingConfig.OutputFilename`; the environment is a map parameter of `Config.FromEnv`.
- `pd.to_datetime` parsing: the `date` column already holds times in minutes (`Time`).
- Index labels are row positions: `idxmax`, `.loc` and `.at` use the default RangeIndex.
- `ConfigLoader.from_dict` (config.py:46-48) is not modelled: it passes untyped keyword
  arguments to the constructor, which `Config.TradingConfig.constructor` already covers.
- Floating point: all arithmetic is exact on reals; NaN and the infinities of a division by
  zero are both a missing value. In pandas an infinity stays an infinity: `price_vs_ema55`
  (download_trading_data.py:122) holds ±inf when `ema55` is 0 and `dropna` keeps that row,
  and the stored `plus_di`/`minus_di` columns (lines 51-52) hold inf where `tr_smooth` is 0
  and the smoothed movement is not; the model holds a missing value there.
- `np.std` and the square root: the standard deviation is kept symbolically (a `Surd` cell,
  `basis + k * sqrt(variance)`) and compared through `Roots`.
- The download script's column selection, `dropna` and date formatting (lines 124-139) are
  outside the modelled functions.
- Context1H.ContextRow: comparing a non-numeric or missing cell gives False rather than the
  TypeError or NaN comparison of pandas.
- Context1H.AddContext: the context values are written into whole columns after the row
  loop rather than cell by cell with `.at`; the cells written are the same. Column order is
  not stated.
- Sync4H1H.SynchronizePrimarySecondary: the order of the result's columns is not stated,
  only their names and values.
- Sync4H30m.SynchronizePrimarySecondary: the order of the result's columns is not stated.
- Config.EnvLimit: the model accepts surrounding ASCII whitespace, an optional sign (`+` or
  `-`) and ASCII digits; it does not accept underscores between digits, non-ASCII digits or
  non-ASCII whitespace, which Python's `int()` also accepts.
- Config.Timestamp: years before 1000 (which `%Y` prints without padding on some platforms)
  are excluded by `DateTime.Valid`.
- TechnicalIndicators.Ema, TechnicalIndicators.EmaIsRecurrence, TechnicalIndicators.EmaWithin,
  TechnicalIndicators.EmaOfConstant, TechnicalIndicators.Smma, TechnicalIndicators.PositivePeriods,
  TechnicalIndicators.IndicatorFrame, TechnicalIndicators.CalculateAllIndicators,
  DownloadIndicators.Smooth, DownloadIndicators.Table.CalculateAdx and the other members with a
  period, span or window length: a length of 0 is excluded by their requires. In the source an
  `ewm` span below 1 raises ValueError, and the regression fit over an empty window raises too;
  that error path is not modelled. Every call site in the repository passes constants of at
  least 1.
- TechnicalIndicators.CalculateAllIndicators: takes `atr_period`, `bb_length`, `bb_mult`,
  `kc_length`, `kc_mult` and `use_true_range` and ignores them, as the source does
  (technical_indicators.py:21-27): `atr_period` is only logged (line 36) and the squeeze call
  (lines 56-58) uses 18, 2.0, 20, 1.5 and true whatever is passed.

## Findings

| source | as written | input that shows it | evidently intended | confidence | as-written member | corrected member |
|---|---|---|---|---|---|---|
| multitemporal_pipeline_4h_30m.py:97 | copies `primary_row['rsi']`, a column `calculate_all_indicators` never creates | any raw 4H frame without `rsi` and one 30m row inside a 4H bar: KeyError('rsi') | copy the ten computed columns and leave `rsi_primary` None | not executed | Sync4H30m.SynchronizePrimarySecondary | Sync4H30m.SynchronizeCorrected |
| trading_pipeline_multitemporal.py:64-66 | `(t_4h <= t_1h).idxmax()` returns the FIRST 4H bar opened at or before the row | 4H bars at 00:00 and 04:00, a 1H row at 05:00: the 00:00 bar is used | the latest such bar, the one containing the row | not executed | Context1H.FirstBarCounterexample | Context1H.AddContextCorrected |
