# Multi-confirmation signal engine: a Dafny model

This project models the signal engine of a multi-timeframe trading bot and
proves properties of it. The engine has three parts:

- **Indicator library.** Helpers that map a price series to an aligned
  series: EMA, simple rolling mean, RSI, MACD, Bollinger bands, true range
  and ATR.
- **Signal evaluator** (`compute_signals`). It rejects series shorter than
  50 candles. Otherwise it copies the frame, adds the indicator columns, and
  reads the last row. Five filters then vote BUY and/or SELL: trend, RSI,
  MACD, Bollinger proximity and volume spike. A signal is emitted only when
  one side strictly outscores the other with at least 3 votes. Its
  confidence is score/5·100.
- **Target calculator** (`calc_tp_sl_from_atr`). It places the take-profit
  1.8 ATR and the stop-loss 1 ATR from the close, on the side given by a
  case-insensitive direction test, and rounds both to hundredths.

Files:

- `options.dfy`: `Option`, which stands for the NaN entries of a rolling
  window that has not yet filled.
- `indicators.dfy`: module `Indicators`, the indicator library over
  `seq<real>`.
- `signals.dfy`: module `Signals`. It holds the candle and result datatypes,
  the five filters, the scores, `Decide`, the evaluator as a function
  (`Evaluate`), and the evaluator as `compute_signals` runs it: `ComputeSignals`
  over a `Frame` object whose indicator columns are added in place. It also
  holds the kline-row assembly (`AssembleCandles`).
- `targets.dfy`: module `Targets`, the TP/SL calculator.

Prices are Dafny `real`s, not floats. The square root inside the Bollinger
standard deviation is a parameter `root: real -> real` of the evaluator. The
variance under it is modelled exactly: population variance, with the window
size as divisor.

A series that never falls has a rolling loss mean of 0. The code turns that
0 into NaN and fills the result with 50, so the RSI of such a series is 50 at
every index and it casts no RSI vote (`Indicators.RsiNonDecreasing`). Where
the loss mean is positive, RSI = 100·g/(g+l), which lies in [0, 100).

## Model

Source paths are relative to the repository root.

| member | source | states |
|---|---|---|
| Indicators.RollingMean | advanced_trading_bot/advanced_trading_bot/strategies/multi_tf_scanner.py:30 | `rolling(length).mean()` keeps the input's length and is defined (Some) exactly from index length-1 on |
| Indicators.RollingMeanBounds | advanced_trading_bot/advanced_trading_bot/strategies/multi_tf_scanner.py:30 | every filled rolling mean lies within any bounds of the input |
| Indicators.MeanAtLeast | advanced_trading_bot/advanced_trading_bot/strategies/multi_tf_scanner.py:89 | a mean is at least any lower bound of its elements |
| Indicators.Alpha | advanced_trading_bot/advanced_trading_bot/strategies/multi_tf_scanner.py:11 | the smoothing factor 2/(span+1) lies in (0, 1] for every span ≥ 1 |
| Indicators.EmaWith | advanced_trading_bot/advanced_trading_bot/strategies/multi_tf_scanner.py:10-11 | the unadjusted EMA recurrence yields one value per input value |
| Indicators.Ema | advanced_trading_bot/advanced_trading_bot/strategies/multi_tf_scanner.py:10-11 | `ema(series, length)` has the input's length |
| Indicators.EmaPrefix | advanced_trading_bot/advanced_trading_bot/strategies/multi_tf_scanner.py:10-11 | the EMA of a prefix is the prefix of the EMA (no value depends on later input) |
| Indicators.EmaSeed | advanced_trading_bot/advanced_trading_bot/strategies/multi_tf_scanner.py:10-11 | e[0] = v[0]: the EMA is seeded by the first value |
| Indicators.EmaRecurrence | advanced_trading_bot/advanced_trading_bot/strategies/multi_tf_scanner.py:10-11 | e[i] = α·v[i] + (1−α)·e[i−1] for every later index, with α = 2/(length+1) |
| Indicators.EmaBounds | advanced_trading_bot/advanced_trading_bot/strategies/multi_tf_scanner.py:10-11 | the EMA never leaves the range [lo, hi] of its input |
| Indicators.EmaConstant | advanced_trading_bot/advanced_trading_bot/strategies/multi_tf_scanner.py:10-11 | a constant input yields that constant at every index |
| Indicators.Gains | advanced_trading_bot/advanced_trading_bot/strategies/multi_tf_scanner.py:14-15 | `delta.where(delta > 0, 0)` is non-negative everywhere, 0 at bar 0 where the delta is undefined |
| Indicators.Losses | advanced_trading_bot/advanced_trading_bot/strategies/multi_tf_scanner.py:14-16 | `-delta.where(delta < 0, 0)` is non-negative everywhere |
| Indicators.RsiValue | advanced_trading_bot/advanced_trading_bot/strategies/multi_tf_scanner.py:17-19 | 50 when the loss mean is missing or 0; otherwise in [0, 100) |
| Indicators.RsiRatioBounds | advanced_trading_bot/advanced_trading_bot/strategies/multi_tf_scanner.py:18 | 100 − 100/(1 + g/l) lies in [0, 100) for g ≥ 0 and l > 0 |
| Indicators.RollingMeanNonNegative | advanced_trading_bot/advanced_trading_bot/strategies/multi_tf_scanner.py:15-16 | rolling means of a non-negative series are non-negative |
| Indicators.Rsi | advanced_trading_bot/advanced_trading_bot/strategies/multi_tf_scanner.py:13-19 | `rsi(series, length)` has the input's length and lies in [0, 100) at every index |
| Indicators.RsiNeutral | advanced_trading_bot/advanced_trading_bot/strategies/multi_tf_scanner.py:17-19 | RSI is exactly 50 before the window fills and wherever the loss mean is 0 |
| Indicators.RsiNonDecreasing | advanced_trading_bot/advanced_trading_bot/strategies/multi_tf_scanner.py:13-19 | a series that never falls has RSI 50 at every index (so a rising series casts no RSI vote) |
| Indicators.RsiThresholds | advanced_trading_bot/advanced_trading_bot/strategies/multi_tf_scanner.py:17-18 | with loss mean l > 0, RSI = 100·g/(g+l); RSI > 55 iff 9g > 11l, and RSI < 45 iff 11g < 9l |
| Indicators.MacdOf | advanced_trading_bot/advanced_trading_bot/strategies/multi_tf_scanner.py:21-27 | MACD line, signal and histogram all have the input's length |
| Indicators.MacdConstant | advanced_trading_bot/advanced_trading_bot/strategies/multi_tf_scanner.py:21-27 | a constant series has MACD line, signal and histogram 0 everywhere |
| Indicators.SquaredDeviations | advanced_trading_bot/advanced_trading_bot/strategies/multi_tf_scanner.py:31 | a sum of squared deviations is non-negative |
| Indicators.PopVariance | advanced_trading_bot/advanced_trading_bot/strategies/multi_tf_scanner.py:31 | the population variance (divisor = window size) is non-negative |
| Indicators.SquaredDeviationsConstant | advanced_trading_bot/advanced_trading_bot/strategies/multi_tf_scanner.py:31 | a constant window has zero squared deviation from its value |
| Indicators.RollingStd | advanced_trading_bot/advanced_trading_bot/strategies/multi_tf_scanner.py:31 | the rolling deviation has the input's length and is defined exactly from index length-1 on |
| Indicators.Offset | advanced_trading_bot/advanced_trading_bot/strategies/multi_tf_scanner.py:32-33 | basis + k·dev is defined exactly where both are |
| Indicators.Bollinger | advanced_trading_bot/advanced_trading_bot/strategies/multi_tf_scanner.py:29-34 | basis, upper and lower keep the input's length and are all defined exactly from index length-1 on |
| Indicators.BollingerShape | advanced_trading_bot/advanced_trading_bot/strategies/multi_tf_scanner.py:30-33 | basis is the window mean; upper and lower sit mult·dev above and below it; lower ≤ basis ≤ upper when mult ≥ 0 and the root is non-negative |
| Indicators.BollingerConstant | advanced_trading_bot/advanced_trading_bot/strategies/multi_tf_scanner.py:30-31 | on a constant series the basis is the constant and the window variance is 0 |
| Indicators.Max3 | advanced_trading_bot/advanced_trading_bot/strategies/multi_tf_scanner.py:38 | the row-wise max is at least each term and equals one of them |
| Indicators.TrueRange | advanced_trading_bot/advanced_trading_bot/strategies/multi_tf_scanner.py:36-39 | `true_range` keeps the input's length |
| Indicators.TrueRangeBounds | advanced_trading_bot/advanced_trading_bot/strategies/multi_tf_scanner.py:36-39 | bar 0 gives high−low (no previous close); every later bar is ≥ high−low and ≥ both distances from the previous close, and equals one of the three |
| Indicators.Atr | advanced_trading_bot/advanced_trading_bot/strategies/multi_tf_scanner.py:41-43 | ATR keeps the input's length and is defined exactly from index length-1 on |
| Indicators.AtrWindowMean | advanced_trading_bot/advanced_trading_bot/strategies/multi_tf_scanner.py:41-43 | ATR is missing for the first length−1 bars and is the mean of the last `length` true ranges afterwards |
| Indicators.AtrNonNegative | advanced_trading_bot/advanced_trading_bot/strategies/multi_tf_scanner.py:36-43 | with high ≥ low on every bar, ATR is non-negative wherever defined |
| Signals.TrendVote | advanced_trading_bot/advanced_trading_bot/strategies/multi_tf_scanner.py:71-72 | the trend filter never votes both BUY and SELL |
| Signals.RsiVote | advanced_trading_bot/advanced_trading_bot/strategies/multi_tf_scanner.py:74-75 | the RSI filter never votes both ways and abstains for RSI in [45, 55] |
| Signals.MacdVote | advanced_trading_bot/advanced_trading_bot/strategies/multi_tf_scanner.py:77-78 | the MACD filter never votes both BUY and SELL |
| Signals.BandWidth | advanced_trading_bot/advanced_trading_bot/strategies/multi_tf_scanner.py:82 | the band width is max(1e-6, upper − lower): at least both, and equal to one of them |
| Signals.BollingerVote | advanced_trading_bot/advanced_trading_bot/strategies/multi_tf_scanner.py:82-86 | both Bollinger votes fire only when the band is narrower than 1e-6 |
| Signals.VolumeVote | advanced_trading_bot/advanced_trading_bot/strategies/multi_tf_scanner.py:89-91 | a volume spike votes for both sides, no spike for neither |
| Signals.VolumeBaseline | advanced_trading_bot/advanced_trading_bot/strategies/multi_tf_scanner.py:89 | `tail(21).iloc[:-1].mean()` is the mean of the 20 volumes at indices n−21 .. n−2, the last candle excluded |
| Signals.VolumeBaselineNonNegative | advanced_trading_bot/advanced_trading_bot/strategies/multi_tf_scanner.py:89 | with non-negative volumes in that window the baseline is non-negative |
| Signals.VolumeSpike | advanced_trading_bot/advanced_trading_bot/strategies/multi_tf_scanner.py:89 | the `>` 1.5 × baseline test; with a non-negative baseline a spike lies strictly above the baseline |
| Signals.VolumeBaselineWindow | advanced_trading_bot/advanced_trading_bot/strategies/multi_tf_scanner.py:89 | `tail(21).iloc[:-1].mean()` depends only on the volumes at indices n−21 .. n−2: the last candle is excluded |
| Signals.VolumeSpikeNeedsOutlier | advanced_trading_bot/advanced_trading_bot/strategies/multi_tf_scanner.py:89 | a spike needs some volume among those 20 to be below two thirds of the last volume |
| Signals.Votes | advanced_trading_bot/advanced_trading_bot/strategies/multi_tf_scanner.py:93-94 | there are exactly five filters |
| Signals.BuyScore | advanced_trading_bot/advanced_trading_bot/strategies/multi_tf_scanner.py:93 | the BUY score counts at most one per vote, hence lies in 0..5 |
| Signals.SellScore | advanced_trading_bot/advanced_trading_bot/strategies/multi_tf_scanner.py:94 | the SELL score counts at most one per vote, hence lies in 0..5 |
| Signals.ScoresOfFive | advanced_trading_bot/advanced_trading_bot/strategies/multi_tf_scanner.py:93-94 | each score is the sum of the five filters' votes for that side |
| Signals.VolumeSpikeAddsToBoth | advanced_trading_bot/advanced_trading_bot/strategies/multi_tf_scanner.py:89-94 | a spike adds exactly 1 to both scores, so buy − sell never changes |
| Signals.Confidence | advanced_trading_bot/advanced_trading_bot/strategies/multi_tf_scanner.py:108 | for scores 3..5, score/5·100 is 20 per vote and one of 60, 80, 100 |
| Signals.Decide | advanced_trading_bot/advanced_trading_bot/strategies/multi_tf_scanner.py:96-114 | a signal iff one side strictly wins with ≥ 3 votes; ties, 4–4 included, give "no-confirmation"; BUY iff buy > sell; confidence 20 × the winner's score ∈ {60, 80, 100}; close, ATR and details from the last row |
| Signals.DetailsOf | advanced_trading_bot/advanced_trading_bot/strategies/multi_tf_scanner.py:115-121 | the details carry the last row's EMAs, RSI, MACD line and signal, band levels and volume |
| Signals.IndicatorColumns | advanced_trading_bot/advanced_trading_bot/strategies/multi_tf_scanner.py:57-65 | with at least 20 rows every column has one entry per row, and every rolling column (Bollinger basis, upper and lower, ATR) is filled at the last row |
| Signals.RowAt | advanced_trading_bot/advanced_trading_bot/strategies/multi_tf_scanner.py:67 | `df.iloc[-1]`: the last candle's close and volume, and the filled band and ATR columns at the last index |
| Signals.LastRow | advanced_trading_bot/advanced_trading_bot/strategies/multi_tf_scanner.py:67 | the last row of the frame with its indicator columns carries the last candle's close and volume |
| Signals.Evaluate | advanced_trading_bot/advanced_trading_bot/strategies/multi_tf_scanner.py:53-54 | "not-enough-data" exactly for series shorter than 50, the empty one included, whatever they hold |
| Signals.LastRowValues | advanced_trading_bot/advanced_trading_bot/strategies/multi_tf_scanner.py:67 | the last row holds every indicator at the last index |
| Signals.LastRowReads | advanced_trading_bot/advanced_trading_bot/strategies/multi_tf_scanner.py:65-67 | the last row's close and volume are the last candle's, its ATR the mean of the last 14 true ranges |
| Signals.SignalReadsLastBar | advanced_trading_bot/advanced_trading_bot/strategies/multi_tf_scanner.py:110-122 | a signal needs ≥ 50 rows and reports the last close, the 14-bar ATR ending at the last bar, and the last volume; its direction is BUY iff the last row's BUY score beats its SELL score |
| Signals.SignalAtrNonNegative | advanced_trading_bot/advanced_trading_bot/strategies/multi_tf_scanner.py:65 | with high ≥ low on every candle, a signal's ATR is non-negative |
| Signals.BalancedRowNoConfirmation | advanced_trading_bot/advanced_trading_bot/strategies/multi_tf_scanner.py:71-106 | equal EMAs, RSI in [45, 55], MACD on its signal and the close midway between the bands give "no-confirmation", with or without a volume spike |
| Signals.ConstantColumns | advanced_trading_bot/advanced_trading_bot/strategies/multi_tf_scanner.py:57-62 | a constant close series has both EMAs at the price, RSI 50 and MACD line and signal 0 at the last index |
| Signals.ConstantBands | advanced_trading_bot/advanced_trading_bot/strategies/multi_tf_scanner.py:63-64 | on a constant close series the last close is midway between the bands |
| Signals.ConstantBaseline | advanced_trading_bot/advanced_trading_bot/strategies/multi_tf_scanner.py:89 | with constant volume, the mean of the 20 prior volumes is that volume |
| Signals.ConstantLastRow | advanced_trading_bot/advanced_trading_bot/strategies/multi_tf_scanner.py:56-89 | the last row of a series with constant closes and volumes is balanced in every filter |
| Signals.ConstantSeriesNoConfirmation | advanced_trading_bot/advanced_trading_bot/strategies/multi_tf_scanner.py:48-106 | a series of ≥ 50 candles with constant close and volume never gives a signal, whatever the volume and whatever the square root does |
| Signals.Frame.Copy | advanced_trading_bot/advanced_trading_bot/strategies/multi_tf_scanner.py:56 | `df.copy()`: a fresh frame holding the candles and no indicator columns |
| Signals.Frame.AddIndicatorColumns | advanced_trading_bot/advanced_trading_bot/strategies/multi_tf_scanner.py:57-65 | adds each indicator column in place; afterwards the columns are the indicators of the unchanged rows |
| Signals.ComputeSignals | advanced_trading_bot/advanced_trading_bot/strategies/multi_tf_scanner.py:48-122 | copying the frame, adding the columns and deciding on the last row gives exactly `Evaluate`; short series give "not-enough-data" |
| Signals.AssembleCandles | advanced_trading_bot/advanced_trading_bot/strategies/multi_tf_scanner.py:124-143 | one candle per kline row, in order, from columns 0..5 with the timestamp truncated to an integer; fails exactly when some row has fewer than 6 cells |
| Signals.TruncToInt | advanced_trading_bot/advanced_trading_bot/strategies/multi_tf_scanner.py:138-140 | `int()` truncates toward zero: below x by less than 1 for x ≥ 0, above x by less than 1 for x < 0 |
| Signals.ToCandle | advanced_trading_bot/advanced_trading_bot/strategies/multi_tf_scanner.py:136-141 | one normalised row: the truncated timestamp, then open, high, low, close, volume from cells 1..5 |
| Targets.IsBuySpellings | advanced_trading_bot/advanced_trading_bot/utils/targets.py:9 | the direction test accepts exactly the three-letter spellings of "buy" in any case mix |
| Targets.Upper | advanced_trading_bot/advanced_trading_bot/utils/targets.py:9 | ASCII `upper()`: lower-case letters shift to upper case, other characters are kept, no lower-case letter remains |
| Targets.UpperIdempotent | advanced_trading_bot/advanced_trading_bot/utils/targets.py:9 | upper-casing twice is upper-casing once |
| Targets.IsBuy | advanced_trading_bot/advanced_trading_bot/utils/targets.py:9 | `direction.upper() == "BUY"` holds only of three-character directions |
| Targets.Round2 | advanced_trading_bot/advanced_trading_bot/utils/targets.py:15 | rounding lands on the hundredths grid, within 0.005 of its input |
| Targets.Round2Exact | advanced_trading_bot/advanced_trading_bot/utils/targets.py:15 | a value already on the hundredths grid is unchanged |
| Targets.RawLevels | advanced_trading_bot/advanced_trading_bot/utils/targets.py:7-14 | before rounding, abs(tp − close) = 1.8·abs(close − sl) in both directions; for atr ≥ 0, BUY gives sl ≤ close ≤ tp and any other direction tp ≤ close ≤ sl |
| Targets.RawLevelsOffsets | advanced_trading_bot/advanced_trading_bot/utils/targets.py:7-14 | BUY: tp = close + 1.8·atr and sl = close − atr; any direction whose upper case is not "BUY": tp = close − 1.8·atr and sl = close + atr |
| Targets.CalcTpSl | advanced_trading_bot/advanced_trading_bot/utils/targets.py:1-15 | each returned level lies on the hundredths grid, within half a cent of its unrounded level |
| Targets.CaseInsensitive | advanced_trading_bot/advanced_trading_bot/utils/targets.py:9 | directions with the same upper-case form give identical levels |
| Targets.BuySpellingsAgree | advanced_trading_bot/advanced_trading_bot/utils/targets.py:9 | "buy", "Buy" and "BUY" give identical levels |
| Targets.MirrorSymmetry | advanced_trading_bot/advanced_trading_bot/utils/targets.py:7-14 | before rounding, for equal close and atr, BUY's tp − close equals close − SELL's tp, and likewise for sl |
| Targets.RoundedMirrorBreaks | advanced_trading_bot/advanced_trading_bot/utils/targets.py:15 | after rounding the mirror can fail: close 0.001 and ATR 0 round both take-profits to 0.0 |
| Targets.Examples | advanced_trading_bot/advanced_trading_bot/utils/targets.py:15 | (100, 10, BUY) ↦ (118.0, 90.0) and (100, 10, SELL) ↦ (82.0, 110.0) |

## Left out

- Floating point: all prices are reals. IEEE-754 rounding, overflow, infinities and NaN beyond the `Option` of unfilled windows are not modelled. The candles are assumed to hold no NaN.
- The square root in the Bollinger deviation (multi_tf_scanner.py:31) is the parameter `root`. Only `Indicators.BollingerShape`'s ordering clause assumes anything of it (non-negative on non-negative inputs).
- Indicators.BollingerShape: states ordering only under that assumption on `root`, since the model has no square root of its own.
- Targets.Round2: models Python's `round(x, 2)` as round-half-even to the nearest hundredth of the real value, not of the binary float.
- Targets.Upper: `str.upper()` is modelled for ASCII letters only; other characters are left unchanged. The direction test is unaffected, since no non-ASCII character upper-cases to B, U or Y.
- `compute_signals` with `df is None` (line 53): a Dafny sequence cannot be None. The empty frame is covered by the under-50 rule.
- Frames with a missing column, on which pandas raises a `KeyError`, or with non-numeric data cannot arise, since `Candle` always has all six numeric fields.
- Signals.AssembleCandles: cells are modelled as numbers. Parsing string cells with `float()`/`int()`, and `int()` rejecting a fractional string, are not modelled. A short row is modelled as a failure, where `assemble_df_from_klines` raises an exception.
- The unused `prev` row (multi_tf_scanner.py:68): it is read but no filter uses it.
- The unused MACD histogram is computed but nothing downstream reads it.
- `Indicators.Ema`, `Indicators.Rsi` and the rolling functions require a window of at least 1. pandas rejects a non-positive span, and the scanner only passes the fixed windows 9, 12, 14, 20, 21, 26.
- Data fetching, Telegram alerts, configuration, the scan loops, `time.sleep`, the `boost_confidence` hook from a module that is not part of this model, and the formatting in `fmt_confidence`/`make_alert_line`. All of these are I/O or orchestration outside the engine. main.py is not part of this model.
- Idempotence of the evaluation holds trivially: `Evaluate` is a function.
