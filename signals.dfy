/** The signal evaluator: it computes the indicator frame of a candle series,
    reads its last row, lets five filters vote BUY and/or SELL, and emits a
    signal only when one side wins with a quorum of three. */
module Signals {
  import opened Options
  import opened Indicators

  datatype Candle = Candle(ts: int, open: real, high: real, low: real, close: real, volume: real)

  datatype Direction = Buy | Sell

  datatype Reason = NotEnoughData | NoConfirmation

  /** The indicator snapshot a signal carries. */
  datatype Details = Details(ema9: real, ema21: real, rsi: real, macdLine: real, macdSignal: real,
                             bbUpper: real, bbLower: real, volume: real)

  datatype SignalResult =
    | NoSignal(reason: Reason)
    | Signal(direction: Direction, confidence: real, close: real, atr: real, details: Details)

  /** The values of the last row of the indicator frame that the filters read. */
  datatype IndicatorRow = IndicatorRow(close: real, volume: real, ema9: real, ema21: real, rsi: real,
                                       macdLine: real, macdSignal: real, bbUpper: real, bbLower: real,
                                       atr: real)

  /** The shortest series the evaluator accepts. */
  const MinRows: nat := 50

  // ---------------------------------------------------------------------
  // Columns of a series
  // ---------------------------------------------------------------------

  function Closes(df: seq<Candle>): (c: seq<real>)
  {
    seq(|df|, i requires 0 <= i < |df| => df[i].close)
  }

  function Highs(df: seq<Candle>): (h: seq<real>)
  {
    seq(|df|, i requires 0 <= i < |df| => df[i].high)
  }

  function Lows(df: seq<Candle>): (l: seq<real>)
  {
    seq(|df|, i requires 0 <= i < |df| => df[i].low)
  }

  function Volumes(df: seq<Candle>): (v: seq<real>)
  {
    seq(|df|, i requires 0 <= i < |df| => df[i].volume)
  }

  // ---------------------------------------------------------------------
  // The five filters
  // ---------------------------------------------------------------------

  datatype Vote = Vote(buy: bool, sell: bool)

  /** EMA9 above EMA21 votes BUY, below votes SELL. */
  function TrendVote(row: IndicatorRow): (v: Vote)
    ensures !(v.buy && v.sell)
  {
    Vote(row.ema9 > row.ema21, row.ema9 < row.ema21)
  }

  /** RSI above 55 votes BUY, below 45 votes SELL; 45..55 abstains. */
  function RsiVote(row: IndicatorRow): (v: Vote)
    ensures !(v.buy && v.sell)
    ensures 45.0 <= row.rsi <= 55.0 ==> !v.buy && !v.sell
  {
    Vote(row.rsi > 55.0, row.rsi < 45.0)
  }

  /** MACD line above its signal line votes BUY, below votes SELL. */
  function MacdVote(row: IndicatorRow): (v: Vote)
    ensures !(v.buy && v.sell)
  {
    Vote(row.macdLine > row.macdSignal, row.macdLine < row.macdSignal)
  }

  const MinBandWidth: real := 0.000001

  /** The band width, floored so that it can divide. */
  function BandWidth(row: IndicatorRow): (w: real)
    ensures w >= MinBandWidth && w >= row.bbUpper - row.bbLower
    ensures w == MinBandWidth || w == row.bbUpper - row.bbLower
  {
    if MinBandWidth >= row.bbUpper - row.bbLower then MinBandWidth else row.bbUpper - row.bbLower
  }

  /** A close within a tenth of the band width above the lower band votes
      BUY, within a tenth below the upper band votes SELL. Both fire only in
      a degenerate band, narrower than the width floor. */
  function BollingerVote(row: IndicatorRow): (v: Vote)
    ensures v.buy && v.sell ==> row.bbUpper - row.bbLower < MinBandWidth
  {
    var w := BandWidth(row);
    var buy := (row.close - row.bbLower) / w <= 0.1;
    var sell := (row.bbUpper - row.close) / w <= 0.1;
    DividedBelow(row.close - row.bbLower, w);
    DividedBelow(row.bbUpper - row.close, w);
    Vote(buy, sell)
  }

  lemma DividedBelow(x: real, w: real)
    requires w > 0.0
    ensures x / w <= 0.1 ==> x <= 0.1 * w
  {
    assert (x / w) * w == x;
    if x / w <= 0.1 {
      assert (x / w) * w <= 0.1 * w;
    }
  }

  /** Latest volume above 1.5 times the mean of the 20 volumes before it. */
  function VolumeSpike(volume: real, baseline: real): (spike: bool)
    ensures spike && baseline >= 0.0 ==> volume > baseline
  {
    volume > 1.5 * baseline
  }

  /** The volume filter confirms both sides at once. */
  function VolumeVote(spike: bool): (v: Vote)
    ensures v.buy == spike && v.sell == spike
  {
    Vote(spike, spike)
  }

  /** The five votes, in the order trend, RSI, MACD, Bollinger, volume. */
  function Votes(row: IndicatorRow, spike: bool): (vs: seq<Vote>)
    ensures |vs| == 5
  {
    [TrendVote(row), RsiVote(row), MacdVote(row), BollingerVote(row), VolumeVote(spike)]
  }

  function BuyScore(vs: seq<Vote>): (n: nat)
    ensures n <= |vs|
  {
    if vs == [] then 0 else (if vs[0].buy then 1 else 0) + BuyScore(vs[1..])
  }

  function SellScore(vs: seq<Vote>): (n: nat)
    ensures n <= |vs|
  {
    if vs == [] then 0 else (if vs[0].sell then 1 else 0) + SellScore(vs[1..])
  }

  /** A volume spike adds one to both scores, so it never changes their
      difference and never decides the direction on its own. */
  lemma VolumeSpikeAddsToBoth(row: IndicatorRow)
    ensures BuyScore(Votes(row, true)) == BuyScore(Votes(row, false)) + 1
    ensures SellScore(Votes(row, true)) == SellScore(Votes(row, false)) + 1
    ensures BuyScore(Votes(row, true)) - SellScore(Votes(row, true)) ==
            BuyScore(Votes(row, false)) - SellScore(Votes(row, false))
  {
    ScoresOfFive(Votes(row, true));
    ScoresOfFive(Votes(row, false));
  }

  /** The scores of five votes, vote by vote. */
  lemma ScoresOfFive(vs: seq<Vote>)
    requires |vs| == 5
    ensures BuyScore(vs) == (if vs[0].buy then 1 else 0) + (if vs[1].buy then 1 else 0) +
                            (if vs[2].buy then 1 else 0) + (if vs[3].buy then 1 else 0) +
                            (if vs[4].buy then 1 else 0)
    ensures SellScore(vs) == (if vs[0].sell then 1 else 0) + (if vs[1].sell then 1 else 0) +
                             (if vs[2].sell then 1 else 0) + (if vs[3].sell then 1 else 0) +
                             (if vs[4].sell then 1 else 0)
  {
    var t1, t2, t3, t4 := vs[1..], vs[2..], vs[3..], vs[4..];
    assert t1[0] == vs[1] && t2[0] == vs[2] && t3[0] == vs[3] && t4[0] == vs[4];
    assert t1[1..] == t2 && t2[1..] == t3 && t3[1..] == t4 && t4[1..] == [];
    assert BuyScore(vs) == (if vs[0].buy then 1 else 0) + BuyScore(t1);
    assert BuyScore(t1) == (if vs[1].buy then 1 else 0) + BuyScore(t2);
    assert BuyScore(t2) == (if vs[2].buy then 1 else 0) + BuyScore(t3);
    assert BuyScore(t3) == (if vs[3].buy then 1 else 0) + BuyScore(t4);
    assert BuyScore(t4) == (if vs[4].buy then 1 else 0);
    assert SellScore(vs) == (if vs[0].sell then 1 else 0) + SellScore(t1);
    assert SellScore(t1) == (if vs[1].sell then 1 else 0) + SellScore(t2);
    assert SellScore(t2) == (if vs[2].sell then 1 else 0) + SellScore(t3);
    assert SellScore(t3) == (if vs[3].sell then 1 else 0) + SellScore(t4);
    assert SellScore(t4) == (if vs[4].sell then 1 else 0);
  }

  // ---------------------------------------------------------------------
  // The decision rule
  // ---------------------------------------------------------------------

  /** `score / 5 * 100`. */
  function Confidence(score: nat): (c: real)
    requires 3 <= score <= 5
    ensures c == 60.0 || c == 80.0 || c == 100.0
    ensures c == 20.0 * score as real
  {
    (score as real / 5.0) * 100.0
  }

  /** The `details` of a signal: the last row's indicator values and volume. */
  function DetailsOf(row: IndicatorRow): (d: Details)
    ensures d.ema9 == row.ema9 && d.ema21 == row.ema21 && d.rsi == row.rsi
    ensures d.macdLine == row.macdLine && d.macdSignal == row.macdSignal
    ensures d.bbUpper == row.bbUpper && d.bbLower == row.bbLower && d.volume == row.volume
  {
    Details(row.ema9, row.ema21, row.rsi, row.macdLine, row.macdSignal, row.bbUpper, row.bbLower, row.volume)
  }

  /** The decision on the last row, given the mean of the 20 volumes before it:
      a signal exactly when one side strictly outscores the other with at least
      3 votes, in that side's direction, with confidence 60, 80 or 100 (20 per
      vote), carrying the last close and ATR; otherwise "no-confirmation",
      which includes every tie. */
  function Decide(row: IndicatorRow, baseline: real): (r: SignalResult)
    ensures var vs := Votes(row, VolumeSpike(row.volume, baseline));
            var b, s := BuyScore(vs), SellScore(vs);
            (r.Signal? <==> (b > s && b >= 3) || (s > b && s >= 3)) &&
            (b == s ==> r == NoSignal(NoConfirmation)) &&
            (r.Signal? ==> (r.direction == Buy <==> b > s)) &&
            (r.Signal? && r.direction == Buy ==> r.confidence == 20.0 * b as real) &&
            (r.Signal? && r.direction == Sell ==> r.confidence == 20.0 * s as real)
    ensures r.NoSignal? ==> r.reason == NoConfirmation
    ensures r.Signal? ==> r.confidence == 60.0 || r.confidence == 80.0 || r.confidence == 100.0
    ensures r.Signal? ==> r.close == row.close && r.atr == row.atr && r.details == DetailsOf(row)
  {
    var vs := Votes(row, VolumeSpike(row.volume, baseline));
    var b, s := BuyScore(vs), SellScore(vs);
    if b > s && b >= 3 then Signal(Buy, Confidence(b), row.close, row.atr, DetailsOf(row))
    else if s > b && s >= 3 then Signal(Sell, Confidence(s), row.close, row.atr, DetailsOf(row))
    else NoSignal(NoConfirmation)
  }

  // ---------------------------------------------------------------------
  // The whole evaluation, as a function of the series
  // ---------------------------------------------------------------------

  /** The indicator columns `compute_signals` adds to its copy of the frame. */
  datatype Columns = Columns(ema9: seq<real>, ema21: seq<real>, rsi: seq<real>,
                             macdLine: seq<real>, macdSignal: seq<real>,
                             bbBasis: seq<Option<real>>, bbUpper: seq<Option<real>>,
                             bbLower: seq<Option<real>>, atr14: seq<Option<real>>)

  /** Every column has one entry per row, and the rolling columns the
      filters read are filled at the last row. */
  predicate Filled(df: seq<Candle>, cols: Columns)
  {
    var n := |df|;
    n > 0 &&
    |cols.ema9| == n && |cols.ema21| == n && |cols.rsi| == n && |cols.macdLine| == n &&
    |cols.macdSignal| == n && |cols.bbBasis| == n && |cols.bbUpper| == n && |cols.bbLower| == n && |cols.atr14| == n &&
    cols.bbBasis[n - 1].Some? && cols.bbUpper[n - 1].Some? && cols.bbLower[n - 1].Some? &&
    cols.atr14[n - 1].Some?
  }

  /** EMA9, EMA21, RSI14, MACD(12, 26, 9), Bollinger(20, 2) and ATR14 of the
      series; from 20 rows on, every rolling window is filled at the last row. */
  function IndicatorColumns(df: seq<Candle>, root: real -> real): (cols: Columns)
    ensures |df| >= 20 ==> Filled(df, cols)
  {
    var c := Closes(df);
    var m := MacdOf(c, 12, 26, 9);
    var bb := Bollinger(c, 20, 2.0, root);
    Columns(Ema(c, 9), Ema(c, 21), Rsi(c, 14), m.line, m.signal, bb.basis, bb.upper, bb.lower,
            Atr(Highs(df), Lows(df), c, 14))
  }

  /** `df.iloc[-1]`: the last candle together with the columns at its index. */
  function RowAt(df: seq<Candle>, cols: Columns): (row: IndicatorRow)
    requires Filled(df, cols)
    ensures row.close == df[|df| - 1].close && row.volume == df[|df| - 1].volume
    ensures Some(row.atr) == cols.atr14[|df| - 1]
    ensures Some(row.bbUpper) == cols.bbUpper[|df| - 1] && Some(row.bbLower) == cols.bbLower[|df| - 1]
  {
    var n := |df|;
    IndicatorRow(df[n - 1].close, df[n - 1].volume, cols.ema9[n - 1], cols.ema21[n - 1], cols.rsi[n - 1],
                 cols.macdLine[n - 1], cols.macdSignal[n - 1], cols.bbUpper[n - 1].value,
                 cols.bbLower[n - 1].value, cols.atr14[n - 1].value)
  }

  /** The last row of the frame with its indicator columns. */
  function LastRow(df: seq<Candle>, root: real -> real): (row: IndicatorRow)
    requires |df| >= 20
    ensures row.close == df[|df| - 1].close && row.volume == df[|df| - 1].volume
  {
    RowAt(df, IndicatorColumns(df, root))
  }

  /** `df["volume"].tail(21).iloc[:-1].mean()`: the mean of the 20 volumes
      before the last one. */
  function VolumeBaseline(df: seq<Candle>): (b: real)
    requires |df| >= 21
    ensures b == Mean(seq(20, k requires 0 <= k < 20 => df[|df| - 21 + k].volume))
  {
    var n := |df|;
    assert Volumes(df)[n - 21 .. n - 1] == seq(20, k requires 0 <= k < 20 => df[n - 21 + k].volume);
    Mean(Volumes(df)[n - 21 .. n - 1])
  }

  /** With non-negative volumes in its window the baseline is non-negative,
      which is what makes a spike lie strictly above it. */
  lemma VolumeBaselineNonNegative(df: seq<Candle>)
    requires |df| >= 21
    requires forall j :: |df| - 21 <= j < |df| - 1 ==> df[j].volume >= 0.0
    ensures VolumeBaseline(df) >= 0.0
  {
    var n := |df|;
    var w := Volumes(df)[n - 21 .. n - 1];
    assert forall k :: 0 <= k < |w| ==> w[k] == df[n - 21 + k].volume;
    MeanNonNegative(w);
  }

  /** The baseline depends only on the 20 candles at indices n-21 .. n-2:
      neither the last candle nor anything earlier enters it. */
  lemma VolumeBaselineWindow(df: seq<Candle>, other: seq<Candle>)
    requires |df| == |other| >= 21
    requires forall j :: |df| - 21 <= j < |df| - 1 ==> df[j].volume == other[j].volume
    ensures VolumeBaseline(df) == VolumeBaseline(other)
  {
    var n := |df|;
    var w, w' := Volumes(df)[n - 21 .. n - 1], Volumes(other)[n - 21 .. n - 1];
    assert forall k :: 0 <= k < 20 ==> w[k] == df[n - 21 + k].volume && w'[k] == other[n - 21 + k].volume;
    assert w == w';
  }

  /** A spike of the last volume needs one of the 20 volumes before it to be
      less than two thirds of it. */
  lemma VolumeSpikeNeedsOutlier(df: seq<Candle>)
    requires |df| >= 21
    ensures VolumeSpike(df[|df| - 1].volume, VolumeBaseline(df)) ==>
            exists j :: |df| - 21 <= j < |df| - 1 && 1.5 * df[j].volume < df[|df| - 1].volume
  {
    var n := |df|;
    var last := df[n - 1].volume;
    if VolumeSpike(last, VolumeBaseline(df)) && !(exists j :: n - 21 <= j < n - 1 && 1.5 * df[j].volume < last) {
      var w := Volumes(df)[n - 21 .. n - 1];
      assert forall k :: 0 <= k < |w| ==> w[k] == df[n - 21 + k].volume;
      assert forall k :: 0 <= k < |w| ==> last / 1.5 <= w[k];
      MeanAtLeast(w, last / 1.5);
      assert false;
    }
  }

  /** `compute_signals` as a function: fewer than 50 rows, the empty series
      included, give "not-enough-data" whatever they hold, and that reason
      arises in no other case. */
  function Evaluate(df: seq<Candle>, root: real -> real): (r: SignalResult)
    ensures r == NoSignal(NotEnoughData) <==> |df| < MinRows
  {
    if |df| < MinRows then NoSignal(NotEnoughData)
    else Decide(LastRow(df, root), VolumeBaseline(df))
  }

  /** A signal reports the close of the last candle and the 14-bar mean of
      true range ending there, with the scores' winner as its direction. */
  lemma SignalReadsLastBar(df: seq<Candle>, root: real -> real)
    requires Evaluate(df, root).Signal?
    ensures var n := |df|;
            var r := Evaluate(df, root);
            n >= MinRows &&
            r.close == df[n - 1].close &&
            r.atr == Mean(TrueRange(Highs(df), Lows(df), Closes(df))[n - 14 .. n]) &&
            r.details.volume == df[n - 1].volume
    ensures var row := LastRow(df, root);
            var vs := Votes(row, VolumeSpike(row.volume, VolumeBaseline(df)));
            Evaluate(df, root).direction == Buy <==> BuyScore(vs) > SellScore(vs)
  {
    var n := |df|;
    var row := LastRow(df, root);
    LastRowReads(df, root);
    assert Evaluate(df, root) == Decide(row, VolumeBaseline(df));
  }

  /** The last row holds each indicator at the last index. */
  lemma LastRowValues(df: seq<Candle>, root: real -> real)
    requires |df| >= 20
    ensures var n := |df|;
            var c := Closes(df);
            var m := MacdOf(c, 12, 26, 9);
            var bb := Bollinger(c, 20, 2.0, root);
            LastRow(df, root) ==
              IndicatorRow(df[n - 1].close, df[n - 1].volume, Ema(c, 9)[n - 1], Ema(c, 21)[n - 1],
                           Rsi(c, 14)[n - 1], m.line[n - 1], m.signal[n - 1], bb.upper[n - 1].value,
                           bb.lower[n - 1].value, Atr(Highs(df), Lows(df), c, 14)[n - 1].value)
  {
  }

  /** The close, volume and ATR of the last row come from the last candle and
      the last 14 bars. */
  lemma LastRowReads(df: seq<Candle>, root: real -> real)
    requires |df| >= 20
    ensures var n := |df|;
            var row := LastRow(df, root);
            row.close == df[n - 1].close && row.volume == df[n - 1].volume &&
            row.atr == Mean(TrueRange(Highs(df), Lows(df), Closes(df))[n - 14 .. n])
  {
  }

  /** With every candle's high at or above its low, a signal's ATR is
      non-negative. */
  lemma SignalAtrNonNegative(df: seq<Candle>, root: real -> real)
    requires forall i :: 0 <= i < |df| ==> df[i].low <= df[i].high
    requires Evaluate(df, root).Signal?
    ensures Evaluate(df, root).atr >= 0.0
  {
    var n := |df|;
    SignalReadsLastBar(df, root);
    var tr := TrueRange(Highs(df), Lows(df), Closes(df));
    forall i | 0 <= i < n ensures tr[i] >= 0.0 {
      TrueRangeBounds(Highs(df), Lows(df), Closes(df), i);
    }
    MeanNonNegative(tr[n - 14 .. n]);
  }

  /** A row on which no directional filter leans either way and whose close
      sits midway between the bands gets equal scores, spike or no spike, and
      so no signal. */
  lemma BalancedRowNoConfirmation(row: IndicatorRow, baseline: real)
    requires row.ema9 == row.ema21 && 45.0 <= row.rsi <= 55.0 && row.macdLine == row.macdSignal
    requires row.bbUpper - row.close == row.close - row.bbLower
    ensures Decide(row, baseline) == NoSignal(NoConfirmation)
  {
    var vs := Votes(row, VolumeSpike(row.volume, baseline));
    assert vs[0] == Vote(false, false) && vs[1] == Vote(false, false) && vs[2] == Vote(false, false);
    assert vs[3].buy == vs[3].sell;
    assert vs[4].buy == vs[4].sell;
    ScoresOfFive(vs);
  }

  /** The last row of a series with constant closes and volumes: both EMAs
      at the price, RSI neutral, MACD flat, the close midway between the bands,
      and the volume baseline equal to the volume. */
  lemma ConstantLastRow(df: seq<Candle>, root: real -> real, price: real, volume: real)
    requires |df| >= MinRows
    requires forall i :: 0 <= i < |df| ==> df[i].close == price && df[i].volume == volume
    ensures var row := LastRow(df, root);
            row.close == price && row.volume == volume &&
            row.ema9 == price && row.ema21 == price && row.rsi == 50.0 &&
            row.macdLine == 0.0 && row.macdSignal == 0.0 &&
            row.bbUpper - row.close == row.close - row.bbLower
    ensures VolumeBaseline(df) == volume
  {
    var c := Closes(df);
    LastRowValues(df, root);
    assert forall i :: 0 <= i < |c| ==> c[i] == price;
    ConstantColumns(c, price);
    ConstantBands(c, root, price);
    ConstantBaseline(df, volume);
  }

  lemma ConstantBaseline(df: seq<Candle>, volume: real)
    requires |df| >= MinRows
    requires forall i :: 0 <= i < |df| ==> df[i].volume == volume
    ensures VolumeBaseline(df) == volume
  {
    var n := |df|;
    var w := Volumes(df)[n - 21 .. n - 1];
    assert forall i :: 0 <= i < |w| ==> w[i] == df[n - 21 + i].volume;
    MeanConstant(w, volume);
  }

  /** The indicator values at the last index of a constant close series. */
  lemma ConstantColumns(c: seq<real>, price: real)
    requires |c| >= MinRows
    requires forall i :: 0 <= i < |c| ==> c[i] == price
    ensures var n := |c|;
            var m := MacdOf(c, 12, 26, 9);
            Ema(c, 9)[n - 1] == price && Ema(c, 21)[n - 1] == price && Rsi(c, 14)[n - 1] == 50.0 &&
            m.line[n - 1] == 0.0 && m.signal[n - 1] == 0.0
  {
    EmaConstant(c, 9, price);
    EmaConstant(c, 21, price);
    RsiNonDecreasing(c, 14);
    MacdConstant(c, 12, 26, 9, price);
  }

  /** On a constant close series the last close sits midway between the bands. */
  lemma ConstantBands(c: seq<real>, root: real -> real, price: real)
    requires |c| >= MinRows
    requires forall i :: 0 <= i < |c| ==> c[i] == price
    ensures var n := |c|;
            var bb := Bollinger(c, 20, 2.0, root);
            bb.upper[n - 1].value - price == price - bb.lower[n - 1].value
  {
    BollingerConstant(c, 20, 2.0, root, |c| - 1, price);
    BollingerShape(c, 20, 2.0, root, |c| - 1);
  }

  /** A series whose closes and volumes never change casts the same number
      of BUY and SELL votes, whatever the square root does, so it never gives
      a signal. */
  lemma ConstantSeriesNoConfirmation(df: seq<Candle>, root: real -> real, price: real, volume: real)
    requires |df| >= MinRows
    requires forall i :: 0 <= i < |df| ==> df[i].close == price && df[i].volume == volume
    ensures Evaluate(df, root) == NoSignal(NoConfirmation)
  {
    ConstantLastRow(df, root, price, volume);
    BalancedRowNoConfirmation(LastRow(df, root), VolumeBaseline(df));
  }

  // ---------------------------------------------------------------------
  // The evaluation as `compute_signals` performs it: copy the frame, add the
  // indicator columns in place, read the last row, decide
  // ---------------------------------------------------------------------

  /** A private copy of the candle frame, to which the indicator columns are
      added one by one. */
  class Frame {
    var rows: seq<Candle>
    var ema9: seq<real>
    var ema21: seq<real>
    var rsi: seq<real>
    var macdLine: seq<real>
    var macdSignal: seq<real>
    var bbBasis: seq<Option<real>>
    var bbUpper: seq<Option<real>>
    var bbLower: seq<Option<real>>
    var atr14: seq<Option<real>>

    /** `df.copy()`: the candle columns only. */
    constructor Copy(df: seq<Candle>)
      ensures rows == df
      ensures ema9 == [] && ema21 == [] && rsi == [] && macdLine == [] && macdSignal == []
      ensures bbBasis == [] && bbUpper == [] && bbLower == [] && atr14 == []
    {
      rows := df;
      ema9, ema21, rsi, macdLine, macdSignal := [], [], [], [], [];
      bbBasis, bbUpper, bbLower, atr14 := [], [], [], [];
    }

    /** The indicator columns added so far, as one value. */
    function IndicatorView(): Columns
      reads this
    {
      Columns(ema9, ema21, rsi, macdLine, macdSignal, bbBasis, bbUpper, bbLower, atr14)
    }

    /** Adds the indicator columns one by one; the candle rows stay as they were. */
    method AddIndicatorColumns(root: real -> real)
      modifies this
      ensures rows == old(rows)
      ensures IndicatorView() == IndicatorColumns(rows, root)
    {
      var close := Closes(rows);
      ghost var target := IndicatorColumns(rows, root);
      ema9 := Ema(close, 9);
      ema21 := Ema(close, 21);
      rsi := Rsi(close, 14);
      var m := MacdOf(close, 12, 26, 9);
      macdLine := m.line;
      macdSignal := m.signal;
      var bb := Bollinger(close, 20, 2.0, root);
      bbBasis, bbUpper, bbLower := bb.basis, bb.upper, bb.lower;
      atr14 := Atr(Highs(rows), Lows(rows), close, 14);
      assert ema9 == target.ema9 && ema21 == target.ema21 && rsi == target.rsi;
      assert macdLine == target.macdLine && macdSignal == target.macdSignal;
      assert bbBasis == target.bbBasis && bbUpper == target.bbUpper && bbLower == target.bbLower;
      assert atr14 == target.atr14;
      assert IndicatorView() == target;
    }
  }

  /** `compute_signals(df)`, with `root` standing for the square root inside
      the Bollinger deviation. */
  method ComputeSignals(df: seq<Candle>, root: real -> real) returns (r: SignalResult)
    ensures |df| < MinRows ==> r == NoSignal(NotEnoughData)
    ensures r == Evaluate(df, root)
  {
    if |df| < MinRows {
      return NoSignal(NotEnoughData);
    }
    var frame := new Frame.Copy(df);
    frame.AddIndicatorColumns(root);
    var last := RowAt(frame.rows, frame.IndicatorView());
    r := Decide(last, VolumeBaseline(frame.rows));
  }

  // ---------------------------------------------------------------------
  // Assembling candles from raw kline rows
  // ---------------------------------------------------------------------

  /** `int(x)` on a number: truncation toward zero. */
  function TruncToInt(x: real): (t: int)
    ensures x >= 0.0 ==> t as real <= x < t as real + 1.0
    ensures x < 0.0 ==> t as real - 1.0 < x <= t as real
  {
    if x >= 0.0 then x.Floor else -((-x).Floor)
  }

  /** Columns 0..5 of a kline row, in order; later columns are dropped. */
  function ToCandle(cells: seq<real>): (c: Candle)
    requires |cells| >= 6
    ensures c.ts == TruncToInt(cells[0])
    ensures c.open == cells[1] && c.high == cells[2] && c.low == cells[3] && c.close == cells[4] &&
            c.volume == cells[5]
  {
    Candle(TruncToInt(cells[0]), cells[1], cells[2], cells[3], cells[4], cells[5])
  }

  /** `assemble_df_from_klines(rows)`: one candle per row, in order, or None
      where a row is too short to unpack (`assemble_df_from_klines` raises). */
  method AssembleCandles(rows: seq<seq<real>>) returns (r: Option<seq<Candle>>)
    ensures r.Some? <==> forall i :: 0 <= i < |rows| ==> |rows[i]| >= 6
    ensures r.Some? ==> |r.value| == |rows| &&
                        forall i :: 0 <= i < |rows| ==> r.value[i] == ToCandle(rows[i])
  {
    var norm: seq<Candle> := [];
    for k := 0 to |rows|
      invariant |norm| == k
      invariant forall i :: 0 <= i < k ==> |rows[i]| >= 6 && norm[i] == ToCandle(rows[i])
    {
      if |rows[k]| < 6 {
        return None;
      }
      norm := norm + [ToCandle(rows[k])];
    }
    r := Some(norm);
  }
}
