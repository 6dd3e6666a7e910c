/** The take-profit / stop-loss calculator: fixed ATR multiples around the
    reference close, on the side the direction says, rounded to hundredths. */
module Targets {

  import Indicators

  datatype Levels = Levels(tp: real, sl: real)

  const TakeProfitMultiple: real := 1.8
  const StopLossMultiple: real := 1.0

  // ---------------------------------------------------------------------
  // The case-insensitive direction test: `direction.upper() == "BUY"`
  // ---------------------------------------------------------------------

  function UpperChar(c: char): char
  {
    if 'a' <= c <= 'z' then (c as int - 32) as char else c
  }

  /** ASCII `str.upper()`: lower-case letters become upper case and every
      other character is kept, so no lower-case letter is left. */
  function Upper(s: string): (u: string)
    ensures |u| == |s|
    ensures forall i :: 0 <= i < |s| ==>
              ('a' <= s[i] <= 'z' ==> u[i] as int == s[i] as int - 32) &&
              (!('a' <= s[i] <= 'z') ==> u[i] == s[i])
    ensures forall i :: 0 <= i < |u| ==> !('a' <= u[i] <= 'z')
  {
    seq(|s|, i requires 0 <= i < |s| => UpperChar(s[i]))
  }

  /** `direction.upper() == "BUY"`: only a three-character direction can pass. */
  predicate IsBuy(direction: string)
    ensures IsBuy(direction) ==> |direction| == 3
  {
    Upper(direction) == "BUY"
  }

  /** Upper-casing twice is upper-casing once. */
  lemma UpperIdempotent(s: string)
    ensures Upper(Upper(s)) == Upper(s)
  {
    var u := Upper(s);
    assert forall i :: 0 <= i < |u| ==> Upper(u)[i] == u[i];
  }

  /** The direction test accepts exactly the three-letter spellings of "buy"
      in any mix of cases. */
  lemma IsBuySpellings(d: string)
    ensures IsBuy(d) <==>
            |d| == 3 && (d[0] == 'b' || d[0] == 'B') && (d[1] == 'u' || d[1] == 'U') &&
            (d[2] == 'y' || d[2] == 'Y')
  {
    if IsBuy(d) {
      assert Upper(d)[0] == 'B' && Upper(d)[1] == 'U' && Upper(d)[2] == 'Y';
    }
    if |d| == 3 && (d[0] == 'b' || d[0] == 'B') && (d[1] == 'u' || d[1] == 'U') &&
       (d[2] == 'y' || d[2] == 'Y') {
      assert Upper(d) == "BUY";
    }
  }

  // ---------------------------------------------------------------------
  // Rounding to two decimals
  // ---------------------------------------------------------------------

  /** `round(x, 2)` over the reals: the nearest multiple of 0.01, ties to the
      even hundredth. */
  function Round2(x: real): (r: real)
    ensures -0.005 <= r - x <= 0.005
    ensures (r * 100.0).Floor as real == r * 100.0
  {
    var y := x * 100.0;
    var f := y.Floor;
    var frac := y - f as real;
    var k := if frac < 0.5 then f else if frac > 0.5 then f + 1 else if f % 2 == 0 then f else f + 1;
    k as real / 100.0
  }

  /** A value already on the hundredths grid is left unchanged. */
  lemma Round2Exact(k: int)
    ensures Round2(k as real / 100.0) == k as real / 100.0
  {
    var x := k as real / 100.0;
    assert x * 100.0 == k as real;
    assert (x * 100.0).Floor == k;
  }

  // ---------------------------------------------------------------------
  // `calc_tp_sl_from_atr(close, atr, direction)`
  // ---------------------------------------------------------------------

  /** The two levels before rounding. The take-profit lies 1.8 times as far
      from the close as the stop-loss does, and for a non-negative ATR a BUY
      brackets the close as sl <= close <= tp and anything else as
      tp <= close <= sl. */
  function RawLevels(close: real, atr: real, direction: string): (l: Levels)
    ensures Indicators.Abs(l.tp - close) == TakeProfitMultiple * Indicators.Abs(close - l.sl)
    ensures atr >= 0.0 && IsBuy(direction) ==> l.sl <= close <= l.tp
    ensures atr >= 0.0 && !IsBuy(direction) ==> l.tp <= close <= l.sl
  {
    var tpOff := atr * TakeProfitMultiple;
    var slOff := atr * StopLossMultiple;
    if IsBuy(direction) then Levels(close + tpOff, close - slOff)
    else Levels(close - tpOff, close + slOff)
  }

  /** Both levels rounded to hundredths, each within half a cent of the
      unrounded level. */
  function CalcTpSl(close: real, atr: real, direction: string): (l: Levels)
    ensures -0.005 <= l.tp - RawLevels(close, atr, direction).tp <= 0.005
    ensures -0.005 <= l.sl - RawLevels(close, atr, direction).sl <= 0.005
    ensures (l.tp * 100.0).Floor as real == l.tp * 100.0
    ensures (l.sl * 100.0).Floor as real == l.sl * 100.0
  {
    var raw := RawLevels(close, atr, direction);
    Levels(Round2(raw.tp), Round2(raw.sl))
  }

  /** BUY: tp = close + 1.8 atr and sl = close - atr before rounding; any
      other direction: tp = close - 1.8 atr and sl = close + atr. */
  lemma RawLevelsOffsets(close: real, atr: real, direction: string)
    ensures IsBuy(direction) ==> RawLevels(close, atr, direction) == Levels(close + 1.8 * atr, close - atr)
    ensures !IsBuy(direction) ==> RawLevels(close, atr, direction) == Levels(close - 1.8 * atr, close + atr)
  {
  }

  /** The result depends on the direction only through its upper-case form. */
  lemma CaseInsensitive(close: real, atr: real, d1: string, d2: string)
    requires Upper(d1) == Upper(d2)
    ensures CalcTpSl(close, atr, d1) == CalcTpSl(close, atr, d2)
  {
  }

  /** "buy", "Buy" and "BUY" give identical levels. */
  lemma BuySpellingsAgree(close: real, atr: real)
    ensures CalcTpSl(close, atr, "buy") == CalcTpSl(close, atr, "BUY")
    ensures CalcTpSl(close, atr, "Buy") == CalcTpSl(close, atr, "BUY")
  {
    IsBuySpellings("buy");
    IsBuySpellings("Buy");
    IsBuySpellings("BUY");
  }

  /** Before rounding, BUY and SELL mirror each other about the close. */
  lemma MirrorSymmetry(close: real, atr: real)
    ensures RawLevels(close, atr, "BUY").tp - close == close - RawLevels(close, atr, "SELL").tp
    ensures close - RawLevels(close, atr, "BUY").sl == RawLevels(close, atr, "SELL").sl - close
  {
    IsBuySpellings("BUY");
    IsBuySpellings("SELL");
  }

  /** After rounding the mirror can break: at close 0.001 and ATR 0 both
      directions round the take-profit to 0.0, so BUY's tp - close is -0.001
      and close - SELL's tp is 0.001. */
  lemma RoundedMirrorBreaks()
    ensures CalcTpSl(0.001, 0.0, "BUY").tp - 0.001 == -0.001
    ensures 0.001 - CalcTpSl(0.001, 0.0, "SELL").tp == 0.001
  {
    IsBuySpellings("BUY");
    IsBuySpellings("SELL");
  }

  /** (100, 10, BUY) gives (118.0, 90.0); (100, 10, SELL) gives (82.0, 110.0). */
  lemma Examples()
    ensures CalcTpSl(100.0, 10.0, "BUY") == Levels(118.0, 90.0)
    ensures CalcTpSl(100.0, 10.0, "SELL") == Levels(82.0, 110.0)
  {
    IsBuySpellings("BUY");
    IsBuySpellings("SELL");
    Round2Exact(11800);
    Round2Exact(9000);
    Round2Exact(8200);
    Round2Exact(11000);
  }
}
