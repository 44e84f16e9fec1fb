/**
 * The older entry point run.py: its upper-case `get_market_symbol` with an
 * UNKNOWN default, `check_time` on the clock hour, and the 5-minute-only
 * `check_market_trend` that answers False when no bars arrive.
 */
module LegacyRun {
  import opened Common
  import opened Text
  import opened Indicators
  import opened Regime
  import RunHelpers
  import MarketTrend

  // ---------------------------------------------------------------- exchange

  const UNKNOWN: string := "UNKNOWN"

  /** `get_market_symbol` of run.py: SH, SZ or BJ by prefix of the stripped code, else UNKNOWN. */
  function GetMarketSymbol(code: string): (r: string)
    ensures r in {"SH", "SZ", "BJ", UNKNOWN}
    ensures var s := Strip(code);
      && (r == "SH" <==> RunHelpers.ShanghaiCode(s))
      && (r == "SZ" <==> RunHelpers.ShenzhenCode(s))
      && (r == "BJ" <==> RunHelpers.BeijingCode(s))
      && (r == UNKNOWN <==> !RunHelpers.ShanghaiCode(s) && !RunHelpers.ShenzhenCode(s) && !RunHelpers.BeijingCode(s))
  {
    ExchangeOf(Strip(code))
  }

  /** The prefix chain on an already stripped code; the three prefix classes are disjoint. */
  function ExchangeOf(s: string): (r: string)
    ensures r in {"SH", "SZ", "BJ", UNKNOWN}
    ensures r == "SH" <==> RunHelpers.ShanghaiCode(s)
    ensures r == "SZ" <==> RunHelpers.ShenzhenCode(s)
    ensures r == "BJ" <==> RunHelpers.BeijingCode(s)
    ensures r == UNKNOWN <==> !RunHelpers.ShanghaiCode(s) && !RunHelpers.ShenzhenCode(s) && !RunHelpers.BeijingCode(s)
  {
    if RunHelpers.ShanghaiCode(s) then
      assert s[0] == '6';
      "SH"
    else if RunHelpers.ShenzhenCode(s) then
      assert s[0] in "03";
      "SZ"
    else if RunHelpers.BeijingCode(s) then "BJ"
    else UNKNOWN
  }

  /**
   * The two versions agree on Shenzhen and Beijing codes and on codes
   * starting with 6; on every other code run.py says UNKNOWN where
   * run_new.py defaults to sh.
   */
  lemma SymbolVersionsAgree(code: string)
    ensures GetMarketSymbol(code) == "SH" <==>
      RunHelpers.GetMarketSymbol(code) == RunHelpers.SH && RunHelpers.ShanghaiCode(Strip(code))
    ensures GetMarketSymbol(code) == "SZ" <==> RunHelpers.GetMarketSymbol(code) == RunHelpers.SZ
    ensures GetMarketSymbol(code) == "BJ" <==> RunHelpers.GetMarketSymbol(code) == RunHelpers.BJ
    ensures GetMarketSymbol(code) == UNKNOWN <==>
      RunHelpers.GetMarketSymbol(code) == RunHelpers.SH && !RunHelpers.ShanghaiCode(Strip(code))
  {
    var s := Strip(code);
    var r := GetMarketSymbol(code);
    var q := RunHelpers.GetMarketSymbol(code);
    if RunHelpers.ShanghaiCode(s) {
      assert s[0] == '6';
      assert r == "SH" && q == RunHelpers.SH;
    } else if RunHelpers.ShenzhenCode(s) {
      assert r == "SZ" && q == RunHelpers.SZ;
    } else if RunHelpers.BeijingCode(s) {
      assert r == "BJ" && q == RunHelpers.BJ;
    } else {
      assert r == UNKNOWN && q == RunHelpers.SH;
    }
  }

  // ---------------------------------------------------------------- trading session

  /** The four answers of `check_time`. */
  datatype Session = PreMarket | Noon | Close | PostMarket

  /** The text `check_time` returns for each session. */
  function SessionName(s: Session): (name: string)
    ensures name in {"pre-market", "noon", "close", "post-market"}
  {
    match s
    case PreMarket => "pre-market"
    case Noon => "noon"
    case Close => "close"
    case PostMarket => "post-market"
  }

  /** `check_time` on the current clock hour, which becomes a parameter: the hour bands [..11), [11, 14), 14, [15..). */
  function CheckTime(hour: int): (s: Session)
    ensures s == PreMarket <==> hour < 11
    ensures s == Noon <==> 11 <= hour < 14
    ensures s == Close <==> hour == 14
    ensures s == PostMarket <==> hour >= 15
  {
    if hour < 11 then PreMarket
    else if hour < 14 then Noon
    else if hour < 15 then Close
    else PostMarket
  }

  /** Distinct sessions have distinct texts, so the text `check_time` returns determines the band. */
  lemma SessionNamesDistinct(a: Session, b: Session)
    ensures SessionName(a) == SessionName(b) ==> a == b
  {
  }

  /** `check_time`'s answer as text: each of the four strings exactly on its hour band. */
  lemma CheckTimeAnswer(hour: int)
    ensures SessionName(CheckTime(hour)) == "pre-market" <==> hour < 11
    ensures SessionName(CheckTime(hour)) == "noon" <==> 11 <= hour < 14
    ensures SessionName(CheckTime(hour)) == "close" <==> hour == 14
    ensures SessionName(CheckTime(hour)) == "post-market" <==> hour >= 15
  {
  }

  function SessionOrder(s: Session): nat
  {
    match s
    case PreMarket => 0
    case Noon => 1
    case Close => 2
    case PostMarket => 3
  }

  /** The session never goes backwards as the hour advances. */
  lemma CheckTimeMonotone(h1: int, h2: int)
    requires h1 <= h2
    ensures SessionOrder(CheckTime(h1)) <= SessionOrder(CheckTime(h2))
  {
  }

  // ---------------------------------------------------------------- 5-minute trend

  /** The 5-minute check's outcome: False on an empty frame, else the reading of the last bar. */
  datatype MinuteResult = NoBars | Reading(up: bool, close: real, ma20: Option<real>)

  /** run.py's check: MA5 above MA20 and the close above MA20 on the last 5-minute bar. */
  function MinuteTrend(minute: seq<Bar>): (r: MinuteResult)
    ensures r.NoBars? <==> |minute| == 0
    ensures r.Reading? ==> r.close == minute[|minute| - 1].close
    ensures r.Reading? ==> r.up == LastBarUp(Closes(minute))
  {
    if |minute| == 0 then NoBars
    else
      var close := Closes(minute);
      var n := |minute|;
      Reading(LastBarUp(close), close[n - 1], RollingMeans(close, 20)[n - 1])
  }

  /** run.py and the fallback of run_new.py read the 5-minute bars the same way. */
  lemma MinuteTrendMatchesFallback(minute: seq<Bar>)
    ensures MinuteTrend(minute).NoBars? <==> MarketTrend.Fallback(minute).NoData?
    ensures MinuteTrend(minute).Reading? ==>
      var r := MinuteTrend(minute);
      MarketTrend.Fallback(minute) == MarketTrend.Degraded(r.up, r.close, r.ma20)
  {
  }

  /** The text run.py returns, or None where it returns False. */
  function MinuteMessage(r: MinuteResult, fmt: Render, shortest: real -> Line): (msg: Option<string>)
    ensures msg.None? <==> r.NoBars?
  {
    match r
    case NoBars => None
    case Reading(up, close, ma20) =>
      var m := if ma20.Some? then fmt(ma20.value, 2) else "nan";
      if up then Some("大盘趋势判断：UP (收盘:" + shortest(close) + " > MA20:" + m + ")")
      else Some("大盘趋势判断：DOWN/震荡 (收盘:" + shortest(close) + " < MA20:" + m + " 或 均线死叉)")
  }

  /** The message names UP exactly when the test passed. */
  lemma MinuteMessageDirection(r: MinuteResult, fmt: Render, shortest: real -> Line)
    requires r.Reading?
    ensures "大盘趋势判断：UP" <= MinuteMessage(r, fmt, shortest).value <==> r.up
  {
    var msg := MinuteMessage(r, fmt, shortest).value;
    if !r.up {
      assert msg[7] == 'D';
    }
  }
}
