/**
 * `check_market_trend` in run_new.py: the full daily analysis when at
 * least 60 daily bars are available, else the 5-minute fallback, else no
 * data. The fetched series are parameters; the pipeline is a function, and
 * a method fills the indicator columns as run_new.py does and is proved
 * to reach the same verdict.
 */
module MarketTrend {
  import opened Common
  import opened Indicators
  import opened Regime

  const MIN_DAILY_BARS: nat := 60
  const MA_SHORT: nat := 5
  const MA_LONG: nat := 20
  const NO_DATA_MESSAGE: string := "无法获取大盘数据"

  /** The three outcomes of the check. */
  datatype Trend =
    | NoData
    | Degraded(up: bool, close: real, ma20: Option<real>)
    | Full(regime: Regime, cross: Cross, snap: Snapshot)

  /** The daily frame is used only when it was fetched and has at least 60 rows. */
  predicate DailyUsable(daily: Option<seq<Bar>>)
  {
    daily.Some? && |daily.value| >= MIN_DAILY_BARS
  }

  /**
   * The last row of the daily indicator columns: the close, the rolling
   * MA5 and MA20 there (the means of the last 5 and 20 closes), the RSI
   * and the two MACD lines.
   */
  function SnapshotOf(bars: seq<Bar>): (snap: Snapshot)
    requires |bars| >= MIN_DAILY_BARS
    ensures 0.0 <= snap.rsi < 100.0
  {
    var close := Closes(bars);
    var n := |bars|;
    var m := CalcMacd(close, FAST_SPAN, SLOW_SPAN, SIGNAL_SPAN);
    Snapshot(close[n - 1], Mean(close[n - MA_SHORT..]), Mean(close[n - MA_LONG..]),
      Rsi(close, RSI_PERIOD)[n - 1], m.dif[n - 1], m.dea[n - 1])
  }

  /**
   * With at least 60 daily bars the recent window is exactly the last 20
   * bars and the prior window exactly the 30 before them, so the prior
   * window is never too short and the divergence test always runs.
   */
  lemma DailyWindows(n: nat)
    requires n >= MIN_DAILY_BARS
    ensures RecentStart(n) == n - LOOKBACK
    ensures PriorWindow(n) == (n - LOOKBACK - PRIOR_SPAN, n - LOOKBACK)
    ensures PriorWindow(n).1 - PriorWindow(n).0 >= MIN_PRIOR
  {
  }

  /**
   * On the daily path the divergence flags compare the first highest
   * (lowest) bar of the last 20 bars with that of the 30 bars before them.
   */
  lemma DailyDivergence(bars: seq<Bar>, rsi: seq<real>)
    requires |bars| >= MIN_DAILY_BARS && |rsi| == |bars|
    ensures var n := |bars|;
      var d := DetectDivergence(bars, rsi);
      var rh := HighestBar(bars, n - LOOKBACK, n);
      var ph := HighestBar(bars, n - LOOKBACK - PRIOR_SPAN, n - LOOKBACK);
      var rl := LowestBar(bars, n - LOOKBACK, n);
      var pl := LowestBar(bars, n - LOOKBACK - PRIOR_SPAN, n - LOOKBACK);
      && (d.top <==> bars[rh].high > bars[ph].high && rsi[rh] < rsi[ph] - RSI_MARGIN)
      && (d.bottom <==> bars[rl].low < bars[pl].low && rsi[rl] > rsi[pl] + RSI_MARGIN)
  {
    DailyWindows(|bars|);
  }

  /** The regime and cross of the daily verdict, for any RSI and MACD columns and snapshot. */
  lemma DailyVerdict(bars: seq<Bar>, rsi: seq<real>, dif: seq<real>, dea: seq<real>, snap: Snapshot)
    requires |bars| >= MIN_DAILY_BARS && |rsi| == |bars| && |dif| == |bars| && |dea| == |bars|
    ensures var n := |bars|;
      var regime := Classify(DetectDivergence(bars, rsi), snap);
      var rh := HighestBar(bars, n - LOOKBACK, n);
      var ph := HighestBar(bars, n - LOOKBACK - PRIOR_SPAN, n - LOOKBACK);
      var rl := LowestBar(bars, n - LOOKBACK, n);
      var pl := LowestBar(bars, n - LOOKBACK - PRIOR_SPAN, n - LOOKBACK);
      var top := bars[rh].high > bars[ph].high && rsi[rh] < rsi[ph] - RSI_MARGIN;
      var bottom := bars[rl].low < bars[pl].low && rsi[rl] > rsi[pl] + RSI_MARGIN;
      && (regime == TopReversal <==> top)
      && (regime == BottomReversal <==> !top && bottom)
      && (!top && !bottom ==> regime == Classify(Divergence(false, false), snap))
    ensures var n := |bars|;
      && (CrossOf(dif, dea) == Gold <==> GoldCross(dif[n - 2], dea[n - 2], dif[n - 1], dea[n - 1]))
      && (CrossOf(dif, dea) == Death <==> DeathCross(dif[n - 2], dea[n - 2], dif[n - 1], dea[n - 1]))
  {
    DailyDivergence(bars, rsi);
    var d := DetectDivergence(bars, rsi);
    assert d == Divergence(d.top, d.bottom);
  }

  /**
   * The daily analysis. The snapshot holds the last close, the means of
   * the last 5 and 20 closes and the last RSI, DIF and DEA. The regime is
   * a top reversal exactly when the last 20 bars reach a higher high than
   * the 30 before them while the RSI at that bar is more than 3 lower, a
   * bottom reversal on the mirror condition for lows, and otherwise the
   * verdict of the chain on the snapshot alone. The cross compares the
   * last two bars of the MACD lines.
   */
  function Analyze(bars: seq<Bar>): (t: Trend)
    requires |bars| >= MIN_DAILY_BARS
    ensures t.Full?
    ensures var n := |bars|;
      var close := Closes(bars);
      var m := CalcMacd(close, FAST_SPAN, SLOW_SPAN, SIGNAL_SPAN);
      && t.snap.close == bars[n - 1].close
      && t.snap.ma5 == Mean(close[n - MA_SHORT..]) && t.snap.ma20 == Mean(close[n - MA_LONG..])
      && t.snap.rsi == Rsi(close, RSI_PERIOD)[n - 1]
      && t.snap.dif == m.dif[n - 1] && t.snap.dea == m.dea[n - 1]
    ensures var n := |bars|;
      var rsi := Rsi(Closes(bars), RSI_PERIOD);
      var rh := HighestBar(bars, n - LOOKBACK, n);
      var ph := HighestBar(bars, n - LOOKBACK - PRIOR_SPAN, n - LOOKBACK);
      var rl := LowestBar(bars, n - LOOKBACK, n);
      var pl := LowestBar(bars, n - LOOKBACK - PRIOR_SPAN, n - LOOKBACK);
      var top := bars[rh].high > bars[ph].high && rsi[rh] < rsi[ph] - RSI_MARGIN;
      var bottom := bars[rl].low < bars[pl].low && rsi[rl] > rsi[pl] + RSI_MARGIN;
      && (t.regime == TopReversal <==> top)
      && (t.regime == BottomReversal <==> !top && bottom)
      && (!top && !bottom ==> t.regime == Classify(Divergence(false, false), t.snap))
    ensures var n := |bars|;
      var m := CalcMacd(Closes(bars), FAST_SPAN, SLOW_SPAN, SIGNAL_SPAN);
      && (t.cross == Gold <==> GoldCross(m.dif[n - 2], m.dea[n - 2], m.dif[n - 1], m.dea[n - 1]))
      && (t.cross == Death <==> DeathCross(m.dif[n - 2], m.dea[n - 2], m.dif[n - 1], m.dea[n - 1]))
  {
    var close := Closes(bars);
    var m := CalcMacd(close, FAST_SPAN, SLOW_SPAN, SIGNAL_SPAN);
    var snap := SnapshotOf(bars);
    DailyVerdict(bars, Rsi(close, RSI_PERIOD), m.dif, m.dea, snap);
    Full(Classify(DetectDivergence(bars, Rsi(close, RSI_PERIOD)), snap), CrossOf(m.dif, m.dea), snap)
  }

  /**
   * The 5-minute fallback: no data on an empty frame, else the direction
   * of the MA5/MA20 test on the last bar with its close and MA20.
   */
  function Fallback(minute: seq<Bar>): (t: Trend)
    ensures t.NoData? <==> |minute| == 0
    ensures t.Degraded? ==> var close := Closes(minute);
      var n := |minute|;
      && t.close == close[n - 1]
      && (t.ma20.Some? <==> n >= MA_LONG)
      && (t.ma20.Some? ==> t.ma20.value == Mean(close[n - MA_LONG..]))
      && (t.up <==> n >= MA_LONG && Mean(close[n - MA_SHORT..]) > Mean(close[n - MA_LONG..])
                    && close[n - 1] > Mean(close[n - MA_LONG..]))
  {
    if |minute| == 0 then NoData
    else
      var close := Closes(minute);
      var n := |minute|;
      LastBarUpIff(close);
      var t := Degraded(LastBarUp(close), close[n - 1], RollingMeans(close, MA_LONG)[n - 1]);
      if n >= MA_LONG then
        RollingMeanAtLast(close, MA_LONG);
        t
      else t
  }

  /** The whole check: the daily analysis when the daily frame is usable, else the fallback. */
  function MarketTrend(daily: Option<seq<Bar>>, minute: seq<Bar>): (t: Trend)
    ensures t.Full? <==> DailyUsable(daily)
    ensures DailyUsable(daily) ==> t == Analyze(daily.value)
    ensures !DailyUsable(daily) ==> t == Fallback(minute)
    ensures t.NoData? <==> !DailyUsable(daily) && |minute| == 0
  {
    if DailyUsable(daily) then Analyze(daily.value) else Fallback(minute)
  }

  /**
   * `check_market_trend` as run_new.py runs it: the indicator columns are
   * computed into arrays and the last row is read from them.
   */
  method CheckMarketTrend(daily: Option<seq<Bar>>, minute: seq<Bar>) returns (t: Trend)
    ensures t == MarketTrend(daily, minute)
  {
    if DailyUsable(daily) {
      t := AnalyzeDaily(daily.value);
    } else {
      t := CheckMinute(minute);
    }
  }

  /** The 5-minute fallback over the MA5 and MA20 columns. */
  method CheckMinute(minute: seq<Bar>) returns (t: Trend)
    ensures t == Fallback(minute)
  {
    if |minute| == 0 {
      return NoData;
    }
    var close := Closes(minute);
    var n := |minute|;
    var ma5 := RollingMeanColumn(close, MA_SHORT);
    var ma20 := RollingMeanColumn(close, MA_LONG);
    var up := Above(ma5[n - 1], ma20[n - 1]) && Above(Some(close[n - 1]), ma20[n - 1]);
    t := Degraded(up, close[n - 1], ma20[n - 1]);
  }

  /** The daily analysis over the MA, MACD and RSI columns. */
  method AnalyzeDaily(bars: seq<Bar>) returns (t: Trend)
    requires |bars| >= MIN_DAILY_BARS
    ensures t == Analyze(bars)
  {
    var n := |bars|;
    var ma5, ma20, rsi, dif, dea := DailyColumns(bars);
    LastRowIsSnapshot(bars, ma5, ma20, rsi, dif, dea);
    var snap := Snapshot(bars[n - 1].close, ma5[n - 1].value, ma20[n - 1].value, rsi[n - 1], dif[n - 1], dea[n - 1]);
    t := Full(Classify(DetectDivergence(bars, rsi), snap), CrossOf(dif, dea), snap);
  }

  /** The indicator columns of the daily frame, filled into arrays and read back. */
  method DailyColumns(bars: seq<Bar>)
    returns (ma5: seq<Option<real>>, ma20: seq<Option<real>>, rsi: seq<real>, dif: seq<real>, dea: seq<real>)
    ensures ma5 == RollingMeans(Closes(bars), MA_SHORT) && ma20 == RollingMeans(Closes(bars), MA_LONG)
    ensures rsi == Rsi(Closes(bars), RSI_PERIOD)
    ensures dif == CalcMacd(Closes(bars), FAST_SPAN, SLOW_SPAN, SIGNAL_SPAN).dif
    ensures dea == CalcMacd(Closes(bars), FAST_SPAN, SLOW_SPAN, SIGNAL_SPAN).dea
  {
    var close := Closes(bars);
    var ma5Col := RollingMeanColumn(close, MA_SHORT);
    ma5 := ma5Col[..];
    var ma20Col := RollingMeanColumn(close, MA_LONG);
    ma20 := ma20Col[..];
    var difCol, deaCol, barCol := MacdColumns(close, FAST_SPAN, SLOW_SPAN, SIGNAL_SPAN);
    dif, dea := difCol[..], deaCol[..];
    var rsiCol := RsiColumn(close, RSI_PERIOD);
    rsi := rsiCol[..];
  }

  /** The last row of the rolling-mean, RSI and MACD columns is the snapshot. */
  lemma LastRowIsSnapshot(bars: seq<Bar>, ma5: seq<Option<real>>, ma20: seq<Option<real>>,
                          rsi: seq<real>, dif: seq<real>, dea: seq<real>)
    requires |bars| >= MIN_DAILY_BARS
    requires ma5 == RollingMeans(Closes(bars), MA_SHORT) && ma20 == RollingMeans(Closes(bars), MA_LONG)
    requires rsi == Rsi(Closes(bars), RSI_PERIOD)
    requires dif == CalcMacd(Closes(bars), FAST_SPAN, SLOW_SPAN, SIGNAL_SPAN).dif
    requires dea == CalcMacd(Closes(bars), FAST_SPAN, SLOW_SPAN, SIGNAL_SPAN).dea
    ensures var n := |bars|;
      ma5[n - 1].Some? && ma20[n - 1].Some?
      && Snapshot(bars[n - 1].close, ma5[n - 1].value, ma20[n - 1].value, rsi[n - 1], dif[n - 1], dea[n - 1])
         == SnapshotOf(bars)
  {
    RollingMeanAtLast(Closes(bars), MA_SHORT);
    RollingMeanAtLast(Closes(bars), MA_LONG);
  }

  /**
   * A flat market: when every daily bar has the same close, high and low,
   * the averages equal the close, MACD and RSI are zero, there is no
   * divergence and no cross, and the regime is sideways when the close is
   * positive (the averages coincide) and transitional otherwise (the
   * spread falls back to 99 and RSI 0 is outside the neutral band).
   */
  lemma FlatMarket(bars: seq<Bar>, c: real, h: real, l: real)
    requires |bars| >= MIN_DAILY_BARS
    requires forall i :: 0 <= i < |bars| ==> bars[i].close == c && bars[i].high == h && bars[i].low == l
    ensures Analyze(bars) == Full(if c > 0.0 then Sideways else Transition, Neutral, Snapshot(c, c, c, 0.0, 0.0, 0.0))
  {
    var t := Analyze(bars);
    FlatSnapshot(bars, c);
    FlatNoDivergence(bars, Rsi(Closes(bars), RSI_PERIOD), h, l);
    FlatNoCross(Closes(bars), c);
  }

  lemma FlatSnapshot(bars: seq<Bar>, c: real)
    requires |bars| >= MIN_DAILY_BARS
    requires forall i :: 0 <= i < |bars| ==> bars[i].close == c
    ensures SnapshotOf(bars) == Snapshot(c, c, c, 0.0, 0.0, 0.0)
  {
    var close := Closes(bars);
    var n := |bars|;
    MeanConstant(close[n - MA_SHORT..], c);
    MeanConstant(close[n - MA_LONG..], c);
    MacdOfConstant(close, c, FAST_SPAN, SLOW_SPAN, SIGNAL_SPAN);
    RsiZeroIff(close, RSI_PERIOD, n - 1);
  }

  /** With equal highs and equal lows, no window makes a new high or low, so neither divergence fires. */
  lemma FlatNoDivergence(bars: seq<Bar>, rsi: seq<real>, h: real, l: real)
    requires |bars| == |rsi| && |bars| >= 1
    requires forall i :: 0 <= i < |bars| ==> bars[i].high == h && bars[i].low == l
    ensures DetectDivergence(bars, rsi) == Divergence(false, false)
  {
  }

  /** Constant closes give identical DIF and DEA lines, which never cross. */
  lemma FlatNoCross(close: seq<real>, c: real)
    requires |close| >= 1
    requires forall i :: 0 <= i < |close| ==> close[i] == c
    ensures var m := CalcMacd(close, FAST_SPAN, SLOW_SPAN, SIGNAL_SPAN);
      CrossOf(m.dif, m.dea) == Neutral
  {
    MacdOfConstant(close, c, FAST_SPAN, SLOW_SPAN, SIGNAL_SPAN);
  }

  /** Renders the verdict as the text `check_market_trend` returns. */
  function Message(t: Trend, fmt: Render, shortest: real -> Line): (msg: string)
    ensures t.NoData? ==> msg == NO_DATA_MESSAGE
  {
    match t
    case NoData => NO_DATA_MESSAGE
    case Degraded(up, close, ma20) =>
      "大盘趋势：" + (if up then "UP" else "DOWN/震荡") + " (收盘:" + shortest(close)
        + ", MA20:" + (if ma20.Some? then fmt(ma20.value, 2) else "nan") + ") [数据不足，仅分钟级]"
    case Full(regime, cross, snap) => Summary(regime, cross, snap, fmt)
  }

  /** The fallback message names UP exactly when the minute test passed. */
  lemma DegradedMessageDirection(t: Trend, fmt: Render, shortest: real -> Line)
    requires t.Degraded?
    ensures "大盘趋势：UP (" <= Message(t, fmt, shortest) <==> t.up
  {
    var msg := Message(t, fmt, shortest);
    if !t.up {
      assert msg[5] == 'D';
    }
  }

  /** The full message is the four-line summary with the regime's labels. */
  lemma FullMessageLines(t: Trend, fmt: Render, shortest: real -> Line)
    requires t.Full?
    ensures var lines := Text.Split(Message(t, fmt, shortest), '\n');
      && |lines| == 4
      && lines[0] == TAG_ENV + EnvLabel(t.regime)
      && EndsWith(lines[3], FIELD_MACD + CrossLabel(t.cross))
  {
    SummaryHasFourLines(t.regime, t.cross, t.snap, fmt);
  }
}
