/**
 * The decision part of `check_market_trend` in run_new.py: the recent and
 * prior windows, the peak/trough divergence test between them, the
 * five-branch regime chain, the MACD cross flag and the four-line summary.
 */
module Regime {
  import opened Common
  import opened Text

  /** One daily or 5-minute bar. The date column only orders the bars and is not carried. */
  datatype Bar = Bar(open: real, high: real, low: real, close: real, volume: real)

  function Closes(bars: seq<Bar>): (r: seq<real>)
    ensures |r| == |bars| && forall i :: 0 <= i < |bars| ==> r[i] == bars[i].close
  {
    seq(|bars|, i requires 0 <= i < |bars| => bars[i].close)
  }

  // ---------------------------------------------------------------- windows

  const LOOKBACK: nat := 20
  const PRIOR_SPAN: nat := 30
  const MIN_PRIOR: nat := 10

  /** Where `df.iloc[-20:]` starts: the recent window is the last min(20, n) bars. */
  function RecentStart(n: nat): (s: nat)
    ensures s <= n && n - s == Min(LOOKBACK, n)
  {
    if n >= LOOKBACK then n - LOOKBACK else 0
  }

  /**
   * The prior window `[lo, hi)`: `df.iloc[-50:-20]` when there are at
   * least 50 bars, else `df.iloc[:max(0, n - 20)]`. It ends where the
   * recent window starts and holds the 30 bars before it, or all of them
   * when fewer exist.
   */
  function PriorWindow(n: nat): (w: (nat, nat))
    ensures w.0 <= w.1 == RecentStart(n)
    ensures w.1 - w.0 == Min(PRIOR_SPAN, RecentStart(n))
  {
    if n >= LOOKBACK + PRIOR_SPAN then (n - LOOKBACK - PRIOR_SPAN, n - LOOKBACK)
    else (0, Max(0, n - LOOKBACK))
  }

  /** The prior window is too short for the divergence test exactly when there are fewer than 30 bars. */
  lemma PriorTooShortIff(n: nat)
    ensures PriorWindow(n).1 - PriorWindow(n).0 < MIN_PRIOR <==> n < LOOKBACK + MIN_PRIOR
  {
  }

  // ---------------------------------------------------------------- extremes

  /** Bar `k` is where `idxmax` of the highs of `bars[lo..hi]` lands: the first bar with the window's highest high. */
  ghost predicate FirstHighestIn(bars: seq<Bar>, lo: int, hi: int, k: int)
  {
    && 0 <= lo <= k < hi <= |bars|
    && (forall j :: lo <= j < hi ==> bars[j].high <= bars[k].high)
    && (forall j :: lo <= j < k ==> bars[j].high < bars[k].high)
  }

  /** Bar `k` is where `idxmin` of the lows of `bars[lo..hi]` lands: the first bar with the window's lowest low. */
  ghost predicate FirstLowestIn(bars: seq<Bar>, lo: int, hi: int, k: int)
  {
    && 0 <= lo <= k < hi <= |bars|
    && (forall j :: lo <= j < hi ==> bars[k].low <= bars[j].low)
    && (forall j :: lo <= j < k ==> bars[k].low < bars[j].low)
  }

  /** `idxmax` of the highs over the window `[lo, hi)`. */
  function HighestBar(bars: seq<Bar>, lo: nat, hi: nat): (k: nat)
    requires lo < hi <= |bars|
    ensures FirstHighestIn(bars, lo, hi, k)
    decreases hi - lo
  {
    if hi - lo == 1 then lo
    else
      var k := HighestBar(bars, lo, hi - 1);
      if bars[hi - 1].high > bars[k].high then hi - 1 else k
  }

  /** `idxmin` of the lows over the window `[lo, hi)`. */
  function LowestBar(bars: seq<Bar>, lo: nat, hi: nat): (k: nat)
    requires lo < hi <= |bars|
    ensures FirstLowestIn(bars, lo, hi, k)
    decreases hi - lo
  {
    if hi - lo == 1 then lo
    else
      var k := LowestBar(bars, lo, hi - 1);
      if bars[hi - 1].low < bars[k].low then hi - 1 else k
  }

  /** A window has only one first-highest bar. */
  lemma FirstHighestUnique(bars: seq<Bar>, lo: int, hi: int, k1: int, k2: int)
    requires FirstHighestIn(bars, lo, hi, k1) && FirstHighestIn(bars, lo, hi, k2)
    ensures k1 == k2
  {
    assert bars[k1].high <= bars[k2].high && bars[k2].high <= bars[k1].high;
  }

  /** A window has only one first-lowest bar. */
  lemma FirstLowestUnique(bars: seq<Bar>, lo: int, hi: int, k1: int, k2: int)
    requires FirstLowestIn(bars, lo, hi, k1) && FirstLowestIn(bars, lo, hi, k2)
    ensures k1 == k2
  {
    assert bars[k1].low <= bars[k2].low && bars[k2].low <= bars[k1].low;
  }

  // ---------------------------------------------------------------- divergence

  const RSI_MARGIN: real := 3.0

  datatype Divergence = Divergence(top: bool, bottom: bool)

  /**
   * The divergence test: a new high in the recent window that the RSI
   * does not confirm by 3 points (top), and the mirror for lows (bottom).
   * Both flags are off when the prior window has fewer than 10 bars.
   */
  function DetectDivergence(bars: seq<Bar>, rsi: seq<real>): (d: Divergence)
    requires |bars| == |rsi| && |bars| >= 1
    ensures PriorWindow(|bars|).1 - PriorWindow(|bars|).0 < MIN_PRIOR ==> !d.top && !d.bottom
  {
    var n := |bars|;
    var rs := RecentStart(n);
    var (lo, hi) := PriorWindow(n);
    if hi - lo < MIN_PRIOR then Divergence(false, false)
    else
      var recentHigh := HighestBar(bars, rs, n);
      var priorHigh := HighestBar(bars, lo, hi);
      var recentLow := LowestBar(bars, rs, n);
      var priorLow := LowestBar(bars, lo, hi);
      Divergence(
        bars[recentHigh].high > bars[priorHigh].high && rsi[recentHigh] < rsi[priorHigh] - RSI_MARGIN,
        bars[recentLow].low < bars[priorLow].low && rsi[recentLow] > rsi[priorLow] + RSI_MARGIN)
  }

  /**
   * Top divergence holds iff the prior window has at least 10 bars, the
   * recent window's highest high exceeds the prior window's, and the RSI
   * at the first bar reaching the recent high is more than 3 below the
   * RSI at the first bar reaching the prior high.
   */
  lemma TopDivergenceIff(bars: seq<Bar>, rsi: seq<real>, r: int, p: int)
    requires |bars| == |rsi| && |bars| >= 1
    requires FirstHighestIn(bars, RecentStart(|bars|), |bars|, r)
    requires FirstHighestIn(bars, PriorWindow(|bars|).0, PriorWindow(|bars|).1, p)
    ensures DetectDivergence(bars, rsi).top <==>
      && PriorWindow(|bars|).1 - PriorWindow(|bars|).0 >= MIN_PRIOR
      && bars[r].high > bars[p].high
      && rsi[r] < rsi[p] - RSI_MARGIN
  {
    var n := |bars|;
    var (lo, hi) := PriorWindow(n);
    if hi - lo >= MIN_PRIOR {
      FirstHighestUnique(bars, RecentStart(n), n, r, HighestBar(bars, RecentStart(n), n));
      FirstHighestUnique(bars, lo, hi, p, HighestBar(bars, lo, hi));
    }
  }

  /** The mirror of TopDivergenceIff for lows, with the RSI more than 3 above. */
  lemma BottomDivergenceIff(bars: seq<Bar>, rsi: seq<real>, r: int, p: int)
    requires |bars| == |rsi| && |bars| >= 1
    requires FirstLowestIn(bars, RecentStart(|bars|), |bars|, r)
    requires FirstLowestIn(bars, PriorWindow(|bars|).0, PriorWindow(|bars|).1, p)
    ensures DetectDivergence(bars, rsi).bottom <==>
      && PriorWindow(|bars|).1 - PriorWindow(|bars|).0 >= MIN_PRIOR
      && bars[r].low < bars[p].low
      && rsi[r] > rsi[p] + RSI_MARGIN
  {
    var n := |bars|;
    var (lo, hi) := PriorWindow(n);
    if hi - lo >= MIN_PRIOR {
      FirstLowestUnique(bars, RecentStart(n), n, r, LowestBar(bars, RecentStart(n), n));
      FirstLowestUnique(bars, lo, hi, p, LowestBar(bars, lo, hi));
    }
  }

  // ---------------------------------------------------------------- regime chain

  const SIDEWAYS_SPREAD: real := 1.5
  const NEUTRAL_LOW: real := 40.0
  const NEUTRAL_HIGH: real := 60.0
  /** The spread used when MA20 is not positive. */
  const NO_SPREAD: real := 99.0

  /** The latest values the regime chain reads. */
  datatype Snapshot = Snapshot(close: real, ma5: real, ma20: real, rsi: real, dif: real, dea: real)

  function Abs(x: real): real
  {
    if x < 0.0 then -x else x
  }

  /**
   * `abs(ma5 - ma20) / ma20 * 100`, or 99 when MA20 is not positive; it is
   * under 1.5 exactly when the two averages are within 1.5 % of MA20.
   */
  function SpreadPct(ma5: real, ma20: real): (r: real)
    ensures r >= 0.0
    ensures ma20 <= 0.0 ==> r == NO_SPREAD
    ensures ma20 > 0.0 ==> (r < SIDEWAYS_SPREAD <==> Abs(ma5 - ma20) * 100.0 < SIDEWAYS_SPREAD * ma20)
  {
    if ma20 > 0.0 then
      var r := Abs(ma5 - ma20) / ma20 * 100.0;
      assert r * ma20 == Abs(ma5 - ma20) * 100.0;
      r
    else NO_SPREAD
  }

  predicate MaConverged(s: Snapshot)
  {
    SpreadPct(s.ma5, s.ma20) < SIDEWAYS_SPREAD
  }

  predicate RsiNeutral(s: Snapshot)
  {
    NEUTRAL_LOW <= s.rsi <= NEUTRAL_HIGH
  }

  predicate BullAligned(s: Snapshot)
  {
    s.ma5 > s.ma20 && s.close > s.ma20 && s.dif > s.dea
  }

  predicate BearAligned(s: Snapshot)
  {
    s.ma5 < s.ma20 && s.close < s.ma20 && s.dif < s.dea
  }

  /** The regime, with the reversal warning split by the logic text it shows. */
  datatype Regime = TopReversal | BottomReversal | Sideways | Bull | Bear | Transition

  /**
   * The first-match-wins chain: divergence, then sideways, then bull, then
   * bear, else transitional. Each regime is chosen exactly when its own
   * guard holds and every earlier guard fails.
   */
  function Classify(d: Divergence, s: Snapshot): (r: Regime)
    ensures r == TopReversal <==> d.top
    ensures r == BottomReversal <==> !d.top && d.bottom
    ensures r == Sideways <==> !d.top && !d.bottom && (MaConverged(s) || RsiNeutral(s))
    ensures r == Bull <==> !d.top && !d.bottom && !MaConverged(s) && !RsiNeutral(s) && BullAligned(s)
    ensures r == Bear <==> !d.top && !d.bottom && !MaConverged(s) && !RsiNeutral(s) && BearAligned(s)
    ensures r == Transition <==>
      !d.top && !d.bottom && !MaConverged(s) && !RsiNeutral(s) && !BullAligned(s) && !BearAligned(s)
  {
    if d.top || d.bottom then (if d.top then TopReversal else BottomReversal)
    else if MaConverged(s) || RsiNeutral(s) then Sideways
    else if BullAligned(s) then Bull
    else if BearAligned(s) then Bear
    else Transition
  }

  /** The bull and bear guards exclude each other, so their order in the chain does not matter. */
  lemma BullBearExclusive(s: Snapshot)
    ensures !(BullAligned(s) && BearAligned(s))
  {
  }

  /** A trend regime implies the averages are at least 1.5 % apart and the RSI is outside [40, 60]. */
  lemma TrendMeansNotSideways(d: Divergence, s: Snapshot)
    requires Classify(d, s) in {Bull, Bear}
    ensures s.ma20 > 0.0 ==> Abs(s.ma5 - s.ma20) * 100.0 >= SIDEWAYS_SPREAD * s.ma20
    ensures s.rsi < NEUTRAL_LOW || s.rsi > NEUTRAL_HIGH
  {
  }

  // ---------------------------------------------------------------- MACD cross

  datatype Cross = Gold | Death | Neutral

  predicate GoldCross(prevDif: real, prevDea: real, dif: real, dea: real)
  {
    prevDif <= prevDea && dif > dea
  }

  predicate DeathCross(prevDif: real, prevDea: real, dif: real, dea: real)
  {
    prevDif >= prevDea && dif < dea
  }

  /**
   * The cross state between the last two bars (the last bar stands in for
   * the previous one when there is only one), '金叉' taking precedence
   * over '死叉' as in the summary's conditional.
   */
  function CrossOf(dif: seq<real>, dea: seq<real>): (c: Cross)
    requires |dif| == |dea| >= 1
    ensures var n := |dif|;
      var p := if n >= 2 then n - 2 else n - 1;
      && (c == Gold <==> GoldCross(dif[p], dea[p], dif[n - 1], dea[n - 1]))
      && (c == Death <==> DeathCross(dif[p], dea[p], dif[n - 1], dea[n - 1]))
    ensures |dif| == 1 ==> c == Neutral
  {
    var n := |dif|;
    var p := if n >= 2 then n - 2 else n - 1;
    if GoldCross(dif[p], dea[p], dif[n - 1], dea[n - 1]) then Gold
    else if DeathCross(dif[p], dea[p], dif[n - 1], dea[n - 1]) then Death
    else Neutral
  }

  /** A gold cross and a death cross never hold together. */
  lemma GoldDeathExclusive(prevDif: real, prevDea: real, dif: real, dea: real)
    ensures !(GoldCross(prevDif, prevDea, dif, dea) && DeathCross(prevDif, prevDea, dif, dea))
  {
  }

  // ---------------------------------------------------------------- summary

  /** Text that holds no line break, such as a number rendered with a fixed number of decimals. */
  type Line = s: string | '\n' !in s

  // The texts the summary shows, one constant per literal of run_new.py.
  const ENV_REVERSAL: Line := "趋势反转预警"
  const ENV_SIDEWAYS: Line := "横盘震荡"
  const ENV_BULL: Line := "明显上升趋势（偏牛）"
  const ENV_BEAR: Line := "明显下降趋势（偏熊）"
  const ENV_UNCLEAR: Line := "趋势不明确/过渡"
  const USE_COMBINED: Line := "组合使用：MACD + RSI/KDJ"
  const USE_MOMENTUM: Line := "动量类：RSI、KDJ、WR"
  const USE_TREND: Line := "趋势类：MA、MACD、ADX"
  const LOGIC_TOP: Line := "顶背离：价格创新高但 RSI 未创新高，" + "警惕见顶；等待 MACD 死叉确认后再考虑减仓。"
  const LOGIC_BOTTOM: Line := "底背离：价格创新低但 RSI 未新低，" + "关注见底机会；等待 MACD 金叉确认后再考虑介入。"
  const LOGIC_SIDEWAYS: Line := "高抛低吸，关注超买(RSI>70)、" + "超卖(RSI<30)区域的反转信号，" + "忽略趋势类追涨杀跌。"
  const LOGIC_BULL: Line := "顺势持有，以均线为支撑/加仓参考，" + "忽略超买超卖噪音；破位 MA20 再考虑止盈或减仓。"
  const LOGIC_BEAR: Line := "顺势观望或防守，反弹至均线压力减仓，不抄底；" + "等 MACD 金叉+站上 MA20 再考虑参与。"
  const LOGIC_UNCLEAR: Line := "可观望或轻仓，等待趋势明朗（均线多头/空头排列）" + "或出现明确背离/金叉死叉再操作。"
  const TAG_ENV: Line := "【市场环境】"
  const TAG_USE: Line := "【推荐指标】"
  const TAG_LOGIC: Line := "【操作逻辑】"
  const TAG_DATA: Line := "【当前数据】收盘:"
  const FIELD_MA5: Line := " | MA5:"
  const FIELD_MA20: Line := " MA20:"
  const FIELD_RSI: Line := " | RSI:"
  const FIELD_MACD: Line := " | MACD:"

  function EnvLabel(r: Regime): Line
  {
    match r
    case TopReversal => ENV_REVERSAL
    case BottomReversal => ENV_REVERSAL
    case Sideways => ENV_SIDEWAYS
    case Bull => ENV_BULL
    case Bear => ENV_BEAR
    case Transition => ENV_UNCLEAR
  }

  function RecommendLabel(r: Regime): Line
  {
    match r
    case TopReversal => USE_COMBINED
    case BottomReversal => USE_COMBINED
    case Sideways => USE_MOMENTUM
    case Bull => USE_TREND
    case Bear => USE_TREND
    case Transition => USE_COMBINED
  }

  function LogicText(r: Regime): Line
  {
    match r
    case TopReversal => LOGIC_TOP
    case BottomReversal => LOGIC_BOTTOM
    case Sideways => LOGIC_SIDEWAYS
    case Bull => LOGIC_BULL
    case Bear => LOGIC_BEAR
    case Transition => LOGIC_UNCLEAR
  }

  function CrossLabel(c: Cross): Line
  {
    match c
    case Gold => "金叉"
    case Death => "死叉"
    case Neutral => "中性"
  }

  /** The operating-logic text names the regime: the six texts are distinct. */
  lemma LogicTextIdentifies(r1: Regime, r2: Regime)
    ensures LogicText(r1) == LogicText(r2) <==> r1 == r2
  {
    if r1 != r2 {
      assert LogicText(r1)[0] != LogicText(r2)[0] || LogicText(r1)[2] != LogicText(r2)[2];
    }
  }

  /** The environment label names the regime, except that both reversal warnings share one label. */
  lemma EnvLabelIdentifies(r1: Regime, r2: Regime)
    ensures EnvLabel(r1) == EnvLabel(r2) <==>
      r1 == r2 || (r1 in {TopReversal, BottomReversal} && r2 in {TopReversal, BottomReversal})
  {
  }

  /** The three cross labels are distinct and two characters long. */
  lemma CrossLabelIdentifies(c1: Cross, c2: Cross)
    ensures |CrossLabel(c1)| == 2
    ensures CrossLabel(c1) == CrossLabel(c2) <==> c1 == c2
  {
  }

  /** Renders a number with the given count of decimals (`:.2f`, `:.1f`); never a line break. */
  type Render = (real, nat) -> Line

  /** The four lines of the summary, each the concatenation of line-break-free parts. */
  function SummaryLines(r: Regime, c: Cross, s: Snapshot, fmt: Render): (lines: seq<Line>)
    ensures |lines| == 4
  {
    [ TAG_ENV + EnvLabel(r),
      TAG_USE + RecommendLabel(r),
      TAG_LOGIC + LogicText(r),
      TAG_DATA + fmt(s.close, 2) + FIELD_MA5 + fmt(s.ma5, 2) + FIELD_MA20 + fmt(s.ma20, 2)
        + FIELD_RSI + fmt(s.rsi, 1) + FIELD_MACD + CrossLabel(c) ]
  }

  /** The summary block: the four lines joined by line breaks. */
  function Summary(r: Regime, c: Cross, s: Snapshot, fmt: Render): (text: string)
    ensures TAG_ENV <= text
  {
    Join(SummaryLines(r, c, s, fmt), '\n')
  }

  /** `t` is the tail of `s`. */
  predicate EndsWith(s: string, t: string)
  {
    |t| <= |s| && s[|s| - |t|..] == t
  }

  /**
   * The summary splits into exactly four lines, headed 【市场环境】,
   * 【推荐指标】, 【操作逻辑】 and 【当前数据】, carrying the regime label,
   * the recommended indicators, the operating logic and the data line,
   * which ends with the MACD field showing the cross label.
   */
  lemma SummaryHasFourLines(r: Regime, c: Cross, s: Snapshot, fmt: Render)
    ensures var lines := Split(Summary(r, c, s, fmt), '\n');
      && |lines| == 4
      && lines[0] == TAG_ENV + EnvLabel(r)
      && lines[1] == TAG_USE + RecommendLabel(r)
      && lines[2] == TAG_LOGIC + LogicText(r)
      && TAG_DATA <= lines[3]
      && EndsWith(lines[3], FIELD_MACD + CrossLabel(c))
  {
    var lines := SummaryLines(r, c, s, fmt);
    SplitJoin(lines, '\n');
  }

  /** The summary text determines the regime and the cross it reports. */
  lemma SummaryDeterminesVerdict(r1: Regime, c1: Cross, s1: Snapshot, fmt1: Render,
                                 r2: Regime, c2: Cross, s2: Snapshot, fmt2: Render)
    requires Summary(r1, c1, s1, fmt1) == Summary(r2, c2, s2, fmt2)
    ensures r1 == r2 && c1 == c2
  {
    SummaryHasFourLines(r1, c1, s1, fmt1);
    SummaryHasFourLines(r2, c2, s2, fmt2);
    var lines := Split(Summary(r1, c1, s1, fmt1), '\n');
    assert (TAG_LOGIC + LogicText(r1))[|TAG_LOGIC|..] == LogicText(r1);
    assert (TAG_LOGIC + LogicText(r2))[|TAG_LOGIC|..] == LogicText(r2);
    LogicTextIdentifies(r1, r2);
    var tail1 := FIELD_MACD + CrossLabel(c1);
    var tail2 := FIELD_MACD + CrossLabel(c2);
    CrossLabelIdentifies(c1, c2);
    CrossLabelIdentifies(c2, c1);
    assert |tail1| == |tail2|;
    assert tail1 == tail2;
    assert tail1[|FIELD_MACD|..] == CrossLabel(c1);
    assert tail2[|FIELD_MACD|..] == CrossLabel(c2);
  }
}
