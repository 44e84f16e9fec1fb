# Market-regime checker, trading helpers and user accounts

This project models the core of a stock-analysis assistant for the
Shanghai/Shenzhen/Beijing A-share markets, and proves properties of that
model.

- **`check_market_trend` in run_new.py** classifies the Shanghai Composite
  index. It needs at least 60 daily bars. From them it computes:
  - the MA5 and MA20 rolling means;
  - MACD (EMA spans 12/26/9, no bias adjustment);
  - the 14-period Wilder RSI, with a loss floor of 1e-10.

  It compares the latest 20 bars with the 30 before them to find top and
  bottom divergences against the RSI. A five-branch decision then picks
  the market regime: reversal warning (top or bottom), range-bound, bull,
  bear, or unclear. It also reads the MACD gold/death cross and writes a
  four-line Chinese summary.

  With too few daily bars it falls back to a two-state MA5/MA20 test on
  5-minute bars. With no bars at all it answers "无法获取大盘数据".
- **The helpers of run_new.py:**
  - the exchange prefix of a stock code (`sh`/`sz`/`bj`);
  - whether a chat prompt asks about news, messages or sectors;
  - whether a path has non-ASCII characters.
- **The older run.py:**
  - its exchange symbol (`SH`/`SZ`/`BJ`) with an `UNKNOWN` default;
  - `check_time` on the clock hour;
  - its 5-minute-only trend check, which returns `False` when no bars
    arrive.
- **src/auth.py:** registration, which validates fields and inserts into a
  table whose usernames are unique; the `salt$digest` password format;
  and login.

Modules, one file each:

- `Common`: Option, Min and Max.
- `Text`: Python's `str.strip`, `in`, `split` and `split(sep, 1)`.
- `Indicators`: rolling means, EMA, MACD and RSI. Each is a specification
  function. Beside each is a method that fills an array column with a
  loop, as pandas does, and is proved equal to the function.
- `Regime`: the divergence windows, the regime chain, the cross, and the
  summary text.
- `MarketTrend`: the whole check. `MarketTrend` is the reference function,
  and `CheckMarketTrend` is the imperative pipeline proved to match it.
- `RunHelpers`: the helpers of run_new.py.
- `LegacyRun`: run.py.
- `Auth`: the `UserStore` class, with the users table as a `map` field.

Arithmetic is on exact reals, so every proved bound is exact.

## Behaviour worth knowing

These facts follow from the code and are proved in the model:

- **A flat series has RSI 0 on every bar.** `avg_gain` is 0, so `rs` is
  0 (`Indicators.RsiZeroIff`, `MarketTrend.FlatMarket`). A flat market
  with a positive close is range-bound only because its averages
  coincide; its RSI is outside the neutral band.
- **RSI is not clamped.** In exact arithmetic it lies in [0, 100)
  (`Indicators.RsiValue`, `Indicators.Rsi`).
- **An MA20 of 0 or less gives a spread of 99** (`Regime.SpreadPct`), so
  the MA-convergence test fails.
- **With 60 or more daily bars the prior window always holds 30 bars**
  (`MarketTrend.DailyWindows`). The short-window branch of the divergence
  test is reached only by shorter frames, which the daily path never
  sees.
- **An empty minute frame gives the no-data text** in run_new.py
  (`MarketTrend.Fallback`) and `False` in run.py (`LegacyRun.MinuteTrend`).

## Model

| member | source | states |
|---|---|---|
| Text.Strip | run_new.py:275 | the result has no leading or trailing whitespace (Python's `isspace` set) and is the infix of the input left after removing whitespace from both ends |
| Text.StripIdempotent | run_new.py:275 | stripping twice is stripping once |
| Text.StripKeepsTrimmed | src/auth.py:63 | a string with non-space ends (or empty) is its own strip |
| Text.ContainsStrip | run_new.py:785-786 | a keyword with non-space ends occurs in the stripped text iff it occurs in the raw text |
| Text.SplitJoin | run_new.py:264-269 | splitting the newline-joined lines at newlines gives back the lines, when no line holds a newline |
| Text.SplitOnce | src/auth.py:32 | `split(c, 1)` is None iff `c` is absent; otherwise the input is `a + c + b` and `a` has no `c` |
| Text.SplitOnceRoundTrip | src/auth.py:26-32 | splitting `a + c + b` at `c` gives back `(a, b)` when `a` has no `c` |
| Text.IndexOf | src/auth.py:32 | None iff the character is absent; otherwise its first position |
| Text.Contains | run_new.py:786 | Python's `t in s`: `t` occurs at some position of `s` |
| Text.Split | run_new.py:264-269 | Python's `split(sep)`: at least one piece |
| Text.Join | run_new.py:264-269 | the pieces with the separator between them |
| Text.IndexOfIsFirst | src/auth.py:32 | the separator is found at or before any position that holds it |
| Indicators.RollingMeans | run_new.py:187-188 | one entry per bar, defined exactly from bar `w-1` on (NaN before) |
| Indicators.RollingMeanAtLast | run_new.py:187-188 | the last rolling mean is the mean of the last `w` closes |
| Indicators.RollingMeanColumn | run_new.py:187-188 | the column the loop fills is the rolling-mean sequence |
| Indicators.Alpha | run_new.py:144-145 | the smoothing factor `2/(span+1)` lies in (0, 1] |
| Indicators.Ema | run_new.py:144-145 | `ewm(adjust=False).mean()`: one value per bar, seeded and stepped as EmaFirst and EmaStep state |
| Indicators.EmaPrefix | run_new.py:144-145 | the EMA is causal: the EMA of a prefix is the prefix of the EMA |
| Indicators.EmaFirst | run_new.py:144-145 | the EMA is seeded by the first value |
| Indicators.EmaStep | run_new.py:144-145 | each later EMA value is `alpha*x + (1-alpha)*previous` |
| Indicators.EmaConstant | run_new.py:144-145 | the EMA of a constant series is that constant on every bar |
| Indicators.EmaAtLeast | run_new.py:144-145 | a lower bound of every input bounds every EMA value |
| Indicators.EmaAtMost | run_new.py:144-145 | an upper bound of every input bounds every EMA value |
| Indicators.EmaZeroIff | run_new.py:159-160 | over non-negative inputs and alpha in (0, 1), the EMA is 0 at bar k iff every input up to k is 0 |
| Indicators.EmaColumn | run_new.py:144-145 | the column the loop fills is the EMA sequence |
| Indicators.CalcMacd | run_new.py:147-153 | three lines as long as the input; the bar is positive iff DIF is above DEA, and zero iff they are equal |
| Indicators.MacdOfConstant | run_new.py:147-153 | on a constant series DIF, DEA and the bar are 0 on every bar |
| Indicators.DifColumn | run_new.py:148-150 | the filled column is the fast EMA minus the slow EMA |
| Indicators.MacdColumns | run_new.py:147-153 | the filled DIF, DEA and bar columns are the MACD lines |
| Indicators.Gains | run_new.py:156-157 | the gains are non-negative and 0 on the first bar (the diff there is NaN) |
| Indicators.Losses | run_new.py:156-158 | the losses are non-negative and 0 on the first bar |
| Indicators.GainsLossesSplitDelta | run_new.py:156-158 | gain minus loss is the close-to-close delta, at most one of them is non-zero, and the gain is positive iff the close rose |
| Indicators.RsiValue | run_new.py:161-162 | `100 - 100/(1+rs)`, with zero average loss replaced by 1e-10, lies in [0, 100) and is 0 iff the average gain is 0 |
| Indicators.Smoothing | run_new.py:159-160 | Wilder's `1/period` lies in (0, 1], and below 1 from period 2 |
| Indicators.Rsi | run_new.py:155-162 | one RSI per bar, each in [0, 100) |
| Indicators.RsiZeroIff | run_new.py:155-162 | the RSI at bar k is 0 iff the close never rose up to k |
| Indicators.RsiAt | run_new.py:155-162 | the RSI at a bar is `RsiValue` of the two smoothed averages there |
| Indicators.DeltaColumns | run_new.py:156-158 | the filled gain and loss columns are the gain and loss sequences |
| Indicators.RsiColumn | run_new.py:155-162 | the filled column is the RSI sequence |
| Indicators.LastBarUp | run_new.py:179-182 | the minute test on the last bar, characterised by LastBarUpIff |
| Indicators.LastBarUpIff | run_new.py:179-182 | the minute test passes iff both MAs are defined, MA5 > MA20 and the close > MA20 (a NaN comparison is false) |
| Regime.Closes | run_new.py:186 | the close column, bar by bar |
| Regime.RecentStart | run_new.py:196-197 | the recent window is the last `min(20, n)` bars |
| Regime.PriorWindow | run_new.py:219 | the prior window ends where the recent one starts and holds `min(30, n-20)` bars (none when n <= 20) |
| Regime.PriorTooShortIff | run_new.py:219-220 | the prior window has fewer than 10 bars iff there are fewer than 30 bars |
| Regime.HighestBar | run_new.py:216-221 | `idxmax`: the first bar of the window with the greatest high |
| Regime.LowestBar | run_new.py:225-228 | `idxmin`: the first bar of the window with the least low |
| Regime.FirstHighestUnique | run_new.py:216 | the first greatest-high bar of a window is unique |
| Regime.FirstLowestUnique | run_new.py:225 | the first least-low bar of a window is unique |
| Regime.DetectDivergence | run_new.py:214-233 | a prior window under 10 bars raises neither flag |
| Regime.TopDivergenceIff | run_new.py:216-224 | top divergence iff the prior window has at least 10 bars, the recent high beats the prior high, and the RSI at the recent high is more than 3 below the RSI at the prior high |
| Regime.BottomDivergenceIff | run_new.py:225-231 | bottom divergence iff the prior window has at least 10 bars, the recent low undercuts the prior low, and the RSI at the recent low is more than 3 above the RSI at the prior low |
| Regime.SpreadPct | run_new.py:210-211 | non-negative; 99 when MA20 <= 0; otherwise below 1.5 iff the MA distance is under 1.5 percent of MA20 |
| Regime.MaConverged | run_new.py:210-211 | the spread is below 1.5 |
| Regime.RsiNeutral | run_new.py:212 | the RSI lies in [40, 60] |
| Regime.BullAligned | run_new.py:251 | MA5 above MA20, the close above MA20 and DIF above DEA |
| Regime.BearAligned | run_new.py:255 | MA5 below MA20, the close below MA20 and DIF below DEA |
| Regime.Classify | run_new.py:240-262 | the regime is each branch exactly when its condition holds and every earlier condition fails; the six regimes partition all inputs |
| Regime.BullBearExclusive | run_new.py:251-258 | the bull and bear alignments never both hold |
| Regime.TrendMeansNotSideways | run_new.py:247-258 | a bull or bear verdict implies the MAs are apart and the RSI is outside [40, 60] |
| Regime.GoldCross | run_new.py:206 | DIF at or below DEA on the previous bar and above it on the last |
| Regime.DeathCross | run_new.py:207 | DIF at or above DEA on the previous bar and below it on the last |
| Regime.CrossOf | run_new.py:199-207 | gold iff DIF was at or below DEA on the previous bar and is above now; death is the mirror; a single bar (prev = last) is neutral |
| Regime.GoldDeathExclusive | run_new.py:206-207 | the gold and death conditions never both hold |
| Regime.EnvLabel | run_new.py:240-262 | the environment label of each regime |
| Regime.RecommendLabel | run_new.py:240-262 | the recommended indicator set of each regime |
| Regime.LogicText | run_new.py:240-262 | the operating-logic text of each regime |
| Regime.CrossLabel | run_new.py:268 | 金叉, 死叉 or 中性 |
| Regime.LogicTextIdentifies | run_new.py:244-262 | the six logic texts are distinct, so the text names the regime |
| Regime.EnvLabelIdentifies | run_new.py:241-260 | environment labels are distinct except that both reversal warnings share one |
| Regime.CrossLabelIdentifies | run_new.py:268 | the three cross labels are distinct and two characters long |
| Regime.SummaryLines | run_new.py:264-269 | the summary has four lines |
| Regime.SummaryHasFourLines | run_new.py:264-269 | the summary text splits into four lines tagged 【市场环境】/【推荐指标】/【操作逻辑】/【当前数据】, and the last ends with the cross label |
| Regime.Summary | run_new.py:264-269 | the block starts with 【市场环境】 |
| Regime.SummaryDeterminesVerdict | run_new.py:264-269 | two equal summaries report the same regime and the same cross |
| MarketTrend.DailyUsable | run_new.py:174 | the daily frame was fetched and has at least 60 rows |
| MarketTrend.DailyWindows | run_new.py:196-220 | with at least 60 bars the recent window is the last 20 bars and the prior window exactly the 30 before them, never too short |
| MarketTrend.DailyDivergence | run_new.py:214-231 | on the daily path top divergence compares the first highest bars of those two windows (high higher, RSI more than 3 lower), and bottom divergence the first lowest bars |
| MarketTrend.DailyVerdict | run_new.py:199-262 | the regime is a top reversal iff top divergence, a bottom reversal iff bottom and not top, else the chain on the snapshot alone; the cross compares the last two bars |
| MarketTrend.SnapshotOf | run_new.py:198-205 | the last-row RSI of the daily snapshot lies in [0, 100) |
| MarketTrend.Analyze | run_new.py:185-262 | the snapshot is the last close, the means of the last 5 and 20 closes and the last RSI, DIF and DEA; the regime is a top reversal iff the last 20 bars make a higher high than the 30 before with an RSI more than 3 lower there, a bottom reversal on the mirror condition, else the chain on the snapshot; gold or death iff DIF crosses DEA between the last two bars |
| MarketTrend.Fallback | run_new.py:174-183 | no data iff the minute frame is empty; otherwise the last close, MA20 defined iff at least 20 bars, and UP iff MA5 > MA20 and the close > MA20 |
| MarketTrend.MarketTrend | run_new.py:173-183 | the full analysis iff the daily frame has at least 60 rows, else the fallback; no data iff both are unusable |
| MarketTrend.CheckMarketTrend | run_new.py:164-262 | the imperative pipeline over indicator columns reaches the reference verdict |
| MarketTrend.CheckMinute | run_new.py:176-182 | the minute fallback over rolling-mean columns matches the reference |
| MarketTrend.AnalyzeDaily | run_new.py:185-262 | the daily analysis over the filled columns matches the reference |
| MarketTrend.DailyColumns | run_new.py:186-193 | the filled MA5, MA20, RSI, DIF and DEA columns are the indicator sequences |
| MarketTrend.LastRowIsSnapshot | run_new.py:198-205 | the last row of the filled columns is defined and is the snapshot |
| MarketTrend.FlatMarket | run_new.py:164-262 | on a flat daily series the verdict is range-bound with a neutral cross and snapshot (c, c, c, 0, 0, 0) when c > 0, else unclear |
| MarketTrend.FlatSnapshot | run_new.py:185-205 | on constant closes both MAs are the close and RSI, DIF and DEA are 0 |
| MarketTrend.FlatNoDivergence | run_new.py:214-233 | with equal highs and lows no divergence fires |
| MarketTrend.FlatNoCross | run_new.py:199-207 | constant closes give no MACD cross |
| MarketTrend.Message | run_new.py:177-183 | the empty minute frame gives "无法获取大盘数据" |
| MarketTrend.DegradedMessageDirection | run_new.py:182-183 | the fallback message starts with "大盘趋势：UP (" iff the minute test passed |
| MarketTrend.FullMessageLines | run_new.py:264-269 | the full message has four lines, the first naming the regime and the last ending with the MACD cross |
| RunHelpers.GetMarketSymbol | run_new.py:274-279 | sz iff the stripped code starts 00 or 3, bj iff 8 or 4, and sh otherwise (including 6) |
| RunHelpers.ExchangeOf | run_new.py:276-279 | the same chain on an already stripped code |
| RunHelpers.SymbolIgnoresPadding | run_new.py:275 | the symbol of a stripped code equals that of the raw code |
| RunHelpers.SingleZeroDefaultsToShanghai | run_new.py:276-279 | a code of 0 not followed by 0 falls through to sh |
| RunHelpers.UserAsksNewsOrSectors | run_new.py:781-784 | a missing or empty prompt is not a news question |
| RunHelpers.AsksIffRawMentions | run_new.py:781-786 | the prompt asks about news, messages or sectors iff it is present and contains 新闻, 消息 or 板块 |
| RunHelpers.AsciiReplace | run_new.py:8 | ASCII encoding with `replace` keeps the length and turns each non-ASCII character into '?' |
| RunHelpers.PathHasNonAscii | run_new.py:7-8 | the path differs from its ASCII rendering iff some character is at code point 128 or above |
| LegacyRun.GetMarketSymbol | run.py:81-100 | SH iff the stripped code starts with 6, SZ iff with 00 or 3, BJ iff with 8 or 4, and UNKNOWN iff none matches |
| LegacyRun.ExchangeOf | run.py:93-100 | the same chain on an already stripped code |
| LegacyRun.SymbolVersionsAgree | run.py:91-100 | SZ iff run_new.py says sz, BJ iff bj, SH iff sh on a code starting with 6, and UNKNOWN iff run_new.py falls back to sh |
| LegacyRun.CheckTime | run.py:101-110 | pre-market before 11, noon in [11, 14), close at 14, post-market from 15 |
| LegacyRun.SessionName | run.py:103-110 | one of the four strings `check_time` returns |
| LegacyRun.SessionNamesDistinct | run.py:103-110 | distinct sessions have distinct strings |
| LegacyRun.CheckTimeAnswer | run.py:101-110 | `check_time` returns pre-market, noon, close or post-market exactly on its hour band |
| LegacyRun.CheckTimeMonotone | run.py:101-110 | the session never goes back as the hour advances |
| LegacyRun.MinuteTrend | run.py:57-69 | no bars iff empty; otherwise the last close and the MA5/MA20 test |
| LegacyRun.MinuteTrendMatchesFallback | run.py:57-69 | run.py's 5-minute reading is the one run_new.py falls back to |
| LegacyRun.MinuteMessage | run.py:58-75 | None (run.py's `False`) iff there are no bars |
| LegacyRun.MinuteMessageDirection | run.py:71-75 | the message starts with "大盘趋势判断：UP" iff the test passed |
| Auth.HashPassword | src/auth.py:22-26 | the stored text splits at its first '$' into exactly the salt and the digest |
| Auth.VerifyPassword | src/auth.py:29-36 | a stored text without '$' never verifies; success means the digest after the first '$' is the password's digest under the salt before it |
| Auth.VerifyHashed | src/auth.py:22-36 | a candidate verifies against a hash iff it reproduces the digest; the hashed password always verifies |
| Auth.RegisterError | src/auth.py:63-76 | each message is returned exactly when its check is the first to fail, and None iff all pass |
| Auth.InsertKeepsValid | src/auth.py:44-51 | inserting a new stripped name with the next id keeps names unique and stripped, hashes well formed and ids distinct |
| Auth.LoginsReachDistinctRows | src/auth.py:44-51 | in a valid table a stored name is its own strip, and two different names reach two different ids, both already issued |
| Auth.UserStore.constructor | src/auth.py:39-55 | an empty table with next id 1 |
| Auth.UserStore.Register | src/auth.py:58-92 | a failed check or a taken name leaves the table unchanged with that message; otherwise exactly the new row is added, with the next id |
| Auth.UserStore.Insert | src/auth.py:81-85 | the table gains exactly the given row and the id counter advances |
| Auth.UserStore.Login | src/auth.py:95-118 | success iff the stripped name and password are non-empty, the name is stored and the password verifies; then the user's row; otherwise the empty-credentials or wrong-credentials message |
| Auth.RegisterThenLogin | src/auth.py:58-118 | a user who has just registered logs in with the same credentials and gets back the row just inserted |

## Left out

- Data fetching (the akshare index and minute frames, the trading calendar) is out of the model. The frames are parameters, taken already in date order, so `sort_values('date')` is not modelled.
- Floating point is modelled as exact reals. So `nan` handling is limited to the rolling-mean NaN marker, and there is no rounding.
- Number formatting (`:.2f`, `:.1f`, `str()` of a float) is left to renderer parameters that return one line of text.
- The exception wrappers are out of the model. These are "大盘检测出错: …" in run_new.py, `False` on an exception in run.py, and "注册失败: …" on a database error in auth.py. The model's operations are total.
- MarketTrend.Message: does not state the summary's numeric fields, because they come from the renderer parameters.
- The SQLite connection, the `CREATE TABLE`, commits and the database path are left out. The table is the map field of `UserStore`, and the UNIQUE constraint is the map key.
- PBKDF2-HMAC-SHA256 is a function parameter of the store, because hashing is a foreign call. `token_hex(16)` is a salt parameter that must be 32 lower-case hex digits. `datetime.now()` is a time parameter.
- `compare_digest` is modelled as string equality, because its constant-time behaviour is not observable in the result.
- Arguments that Python coerces (`str(stock_code)`, `username or ""`, a non-`str` prompt) are modelled as strings. A missing prompt is `None`.
- The prompt-type test in `_user_asks_news_or_sectors` is modelled by the `Option` only.
- LegacyRun.CheckTime: the hour is a parameter instead of the clock.
- The Streamlit UI, the Gemini chat and news calls are out of the model. So are `_setup_ssl_cert` (only its `_path_has_non_ascii` test is modelled), `_fix_mojibake`, `get_latest_trading_date` and the usage tracker. These are I/O or foreign services.
- The MACD bar column is computed but never read by the verdict. It is proved equal to its specification and otherwise unused.
