/**
 * The small helpers of run_new.py: the exchange prefix of a stock code,
 * the news/sector intent test on a chat prompt and the non-ASCII path test.
 */
module RunHelpers {
  import opened Common
  import opened Text

  /** The exchange prefixes run_new.py returns. */
  const SH: string := "sh"
  const SZ: string := "sz"
  const BJ: string := "bj"

  predicate StartsWith(s: string, p: string)
  {
    p <= s
  }

  /** Shanghai main board: a code starting with 6. */
  predicate ShanghaiCode(s: string)
  {
    StartsWith(s, "6")
  }

  /** Shenzhen: a code starting with 00 or 3. */
  predicate ShenzhenCode(s: string)
  {
    StartsWith(s, "00") || StartsWith(s, "3")
  }

  /** Beijing: a code starting with 8 or 4. */
  predicate BeijingCode(s: string)
  {
    StartsWith(s, "8") || StartsWith(s, "4")
  }

  /**
   * `get_market_symbol` of run_new.py on the stripped code: sz and bj for
   * their prefixes, sh for a 6 and for everything else.
   */
  function GetMarketSymbol(code: string): (r: string)
    ensures r in {SH, SZ, BJ}
    ensures var s := Strip(code);
      && (r == SZ <==> ShenzhenCode(s))
      && (r == BJ <==> BeijingCode(s))
      && (r == SH <==> !ShenzhenCode(s) && !BeijingCode(s))
  {
    ExchangeOf(Strip(code))
  }

  /** The prefix chain on an already stripped code. */
  function ExchangeOf(s: string): (r: string)
    ensures r in {SH, SZ, BJ}
    ensures r == SZ <==> ShenzhenCode(s)
    ensures r == BJ <==> BeijingCode(s)
    ensures r == SH <==> !ShenzhenCode(s) && !BeijingCode(s)
  {
    if ShanghaiCode(s) then
      assert s[0] == '6';
      SH
    else if ShenzhenCode(s) then
      assert s[0] in "03";
      SZ
    else if BeijingCode(s) then BJ
    else SH
  }

  /** Surrounding whitespace never changes the exchange: the symbol of the stripped code is the same. */
  lemma SymbolIgnoresPadding(code: string)
    ensures GetMarketSymbol(Strip(code)) == GetMarketSymbol(code)
  {
    StripIdempotent(code);
  }

  /** A lone 0, or 0 followed by anything but 0, is not a Shenzhen code and falls to the sh default. */
  lemma SingleZeroDefaultsToShanghai(rest: string)
    requires rest == [] || (rest[0] != '0' && !IsSpace(rest[|rest| - 1]))
    ensures GetMarketSymbol("0" + rest) == SH
  {
    var code := "0" + rest;
    StripKeepsTrimmed(code);
    assert code[0] == '0';
    assert |code| >= 2 ==> code[1] != '0';
  }

  // ---------------------------------------------------------------- chat intent

  const NEWS: string := "新闻"
  const MESSAGES: string := "消息"
  const SECTORS: string := "板块"

  /** The prompt mentions news, messages or sectors. */
  predicate MentionsNewsOrSectors(p: string)
  {
    Contains(p, NEWS) || Contains(p, MESSAGES) || Contains(p, SECTORS)
  }

  /**
   * `_user_asks_news_or_sectors`: false for a missing or empty prompt,
   * else whether the stripped prompt contains one of the three keywords.
   */
  function UserAsksNewsOrSectors(prompt: Option<string>): (r: bool)
    ensures prompt.None? ==> !r
    ensures prompt == Some("") ==> !r
  {
    if prompt.None? || prompt.value == "" then false
    else MentionsNewsOrSectors(Strip(prompt.value))
  }

  /**
   * Stripping cannot matter: the prompt is a news or sector question
   * exactly when the raw text contains one of the keywords.
   */
  lemma AsksIffRawMentions(prompt: Option<string>)
    ensures UserAsksNewsOrSectors(prompt) <==> prompt.Some? && MentionsNewsOrSectors(prompt.value)
  {
    if prompt.Some? {
      var p := prompt.value;
      ContainsStrip(p, NEWS);
      ContainsStrip(p, MESSAGES);
      ContainsStrip(p, SECTORS);
      if p == "" {
        assert !Contains(p, NEWS) && !Contains(p, MESSAGES) && !Contains(p, SECTORS);
      }
    }
  }

  // ---------------------------------------------------------------- paths

  /** `p.encode("ascii", errors="replace").decode("ascii")`: every non-ASCII character becomes '?'. */
  function AsciiReplace(p: string): (r: string)
    ensures |r| == |p|
    ensures forall i :: 0 <= i < |p| ==> r[i] == (if p[i] as int < 128 then p[i] else '?')
  {
    seq(|p|, i requires 0 <= i < |p| => if p[i] as int < 128 then p[i] else '?')
  }

  /**
   * `_path_has_non_ascii`: the path differs from its ASCII rendering, which
   * happens exactly when one of its characters is outside ASCII.
   */
  function PathHasNonAscii(p: string): (r: bool)
    ensures r <==> exists i :: 0 <= i < |p| && p[i] as int >= 128
  {
    var a := AsciiReplace(p);
    assert p != a <==> exists i :: 0 <= i < |p| && p[i] as int >= 128 by {
      if exists i :: 0 <= i < |p| && p[i] as int >= 128 {
        var i :| 0 <= i < |p| && p[i] as int >= 128;
        assert a[i] != p[i];
      } else {
        assert forall i :: 0 <= i < |p| ==> a[i] == p[i];
      }
    }
    p != a
  }
}
