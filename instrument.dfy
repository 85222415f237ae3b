/** What the analysis reads off the ticker itself and its last bars: the display currency, the
    forced-ETF whitelist, the fund-likeness flag and the display name. */
module Instrument {
  import opened Text
  import opened Optional
  import opened Series

  // ---------------------------------------------------------------------------
  // Currency
  // ---------------------------------------------------------------------------

  datatype Currency = Dollar | Yen | TaiwanDollar

  /** The symbol printed before prices; each currency has its own. */
  function Symbol(c: Currency): (sym: string)
    ensures sym == "$" <==> c == Dollar
    ensures sym == "¥" <==> c == Yen
    ensures sym == "NT$" <==> c == TaiwanDollar
  {
    match c
    case Dollar => "$"
    case Yen => "¥"
    case TaiwanDollar => "NT$"
  }

  predicate JapanOrFrankfurt(ticker: string)
  {
    Contains(ticker, ".T") || Contains(ticker, ".F")
  }

  predicate Taiwan(ticker: string)
  {
    Contains(ticker, ".TW") || Contains(ticker, ".TWO")
  }

  /** The currency test as the dashboard writes it: the `.T`/`.F` test comes first, and the
      Taiwan test is reached only by tickers that fail it. */
  function ResolveCurrencyAsWritten(ticker: string): (c: Currency)
    ensures c == Yen <==> JapanOrFrankfurt(ticker)
    ensures c == TaiwanDollar <==> !JapanOrFrankfurt(ticker) && Taiwan(ticker)
    ensures c == Dollar <==> !JapanOrFrankfurt(ticker) && !Taiwan(ticker)
  {
    if JapanOrFrankfurt(ticker) then Yen
    else if Taiwan(ticker) then TaiwanDollar
    else Dollar
  }

  /** Every Taiwan ticker also contains `.T`. */
  lemma TaiwanContainsT(ticker: string)
    requires Taiwan(ticker)
    ensures Contains(ticker, ".T")
  {
    if Contains(ticker, ".TW") {
      assert ".TW" == ".T" + "W";
      ContainsPrefixOf(ticker, ".T", "W");
    } else {
      assert ".TWO" == ".T" + "WO";
      ContainsPrefixOf(ticker, ".T", "WO");
    }
  }

  /** As written, the Taiwan branch is dead: no ticker is shown in NT$, and Taiwan tickers get
      the yen sign. */
  lemma AsWrittenNeverTaiwanDollar(ticker: string)
    ensures ResolveCurrencyAsWritten(ticker) != TaiwanDollar
    ensures Taiwan(ticker) ==> ResolveCurrencyAsWritten(ticker) == Yen
  {
    if Taiwan(ticker) {
      TaiwanContainsT(ticker);
    }
  }

  /** So the symbol "NT$" is never shown. */
  lemma AsWrittenNeverNtSymbol(ticker: string)
    ensures Symbol(ResolveCurrencyAsWritten(ticker)) != "NT$"
  {
    AsWrittenNeverTaiwanDollar(ticker);
  }

  /** The Taiwan 50 ETF of the default roster, listed as a Taiwan-dollar fund, is priced in yen. */
  lemma Taiwan50PricedInYen()
    ensures Taiwan("0050.TW")
    ensures ResolveCurrencyAsWritten("0050.TW") == Yen
  {
    assert StartsWith(".TW", ".TW");
    assert Contains("0050.TW"[4..], ".TW");
    AsWrittenNeverTaiwanDollar("0050.TW");
  }

  /** The currency with the Taiwan test first, which is what the `elif` evidently means. */
  function ResolveCurrency(ticker: string): (c: Currency)
    ensures c == TaiwanDollar <==> Taiwan(ticker)
    ensures c == Yen <==> !Taiwan(ticker) && JapanOrFrankfurt(ticker)
    ensures c == Dollar <==> !Taiwan(ticker) && !JapanOrFrankfurt(ticker)
  {
    if Taiwan(ticker) then TaiwanDollar
    else if JapanOrFrankfurt(ticker) then Yen
    else Dollar
  }

  /** A Tokyo fund is priced in yen. */
  lemma TokyoFundInYen()
    ensures ResolveCurrency("2563.T") == Yen
  {
    assert Contains("2563.T"[4..], ".T");
    if Contains("2563.T", ".TW") {
      FirstCharOccurs("2563.T", ".TW");
    }
    if Contains("2563.T", ".TWO") {
      FirstCharOccurs("2563.T", ".TWO");
    }
  }

  /** A US stock is priced in dollars. */
  lemma UsStockInDollars()
    ensures ResolveCurrency("AAPL") == Dollar
  {
    if Contains("AAPL", ".T") {
      FirstCharOccurs("AAPL", ".T");
    }
    if Contains("AAPL", ".F") {
      FirstCharOccurs("AAPL", ".F");
    }
    if Contains("AAPL", ".TW") {
      FirstCharOccurs("AAPL", ".TW");
    }
    if Contains("AAPL", ".TWO") {
      FirstCharOccurs("AAPL", ".TWO");
    }
  }

  /** With the Taiwan test first, the Taiwan 50 ETF is priced in Taiwan dollars. */
  lemma Taiwan50InTaiwanDollars()
    ensures ResolveCurrency("0050.TW") == TaiwanDollar
  {
    assert Contains("0050.TW"[4..], ".TW");
  }

  /** The corrected test only differs from the written one on Taiwan tickers. */
  lemma CurrencyDiffersOnlyOnTaiwan(ticker: string)
    ensures ResolveCurrency(ticker) == ResolveCurrencyAsWritten(ticker) <==> !Taiwan(ticker)
  {
    AsWrittenNeverTaiwanDollar(ticker);
  }

  // ---------------------------------------------------------------------------
  // Fund-likeness
  // ---------------------------------------------------------------------------

  /** Tokens of tickers that must always be drawn as candles. */
  const EtfTokens: seq<string> := ["0050", "2563", "2558", "VOO", "QQQ", "SPY", "IVV", "SOXL", "TQQQ"]

  /** `any(x in ticker for x in tokens)`. */
  predicate AnyIn(tokens: seq<string>, ticker: string)
  {
    |tokens| > 0 && (Contains(ticker, tokens[0]) || AnyIn(tokens[1..], ticker))
  }

  /** The ticker contains one of the tokens, wherever it sits in the list. */
  lemma {:induction false} AnyInIff(tokens: seq<string>, ticker: string)
    ensures AnyIn(tokens, ticker) <==> exists k :: 0 <= k < |tokens| && Contains(ticker, tokens[k])
  {
    if |tokens| > 0 {
      AnyInIff(tokens[1..], ticker);
      if exists k :: 0 <= k < |tokens| && Contains(ticker, tokens[k]) {
        var k :| 0 <= k < |tokens| && Contains(ticker, tokens[k]);
        if k > 0 {
          assert tokens[1..][k - 1] == tokens[k];
        }
      }
    }
  }

  predicate KnownEtf(ticker: string)
  {
    AnyIn(EtfTokens, ticker)
  }

  /** `tail(10)`: the last (at most) 10 bars, in their order. */
  function Recent(bars: seq<Bar>): (recent: seq<Bar>)
    ensures |recent| == if |bars| <= 10 then |bars| else 10
    ensures recent == bars[|bars| - |recent|..]
  {
    if |bars| <= 10 then bars else bars[|bars| - 10..]
  }

  /** `is_fund`: a known ETF never counts as fund-like; any other instrument does when none of
      its last 10 bars (or all bars, if fewer) moved within the day. */
  function IsFundLike(ticker: string, bars: seq<Bar>): (fund: bool)
    ensures KnownEtf(ticker) ==> !fund
    ensures !KnownEtf(ticker) ==>
      (fund <==> forall i :: 0 <= i < |bars| && i >= |bars| - 10 ==> bars[i].high == bars[i].low)
  {
    var recent := Recent(bars);
    assert forall k :: 0 <= k < |recent| ==> recent[k] == bars[|bars| - |recent| + k];
    var flat := forall k :: 0 <= k < |recent| ==> recent[k].high == recent[k].low;
    if KnownEtf(ticker) then false else flat
  }

  /** Adding to a known ETF's ticker (an exchange suffix, a leveraged prefix) keeps it known. */
  lemma KnownEtfInContext(a: string, ticker: string, b: string)
    requires KnownEtf(ticker)
    ensures KnownEtf(a + ticker + b)
  {
    AnyInIff(EtfTokens, ticker);
    var k :| 0 <= k < |EtfTokens| && Contains(ticker, EtfTokens[k]);
    ContainsInContext(a, ticker, b, EtfTokens[k]);
    AnyInIff(EtfTokens, a + ticker + b);
  }

  // ---------------------------------------------------------------------------
  // Display name
  // ---------------------------------------------------------------------------

  /** The hand-written names of four funds. Each differs from its ticker, which is what keeps
      the provider's long name from replacing it. */
  function FixedName(ticker: string): (fixed: Option<string>)
    ensures fixed.Some? <==> ticker in {"0P0000XS79.F", "2563.T", "2558.T", "0050.TW"}
    ensures fixed.Some? ==> fixed.value != "" && fixed.value != ticker
  {
    if ticker == "0P0000XS79.F" then Some("eMAXIS Slim S&P500")
    else if ticker == "2563.T" then Some("iShares S&P500 (避險)")
    else if ticker == "2558.T" then Some("MAXIS S&P500 (無避險)")
    else if ticker == "0050.TW" then Some("元大台灣50 (0050)")
    else None
  }

  /** The name shown: a hand-written name wins; otherwise a non-empty long name from the
      provider; otherwise the ticker. */
  function DisplayName(ticker: string, longName: Option<string>): (name: string)
    ensures FixedName(ticker).Some? ==> name == FixedName(ticker).value
    ensures FixedName(ticker).None? && longName.Some? && longName.value != "" ==> name == longName.value
    ensures FixedName(ticker).None? && (longName.None? || longName.value == "") ==> name == ticker
  {
    var name := if FixedName(ticker).Some? then FixedName(ticker).value else ticker;
    if longName.Some? && longName.value != "" && name == ticker then longName.value else name
  }
}
