/** One ticker's analysis, from the downloaded history to the report the dashboard shows:
    the early exits, the currency and fund flag, the indicator columns, the signal and the
    golden price, shown as "N/A" when there is none. */
module Analysis {
  import opened Optional
  import opened Series
  import opened Instrument
  import opened Signal

  /** What the market-data provider returned for a ticker. `rsi` is the latest 14-bar RSI and
      `band` the latest lower Bollinger band (20 bars, two deviations) of these bars, both
      computed outside this model; `longName` is the provider's name, if it gave one. */
  datatype Feed = Feed(bars: seq<Bar>, rsi: real, band: Reading, longName: Option<string>)

  datatype ErrorKind =
    | NotListed    // the placeholder ticker of a company that is not yet listed
    | FetchFailed  // the download raised
    | NoData       // fewer than 5 bars came back

  /** The golden price as shown: a price, or "N/A". */
  datatype Golden = NotAvailable | GoldenAt(price: real)

  datatype Report = Report(
    ticker: string, name: string, price: real, changePct: Reading, signal: Signal,
    golden: Golden, panic: Reading, rsi: real, currency: Currency, isFund: bool,
    closes: seq<real>, indicators: Indicators)

  datatype Outcome = Failed(kind: ErrorKind) | Analyzed(report: Report)

  const Unlisted := "FIG"

  /** The golden price as shown: "N/A" unless it is a positive number. */
  function ShowGolden(g: real): (shown: Golden)
    ensures shown == NotAvailable <==> g <= 0.0
    ensures shown.GoldenAt? ==> shown.price == g
  {
    if g > 0.0 then GoldenAt(g) else NotAvailable
  }

  /** Day-on-day change in percent; dividing by a zero close gives no finite number. Otherwise
      the change applied to the previous close gives the current one back, and with a positive
      previous close it is positive exactly when the price rose. */
  function ChangePct(curr: real, prev: real): (pct: Reading)
    ensures pct.Undefined? <==> prev == 0.0
    ensures pct.Defined? ==> prev + prev * pct.v / 100.0 == curr
    ensures pct.Defined? && prev > 0.0 ==> (pct.v > 0.0 <==> curr > prev)
  {
    if prev == 0.0 then Undefined else Defined((curr - prev) / prev * 100.0)
  }

  /** The values the rules read, taken from the last two bars of each column. */
  function SnapshotOf(xs: seq<real>, ind: Indicators, rsi: real, band: Reading): Snapshot
    requires |xs| >= 2
    requires ind == ComputeIndicators(xs)
  {
    var n := |xs|;
    Snapshot(xs[n - 1], xs[n - 2],
             ind.sma20[n - 1].v, ind.sma20[n - 2].v,
             ind.sma50[n - 1].v, ind.sma50[n - 2].v,
             RsiOrNeutral(n, rsi), band, ind.golden)
  }

  function BuildReport(ticker: string, asset: AssetType, feed: Feed): Report
    requires |feed.bars| >= 5
  {
    var xs := Closes(feed.bars);
    var n := |xs|;
    var ind := ComputeIndicators(xs);
    var m := SnapshotOf(xs, ind, feed.rsi, feed.band);
    Report(ticker, DisplayName(ticker, feed.longName), xs[n - 1], ChangePct(xs[n - 1], xs[n - 2]),
           SignalOf(m, asset), ShowGolden(ind.golden), feed.band, m.rsi, ResolveCurrency(ticker),
           IsFundLike(ticker, feed.bars), xs, ind)
  }

  /** The analysis of one ticker: the unlisted placeholder is refused before anything is
      downloaded; a failed download or fewer than 5 bars is an error; anything else gets a
      report. */
  function Analyze(ticker: string, asset: AssetType, feed: Option<Feed>): (r: Outcome)
    ensures ticker == Unlisted ==> r == Failed(NotListed)
    ensures ticker != Unlisted && feed.None? ==> r == Failed(FetchFailed)
    ensures ticker != Unlisted && feed.Some? && |feed.value.bars| < 5 ==> r == Failed(NoData)
    ensures r.Analyzed? <==> ticker != Unlisted && feed.Some? && |feed.value.bars| >= 5
  {
    if ticker == Unlisted then Failed(NotListed)
    else if feed.None? then Failed(FetchFailed)
    else if |feed.value.bars| < 5 then Failed(NoData)
    else Analyzed(BuildReport(ticker, asset, feed.value))
  }

  /** The dashboard's procedure: exits first, then the derived columns, then the signal. */
  method AnalyzeAsset(ticker: string, asset: AssetType, feed: Option<Feed>) returns (r: Outcome)
    ensures r == Analyze(ticker, asset, feed)
    ensures r.Analyzed? ==> r.report.signal.confidence in {50, 80, 85, 90, 95}
    ensures r.Analyzed? ==> |r.report.closes| >= 5 && r.report.price == r.report.closes[|r.report.closes| - 1]
  {
    if ticker == Unlisted {
      return Failed(NotListed);
    }
    if feed.None? {
      return Failed(FetchFailed);
    }
    var bars := feed.value.bars;
    if |bars| < 5 {
      return Failed(NoData);
    }
    var currency := ResolveCurrency(ticker);
    var isFund := IsFundLike(ticker, bars);
    var name := DisplayName(ticker, feed.value.longName);
    var xs := Closes(bars);
    var ind := ComputeIndicators(xs);
    var m := SnapshotOf(xs, ind, feed.value.rsi, feed.value.band);
    var signal := DeriveSignal(m, asset);
    var n := |xs|;
    r := Analyzed(Report(ticker, name, xs[n - 1], ChangePct(xs[n - 1], xs[n - 2]), signal,
                         ShowGolden(ind.golden), feed.value.band, m.rsi, currency, isFund, xs, ind));
  }

  // ---------------------------------------------------------------------------
  // Degraded mode on a short history
  // ---------------------------------------------------------------------------

  /** With 14 bars or fewer the RSI is the neutral 50, so neither the uptrend rule nor either
      sell rule can fire. */
  lemma ShortHistoryNeutralRsi(ticker: string, asset: AssetType, feed: Feed)
    requires ticker != Unlisted && 5 <= |feed.bars| <= 14
    ensures Analyze(ticker, asset, Some(feed)).report.rsi == 50.0
    ensures Analyze(ticker, asset, Some(feed)).report.signal.action !in {Bullish, Overheated, Danger}
  {
    var xs := Closes(feed.bars);
    var m := SnapshotOf(xs, ComputeIndicators(xs), feed.rsi, feed.band);
    NeutralRsiQuiet(m, asset);
  }

  /** With no more history than the trend line's window (20 bars for a stock, 50 for an ETF)
      the trend line is the close itself and no trend break is reported. */
  lemma ShortHistoryNoTrendBreak(ticker: string, asset: AssetType, feed: Feed)
    requires ticker != Unlisted && |feed.bars| >= 5
    requires asset == Stock ==> |feed.bars| <= 20
    requires asset == Etf ==> |feed.bars| <= 50
    ensures !Analyze(ticker, asset, Some(feed)).report.signal.action.TrendBreak?
  {
    var xs := Closes(feed.bars);
    var m := SnapshotOf(xs, ComputeIndicators(xs), feed.rsi, feed.band);
    FlatTrendNoBreak(m, asset);
  }

  /** The report's currency follows the Taiwan-first order, which agrees with the order as the
      dashboard writes it on every ticker except those that pass the Taiwan test. */
  lemma ReportCurrency(ticker: string, asset: AssetType, feed: Feed)
    requires ticker != Unlisted && |feed.bars| >= 5
    ensures Analyze(ticker, asset, Some(feed)).report.currency == ResolveCurrency(ticker)
    ensures !Taiwan(ticker) <==>
      Analyze(ticker, asset, Some(feed)).report.currency == ResolveCurrencyAsWritten(ticker)
  {
    CurrencyDiffersOnlyOnTaiwan(ticker);
  }

  /** With fewer than 20 bars the 20-bar Bollinger band has no value (the caller passes
      `Undefined`), so the panic price is shown as no number and the panic-bottom rule cannot
      fire. */
  lemma ShortHistoryNoPanicBottom(ticker: string, asset: AssetType, feed: Feed)
    requires ticker != Unlisted && 5 <= |feed.bars| < 20
    requires feed.band.Undefined?
    ensures Analyze(ticker, asset, Some(feed)).report.signal.action != PanicBottom
    ensures Analyze(ticker, asset, Some(feed)).report.panic == Undefined
  {
  }

  /** The golden price is shown as "N/A" exactly when it is not positive, always so with 200
      bars or fewer, and (prices being positive) never so with more. */
  lemma GoldenShownWhenAvailable(ticker: string, asset: AssetType, feed: Feed)
    requires ticker != Unlisted && |feed.bars| >= 5
    ensures var rep := Analyze(ticker, asset, Some(feed)).report;
      rep.golden == NotAvailable <==> rep.indicators.golden <= 0.0
    ensures |feed.bars| <= 200 ==> Analyze(ticker, asset, Some(feed)).report.golden == NotAvailable
    ensures (forall i :: 0 <= i < |feed.bars| ==> feed.bars[i].close > 0.0) && |feed.bars| > 200
      ==> Analyze(ticker, asset, Some(feed)).report.golden.GoldenAt?
  {
    var xs := Closes(feed.bars);
    if forall i :: 0 <= i < |feed.bars| ==> feed.bars[i].close > 0.0 {
      GoldenPriceAvailable(xs);
    }
  }
}
