/** The buy/sell recommendation: three ordered blocks of rules, each of which may overwrite the
    (action, colour, confidence) left by the one before. The method `DeriveSignal` does this
    the way the dashboard does, by updating three local variables; `SignalOf` states the same
    outcome as a fold of optional overrides, and the lemmas below state what it means. */
module Signal {
  import opened Optional
  import opened Series

  /** The two kinds of list the dashboard analyses: the ETF roster and the stock lists. */
  datatype AssetType = Stock | Etf

  /** The line whose breaking is reported: the 20-bar "month line" for stocks, the 50-bar
      "quarter line" for ETFs. */
  datatype TrendLine = MonthLine | QuarterLine

  datatype Action =
    | Hold            // watch / keep holding
    | PanicBottom     // close at or under the lower Bollinger band: strong buy
    | GoldenBuy       // close at or under the 200-bar average: value buy
    | Bullish         // above the 50-bar average in a healthy RSI range: hold
    | Overheated      // RSI above 75: take-profit warning
    | Danger          // RSI above 85: liquidate
    | TrendBreak(line: TrendLine)  // freshly closed under the trend line: caution

  datatype Color = Gray | Green | Blue | Orange | Red

  datatype Signal = Signal(action: Action, color: Color, confidence: int)

  /** The latest values the rules read. `panic` is the latest lower Bollinger band, which is not
      a number on a short history; `golden` is the golden price, 0 when unavailable; the `...Prev`
      fields are the values one bar earlier. */
  datatype Snapshot = Snapshot(
    curr: real, prev: real,
    sma20: real, sma20Prev: real,
    sma50: real, sma50Prev: real,
    rsi: real, panic: Reading, golden: real)

  const Neutral := Signal(Hold, Gray, 50)

  // ---------------------------------------------------------------------------
  // The rules, one block at a time
  // ---------------------------------------------------------------------------

  /** The close is at or below the panic floor (never, when the floor is not a number). */
  predicate AtPanicFloor(m: Snapshot)
  {
    m.panic.Defined? && m.curr <= m.panic.v
  }

  /** The close is at or below a golden price that exists. */
  predicate AtGoldenPrice(m: Snapshot)
  {
    m.golden > 0.0 && m.curr <= m.golden
  }

  /** Close above the 50-bar average, which is above the golden price (or 0), with the RSI
      strictly between 50 and 75. */
  predicate InUptrend(m: Snapshot)
  {
    m.curr > m.sma50 && m.sma50 > (if m.golden > 0.0 then m.golden else 0.0)
    && 50.0 < m.rsi < 75.0
  }

  /** Block 1: the first buy rule that applies, if any. A buy is green or blue and at least 80
      confident; the strongest, at 95, is the panic floor. */
  function BuyRule(m: Snapshot): (buy: Option<Signal>)
    ensures buy.None? <==> !AtPanicFloor(m) && !AtGoldenPrice(m) && !InUptrend(m)
    ensures buy.Some? ==> buy.value.color in {Green, Blue} && buy.value.confidence in {80, 90, 95}
    ensures buy.Some? ==> (buy.value.action == PanicBottom <==> AtPanicFloor(m))
  {
    if AtPanicFloor(m) then Some(Signal(PanicBottom, Green, 95))
    else if AtGoldenPrice(m) then Some(Signal(GoldenBuy, Green, 90))
    else if InUptrend(m) then Some(Signal(Bullish, Blue, 80))
    else None
  }

  /** Block 2: the more severe sell rule that applies, if any: none up to an RSI of 75, danger
      above 85. */
  function SellRule(m: Snapshot): (sell: Option<Signal>)
    ensures sell.None? <==> m.rsi <= 75.0
    ensures sell.Some? ==> sell.value.confidence in {85, 95}
    ensures sell.Some? ==> (sell.value.action == Danger <==> m.rsi > 85.0)
  {
    if m.rsi > 85.0 then Some(Signal(Danger, Red, 95))
    else if m.rsi > 75.0 then Some(Signal(Overheated, Orange, 85))
    else None
  }

  function LineOf(asset: AssetType): TrendLine
  {
    if asset == Stock then MonthLine else QuarterLine
  }

  /** The trend line of the asset type at the latest bar and one bar earlier. */
  function TrendNow(m: Snapshot, asset: AssetType): real
  {
    if asset == Stock then m.sma20 else m.sma50
  }

  function TrendPrev(m: Snapshot, asset: AssetType): real
  {
    if asset == Stock then m.sma20Prev else m.sma50Prev
  }

  /** Block 3: the close has just crossed under the trend line of the asset type. Then the close
      fell by more than the line did, and is not on the line. */
  function BreaksTrend(m: Snapshot, asset: AssetType): (breaks: bool)
    ensures breaks ==> m.curr - m.prev < TrendNow(m, asset) - TrendPrev(m, asset)
    ensures breaks ==> m.curr != TrendNow(m, asset)
  {
    m.curr < TrendNow(m, asset) && m.prev > TrendPrev(m, asset)
  }

  function Override(s: Signal, o: Option<Signal>): Signal
  {
    if o.Some? then o.value else s
  }

  /** The recommendation: start neutral, apply the buy rule, then the sell rule, then a trend
      break, which replaces the action and colour but keeps the confidence. */
  function SignalOf(m: Snapshot, asset: AssetType): (s: Signal)
    ensures s.confidence in {50, 80, 85, 90, 95}
    ensures s.action.TrendBreak? <==> BreaksTrend(m, asset)
    ensures s.action.TrendBreak? ==> s.color == Orange && s.action.line == LineOf(asset)
    ensures !s.action.TrendBreak? && SellRule(m).Some? ==> s == SellRule(m).value
  {
    var s := Override(Override(Neutral, BuyRule(m)), SellRule(m));
    if BreaksTrend(m, asset) then s.(action := TrendBreak(LineOf(asset)), color := Orange) else s
  }

  // ---------------------------------------------------------------------------
  // The dashboard's procedure
  // ---------------------------------------------------------------------------

  /** Block by block, overwriting `action`, `color` and `confidence` as the rules fire. */
  method DeriveSignal(m: Snapshot, asset: AssetType) returns (s: Signal)
    ensures s == SignalOf(m, asset)
    ensures s.confidence in {50, 80, 85, 90, 95}
    ensures m.rsi > 85.0 ==> s.confidence == 95
    ensures m.rsi > 85.0 && !BreaksTrend(m, asset) ==> s.action == Danger && s.color == Red
    ensures BreaksTrend(m, asset) <==> s.action.TrendBreak?
  {
    var action := Hold;
    var color := Gray;
    var confidence := 50;

    // Block 1: buy, first matching rule only.
    if m.panic.Defined? && m.curr <= m.panic.v {
      action, color, confidence := PanicBottom, Green, 95;
    } else if m.golden > 0.0 && m.curr <= m.golden {
      action, color, confidence := GoldenBuy, Green, 90;
    } else if m.curr > m.sma50 && m.sma50 > (if m.golden > 0.0 then m.golden else 0.0) {
      if m.rsi > 50.0 && m.rsi < 75.0 {
        action, color, confidence := Bullish, Blue, 80;
      }
    }

    // Block 2: sell, the later rule overwriting the earlier.
    if m.rsi > 75.0 {
      action, color, confidence := Overheated, Orange, 85;
    }
    if m.rsi > 85.0 {
      action, color, confidence := Danger, Red, 95;
    }

    // Block 3: trend break, confidence kept.
    var trendNow, trendPrev, line;
    if asset == Stock {
      trendNow, trendPrev, line := m.sma20, m.sma20Prev, MonthLine;
    } else {
      trendNow, trendPrev, line := m.sma50, m.sma50Prev, QuarterLine;
    }
    if m.curr < trendNow && m.prev > trendPrev {
      action, color := TrendBreak(line), Orange;
    }

    s := Signal(action, color, confidence);
  }

  // ---------------------------------------------------------------------------
  // What the rules mean
  // ---------------------------------------------------------------------------

  /** Block 1's precedence: the panic floor wins even where the golden-price rule also holds;
      the golden-price rule wins over the uptrend; the uptrend applies only when both earlier
      rules fail and the RSI is strictly between 50 and 75. */
  lemma BuyRulePrecedence(m: Snapshot)
    ensures AtPanicFloor(m) ==> BuyRule(m) == Some(Signal(PanicBottom, Green, 95))
    ensures BuyRule(m) == Some(Signal(GoldenBuy, Green, 90)) <==> !AtPanicFloor(m) && AtGoldenPrice(m)
    ensures BuyRule(m) == Some(Signal(Bullish, Blue, 80))
      <==> !AtPanicFloor(m) && !AtGoldenPrice(m) && m.curr > m.sma50
           && m.sma50 > (if m.golden > 0.0 then m.golden else 0.0) && 50.0 < m.rsi < 75.0
    ensures BuyRule(m) == None <==> !AtPanicFloor(m) && !AtGoldenPrice(m) && !InUptrend(m)
  {
  }

  /** The final recommendation, action by action: which inputs lead to each. */
  lemma SignalCharacterization(m: Snapshot, asset: AssetType)
    ensures SignalOf(m, asset).action.TrendBreak? <==> BreaksTrend(m, asset)
    ensures SignalOf(m, asset).action == Danger <==> m.rsi > 85.0 && !BreaksTrend(m, asset)
    ensures SignalOf(m, asset).action == Overheated
      <==> 75.0 < m.rsi <= 85.0 && !BreaksTrend(m, asset)
    ensures SignalOf(m, asset).action == PanicBottom
      <==> AtPanicFloor(m) && m.rsi <= 75.0 && !BreaksTrend(m, asset)
    ensures SignalOf(m, asset).action == GoldenBuy
      <==> !AtPanicFloor(m) && AtGoldenPrice(m) && m.rsi <= 75.0 && !BreaksTrend(m, asset)
    ensures SignalOf(m, asset).action == Bullish
      <==> !AtPanicFloor(m) && !AtGoldenPrice(m) && InUptrend(m) && !BreaksTrend(m, asset)
    ensures SignalOf(m, asset).action == Hold
      <==> !AtPanicFloor(m) && !AtGoldenPrice(m) && !InUptrend(m) && m.rsi <= 75.0
           && !BreaksTrend(m, asset)
  {
  }

  /** The confidence is one of five values, is decided by blocks 1 and 2 alone, and is 95
      exactly when the RSI is above 85 or the close is at the panic floor with no sell rule. */
  lemma ConfidenceValues(m: Snapshot, asset: AssetType)
    ensures SignalOf(m, asset).confidence in {50, 80, 85, 90, 95}
    ensures SignalOf(m, asset).confidence == Override(Override(Neutral, BuyRule(m)), SellRule(m)).confidence
    ensures SignalOf(m, asset).confidence == 95 <==> m.rsi > 85.0 || (AtPanicFloor(m) && m.rsi <= 75.0)
  {
  }

  /** With an RSI above 85 the confidence is 95 and the colour red, unless the trend breaks,
      which turns action and colour to the orange warning and still leaves 95. */
  lemma DangerOverrides(m: Snapshot, asset: AssetType)
    requires m.rsi > 85.0
    ensures SignalOf(m, asset).confidence == 95
    ensures !BreaksTrend(m, asset) ==> SignalOf(m, asset) == Signal(Danger, Red, 95)
    ensures BreaksTrend(m, asset) ==> SignalOf(m, asset) == Signal(TrendBreak(LineOf(asset)), Orange, 95)
  {
  }

  /** A neutral RSI of 50 rules out the uptrend and both sell rules. */
  lemma NeutralRsiQuiet(m: Snapshot, asset: AssetType)
    requires m.rsi == 50.0
    ensures SignalOf(m, asset).action !in {Bullish, Overheated, Danger}
    ensures SignalOf(m, asset).confidence in {50, 90, 95}
  {
  }

  /** When the trend line is the close itself no trend break can happen. */
  lemma FlatTrendNoBreak(m: Snapshot, asset: AssetType)
    requires asset == Stock ==> m.sma20 == m.curr
    requires asset == Etf ==> m.sma50 == m.curr
    ensures !SignalOf(m, asset).action.TrendBreak?
  {
  }
}
