/** The daily price history of one ticker and the indicator columns derived from it:
    the 20-, 50- and 200-bar simple moving averages with their short-history fallbacks,
    the "golden price" (the latest 200-bar average, 0 when history is too short) and the
    RSI fallback to a neutral 50. */
module Series {

  /** One daily bar, oldest first in a history; the date is its position. */
  datatype Bar = Bar(open: real, high: real, low: real, close: real, volume: int)

  /** A cell of a derived column: a number, or no finite value (a NaN where a rolling window is
      not yet full, or an infinity from dividing by a zero close). */
  datatype Reading = Defined(v: real) | Undefined

  function Closes(bars: seq<Bar>): (xs: seq<real>)
    ensures |xs| == |bars|
    ensures forall i :: 0 <= i < |bars| ==> xs[i] == bars[i].close
  {
    seq(|bars|, i requires 0 <= i < |bars| => bars[i].close)
  }

  // ---------------------------------------------------------------------------
  // Sums and means
  // ---------------------------------------------------------------------------

  function Sum(xs: seq<real>): real
  {
    if |xs| == 0 then 0.0 else xs[0] + Sum(xs[1..])
  }

  function Mean(xs: seq<real>): real
    requires |xs| > 0
  {
    Sum(xs) / (|xs| as real)
  }

  lemma {:induction false} SumBounds(xs: seq<real>, lo: real, hi: real)
    requires forall i :: 0 <= i < |xs| ==> lo <= xs[i] <= hi
    ensures (|xs| as real) * lo <= Sum(xs) <= (|xs| as real) * hi
  {
    if |xs| > 0 {
      SumBounds(xs[1..], lo, hi);
      assert (|xs| as real) * lo == lo + ((|xs| - 1) as real) * lo;
      assert (|xs| as real) * hi == hi + ((|xs| - 1) as real) * hi;
    }
  }

  /** A mean lies between any lower and upper bound of the values averaged. */
  lemma MeanBounds(xs: seq<real>, lo: real, hi: real)
    requires |xs| > 0
    requires forall i :: 0 <= i < |xs| ==> lo <= xs[i] <= hi
    ensures lo <= Mean(xs) <= hi
  {
    SumBounds(xs, lo, hi);
    var n := |xs| as real;
    assert Sum(xs) / n >= (n * lo) / n;
    assert Sum(xs) / n <= (n * hi) / n;
  }

  lemma {:induction false} SumPositive(xs: seq<real>)
    requires |xs| > 0
    requires forall i :: 0 <= i < |xs| ==> xs[i] > 0.0
    ensures Sum(xs) > 0.0
  {
    if |xs| > 1 {
      SumPositive(xs[1..]);
    } else {
      assert Sum(xs[1..]) == 0.0;
    }
  }

  /** The mean of positive prices is positive. */
  lemma MeanPositive(xs: seq<real>)
    requires |xs| > 0
    ensures (forall i :: 0 <= i < |xs| ==> xs[i] > 0.0) ==> Mean(xs) > 0.0
  {
    if forall i :: 0 <= i < |xs| ==> xs[i] > 0.0 {
      SumPositive(xs);
    }
  }

  // ---------------------------------------------------------------------------
  // Moving averages
  // ---------------------------------------------------------------------------

  /** The `w`-bar simple moving average column: the mean of the `w` closes ending at each bar,
      undefined until the window is full. */
  function SmaColumn(xs: seq<real>, w: nat): (col: seq<Reading>)
    requires w >= 1
    ensures |col| == |xs|
    ensures forall i :: 0 <= i < |xs| ==> (col[i].Defined? <==> i >= w - 1)
  {
    seq(|xs|, i requires 0 <= i < |xs| =>
      if i < w - 1 then Undefined else Defined(Mean(xs[i - w + 1..i + 1])))
  }

  /** A moving average stays within the range of the closes in its window. */
  lemma SmaWithinWindow(xs: seq<real>, w: nat, i: nat, lo: real, hi: real)
    requires w >= 1 && w - 1 <= i < |xs|
    requires forall j :: i - w + 1 <= j <= i ==> lo <= xs[j] <= hi
    ensures lo <= SmaColumn(xs, w)[i].v <= hi
  {
    var window := xs[i - w + 1..i + 1];
    assert forall k :: 0 <= k < |window| ==> window[k] == xs[i - w + 1 + k];
    MeanBounds(window, lo, hi);
  }

  /** A series whose closes are all equal has that close as its moving average. */
  lemma SmaOfFlatSeries(xs: seq<real>, w: nat, i: nat, c: real)
    requires w >= 1 && w - 1 <= i < |xs|
    requires forall j :: 0 <= j < |xs| ==> xs[j] == c
    ensures SmaColumn(xs, w)[i] == Defined(c)
  {
    SmaWithinWindow(xs, w, i, c, c);
  }

  /** The closes themselves, as a column: the fallback used when history is too short. */
  function Raw(xs: seq<real>): (col: seq<Reading>)
    ensures |col| == |xs|
    ensures forall i :: 0 <= i < |xs| ==> col[i] == Defined(xs[i])
  {
    seq(|xs|, i requires 0 <= i < |xs| => Defined(xs[i]))
  }

  /** The trend line for window `w` as the analysis builds it (20 and 50 bars): the moving
      average when there are more than `w` bars, the raw closes otherwise. Either way the last
      two cells, the ones the signal reads, hold numbers. */
  function Line(xs: seq<real>, w: nat): (col: seq<Reading>)
    requires w >= 1
    ensures |col| == |xs|
    ensures forall i :: 0 <= i < |xs| && i + 2 >= |xs| ==> col[i].Defined?
    ensures |xs| <= w ==> forall i :: 0 <= i < |xs| ==> col[i] == Defined(xs[i])
    ensures |xs| > w ==> col == SmaColumn(xs, w)
  {
    if |xs| > w then SmaColumn(xs, w) else Raw(xs)
  }

  /** The golden price: the 200-bar average at the latest bar when there are more than 200
      bars, else the sentinel 0. */
  function GoldenPrice(xs: seq<real>): (g: real)
    ensures |xs| <= 200 ==> g == 0.0
    ensures |xs| > 200 ==> g == Mean(xs[|xs| - 200..])
  {
    if |xs| > 200 then
      assert xs[|xs| - 1 - 200 + 1..|xs| - 1 + 1] == xs[|xs| - 200..];
      SmaColumn(xs, 200)[|xs| - 1].v
    else 0.0
  }

  /** With more than 200 positive closes the golden price is a positive number inside the range
      of the last 200 closes; so it is positive exactly when there is enough history. */
  lemma GoldenPriceAvailable(xs: seq<real>)
    requires forall i :: 0 <= i < |xs| ==> xs[i] > 0.0
    ensures GoldenPrice(xs) > 0.0 <==> |xs| > 200
  {
    if |xs| > 200 {
      MeanPositive(xs[|xs| - 200..]);
    }
  }

  /** What the dashboard stores as the 200-bar column: the real average with enough history,
      otherwise a copy of the 50-bar line (drawn only when a golden price exists). */
  function LongLine(xs: seq<real>): (col: seq<Reading>)
    ensures |col| == |xs|
    ensures forall i :: 0 <= i < |xs| && i + 2 >= |xs| ==> col[i].Defined?
    ensures |xs| > 200 ==> col == SmaColumn(xs, 200) && col[|xs| - 1] == Defined(GoldenPrice(xs))
    ensures |xs| <= 200 ==> col == Line(xs, 50)
  {
    if |xs| > 200 then
      assert xs[|xs| - 1 - 200 + 1..|xs| - 1 + 1] == xs[|xs| - 200..];
      SmaColumn(xs, 200)
    else Line(xs, 50)
  }

  /** The RSI the signal sees: the 14-bar RSI of the history (computed outside this model)
      when there are more than 14 bars, otherwise the neutral 50. */
  function RsiOrNeutral(n: nat, rsi: real): (r: real)
    ensures n <= 14 ==> r == 50.0
    ensures n > 14 ==> r == rsi
  {
    if n > 14 then rsi else 50.0
  }

  /** The derived columns the analysis adds to the history. */
  datatype Indicators = Indicators(sma20: seq<Reading>, sma50: seq<Reading>,
                                   sma200: seq<Reading>, golden: real)

  function ComputeIndicators(xs: seq<real>): (ind: Indicators)
  {
    Indicators(Line(xs, 20), Line(xs, 50), LongLine(xs), GoldenPrice(xs))
  }
}
