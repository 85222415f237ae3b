/** The three ticker lists of the sidebar (family holdings, ETF roster, market watch) are typed
    as comma-separated text and read as `[x.strip().upper() for x in text.split(',')]`. */
module Watchlist {
  import opened Text

  /** What an entry of a parsed list looks like: no comma, no whitespace at either end, no
      lower-case ASCII letter. An entry may be empty (the text `"A,,B"`); the dashboard skips it. */
  predicate Canonical(t: string)
  {
    && ',' !in t
    && (t != [] ==> !IsSpace(t[0]) && !IsSpace(t[|t| - 1]))
    && (forall k :: 0 <= k < |t| ==> !IsLower(t[k]))
  }

  /** Normalising one piece of the text gives a canonical entry. */
  lemma NormalizedIsCanonical(piece: string)
    requires ',' !in piece
    ensures Canonical(Upper(Strip(piece)))
  {
    var s := Strip(piece);
    UpperKeeps(s, ',');
  }

  /** One entry per comma-separated piece, each piece stripped and upper-cased. */
  function ParseTickerList(text: string): (tickers: seq<string>)
    ensures |tickers| == Count(text, ',') + 1
    ensures forall k :: 0 <= k < |tickers| ==> Canonical(tickers[k])
  {
    var pieces := Split(text, ',');
    SplitCount(text, ',');
    forall k | 0 <= k < |pieces|
      ensures Canonical(Upper(Strip(pieces[k])))
    {
      NormalizedIsCanonical(pieces[k]);
    }
    seq(|pieces|, k requires 0 <= k < |pieces| => Upper(Strip(pieces[k])))
  }

  /** A canonical entry is left as it is by normalisation. */
  lemma CanonicalIsFixed(t: string)
    requires Canonical(t)
    ensures Upper(Strip(t)) == t
  {
    StripTrimmed(t);
    assert Upper(t) == t;
  }

  /** Entry `k` of the list read from comma-joined pieces is piece `k`, stripped and upper-cased;
      e.g. `" aapl ,msft"` (pieces `" aapl "` and `"msft"`) gives `["AAPL", "MSFT"]`. */
  lemma ParsePieces(pieces: seq<string>)
    requires |pieces| >= 1
    requires forall k :: 0 <= k < |pieces| ==> ',' !in pieces[k]
    ensures ParseTickerList(Join(pieces, ',')) ==
            seq(|pieces|, k requires 0 <= k < |pieces| => Upper(Strip(pieces[k])))
  {
    SplitJoin(pieces, ',');
  }

  /** Writing canonical tickers out comma-separated and reading the text back gives the same
      list; in particular, parsing a parsed list again changes nothing. */
  lemma ParseJoin(tickers: seq<string>)
    requires |tickers| >= 1
    requires forall k :: 0 <= k < |tickers| ==> Canonical(tickers[k])
    ensures ParseTickerList(Join(tickers, ',')) == tickers
  {
    ParsePieces(tickers);
    var parsed := ParseTickerList(Join(tickers, ','));
    forall k | 0 <= k < |tickers|
      ensures parsed[k] == tickers[k]
    {
      CanonicalIsFixed(tickers[k]);
    }
  }

  /** A canonical ticker after one blank, as in `"ZETA, NBIS"`, strips to itself. */
  lemma StripAfterBlank(t: string)
    requires Canonical(t)
    ensures Strip(" " + t) == t
  {
    assert (" " + t)[1..] == t;
    assert LeadingSpaces(t) == 0;
    assert LeadingSpaces(" " + t) == 1;
    StripTrimmed(t);
  }

  /** Tickers written the way the default lists are, with a blank after each comma. */
  function Spaced(tickers: seq<string>): (pieces: seq<string>)
    requires |tickers| >= 1
  {
    [tickers[0]] + seq(|tickers| - 1, k requires 0 <= k < |tickers| - 1 => " " + tickers[k + 1])
  }

  /** Reading back tickers written with ", " between them gives the tickers. */
  lemma ParseSpaced(tickers: seq<string>)
    requires |tickers| >= 1
    requires forall k :: 0 <= k < |tickers| ==> Canonical(tickers[k])
    ensures ParseTickerList(Join(Spaced(tickers), ',')) == tickers
  {
    var pieces := Spaced(tickers);
    forall k | 0 <= k < |pieces|
      ensures ',' !in pieces[k]
      ensures Upper(Strip(pieces[k])) == tickers[k]
    {
      if k == 0 {
        CanonicalIsFixed(tickers[0]);
      } else {
        assert pieces[k] == " " + tickers[k];
        StripAfterBlank(tickers[k]);
        assert Upper(tickers[k]) == tickers[k];
      }
    }
    SplitJoin(pieces, ',');
  }

  /** The default family list. */
  lemma DefaultFamilyList()
    ensures ParseTickerList("ZETA, NBIS") == ["ZETA", "NBIS"]
  {
    var tickers := ["ZETA", "NBIS"];
    assert " " + tickers[1] == " NBIS";
    assert Spaced(tickers)[1] == " NBIS";
    assert Spaced(tickers) == ["ZETA", " NBIS"];
    assert Join(Spaced(tickers), ',') == "ZETA, NBIS";
    ParseSpaced(tickers);
  }
}
