/** The watchlist tab: a case-insensitive search over the Stock and Ticker
    columns, then two flag columns added to the rows that remain. */
module Screener {
  import opened Wrappers

  /** One row of the watchlist sheet (columns Stock, Ticker, Region, P/E,
      YTD %). The P/E cell is kept as the text it was read from. */
  datatype WatchEntry = WatchEntry(stock: string, ticker: string, region: string, pe: string, ytd: real)

  /** A P/E below this marks a row Undervalued. */
  const UNDERVALUED_PE: real := 20.0
  /** A year-to-date return above this (in percent) marks a row High Momentum. */
  const HIGH_MOMENTUM_YTD: real := 30.0

  function LowerChar(c: char): char
  {
    if 'A' <= c <= 'Z' then (c as int - 'A' as int + 'a' as int) as char else c
  }

  /** Lower-casing of a string, character by character. */
  function Lower(s: string): (r: string)
    ensures |r| == |s|
  {
    seq(|s|, i requires 0 <= i < |s| => LowerChar(s[i]))
  }

  lemma LowerIdempotent(s: string)
    ensures Lower(Lower(s)) == Lower(s)
  {
    forall i | 0 <= i < |s| ensures Lower(Lower(s))[i] == Lower(s)[i] { }
  }

  /** `needle` occurs in `haystack` starting at position `i`. */
  predicate OccursAt(needle: string, haystack: string, i: int)
  {
    0 <= i && i + |needle| <= |haystack| && haystack[i..i + |needle|] == needle
  }

  /** Substring test: is `needle` a prefix of some suffix of `haystack`? */
  function Contains(haystack: string, needle: string): (found: bool)
    decreases |haystack|
  {
    needle <= haystack || (haystack != [] && Contains(haystack[1..], needle))
  }

  /** Being a prefix is occurring at position 0. */
  lemma PrefixOccursAtZero(needle: string, haystack: string)
    ensures needle <= haystack <==> OccursAt(needle, haystack, 0)
  {
    if needle <= haystack {
      assert haystack[0..|needle|] == needle;
    }
    if OccursAt(needle, haystack, 0) {
      assert haystack[..|needle|] == needle;
    }
  }

  /** Occurrences in the text without its first character are the
      occurrences in the text at positions above 0, shifted by one. */
  lemma OccursInTail(needle: string, haystack: string, i: int)
    requires haystack != []
    ensures OccursAt(needle, haystack[1..], i) <==> i + 1 > 0 && OccursAt(needle, haystack, i + 1)
  {
    if 0 <= i && i + 1 + |needle| <= |haystack| {
      assert haystack[1..][i..i + |needle|] == haystack[i + 1..i + 1 + |needle|];
    }
  }

  /** The substring test agrees with its definition by positions, both ways. */
  lemma {:induction false} ContainsIffOccurs(haystack: string, needle: string)
    ensures Contains(haystack, needle) <==> exists i :: OccursAt(needle, haystack, i)
    decreases |haystack|
  {
    PrefixOccursAtZero(needle, haystack);
    if haystack != [] {
      var tail := haystack[1..];
      ContainsIffOccurs(tail, needle);
      if j :| OccursAt(needle, tail, j) {
        OccursInTail(needle, haystack, j);
      }
      if i :| OccursAt(needle, haystack, i) && i != 0 {
        OccursInTail(needle, haystack, i - 1);
      }
    }
  }

  /** The row test of the search: the lower-cased query occurs in the
      lower-cased Stock or the lower-cased Ticker. */
  predicate Matches(e: WatchEntry, loweredQuery: string)
  {
    Contains(Lower(e.stock), loweredQuery) || Contains(Lower(e.ticker), loweredQuery)
  }

  /** The boolean mask the row test produces, one entry per row. */
  function SearchMask(universe: seq<WatchEntry>, loweredQuery: string): (m: seq<bool>)
    ensures |m| == |universe|
  {
    seq(|universe|, i requires 0 <= i < |universe| => Matches(universe[i], loweredQuery))
  }

  /** The positions where a mask holds, in increasing order. */
  function Indices(mask: seq<bool>): (idx: seq<nat>)
    ensures forall k :: 0 <= k < |idx| ==> idx[k] < |mask| && mask[idx[k]]
    ensures forall k, l :: 0 <= k < l < |idx| ==> idx[k] < idx[l]
    ensures forall i :: 0 <= i < |mask| && mask[i] ==> i in idx
  {
    if mask == [] then []
    else
      var n := |mask| - 1;
      Indices(mask[..n]) + (if mask[n] then [n] else [])
  }

  /** Selection of rows by a mask: the kept rows, in their original order. */
  function Select(rows: seq<WatchEntry>, mask: seq<bool>): (kept: seq<WatchEntry>)
    requires |mask| == |rows|
  {
    if rows == [] then []
    else
      var n := |rows| - 1;
      Select(rows[..n], mask[..n]) + (if mask[n] then [rows[n]] else [])
  }

  /** The selected rows are the rows at the mask's positions, in order. */
  lemma {:induction false} SelectAtIndices(rows: seq<WatchEntry>, mask: seq<bool>)
    requires |mask| == |rows|
    ensures |Select(rows, mask)| == |Indices(mask)|
    ensures forall k :: 0 <= k < |Indices(mask)| ==> Select(rows, mask)[k] == rows[Indices(mask)[k]]
  {
    if rows != [] {
      var n := |rows| - 1;
      SelectAtIndices(rows[..n], mask[..n]);
      assert mask[..n] == mask[..|mask| - 1];
    }
  }

  /** The search: an empty query keeps every row; any other query keeps the
      rows it matches, ignoring case. */
  function Screen(universe: seq<WatchEntry>, query: string): (r: seq<WatchEntry>)
    ensures query == "" ==> r == universe
  {
    if query == "" then universe
    else Select(universe, SearchMask(universe, Lower(query)))
  }

  /** A non-empty query keeps exactly the matching rows, each once, in their
      original relative order: the result lists the rows at a strictly
      increasing run of positions, and those positions are exactly the
      matching ones. */
  lemma ScreenKeepsExactlyMatches(universe: seq<WatchEntry>, query: string)
    requires query != ""
    ensures var idx := Indices(SearchMask(universe, Lower(query)));
            && |Screen(universe, query)| == |idx|
            && (forall k :: 0 <= k < |idx| ==> idx[k] < |universe| && Screen(universe, query)[k] == universe[idx[k]])
            && (forall k, l :: 0 <= k < l < |idx| ==> idx[k] < idx[l])
            && (forall i :: 0 <= i < |universe| ==> (i in idx <==> Matches(universe[i], Lower(query))))
  {
    SelectAtIndices(universe, SearchMask(universe, Lower(query)));
  }

  /** The search never adds rows: every result row comes from the watchlist,
      and a row is in the result exactly when it is in the watchlist and
      matches the query. */
  lemma ScreenMembership(universe: seq<WatchEntry>, query: string, e: WatchEntry)
    requires query != ""
    ensures |Screen(universe, query)| <= |universe|
    ensures e in Screen(universe, query) <==> e in universe && Matches(e, Lower(query))
  {
    var mask := SearchMask(universe, Lower(query));
    var idx := Indices(mask);
    ScreenKeepsExactlyMatches(universe, query);
    IncreasingIndicesBound(idx, |universe|);
    if e in universe && Matches(e, Lower(query)) {
      var i :| 0 <= i < |universe| && universe[i] == e;
      var k :| 0 <= k < |idx| && idx[k] == i;
      assert Screen(universe, query)[k] == e;
    }
  }

  /** A strictly increasing run of positions below `n` has at most `n` entries. */
  lemma {:induction false} IncreasingIndicesBound(idx: seq<nat>, n: nat)
    requires forall k :: 0 <= k < |idx| ==> idx[k] < n
    requires forall k, l :: 0 <= k < l < |idx| ==> idx[k] < idx[l]
    ensures |idx| <= n
  {
    if idx != [] {
      var m := |idx| - 1;
      IncreasingIndicesBound(idx[..m], idx[m]);
    }
  }

  /** Queries that lower-case alike screen alike. */
  lemma ScreenIgnoresQueryCase(universe: seq<WatchEntry>, q1: string, q2: string)
    requires Lower(q1) == Lower(q2)
    ensures Screen(universe, q1) == Screen(universe, q2)
  {
  }

  /** Lower-casing the query before searching changes nothing. */
  lemma ScreenLoweredQuery(universe: seq<WatchEntry>, query: string)
    ensures Screen(universe, Lower(query)) == Screen(universe, query)
  {
    LowerIdempotent(query);
    ScreenIgnoresQueryCase(universe, Lower(query), query);
  }

  /** A query cannot occur in a text that lacks its first character. */
  lemma {:induction false} NotContainedWithoutFirstChar(haystack: string, needle: string)
    requires needle != []
    requires forall i :: 0 <= i < |haystack| ==> haystack[i] != needle[0]
    ensures !Contains(haystack, needle)
    decreases |haystack|
  {
    if haystack != [] {
      if |needle| <= |haystack| {
        assert haystack[..|needle|][0] == haystack[0] != needle[0];
      }
      NotContainedWithoutFirstChar(haystack[1..], needle);
    }
  }

  /** Of two rows, a query that matches only the first keeps only the first. */
  lemma ScreenKeepsFirstOfTwo(a: WatchEntry, b: WatchEntry, query: string)
    requires query != ""
    requires Matches(a, Lower(query)) && !Matches(b, Lower(query))
    ensures Screen([a, b], query) == [a]
  {
    var mask := SearchMask([a, b], Lower(query));
    assert mask == [true, false];
    assert [a, b][..1] == [a] && mask[..1] == [true];
    assert [a][..0] == [] && [true][..0] == [];
    assert Select([a], [true]) == [a];
    assert Select([a, b], mask) == Select([a], [true]);
  }

  /** A mixed-case fragment of a company name finds that row and drops a row
      whose name and ticker do not contain it. */
  lemma ScreenFindsNameFragment()
    ensures Screen([WatchEntry("Nvidia", "NVDA", "US", "60.1", 45.0), WatchEntry("Apple", "AAPL", "US", "15.2", 10.0)], "vId")
            == [WatchEntry("Nvidia", "NVDA", "US", "60.1", 45.0)]
  {
    var nvidia := WatchEntry("Nvidia", "NVDA", "US", "60.1", 45.0);
    var apple := WatchEntry("Apple", "AAPL", "US", "15.2", 10.0);
    var q := Lower("vId");
    assert q == "vid";
    assert Matches(nvidia, q) by {
      assert Lower("Nvidia") == "nvidia";
      assert q <= "nvidia"[1..];
    }
    assert !Matches(apple, q) by {
      assert Lower("Apple") == "apple";
      assert Lower("AAPL") == "aapl";
      NotContainedWithoutFirstChar("apple", q);
      NotContainedWithoutFirstChar("aapl", q);
    }
    ScreenKeepsFirstOfTwo(nvidia, apple, "vId");
  }

  /** The Undervalued flag: the P/E cell parses to a number below the
      threshold; a cell that does not parse is not undervalued. */
  predicate Undervalued(e: WatchEntry, parse: string -> Option<real>)
  {
    match parse(e.pe)
    case Some(pe) => pe < UNDERVALUED_PE
    case None => false
  }

  /** The High Momentum flag. */
  predicate HighMomentum(e: WatchEntry)
  {
    e.ytd > HIGH_MOMENTUM_YTD
  }

  /** The search result table; the flag pass adds two columns to it in place. */
  class ScreenView {
    var rows: seq<WatchEntry>
    var undervalued: seq<bool>
    var highMomentum: seq<bool>

    constructor (rows: seq<WatchEntry>)
      ensures this.rows == rows && undervalued == [] && highMomentum == []
    {
      this.rows := rows;
      undervalued, highMomentum := [], [];
    }

    method AddFlagColumns(parse: string -> Option<real>)
      modifies this
      ensures rows == old(rows)
      ensures |undervalued| == |rows| && |highMomentum| == |rows|
      ensures forall i :: 0 <= i < |rows| ==>
                (undervalued[i] <==> parse(rows[i].pe).Some? && parse(rows[i].pe).value < UNDERVALUED_PE)
      ensures forall i :: 0 <= i < |rows| ==> (highMomentum[i] <==> rows[i].ytd > HIGH_MOMENTUM_YTD)
    {
      var table := rows;
      undervalued := seq(|table|, i requires 0 <= i < |table| => Undervalued(table[i], parse));
      highMomentum := seq(|table|, i requires 0 <= i < |table| => HighMomentum(table[i]));
    }
  }

  /** The whole watchlist tab: search, then flag the rows that remain. */
  method ScreenTab(universe: seq<WatchEntry>, query: string, parse: string -> Option<real>) returns (view: ScreenView)
    ensures fresh(view)
    ensures view.rows == Screen(universe, query)
    ensures |view.undervalued| == |view.rows| && |view.highMomentum| == |view.rows|
    ensures forall i :: 0 <= i < |view.rows| ==> (view.undervalued[i] <==> Undervalued(view.rows[i], parse))
    ensures forall i :: 0 <= i < |view.rows| ==> (view.highMomentum[i] <==> HighMomentum(view.rows[i]))
  {
    view := new ScreenView(Screen(universe, query));
    view.AddFlagColumns(parse);
  }
}
