/** The portfolio tab of the dashboard: every position is priced once, in row
    order, from a live lookup or, when the lookup fails, from its recorded buy
    price; the totals and the per-row columns shown in the table follow. */
module Valuation {
  import opened Wrappers

  /** One row of the positions sheet (columns Ticker, Units, Investment (INR),
      Buy Price (INR), Stock, Barbell Type). */
  datatype Position = Position(
    ticker: string,
    units: real,
    investment: real,
    buyPrice: real,
    stock: string,
    barbellType: string)

  /** The fixed rate that turns a US-dollar close into rupees. */
  const USDINR: real := 83.5

  predicate EndsWith(s: string, suffix: string)
  {
    |suffix| <= |s| && s[|s| - |suffix|..] == suffix
  }

  /** Shenzhen and Hong Kong listings: their closes are kept as fetched. */
  predicate KeepsFetchedPrice(ticker: string)
  {
    EndsWith(ticker, ".SZ") || EndsWith(ticker, ".HK")
  }

  /** The rupee price of one row, given the outcome of its price lookup. */
  function CurrentPrice(p: Position, fetched: Option<real>): (price: real)
  {
    match fetched
    case Some(close) => if KeepsFetchedPrice(p.ticker) then close else close * USDINR
    case None => p.buyPrice
  }

  /** The Current Price (INR) column: one price per row, in row order. */
  function CurrentPrices(rows: seq<Position>, fetches: seq<Option<real>>): (r: seq<real>)
    requires |fetches| == |rows|
    ensures |r| == |rows|
  {
    seq(|rows|, i requires 0 <= i < |rows| => CurrentPrice(rows[i], fetches[i]))
  }

  /** Column sum, accumulated from the first row to the last. */
  function Sum(xs: seq<real>): (total: real)
  {
    if xs == [] then 0.0 else Sum(xs[..|xs| - 1]) + xs[|xs| - 1]
  }

  function InvestmentColumn(rows: seq<Position>): (r: seq<real>)
    ensures |r| == |rows|
  {
    seq(|rows|, i requires 0 <= i < |rows| => rows[i].investment)
  }

  /** The Total Invested figure: the sum of the Investment (INR) column. */
  function TotalInvested(rows: seq<Position>): (total: real)
  {
    Sum(InvestmentColumn(rows))
  }

  /** The Current Value column: price times units, row by row. */
  function ValueColumn(rows: seq<Position>, prices: seq<real>): (r: seq<real>)
    requires |prices| == |rows|
    ensures |r| == |rows|
  {
    seq(|rows|, i requires 0 <= i < |rows| => prices[i] * rows[i].units)
  }

  /** The Gain/Loss column: current value minus the amount invested. */
  function GainLossColumn(rows: seq<Position>, prices: seq<real>): (r: seq<real>)
    requires |prices| == |rows|
    ensures |r| == |rows|
  {
    seq(|rows|, i requires 0 <= i < |rows| => prices[i] * rows[i].units - rows[i].investment)
  }

  /** `x / base * 100` without a guard: a zero base has no finite result
      (the table shows inf or NaN there), which is None here. */
  function PercentOf(x: real, base: real): (r: Option<real>)
    ensures r.None? <==> base == 0.0
    ensures r.Some? ==> r.value * base == 100.0 * x
  {
    if base == 0.0 then None else Some(x / base * 100.0)
  }

  /** The Gain/Loss (%) column, relative to each row's investment. */
  function GainLossPctColumn(rows: seq<Position>, prices: seq<real>): (r: seq<Option<real>>)
    requires |prices| == |rows|
    ensures |r| == |rows|
  {
    seq(|rows|, i requires 0 <= i < |rows| =>
      PercentOf(prices[i] * rows[i].units - rows[i].investment, rows[i].investment))
  }

  /** The three headline figures of the tab. */
  datatype Summary = Summary(totalInvested: real, totalValue: real, gain: real, gainPct: real)

  /** Gain and gain percent from the two totals; the percent is 0 when
      nothing was invested. */
  function Summarize(totalInvested: real, totalValue: real): (s: Summary)
    ensures s.totalInvested == totalInvested && s.totalValue == totalValue
    ensures s.gain + totalInvested == totalValue
    ensures totalInvested == 0.0 ==> s.gainPct == 0.0
    ensures totalInvested != 0.0 ==> s.gainPct * totalInvested == 100.0 * s.gain
  {
    var gain := totalValue - totalInvested;
    Summary(totalInvested, totalValue, gain, if totalInvested != 0.0 then gain / totalInvested * 100.0 else 0.0)
  }

  lemma SumSnoc(xs: seq<real>, x: real)
    ensures Sum(xs + [x]) == Sum(xs) + x
  {
    assert (xs + [x])[..|xs|] == xs;
  }

  /** The pricing pass: one lookup outcome per row, turned into a rupee price
      that is appended to the price list, and price times units added to the
      running total. */
  method PriceRows(rows: seq<Position>, fetches: seq<Option<real>>) returns (prices: seq<real>, totalValue: real)
    requires |fetches| == |rows|
    ensures |prices| == |rows|
    ensures forall i :: 0 <= i < |rows| && fetches[i].Some? && KeepsFetchedPrice(rows[i].ticker) ==>
              prices[i] == fetches[i].value
    ensures forall i :: 0 <= i < |rows| && fetches[i].Some? && !KeepsFetchedPrice(rows[i].ticker) ==>
              prices[i] == fetches[i].value * USDINR
    ensures forall i :: 0 <= i < |rows| && fetches[i].None? ==> prices[i] == rows[i].buyPrice
    ensures prices == CurrentPrices(rows, fetches)
    ensures totalValue == Sum(ValueColumn(rows, prices))
  {
    prices := [];
    totalValue := 0.0;
    for i := 0 to |rows|
      invariant |prices| == i
      invariant forall k :: 0 <= k < i ==> prices[k] == CurrentPrice(rows[k], fetches[k])
      invariant totalValue == Sum(ValueColumn(rows[..i], prices))
    {
      var row := rows[i];
      var price: real;
      if fetches[i].Some? {
        if KeepsFetchedPrice(row.ticker) {
          price := fetches[i].value;
        } else {
          price := fetches[i].value * USDINR;
        }
      } else {
        price := row.buyPrice;
      }
      ghost var before, after := ValueColumn(rows[..i], prices), ValueColumn(rows[..i + 1], prices + [price]);
      forall k | 0 <= k <= i ensures after[k] == (before + [price * row.units])[k] { }
      assert after == before + [price * row.units];
      SumSnoc(before, price * row.units);
      prices := prices + [price];
      totalValue := totalValue + price * row.units;
    }
    assert rows[..|rows|] == rows;
  }

  /** Two columns whose rows differ entry by entry have sums that differ by
      the same amount. */
  lemma {:induction false} SumOfDifference(a: seq<real>, b: seq<real>, c: seq<real>)
    requires |a| == |b| == |c|
    requires forall i :: 0 <= i < |c| ==> c[i] == a[i] - b[i]
    ensures Sum(c) == Sum(a) - Sum(b)
  {
    if c != [] {
      var n := |c| - 1;
      SumOfDifference(a[..n], b[..n], c[..n]);
    }
  }

  /** The Gain/Loss column of the table adds up to the headline gain. */
  lemma GainColumnTotalsGain(rows: seq<Position>, prices: seq<real>)
    requires |prices| == |rows|
    ensures Sum(GainLossColumn(rows, prices)) ==
            Summarize(TotalInvested(rows), Sum(ValueColumn(rows, prices))).gain
  {
    SumOfDifference(ValueColumn(rows, prices), InvestmentColumn(rows), GainLossColumn(rows, prices));
  }

  /** When every lookup fails and each investment is units times buy price,
      the tab reports neither gain nor loss. */
  lemma AllFallbackBreaksEven(rows: seq<Position>, fetches: seq<Option<real>>)
    requires |fetches| == |rows|
    requires forall i :: 0 <= i < |rows| ==> fetches[i].None?
    requires forall i :: 0 <= i < |rows| ==> rows[i].investment == rows[i].buyPrice * rows[i].units
    ensures Summarize(TotalInvested(rows), Sum(ValueColumn(rows, CurrentPrices(rows, fetches)))).gain == 0.0
    ensures Summarize(TotalInvested(rows), Sum(ValueColumn(rows, CurrentPrices(rows, fetches)))).gainPct == 0.0
  {
    forall i | 0 <= i < |rows|
      ensures ValueColumn(rows, CurrentPrices(rows, fetches))[i] == InvestmentColumn(rows)[i]
    {
      assert CurrentPrices(rows, fetches)[i] == rows[i].buyPrice;
    }
    assert ValueColumn(rows, CurrentPrices(rows, fetches)) == InvestmentColumn(rows);
  }

  /** A sheet split in two is valued as the sum of its parts: each row is
      priced from its own lookup only. */
  lemma {:induction false} SumAppend(xs: seq<real>, ys: seq<real>)
    ensures Sum(xs + ys) == Sum(xs) + Sum(ys)
  {
    if ys == [] {
      assert xs + ys == xs;
    } else {
      var n := |ys| - 1;
      assert (xs + ys)[..|xs| + n] == xs + ys[..n];
      SumAppend(xs, ys[..n]);
    }
  }

  lemma ValueOfSplitSheet(a: seq<Position>, fa: seq<Option<real>>, b: seq<Position>, fb: seq<Option<real>>)
    requires |fa| == |a| && |fb| == |b|
    ensures Sum(ValueColumn(a + b, CurrentPrices(a + b, fa + fb))) ==
            Sum(ValueColumn(a, CurrentPrices(a, fa))) + Sum(ValueColumn(b, CurrentPrices(b, fb)))
  {
    forall i | 0 <= i < |a| + |b|
      ensures ValueColumn(a + b, CurrentPrices(a + b, fa + fb))[i] ==
              (ValueColumn(a, CurrentPrices(a, fa)) + ValueColumn(b, CurrentPrices(b, fb)))[i]
    {
      if i >= |a| {
        assert (a + b)[i] == b[i - |a|] && (fa + fb)[i] == fb[i - |a|];
      }
    }
    assert ValueColumn(a + b, CurrentPrices(a + b, fa + fb)) ==
           ValueColumn(a, CurrentPrices(a, fa)) + ValueColumn(b, CurrentPrices(b, fb));
    SumAppend(ValueColumn(a, CurrentPrices(a, fa)), ValueColumn(b, CurrentPrices(b, fb)));
  }

  /** The positions table; the valuation pass adds four columns to it in place. */
  class PortfolioFrame {
    var rows: seq<Position>
    var currentPrice: seq<real>
    var currentValue: seq<real>
    var gainLoss: seq<real>
    var gainLossPct: seq<Option<real>>

    constructor (rows: seq<Position>)
      ensures this.rows == rows
      ensures currentPrice == [] && currentValue == [] && gainLoss == [] && gainLossPct == []
    {
      this.rows := rows;
      currentPrice, currentValue, gainLoss, gainLossPct := [], [], [], [];
    }

    /** Assigns the price list as a column and derives the other three from it. */
    method AddValuationColumns(prices: seq<real>)
      requires |prices| == |rows|
      modifies this
      ensures rows == old(rows)
      ensures currentPrice == prices
      ensures currentValue == ValueColumn(rows, prices)
      ensures gainLoss == GainLossColumn(rows, prices)
      ensures gainLossPct == GainLossPctColumn(rows, prices)
    {
      currentPrice := prices;
      currentValue := ValueColumn(rows, prices);
      gainLoss := GainLossColumn(rows, prices);
      gainLossPct := GainLossPctColumn(rows, prices);
    }
  }

  /** The whole portfolio tab: totals, the pricing pass, the headline figures
      and the new table columns. */
  method PortfolioTab(frame: PortfolioFrame, fetches: seq<Option<real>>) returns (s: Summary)
    requires |fetches| == |frame.rows|
    modifies frame
    ensures frame.rows == old(frame.rows)
    ensures frame.currentPrice == CurrentPrices(frame.rows, fetches)
    ensures frame.currentValue == ValueColumn(frame.rows, frame.currentPrice)
    ensures frame.gainLoss == GainLossColumn(frame.rows, frame.currentPrice)
    ensures frame.gainLossPct == GainLossPctColumn(frame.rows, frame.currentPrice)
    ensures s == Summarize(TotalInvested(frame.rows), Sum(frame.currentValue))
    ensures Sum(frame.gainLoss) == s.gain
  {
    var totalInvested := TotalInvested(frame.rows);
    var prices, totalValue := PriceRows(frame.rows, fetches);
    s := Summarize(totalInvested, totalValue);
    frame.AddValuationColumns(prices);
    GainColumnTotalsGain(frame.rows, prices);
  }
}
