/** The portfolio card: the value of every holding at the current prices,
    net worth, and each holding's profit or loss against its average cost. */
module Portfolio {
  import opened Prelude
  import App

  /** `Object.entries(holdings)`: name and position, in key order. */
  type Entries = seq<(string, App.Position)>

  /** `currentPrices[stock] || 0`: a missing price counts as 0. */
  function PriceOf(prices: map<string, real>, stock: string): real
  {
    if stock in prices then prices[stock] else 0.0
  }

  /** One holding's market value, `quantity * price`. */
  function RowValue(e: (string, App.Position), prices: map<string, real>): (v: real)
    ensures e.0 !in prices ==> v == 0.0
    ensures e.1.shares >= 0 && (e.0 in prices ==> prices[e.0] >= 0.0) ==> v >= 0.0
  {
    e.1.shares as real * PriceOf(prices, e.0)
  }

  /** `reduce((sum, stock) => sum + quantity * price, 0)`, folded from the first key. */
  function TotalStockValue(entries: Entries, prices: map<string, real>): (t: real)
    ensures entries == [] ==> t == 0.0
  {
    if entries == [] then 0.0
    else TotalStockValue(entries[..|entries| - 1], prices) + RowValue(entries[|entries| - 1], prices)
  }

  /** The value of each holding, in key order; with no short position and no
      negative price no row is negative. */
  function RowValues(entries: Entries, prices: map<string, real>): (r: seq<real>)
    ensures |r| == |entries|
    ensures ((forall i :: 0 <= i < |entries| ==> entries[i].1.shares >= 0)
             && (forall k :: k in prices ==> prices[k] >= 0.0))
            ==> forall i :: 0 <= i < |r| ==> r[i] >= 0.0
  {
    seq(|entries|, i requires 0 <= i < |entries| => RowValue(entries[i], prices))
  }

  /** The fold is the sum of the holdings' values. */
  lemma {:induction false} TotalIsSumOfRows(entries: Entries, prices: map<string, real>)
    ensures TotalStockValue(entries, prices) == Sum(RowValues(entries, prices))
  {
    if entries != [] {
      var init := entries[..|entries| - 1];
      TotalIsSumOfRows(init, prices);
      assert RowValues(entries, prices)[..|entries| - 1] == RowValues(init, prices);
    }
  }

  /** Holdings with non-negative share counts at non-negative prices are worth
      at least nothing. */
  lemma {:induction false} TotalStockValueNonNegative(entries: Entries, prices: map<string, real>)
    requires forall i :: 0 <= i < |entries| ==> entries[i].1.shares >= 0
    requires forall k :: k in prices ==> prices[k] >= 0.0
    ensures TotalStockValue(entries, prices) >= 0.0
  {
    if entries != [] {
      var init := entries[..|entries| - 1];
      assert forall i :: 0 <= i < |init| ==> init[i] == entries[i];
      TotalStockValueNonNegative(init, prices);
      var last := entries[|entries| - 1];
      MulNonNeg(last.1.shares as real, PriceOf(prices, last.0));
    }
  }

  /** `cash + totalStockValue` */
  function TotalValue(cash: real, entries: Entries, prices: map<string, real>): (v: real)
    ensures entries == [] ==> v == cash
  {
    cash + TotalStockValue(entries, prices)
  }

  /** With no holdings the stock value is 0 and net worth is the cash; one
      holding is worth its shares times its price. */
  lemma TotalValueBaseCases(cash: real, e: (string, App.Position), prices: map<string, real>)
    ensures TotalStockValue([], prices) == 0.0 && TotalValue(cash, [], prices) == cash
    ensures TotalValue(cash, [e], prices) == cash + e.1.shares as real * PriceOf(prices, e.0)
  {
    assert [e][..0] == [];
  }

  /** `(currPrice - data.avgPrice) * data.shares` */
  function RowPnL(e: (string, App.Position), prices: map<string, real>): (pnl: real)
    ensures pnl == RowValue(e, prices) - e.1.avgPrice * e.1.shares as real
  {
    SubTimes(PriceOf(prices, e.0), e.1.avgPrice, e.1.shares as real);
    (PriceOf(prices, e.0) - e.1.avgPrice) * e.1.shares as real
  }

  /** For an open position (shares > 0) the P/L is shown green (>= 0) exactly
      when the price is at least the average cost, and is zero exactly when
      they are equal; it is the row's value minus what the shares cost. */
  lemma RowPnLSign(e: (string, App.Position), prices: map<string, real>)
    requires e.1.shares > 0
    ensures RowPnL(e, prices) >= 0.0 <==> PriceOf(prices, e.0) >= e.1.avgPrice
    ensures RowPnL(e, prices) == 0.0 <==> PriceOf(prices, e.0) == e.1.avgPrice
    ensures RowPnL(e, prices) == RowValue(e, prices) - e.1.shares as real * e.1.avgPrice
  {
    var d := PriceOf(prices, e.0) - e.1.avgPrice;
    var n := e.1.shares as real;
    if d > 0.0 {
      MulPos(d, n);
    } else if d < 0.0 {
      MulPos(-d, n);
      NegTimes(d, n);
    }
    SubTimes(PriceOf(prices, e.0), e.1.avgPrice, n);
    MulComm(PriceOf(prices, e.0), n);
    MulComm(e.1.avgPrice, n);
  }

  lemma NegTimes(a: real, b: real)
    ensures (-a) * b == -(a * b)
  {
  }
}
