/** The simple moving average (SMA) that the trading bots compare prices
    against: entry i is the mean of the `period` prices ending at i, and there
    is no entry while fewer than `period` prices exist. */
module MovingAverage {
  import opened Prelude

  /** The trailing window `data.slice(i - period + 1, i + 1)`. */
  function Window(prices: seq<real>, period: nat, i: nat): seq<real>
    requires 0 < period <= i + 1 <= |prices|
  {
    prices[i + 1 - period..i + 1]
  }

  /** The SMA at index i, `None` during the warm-up of `period - 1` entries. */
  function SmaAt(prices: seq<real>, period: nat, i: nat): (sma: Option<real>)
    requires 0 < period && i < |prices|
    ensures sma.Some? <==> i + 1 >= period
  {
    if i < period - 1 then None else Some(Sum(Window(prices, period, i)) / period as real)
  }

  /** Once the window is full the SMA exists and lies between any lower and
      upper bound of the prices in that window. */
  lemma SmaWithinWindow(prices: seq<real>, period: nat, i: nat, lo: real, hi: real)
    requires 0 < period <= i + 1 <= |prices|
    requires AllWithin(Window(prices, period, i), lo, hi)
    ensures SmaAt(prices, period, i).Some?
    ensures lo <= SmaAt(prices, period, i).value <= hi
  {
    var w := Window(prices, period, i);
    SumBounds(w, lo, hi);
    MeanBounds(Sum(w), period as real, lo, hi);
  }

  /** A window of equal prices averages to that price. */
  lemma SmaOfFlatWindow(prices: seq<real>, period: nat, i: nat, c: real)
    requires 0 < period <= i + 1 <= |prices|
    requires forall k :: i + 1 - period <= k <= i ==> prices[k] == c
    ensures SmaAt(prices, period, i) == Some(c)
  {
    var w := Window(prices, period, i);
    assert AllWithin(w, c, c) by {
      forall j | 0 <= j < |w| ensures c <= w[j] <= c {
        assert w[j] == prices[i + 1 - period + j];
      }
    }
    SmaWithinWindow(prices, period, i, c, c);
  }
}
