/** The dashboard card: over the newest points of the chosen time frame, the
    first and last price, the percent change between them, a market
    capitalisation for one million shares, and the window's high and low. */
module StockDashboard {
  import opened Prelude
  import opened TimeFrames

  /** The share count the market capitalisation assumes. */
  const SharesOutstanding: real := 1000000.0

  datatype Metrics = Metrics(startingPrice: real, currentPrice: real, percentChange: Option<real>,
                             marketCap: real, allTimeHigh: real, allTimeLow: real)

  /** `Math.max(...s)`: a member of `s` that no member exceeds. */
  function MaxOf(s: seq<real>): (m: real)
    requires |s| > 0
    ensures m in s
    ensures forall i :: 0 <= i < |s| ==> s[i] <= m
  {
    if |s| == 1 then s[0]
    else
      var rest := MaxOf(s[1..]);
      if s[0] >= rest then s[0] else rest
  }

  /** `Math.min(...s)`: a member of `s` that no member undercuts. */
  function MinOf(s: seq<real>): (m: real)
    requires |s| > 0
    ensures m in s
    ensures forall i :: 0 <= i < |s| ==> m <= s[i]
  {
    if |s| == 1 then s[0]
    else
      var rest := MinOf(s[1..]);
      if s[0] <= rest then s[0] else rest
  }

  /** `((current - start) / start) * 100`; absent for a zero start, where the
      division has no real value. */
  function PercentChange(start: real, current: real): (change: Option<real>)
    ensures change.Some? <==> start != 0.0
    ensures change.Some? ==> current == start + change.value * start / 100.0
  {
    if start == 0.0 then None else Some((current - start) / start * 100.0)
  }

  /** For a positive start the change exists and its sign is the sign of
      `current - start`. */
  lemma PercentChangeSign(start: real, current: real)
    requires start > 0.0
    ensures PercentChange(start, current).Some?
    ensures PercentChange(start, current).value > 0.0 <==> current > start
    ensures PercentChange(start, current).value == 0.0 <==> current == start
    ensures PercentChange(start, current).value < 0.0 <==> current < start
  {
    var d := current - start;
    if d > 0.0 {
      DivPos(d, start);
    } else if d < 0.0 {
      DivPos(-d, start);
      NegDiv(d, start);
    }
  }

  lemma DivPos(a: real, b: real)
    requires a > 0.0 && b > 0.0
    ensures a / b > 0.0
  {
  }

  lemma NegDiv(a: real, b: real)
    requires b > 0.0
    ensures (-a) / b == -(a / b)
  {
  }

  /** The card for the first series of `simulationData` in the window `frame`;
      nothing when there is no series or it is empty. */
  function Dashboard(simulationData: seq<seq<real>>, frame: TimeFrame): (r: Option<Metrics>)
    ensures r.None? <==> |simulationData| == 0 || |simulationData[0]| == 0
  {
    if |simulationData| == 0 || |simulationData[0]| == 0 then None
    else
      var fullData := simulationData[0];
      TrailingKeepsNewest(fullData, frame);
      var dataSlice := Trailing(fullData, frame);
      var startingPrice := dataSlice[0];
      var currentPrice := dataSlice[|dataSlice| - 1];
      Some(Metrics(startingPrice, currentPrice, PercentChange(startingPrice, currentPrice),
                   currentPrice * SharesOutstanding, MaxOf(dataSlice), MinOf(dataSlice)))
  }

  /** What the card shows: the window's first price and the series' newest
      price, a high and a low that are prices of the window bounding all of
      it, a market cap of a million times the current price, and the
      percent change from start to current, whose sign follows the move. */
  lemma DashboardMetricsSound(simulationData: seq<seq<real>>, frame: TimeFrame)
    requires |simulationData| > 0 && |simulationData[0]| > 0
    ensures var m := Dashboard(simulationData, frame).value;
      var full := simulationData[0];
      var slice := Trailing(full, frame);
      && m.startingPrice == slice[0] && m.currentPrice == full[|full| - 1]
      && m.allTimeHigh in slice && m.allTimeLow in slice
      && (forall i :: 0 <= i < |slice| ==> m.allTimeLow <= slice[i] <= m.allTimeHigh)
      && m.allTimeLow <= m.startingPrice <= m.allTimeHigh
      && m.allTimeLow <= m.currentPrice <= m.allTimeHigh
      && m.marketCap == m.currentPrice * SharesOutstanding
      && m.percentChange == PercentChange(m.startingPrice, m.currentPrice)
      && (m.startingPrice > 0.0 ==>
            m.percentChange.Some? && (m.percentChange.value >= 0.0 <==> m.currentPrice >= m.startingPrice))
  {
    var full := simulationData[0];
    TrailingKeepsNewest(full, frame);
    var slice := Trailing(full, frame);
    if slice[0] > 0.0 {
      PercentChangeSign(slice[0], slice[|slice| - 1]);
    }
  }

  /** Under "ALL" the card spans the whole series: its start is the very first price. */
  lemma DashboardAllStartsAtFirst(simulationData: seq<seq<real>>)
    requires |simulationData| > 0 && |simulationData[0]| > 0
    ensures Dashboard(simulationData, All).value.startingPrice == simulationData[0][0]
  {
    TrailingWhole(simulationData[0], All);
  }
}
