/** The Recharts variant of the simulator: the same cursor, baseline, manual
    trades and per-tick history, with CSV rows parsed by a CSV library (rows
    whose close is not a number are dropped but keep their row index as
    time), a one-share bot that checks cash before buying and runs only in
    real mode, and a mode switch that resets the accounts. */
module RechartsSimulator {
  import opened Prelude
  import opened MovingAverage
  import opened Ledger

  /** `calculateSMA(data, period)`: the trailing `period`-point mean of the
      prices at each index, null before the window fills. */
  method CalculateSma(data: seq<PricePoint>, period: nat) returns (result: seq<Option<real>>)
    requires period > 0
    ensures |result| == |data|
    ensures forall i :: 0 <= i < |data| ==> result[i] == SmaAt(Prices(data), period, i)
  {
    result := [];
    var i := 0;
    while i < |data|
      invariant 0 <= i <= |data| && |result| == i
      invariant forall k :: 0 <= k < i ==> result[k] == SmaAt(Prices(data), period, k)
    {
      if i < period - 1 {
        result := result + [None];
      } else {
        var slice := data[i - period + 1..i + 1];
        PricesOfSlice(data, i - period + 1, i + 1);
        var avg := Sum(Prices(slice)) / period as real;
        result := result + [Some(avg)];
      }
      i := i + 1;
    }
  }

  /** `results.data.map((row, index) => ({ time: index, price: row.Close }))`
      followed by the filter that drops rows whose close is not a number; the
      rows are numbered from `start`. Each kept point carries its original
      row number and that row's close, times strictly increase, and exactly
      the parsed rows are kept. */
  function ParsedPoints(rows: seq<Option<real>>, start: int): (points: seq<PricePoint>)
    ensures |points| == CountParsed(rows)
    ensures forall i :: 0 <= i < |points| ==>
      && start <= points[i].time < start + |rows|
      && rows[points[i].time - start] == Some(points[i].price)
    ensures forall i, j :: 0 <= i < j < |points| ==> points[i].time < points[j].time
    decreases |rows|
  {
    if rows == [] then []
    else
      var rest := ParsedPoints(rows[1..], start + 1);
      if rows[0].Some? then [PricePoint(start, rows[0].value)] + rest else rest
  }

  /** With no unparsable row the filter drops nothing: all rows are kept, and
      by the contract of `ParsedPoints` they keep their order and numbering. */
  lemma {:induction false} ParsedPointsAllValid(rows: seq<Option<real>>, start: int)
    requires forall i :: 0 <= i < |rows| ==> rows[i].Some?
    ensures |ParsedPoints(rows, start)| == |rows|
    decreases |rows|
  {
    if rows != [] {
      var tail := rows[1..];
      assert forall i :: 0 <= i < |tail| ==> tail[i] == rows[i + 1];
      ParsedPointsAllValid(tail, start + 1);
    }
  }

  /** The bot rule: only in real mode and once the SMA exists; buy one share
      above the SMA if the cash covers it, sell one below it if any is held,
      hold at it. */
  function BotDecision(mode: Option<Mode>, sma: Option<real>, price: real, cash: real, shares: int): (a: BotAction)
    ensures !a.Hold? ==> mode == Some(Real) && sma.Some?
    ensures a.BotBuy? ==> a == BotBuy(1) && price > sma.value && cash >= price
    ensures a.BotSell? ==> a == BotSell(1) && price < sma.value && shares > 0
  {
    if mode != Some(Real) || sma.None? then Hold
    else if price > sma.value then (if cash >= price then BotBuy(1) else Hold)
    else if price < sma.value then (if shares > 0 then BotSell(1) else Hold)
    else Hold
  }

  /** The bot trades only in real mode with an SMA, on the side the price's
      position to the SMA names, one share at a time, and never at the SMA. */
  lemma BotFollowsSma(mode: Option<Mode>, sma: Option<real>, price: real, cash: real, shares: int)
    ensures var a := BotDecision(mode, sma, price, cash, shares);
      && (mode != Some(Real) || sma == None || sma == Some(price) ==> a == Hold)
      && (a.BotBuy? <==> mode == Some(Real) && sma.Some? && price > sma.value && cash >= price)
      && (a.BotSell? <==> mode == Some(Real) && sma.Some? && price < sma.value && shares > 0)
      && (!a.Hold? ==> a.qty == 1)
  {
  }

  /** A book with non-negative cash and shares keeps both non-negative after a
      bot step at a non-negative price. */
  lemma BotKeepsSolvent(b: Book, mode: Option<Mode>, sma: Option<real>, price: real, time: int)
    requires Sound(b) && b.cash >= 0.0 && price >= 0.0
    ensures var r := ApplyBot(b, BotDecision(mode, sma, price, b.cash, b.shares), price, time);
      Sound(r) && r.cash >= 0.0
  {
  }

  /** The tick's decision at the cursor. */
  function TickAction(mode: Option<Mode>, data: seq<PricePoint>, time: nat, price: real, b: Book): (a: BotAction)
    requires time < |data|
    ensures !a.Hold? ==> mode == Some(Real) && time >= SmaPeriod - 1
  {
    BotDecision(mode, SmaAt(Prices(data), SmaPeriod, time), price, b.cash, b.shares)
  }

  predicate TimesIncreasing(data: seq<PricePoint>)
  {
    forall i, j :: 0 <= i < j < |data| ==> data[i].time < data[j].time
  }

  /** The simulator's state. */
  class Simulator {
    var mode: Option<Mode>
    var stockData: seq<PricePoint>
    var dataLoaded: int
    var time: int
    var speed: int
    var running: bool
    var botCash: real
    var botShares: int
    var buyAndHoldCash: real
    var buyAndHoldShares: int
    var performanceHistory: seq<PerfPoint>
    var trades: seq<Trade>
    var notifications: seq<Notice>
    var volatilityEvent: Option<VolatilityEvent>

    ghost predicate Valid()
      reads this
    {
      && Sound(Bot())
      && |stockData| <= MaxPoints && |stockData| <= dataLoaded
      && TimesIncreasing(stockData)
      && (if |stockData| == 0 then time == 0 else 0 <= time < |stockData|)
      && EventBounded(volatilityEvent)
    }

    /** The bot's book. */
    function Bot(): Book
      reads this
    {
      Book(botCash, botShares, trades, notifications)
    }

    /** The displayed price: 0 with no data, scaled while a volatility event is
      active in simulated mode. */
    function CurrentPrice(): real
      reads this
      requires Valid()
    {
      EffectivePrice(if |stockData| > 0 then stockData[time].price else 0.0, volatilityEvent, mode)
    }

    constructor ()
      ensures Valid()
      ensures mode == None && stockData == [] && dataLoaded == 0
      ensures time == 0 && speed == 1 && !running
      ensures Bot() == FreshBook()
      ensures buyAndHoldCash == InitialCash && buyAndHoldShares == 0
      ensures performanceHistory == [] && volatilityEvent == None
    {
      mode := None;
      stockData := [];
      dataLoaded := 0;
      time := 0;
      speed := 1;
      running := false;
      botCash := InitialCash;
      botShares := 0;
      buyAndHoldCash := InitialCash;
      buyAndHoldShares := 0;
      performanceHistory := [];
      trades := [];
      notifications := [];
      volatilityEvent := None;
    }

    /** Choosing a mode, or `None` for the Reset button, rewinds the cursor,
      clears history, trades and notifications, and resets the bot and the
      baseline to 10000 in cash and no shares. */
    method SelectMode(m: Option<Mode>)
      requires Valid()
      modifies this`mode, this`time, this`performanceHistory, this`trades, this`notifications,
               this`botCash, this`botShares, this`buyAndHoldCash, this`buyAndHoldShares, this`speed
      ensures Valid()
      ensures mode == m && time == 0 && performanceHistory == []
      ensures Bot() == FreshBook()
      ensures buyAndHoldCash == InitialCash && buyAndHoldShares == 0
      ensures speed == if m == Some(Simulated) then 10 else 1
    {
      mode, time, performanceHistory := m, 0, [];
      botCash, botShares, trades, notifications := InitialCash, 0, [], [];
      buyAndHoldCash, buyAndHoldShares := InitialCash, 0;
      speed := if m == Some(Simulated) then 10 else 1;
      assert Bot() == FreshBook();
    }

    /** The data load for the chosen mode. In real mode `rows` holds each CSV
      data row's close, `None` where it is not a number: the parsable rows are
      kept with their row number as time, the first 500 of them are loaded,
      and `dataLoaded` counts all of them. In simulated mode the 500-step walk
      is generated from the draws `us`. Without a mode nothing is loaded. */
    method LoadData(rows: seq<Option<real>>, us: seq<real>)
      requires Valid() && |us| == WalkLength
      modifies this`stockData, this`dataLoaded, this`time
      ensures Valid()
      ensures mode == Some(Real) ==>
        var valid := ParsedPoints(rows, 0);
        && stockData == valid[..if |valid| < MaxPoints then |valid| else MaxPoints]
        && dataLoaded == |valid| && time == 0
      ensures mode == Some(Simulated) ==>
        && |stockData| == WalkLength && dataLoaded == WalkLength && time == 0
        && forall i :: 0 <= i < WalkLength ==> stockData[i] == PricePoint(i, Walk(us[..i + 1]))
      ensures mode == None ==> stockData == old(stockData) && dataLoaded == old(dataLoaded) && time == old(time)
    {
      if mode == Some(Real) {
        var validData := ParsedPoints(rows, 0);
        stockData := validData[..if |validData| < MaxPoints then |validData| else MaxPoints];
        dataLoaded := |validData|;
        time := 0;
      } else if mode == Some(Simulated) {
        var simulated := GenerateWalk(us);
        stockData := simulated;
        dataLoaded := |simulated|;
        time := 0;
      }
    }

    /** The buy-and-hold initialisation, as in the other simulator. */
    method InitBuyAndHold()
      requires Valid()
      requires |stockData| > 0 && buyAndHoldShares == 0 ==> stockData[0].price != 0.0
      modifies this`buyAndHoldCash, this`buyAndHoldShares
      ensures Valid()
      ensures old(|stockData| > 0 && buyAndHoldShares == 0) ==>
        && buyAndHoldShares == BuyAndHoldShares(stockData[0].price)
        && buyAndHoldCash == BuyAndHoldCash(stockData[0].price)
      ensures !old(|stockData| > 0 && buyAndHoldShares == 0) ==>
        buyAndHoldShares == old(buyAndHoldShares) && buyAndHoldCash == old(buyAndHoldCash)
    {
      if |stockData| > 0 && buyAndHoldShares == 0 {
        var initial := stockData[0].price;
        var shares := BuyAndHoldShares(initial);
        buyAndHoldShares := shares;
        buyAndHoldCash := InitialCash - shares as real * initial;
      }
    }

    /** One interval tick: forward one point while not at the last one,
      otherwise stop the run and stay put. */
    method Advance()
      requires Valid()
      modifies this`time, this`running
      ensures Valid()
      ensures old(time) < |stockData| - 1 ==> time == old(time) + 1 && running == old(running)
      ensures old(time) >= |stockData| - 1 ==> time == old(time) && !running
    {
      if time < |stockData| - 1 {
        time := time + 1;
      } else {
        running := false;
      }
    }

    /** The per-tick effect with the three `Math.random()` draws `u1`, `u2`,
      `u3`: record both net worths at the current price, let the bot trade in
      real mode, and in simulated mode start a volatility event with chance 5%. */
    method Tick(u1: real, u2: real, u3: real)
      requires Valid() && 0.0 <= u3 < 1.0
      modifies this`performanceHistory, this`botCash, this`botShares, this`trades, this`notifications,
               this`volatilityEvent
      ensures Valid()
      ensures old(|stockData| == 0) ==>
        && performanceHistory == old(performanceHistory) && Bot() == old(Bot())
        && volatilityEvent == old(volatilityEvent)
      ensures old(|stockData| > 0) ==>
        var price := old(CurrentPrice());
        && performanceHistory == old(performanceHistory) +
             [PerfPoint(time, NetWorth(old(botCash), old(botShares), price),
                        NetWorth(buyAndHoldCash, buyAndHoldShares, price))]
        && Bot() == ApplyBot(old(Bot()), TickAction(mode, stockData, time, price, old(Bot())), price, time)
        && volatilityEvent == if mode == Some(Simulated) && u1 < 0.05 then DrawVolatilityEvent(u1, u2, u3)
                              else old(volatilityEvent)
    {
      if |stockData| == 0 || time >= |stockData| {
        return;
      }
      var basePrice := stockData[time].price;
      var currentPrice := EffectivePrice(basePrice, volatilityEvent, mode);
      var botNetWorth := NetWorth(botCash, botShares, currentPrice);
      var buyHoldNetWorth := NetWorth(buyAndHoldCash, buyAndHoldShares, currentPrice);
      performanceHistory := performanceHistory + [PerfPoint(time, botNetWorth, buyHoldNetWorth)];

      if mode == Some(Real) {
        var sma := CalculateSma(stockData, SmaPeriod);
        var action := BotDecision(mode, sma[time], currentPrice, botCash, botShares);
        var after := ApplyBot(Bot(), action, currentPrice, time);
        botCash, botShares, trades, notifications := after.cash, after.shares, after.trades, after.notices;
      }

      if mode == Some(Simulated) && u1 < 0.05 {
        volatilityEvent := DrawVolatilityEvent(u1, u2, u3);
      }
    }

    /** `handleManualBuy` with the typed quantity `qty`, at the displayed price. */
    method ManualBuyShares(qty: int)
      requires Valid()
      modifies this`botCash, this`botShares, this`trades, this`notifications
      ensures Valid()
      ensures Bot() == ManualBuy(old(Bot()), qty, CurrentPrice(), time)
    {
      ManualTradesKeepSound(Bot(), qty, CurrentPrice(), time);
      var after := ManualBuy(Bot(), qty, CurrentPrice(), time);
      botCash, botShares, trades, notifications := after.cash, after.shares, after.trades, after.notices;
    }

    /** `handleManualSell` with the typed quantity `qty`, at the displayed price. */
    method ManualSellShares(qty: int)
      requires Valid()
      modifies this`botCash, this`botShares, this`trades, this`notifications
      ensures Valid()
      ensures Bot() == ManualSell(old(Bot()), qty, CurrentPrice(), time)
    {
      ManualTradesKeepSound(Bot(), qty, CurrentPrice(), time);
      var after := ManualSell(Bot(), qty, CurrentPrice(), time);
      botCash, botShares, trades, notifications := after.cash, after.shares, after.trades, after.notices;
    }
  }
}
