/** The lightweight-charts simulator: a price cursor over 500 points (a CSV
    close series or a generated random walk), a bot that trades against the
    10-tick moving average in "simple" (one share) or "max" (everything)
    mode, manual trades on the bot's account, a buy-and-hold baseline and a
    per-tick performance history. */
module EnhancedSimulator {
  import opened Prelude
  import opened MovingAverage
  import opened Ledger

  /** One entry of `calculateSMA`: `{ time, value }`, value null during warm-up. */
  datatype SmaPoint = SmaPoint(time: int, value: Option<real>)

  /** `calculateSMA(data, period)`: one entry per point, carrying the point's
      time and the trailing `period`-point mean of the prices, null before
      the window fills. */
  method CalculateSma(data: seq<PricePoint>, period: nat) returns (result: seq<SmaPoint>)
    requires period > 0
    ensures |result| == |data|
    ensures forall i :: 0 <= i < |data| ==>
      result[i].time == data[i].time && result[i].value == SmaAt(Prices(data), period, i)
  {
    result := [];
    var i := 0;
    while i < |data|
      invariant 0 <= i <= |data| && |result| == i
      invariant forall k :: 0 <= k < i ==>
        result[k].time == data[k].time && result[k].value == SmaAt(Prices(data), period, k)
    {
      if i < period - 1 {
        result := result + [SmaPoint(data[i].time, None)];
      } else {
        var slice := data[i - period + 1..i + 1];
        PricesOfSlice(data, i - period + 1, i + 1);
        var avg := Sum(Prices(slice)) / period as real;
        result := result + [SmaPoint(data[i].time, Some(avg))];
      }
      i := i + 1;
    }
  }

  /** `botMode === "max" ? Math.floor(botCash / price) : 1` */
  function BotBuyQuantity(botMode: BotMode, cash: real, price: real): (q: int)
    ensures botMode == Simple ==> q == 1
    ensures botMode == Max && cash >= 0.0 ==> q >= 0 && q as real * price <= cash
  {
    if botMode == Max then
      (if price > 0.0 then AffordableBounds(cash, price); Affordable(cash, price) else 0)
    else 1
  }

  /** `botMode === "max" ? botShares : botShares > 0 ? 1 : 0` */
  function BotSellQuantity(botMode: BotMode, shares: int): (q: int)
    ensures shares >= 0 ==> 0 <= q <= shares
    ensures shares > 0 ==> q > 0
  {
    if botMode == Max then shares else if shares > 0 then 1 else 0
  }

  /** The SMA rule at cursor index `lastIdx`: nothing before index 10 or while
      the SMA is null or zero; above the SMA buy, below it sell, at it hold. */
  function BotDecision(botMode: BotMode, lastIdx: int, sma: Option<real>, price: real,
                       cash: real, shares: int): (a: BotAction)
    ensures !a.Hold? ==> lastIdx >= SmaPeriod && sma.Some? && sma.value != 0.0 && a.qty > 0
    ensures a.BotBuy? ==> price > sma.value
    ensures a.BotSell? ==> price < sma.value
  {
    if lastIdx < SmaPeriod as int || sma.None? || sma.value == 0.0 then Hold
    else if price > sma.value then
      var q := BotBuyQuantity(botMode, cash, price);
      if q > 0 then BotBuy(q) else Hold
    else if price < sma.value then
      var q := BotSellQuantity(botMode, shares);
      if q > 0 then BotSell(q) else Hold
    else Hold
  }

  /** The bot waits for index 10 and a truthy SMA, buys only above the SMA,
      sells only below it, holds at it, and always moves at least one share. */
  lemma BotFollowsSma(botMode: BotMode, lastIdx: int, sma: Option<real>, price: real,
                      cash: real, shares: int)
    ensures var a := BotDecision(botMode, lastIdx, sma, price, cash, shares);
      && (lastIdx < SmaPeriod as int || sma == None || sma == Some(0.0) || sma == Some(price) ==> a == Hold)
      && (a.BotBuy? ==> sma.Some? && price > sma.value && a.qty > 0)
      && (a.BotSell? ==> sma.Some? && price < sma.value && a.qty > 0)
  {
  }

  /** A bot sale never sells more than is held: all of it in "max" mode, one
      share in "simple" mode; so the share count stays non-negative. */
  lemma BotSellWithinHoldings(botMode: BotMode, lastIdx: int, sma: Option<real>, price: real,
                              cash: real, shares: int)
    requires shares >= 0
    ensures var a := BotDecision(botMode, lastIdx, sma, price, cash, shares);
      a.BotSell? ==> a.qty <= shares && (botMode == Max ==> a.qty == shares) && (botMode == Simple ==> a.qty == 1)
  {
  }

  /** In "max" mode a bot purchase costs at most the cash, and what is left
      would not buy another share: solvent books stay solvent. */
  lemma MaxBotStaysSolvent(lastIdx: int, sma: Option<real>, price: real, cash: real, shares: int)
    requires cash >= 0.0
    ensures var a := BotDecision(Max, lastIdx, sma, price, cash, shares);
      a.BotBuy? ==> 0.0 <= cash - a.qty as real * price < price
  {
    if price > 0.0 {
      AffordableBounds(cash, price);
    }
  }

  /** "simple" mode buys without looking at the cash: with no cash, a price of
      10 above an SMA of 5 still buys one share and drives the cash to -10. */
  lemma SimpleBotMayOverdraw()
    ensures BotDecision(Simple, 10, Some(5.0), 10.0, 0.0, 0) == BotBuy(1)
    ensures ApplyBot(Book(0.0, 0, [], []), BotBuy(1), 10.0, 10).cash == -10.0
  {
  }

  /** A bot step keeps the book sound. */
  lemma BotStepKeepsSound(b: Book, botMode: BotMode, lastIdx: int, sma: Option<real>, price: real, time: int)
    requires Sound(b)
    ensures Sound(ApplyBot(b, BotDecision(botMode, lastIdx, sma, price, b.cash, b.shares), price, time))
  {
  }

  /** What the tick's bot rule does at the cursor: outside simulated mode it
      applies the SMA rule at index `time`, in simulated mode it holds. */
  function TickAction(botMode: BotMode, mode: Option<Mode>, data: seq<PricePoint>, time: nat,
                      price: real, b: Book): (a: BotAction)
    requires time < |data|
    ensures mode == Some(Simulated) ==> a == Hold
    ensures !a.Hold? ==> time >= SmaPeriod
  {
    if mode != Some(Simulated) then
      BotDecision(botMode, time, SmaAt(Prices(data), SmaPeriod, time), price, b.cash, b.shares)
    else Hold
  }

  /** The simulator's state. */
  class Simulator {
    const botMode: BotMode
    var mode: Option<Mode>
    var stockData: seq<PricePoint>
    var dataLoaded: int
    var time: int
    var speed: int
    var running: bool
    var botCash: real
    var botShares: int
    var buyAndHoldCash: real
    var buyAndHoldShares: int
    var performanceHistory: seq<PerfPoint>
    var trades: seq<Trade>
    var notifications: seq<Notice>
    var volatilityEvent: Option<VolatilityEvent>

    ghost predicate Valid()
      reads this
    {
      && Sound(Bot())
      && |stockData| <= MaxPoints
      && (forall i :: 0 <= i < |stockData| ==> stockData[i].time == i)
      && (if |stockData| == 0 then time == 0 else 0 <= time < |stockData|)
      && EventBounded(volatilityEvent)
    }

    /** The bot's book. */
    function Bot(): Book
      reads this
    {
      Book(botCash, botShares, trades, notifications)
    }

    /** The price trades and valuations use at the cursor: 0 with no data, and
      scaled while a volatility event is active in simulated mode. */
    function CurrentPrice(): real
      reads this
      requires Valid()
    {
      EffectivePrice(if |stockData| > 0 then stockData[time].price else 0.0, volatilityEvent, mode)
    }

    constructor (botMode: BotMode)
      ensures Valid()
      ensures this.botMode == botMode && mode == None && stockData == [] && dataLoaded == 0
      ensures time == 0 && speed == 1 && !running
      ensures Bot() == FreshBook()
      ensures buyAndHoldCash == InitialCash && buyAndHoldShares == 0
      ensures performanceHistory == [] && volatilityEvent == None
    {
      this.botMode := botMode;
      mode := None;
      stockData := [];
      dataLoaded := 0;
      time := 0;
      speed := 1;
      running := false;
      botCash := InitialCash;
      botShares := 0;
      buyAndHoldCash := InitialCash;
      buyAndHoldShares := 0;
      performanceHistory := [];
      trades := [];
      notifications := [];
      volatilityEvent := None;
    }

    /** Choosing a mode, or `None` for the Reset button, rewinds the cursor
      and clears the history, the trade log and the notifications; the bot's
      cash and shares are kept. */
    method SelectMode(m: Option<Mode>)
      requires Valid()
      modifies this`mode, this`time, this`performanceHistory, this`trades, this`notifications, this`speed
      ensures Valid()
      ensures mode == m && time == 0 && performanceHistory == [] && trades == [] && notifications == []
      ensures speed == if m == Some(Simulated) then 10 else 1
    {
      mode := m;
      time := 0;
      performanceHistory := [];
      trades := [];
      notifications := [];
      speed := if m == Some(Simulated) then 10 else 1;
    }

    /** The data load for the chosen mode. In real mode `closes` holds the
      parsed close of every CSV line after the header, in file order; point
      `i` gets time `i`, only the first 500 are kept and `dataLoaded` counts
      them all. In simulated mode the 500-step walk is generated from the
      draws `us`. Without a mode nothing is loaded. */
    method LoadData(closes: seq<real>, us: seq<real>)
      requires Valid() && |us| == WalkLength
      modifies this`stockData, this`dataLoaded, this`time
      ensures Valid()
      ensures mode == Some(Real) ==>
        && stockData == ClosePoints(closes[..if |closes| < MaxPoints then |closes| else MaxPoints])
        && dataLoaded == |closes| && time == 0
      ensures mode == Some(Simulated) ==>
        && |stockData| == WalkLength && dataLoaded == WalkLength && time == 0
        && forall i :: 0 <= i < WalkLength ==> stockData[i] == PricePoint(i, Walk(us[..i + 1]))
      ensures mode == None ==> stockData == old(stockData) && dataLoaded == old(dataLoaded) && time == old(time)
    {
      if mode == Some(Real) {
        var limited := closes[..if |closes| < MaxPoints then |closes| else MaxPoints];
        stockData := ClosePoints(limited);
        dataLoaded := |closes|;
        time := 0;
      } else if mode == Some(Simulated) {
        var simulated := GenerateWalk(us);
        stockData := simulated;
        dataLoaded := |simulated|;
        time := 0;
      }
    }

    /** The buy-and-hold initialisation: while the baseline holds no shares
      and there is data, buy `floor(10000 / p0)` shares at the first price. */
    method InitBuyAndHold()
      requires Valid()
      requires |stockData| > 0 && buyAndHoldShares == 0 ==> stockData[0].price != 0.0
      modifies this`buyAndHoldCash, this`buyAndHoldShares
      ensures Valid()
      ensures old(|stockData| > 0 && buyAndHoldShares == 0) ==>
        && buyAndHoldShares == BuyAndHoldShares(stockData[0].price)
        && buyAndHoldCash == BuyAndHoldCash(stockData[0].price)
      ensures !old(|stockData| > 0 && buyAndHoldShares == 0) ==>
        buyAndHoldShares == old(buyAndHoldShares) && buyAndHoldCash == old(buyAndHoldCash)
    {
      if |stockData| > 0 && buyAndHoldShares == 0 {
        var initial := stockData[0].price;
        var shares := BuyAndHoldShares(initial);
        buyAndHoldShares := shares;
        buyAndHoldCash := InitialCash - shares as real * initial;
      }
    }

    /** One step of the animation loop: the cursor moves one point forward,
      or at the last point stays put and stops the run. */
    method Advance()
      requires Valid()
      modifies this`time, this`running
      ensures Valid()
      ensures old(time) >= |stockData| - 1 ==> time == old(time) && !running
      ensures old(time) < |stockData| - 1 ==> time == old(time) + 1 && running == old(running)
    {
      if time >= |stockData| - 1 {
        running := false;
      } else {
        time := time + 1;
      }
    }

    /** The per-tick effect, with `u1`, `u2`, `u3` the three `Math.random()`
      draws of the volatility block: record net worth of the bot and the
      baseline at the current price, let the bot trade outside simulated
      mode, then in simulated mode start a volatility event with chance 5%. */
    method Tick(u1: real, u2: real, u3: real)
      requires Valid() && 0.0 <= u3 < 1.0
      modifies this`performanceHistory, this`botCash, this`botShares, this`trades, this`notifications,
               this`volatilityEvent
      ensures Valid()
      ensures old(|stockData| == 0) ==>
        && performanceHistory == old(performanceHistory) && Bot() == old(Bot())
        && volatilityEvent == old(volatilityEvent)
      ensures old(|stockData| > 0) ==>
        var price := old(CurrentPrice());
        && performanceHistory == old(performanceHistory) +
             [PerfPoint(time, NetWorth(old(botCash), old(botShares), price),
                        NetWorth(buyAndHoldCash, buyAndHoldShares, price))]
        && Bot() == ApplyBot(old(Bot()), TickAction(botMode, mode, stockData, time, price, old(Bot())), price, time)
        && volatilityEvent == if mode == Some(Simulated) && u1 < 0.05 then DrawVolatilityEvent(u1, u2, u3)
                              else old(volatilityEvent)
    {
      if |stockData| == 0 || time >= |stockData| {
        return;
      }
      var basePrice := stockData[time].price;
      var currentPrice := EffectivePrice(basePrice, volatilityEvent, mode);
      var botNetWorth := NetWorth(botCash, botShares, currentPrice);
      var buyHoldNetWorth := NetWorth(buyAndHoldCash, buyAndHoldShares, currentPrice);
      performanceHistory := performanceHistory + [PerfPoint(time, botNetWorth, buyHoldNetWorth)];

      if mode != Some(Simulated) {
        SmaBotStep(currentPrice);
      }

      if mode == Some(Simulated) && u1 < 0.05 {
        volatilityEvent := DrawVolatilityEvent(u1, u2, u3);
      }
    }

    /** The tick's SMA rule outside simulated mode: the SMA series is computed,
      the bot decides on its value at the cursor, and the decision is carried
      out at `price`. */
    method SmaBotStep(price: real)
      requires Valid() && |stockData| > 0 && mode != Some(Simulated)
      modifies this`botCash, this`botShares, this`trades, this`notifications
      ensures Valid()
      ensures Bot() == ApplyBot(old(Bot()), TickAction(botMode, mode, stockData, time, price, old(Bot())), price, time)
    {
      var smaData := CalculateSma(stockData, SmaPeriod);
      var filtered := stockData[..time + 1];
      var lastIdx := |filtered| - 1;
      assert lastIdx == time && smaData[lastIdx].value == SmaAt(Prices(stockData), SmaPeriod, time);
      var action := BotDecision(botMode, lastIdx, smaData[lastIdx].value, price, botCash, botShares);
      assert action == TickAction(botMode, mode, stockData, time, price, Bot());
      BotStepKeepsSound(Bot(), botMode, lastIdx, smaData[lastIdx].value, price, time);
      var after := ApplyBot(Bot(), action, price, time);
      assert Sound(after);
      botCash, botShares, trades, notifications := after.cash, after.shares, after.trades, after.notices;
      assert Bot() == after;
    }

    /** `handleManualBuy` with the typed quantity `qty`, at the current price. */
    method ManualBuyShares(qty: int)
      requires Valid()
      modifies this`botCash, this`botShares, this`trades, this`notifications
      ensures Valid()
      ensures Bot() == ManualBuy(old(Bot()), qty, CurrentPrice(), time)
    {
      ManualTradesKeepSound(Bot(), qty, CurrentPrice(), time);
      var after := ManualBuy(Bot(), qty, CurrentPrice(), time);
      botCash, botShares, trades, notifications := after.cash, after.shares, after.trades, after.notices;
    }

    /** `handleManualSell` with the typed quantity `qty`, at the current price. */
    method ManualSellShares(qty: int)
      requires Valid()
      modifies this`botCash, this`botShares, this`trades, this`notifications
      ensures Valid()
      ensures Bot() == ManualSell(old(Bot()), qty, CurrentPrice(), time)
    {
      ManualTradesKeepSound(Bot(), qty, CurrentPrice(), time);
      var after := ManualSell(Bot(), qty, CurrentPrice(), time);
      botCash, botShares, trades, notifications := after.cash, after.shares, after.trades, after.notices;
    }
  }

  /** `rows.map((row, i) => ({ time: i, price: close }))` */
  function ClosePoints(closes: seq<real>): (points: seq<PricePoint>)
    ensures |points| == |closes|
    ensures forall i :: 0 <= i < |closes| ==> points[i] == PricePoint(i, closes[i])
    ensures Prices(points) == closes
    ensures forall i, j :: 0 <= i < j < |points| ==> points[i].time < points[j].time
  {
    seq(|closes|, i requires 0 <= i < |closes| => PricePoint(i, closes[i]))
  }
}
