/** The trading desk of the main page: a manual trader and an AI trader, each
    holding cash and at most one position in the simulated instrument, the
    AI's 5/20 moving-average crossover rule, its trade log, and a bounded
    history of the AI's net worth. */
module App {
  import opened Prelude
  import opened MovingAverage
  import Ledger

  /** The one instrument both traders hold. */
  const StockName: string := "AI $SPY"
  const ShortWindow: nat := 5
  const LongWindow: nat := 20
  /** `portfolioHistory` keeps at most this many net-worth samples. */
  const HistoryCapacity: nat := 100

  datatype Position = Position(shares: int, avgPrice: real)
  /** The `holdings` object: instrument name to open position. */
  type Holdings = map<string, Position>
  datatype Side = Buy | Sell
  /** The two `alert` messages. */
  datatype Alert = NotEnoughCash | NotEnoughCashForAny
  /** The strategy selector; only "crossover" trades. */
  datatype Strategy = Crossover | Momentum | MeanReversion
  /** One line of the AI trade log, `AI BUY qty @ $price`. */
  datatype AiTrade = AiTrade(side: Side, qty: int, price: real)

  /** Cash and holdings of one trader. */
  datatype Account = Account(cash: real, holdings: Holdings)
  /** The AI trader: its account and its append-only trade log. */
  datatype AiBook = AiBook(account: Account, log: seq<AiTrade>)

  // ---------------------------------------------------------------------
  // Positions
  // ---------------------------------------------------------------------

  /** `holdings[stockName]?.shares || 0` */
  function SharesOf(h: Holdings): int
  {
    if StockName in h then h[StockName].shares else 0
  }

  /** `holdings[stockName]?.avgPrice || 0` */
  function AvgPriceOf(h: Holdings): real
  {
    if StockName in h then h[StockName].avgPrice else 0.0
  }

  /** What the open shares cost in total: shares times average price. */
  function CostBasis(h: Holdings): real
  {
    SharesOf(h) as real * AvgPriceOf(h)
  }

  /** Every open position holds at least one share at a non-negative average
      cost; a position that reaches zero shares is deleted, never kept. */
  predicate HoldingsValid(h: Holdings)
  {
    forall k :: k in h ==> h[k].shares > 0 && h[k].avgPrice >= 0.0
  }

  predicate AccountValid(a: Account)
  {
    a.cash >= 0.0 && HoldingsValid(a.holdings)
  }

  /** The holdings after buying `qty` more shares at `price`: the share count
      grows by `qty` and the cost basis by exactly what the lot cost, so the
      new average price is the cost-weighted mean of the old position and the lot. */
  function AddLot(h: Holdings, qty: int, price: real): (r: Holdings)
    requires HoldingsValid(h) && qty > 0 && price >= 0.0
    ensures HoldingsValid(r)
    ensures r.Keys == h.Keys + {StockName}
    ensures forall k :: k in h && k != StockName ==> r[k] == h[k]
    ensures SharesOf(r) == SharesOf(h) + qty
    ensures CostBasis(r) == CostBasis(h) + qty as real * price
  {
    var newShares := SharesOf(h) + qty;
    var newTotalCost := CostBasis(h) + qty as real * price;
    MulNonNeg(SharesOf(h) as real, AvgPriceOf(h));
    MulNonNeg(qty as real, price);
    var avg := MeanOf(newTotalCost, newShares as real);
    var r := h[StockName := Position(newShares, avg)];
    assert SharesOf(r) == newShares;
    assert AvgPriceOf(r) == avg;
    assert CostBasis(r) == newShares as real * avg == newTotalCost;
    assert HoldingsValid(r) by {
      forall k | k in r ensures r[k].shares > 0 && r[k].avgPrice >= 0.0 {
        if k != StockName {
          assert r[k] == h[k];
        }
      }
    }
    r
  }

  /** `totalCost / shares` for a non-negative total and a positive count:
      non-negative, and `shares` of it cost the total again. */
  function MeanOf(total: real, n: real): (m: real)
    requires total >= 0.0 && n > 0.0
    ensures m >= 0.0 && n * m == total
  {
    DivNonNeg(total, n);
    DivTimes(total, n);
    MulComm(n, total / n);
    total / n
  }

  /** The holdings after selling `qty` of the open shares: the count drops by
      `qty`, the entry disappears exactly when nothing is left, and a position
      that stays open keeps its average price. */
  function RemoveShares(h: Holdings, qty: int): (r: Holdings)
    requires HoldingsValid(h) && 0 < qty <= SharesOf(h)
    ensures HoldingsValid(r)
    ensures r.Keys == if qty == SharesOf(h) then h.Keys - {StockName} else h.Keys
    ensures forall k :: k in r && k != StockName ==> r[k] == h[k]
    ensures SharesOf(r) == SharesOf(h) - qty
    ensures StockName in r ==> AvgPriceOf(r) == AvgPriceOf(h)
  {
    var remaining := SharesOf(h) - qty;
    if remaining <= 0 then h - {StockName}
    else h[StockName := h[StockName].(shares := remaining)]
  }

  // ---------------------------------------------------------------------
  // Manual trades
  // ---------------------------------------------------------------------

  /** The buy guard `cash >= cost`. */
  predicate CanAfford(a: Account, qty: int, price: real)
  {
    a.cash >= qty as real * price
  }

  /** `handleBuy(qty)`: an affordable buy pays exactly `qty * price` and adds
      the lot; an unaffordable one changes nothing (and raises an alert). */
  function BuyShares(a: Account, qty: int, price: real): (r: Account)
    requires AccountValid(a) && qty > 0 && price >= 0.0
    ensures AccountValid(r)
    ensures CanAfford(a, qty, price) ==>
      && r.cash == a.cash - qty as real * price
      && r.holdings == AddLot(a.holdings, qty, price)
    ensures !CanAfford(a, qty, price) ==> r == a
  {
    if CanAfford(a, qty, price) then Account(a.cash - qty as real * price, AddLot(a.holdings, qty, price))
    else a
  }

  /** `handleSell(qty)` executes `min(qty, owned)` shares. */
  function SellQuantity(a: Account, qty: int): (q: int)
    ensures q <= qty && q <= SharesOf(a.holdings)
    ensures q == qty || q == SharesOf(a.holdings)
  {
    if qty < SharesOf(a.holdings) then qty else SharesOf(a.holdings)
  }

  /** `handleSell(qty)`: sells the clamped quantity for `price` each; when that
      quantity is not positive nothing changes. Shares never go negative. */
  function SellShares(a: Account, qty: int, price: real): (r: Account)
    requires AccountValid(a) && price >= 0.0
    ensures AccountValid(r)
    ensures var n := SellQuantity(a, qty);
      && (n > 0 ==> r.cash == a.cash + n as real * price && r.holdings == RemoveShares(a.holdings, n))
      && (n <= 0 ==> r == a)
  {
    var sellQty := SellQuantity(a, qty);
    if sellQty > 0 then
      MulNonNeg(sellQty as real, price);
      Account(a.cash + sellQty as real * price, RemoveShares(a.holdings, sellQty))
    else a
  }

  /** A sell never sells more than is held, and leaves a non-negative share count. */
  lemma SellIsClamped(a: Account, qty: int, price: real)
    requires AccountValid(a) && price >= 0.0
    ensures SellQuantity(a, qty) <= SharesOf(a.holdings)
    ensures SharesOf(SellShares(a, qty, price).holdings) >= 0
    ensures qty >= SharesOf(a.holdings) ==> SharesOf(SellShares(a, qty, price).holdings) == 0
  {
    if SellQuantity(a, qty) <= 0 {
      assert SellShares(a, qty, price) == a;
    }
  }

  /** The position after buying the lots `(qty, price)` one after another. */
  function BuyLots(h: Holdings, lots: seq<(int, real)>): Holdings
    requires HoldingsValid(h)
    requires forall i :: 0 <= i < |lots| ==> lots[i].0 > 0 && lots[i].1 >= 0.0
    ensures HoldingsValid(BuyLots(h, lots))
    decreases |lots|
  {
    if lots == [] then h else BuyLots(AddLot(h, lots[0].0, lots[0].1), lots[1..])
  }

  /** Shares bought by a list of lots. */
  function LotShares(lots: seq<(int, real)>): int
  {
    if lots == [] then 0 else lots[0].0 + LotShares(lots[1..])
  }

  /** What a list of lots cost. */
  function LotCost(lots: seq<(int, real)>): real
  {
    if lots == [] then 0.0 else lots[0].0 as real * lots[0].1 + LotCost(lots[1..])
  }

  /** The weighted-mean invariant: after any sequence of buys the position's
      cost basis is the old basis plus the cost of every lot, and its shares
      are the old shares plus every lot's shares. */
  lemma {:induction false} BuyLotsCostBasis(h: Holdings, lots: seq<(int, real)>)
    requires HoldingsValid(h)
    requires forall i :: 0 <= i < |lots| ==> lots[i].0 > 0 && lots[i].1 >= 0.0
    ensures SharesOf(BuyLots(h, lots)) == SharesOf(h) + LotShares(lots)
    ensures CostBasis(BuyLots(h, lots)) == CostBasis(h) + LotCost(lots)
    decreases |lots|
  {
    if lots != [] {
      BuyLotsCostBasis(AddLot(h, lots[0].0, lots[0].1), lots[1..]);
    }
  }

  /** Starting with no position, the average price after a list of buys is the
      total cost divided by the total shares. */
  lemma AveragePriceIsWeightedMean(lots: seq<(int, real)>)
    requires |lots| > 0
    requires forall i :: 0 <= i < |lots| ==> lots[i].0 > 0 && lots[i].1 >= 0.0
    ensures LotShares(lots) > 0
    ensures AvgPriceOf(BuyLots(map[], lots)) == LotCost(lots) / LotShares(lots) as real
  {
    var h := BuyLots(map[], lots);
    BuyLotsCostBasis(map[], lots);
    LotSharesPositive(lots);
    assert SharesOf(map[]) == 0 && CostBasis(map[]) == 0.0;
    assert SharesOf(h) == LotShares(lots);
    assert CostBasis(h) == LotCost(lots);
    MulDivCancel(LotShares(lots) as real, AvgPriceOf(h));
  }

  lemma {:induction false} LotSharesPositive(lots: seq<(int, real)>)
    requires |lots| > 0
    requires forall i :: 0 <= i < |lots| ==> lots[i].0 > 0
    ensures LotShares(lots) > 0
  {
    if |lots| > 1 {
      LotSharesPositive(lots[1..]);
    }
  }

  lemma MulDivCancel(n: real, x: real)
    requires n > 0.0
    ensures (n * x) / n == x
  {
  }

  /** Buying 10 shares at 50 and then 10 at 100 holds 20 shares at an average of 75. */
  lemma TwoLotsExample()
    ensures SharesOf(BuyLots(map[], [(10, 50.0), (10, 100.0)])) == 20
    ensures AvgPriceOf(BuyLots(map[], [(10, 50.0), (10, 100.0)])) == 75.0
  {
    var lots := [(10, 50.0), (10, 100.0)];
    AveragePriceIsWeightedMean(lots);
    assert lots[1..] == [(10, 100.0)];
    assert LotShares(lots) == 20;
    assert LotCost(lots) == 1500.0;
  }

  /** Buying shares with no position open and selling the same quantity at the
      same price restores the account exactly: cash and holdings. */
  lemma BuyThenSellRoundTrip(a: Account, qty: int, price: real)
    requires AccountValid(a) && StockName !in a.holdings
    requires qty > 0 && price >= 0.0 && CanAfford(a, qty, price)
    ensures SellShares(BuyShares(a, qty, price), qty, price) == a
  {
    var b := BuyShares(a, qty, price);
    assert SharesOf(a.holdings) == 0;
    assert SellQuantity(b, qty) == qty;
    var r := SellShares(b, qty, price);
    assert r.holdings == a.holdings by {
      assert r.holdings.Keys == a.holdings.Keys;
    }
  }

  /** `handleBuyAll`: `Math.floor(cash / price)` shares. */
  function BuyAllQuantity(a: Account, price: real): (q: int)
    requires price > 0.0
    ensures q as real * price <= a.cash < (q + 1) as real * price
    ensures a.cash >= 0.0 ==> q >= 0
  {
    AffordableBounds(a.cash, price);
    MulAddOne(Affordable(a.cash, price) as real, price);
    Affordable(a.cash, price)
  }

  /** Buy-all spends all it can: when it buys, it buys `floor(cash / price)`
      shares and what is left is non-negative and below one share's price. */
  lemma BuyAllSpendsDown(a: Account, price: real)
    requires AccountValid(a) && price > 0.0
    ensures BuyAllQuantity(a, price) >= 0
    ensures BuyAllQuantity(a, price) > 0 ==>
      var r := BuyShares(a, BuyAllQuantity(a, price), price);
      && CanAfford(a, BuyAllQuantity(a, price), price)
      && 0.0 <= r.cash < price
      && SharesOf(r.holdings) == SharesOf(a.holdings) + BuyAllQuantity(a, price)
  {
    AffordableBounds(a.cash, price);
  }

  // ---------------------------------------------------------------------
  // The AI trader
  // ---------------------------------------------------------------------

  /** The crossover signal: nothing until `longWindow` prices exist; then buy
      when the 5-period average is above the 20-period average, sell when it is
      below, and hold when they are equal. */
  function CrossoverSignal(sim: seq<real>): (signal: Option<Side>)
    ensures signal.Some? ==> |sim| >= LongWindow
    ensures signal.Some? ==>
      SmaAt(sim, ShortWindow, |sim| - 1) != SmaAt(sim, LongWindow, |sim| - 1)
  {
    if |sim| < LongWindow then None
    else
      var shortAvg := SmaAt(sim, ShortWindow, |sim| - 1).value;
      var longAvg := SmaAt(sim, LongWindow, |sim| - 1).value;
      if shortAvg > longAvg then Some(Buy)
      else if shortAvg < longAvg then Some(Sell)
      else None
  }

  /** A series whose last 20 prices are all equal never signals: both averages
      equal that price. */
  lemma FlatMarketHolds(sim: seq<real>, c: real)
    requires |sim| >= LongWindow
    requires forall k :: |sim| - LongWindow <= k < |sim| ==> sim[k] == c
    ensures CrossoverSignal(sim) == None
  {
    SmaOfFlatWindow(sim, ShortWindow, |sim| - 1, c);
    SmaOfFlatWindow(sim, LongWindow, |sim| - 1, c);
  }

  /** `Math.floor((aiCash * aiBuyFraction) / price)` */
  function AiBuyQuantity(cash: real, buyFraction: real, price: real): (q: int)
    requires price > 0.0
    ensures q as real * price <= cash * buyFraction
    ensures cash * buyFraction >= 0.0 ==> q >= 0
  {
    AffordableBounds(cash * buyFraction, price);
    Affordable(cash * buyFraction, price)
  }

  /** With a fraction in (0, 1] the AI never buys more than its cash pays for. */
  lemma AiBuyAffordable(cash: real, buyFraction: real, price: real)
    requires cash >= 0.0 && 0.0 < buyFraction <= 1.0 && price > 0.0
    ensures AiBuyQuantity(cash, buyFraction, price) >= 0
    ensures AiBuyQuantity(cash, buyFraction, price) as real * price <= cash
  {
    AffordableBounds(cash * buyFraction, price);
    MulNonNeg(cash, buyFraction);
    MulLeMono(buyFraction, 1.0, cash);
    MulComm(buyFraction, cash);
  }

  /** `Math.floor(aiShares * aiSellFraction)` */
  function AiSellQuantity(shares: int, sellFraction: real): (q: int)
    ensures q as real <= shares as real * sellFraction < q as real + 1.0
  {
    (shares as real * sellFraction).Floor
  }

  /** With a fraction in (0, 1] the AI never sells more shares than it holds. */
  lemma AiSellBounded(shares: int, sellFraction: real)
    requires shares >= 0 && 0.0 < sellFraction <= 1.0
    ensures 0 <= AiSellQuantity(shares, sellFraction) <= shares
  {
    MulNonNeg(shares as real, sellFraction);
    MulLeMono(sellFraction, 1.0, shares as real);
    MulComm(sellFraction, shares as real);
  }

  predicate FractionsValid(buyFraction: real, sellFraction: real)
  {
    0.0 < buyFraction <= 1.0 && 0.0 < sellFraction <= 1.0
  }

  predicate BookValid(b: AiBook)
  {
    AccountValid(b.account) && forall i :: 0 <= i < |b.log| ==> b.log[i].qty > 0
  }

  /** The AI's buy: `floor(aiCash * fraction / price)` shares, logged; nothing when that is 0. */
  function AiBuyStep(b: AiBook, buyFraction: real, price: real): (r: AiBook)
    requires BookValid(b) && 0.0 < buyFraction <= 1.0 && price > 0.0
    ensures BookValid(r)
  {
    var qty := AiBuyQuantity(b.account.cash, buyFraction, price);
    AiBuyAffordable(b.account.cash, buyFraction, price);
    if qty > 0 then AiBook(BuyShares(b.account, qty, price), b.log + [AiTrade(Buy, qty, price)])
    else b
  }

  /** The AI's sell: `floor(aiShares * fraction)` shares, logged; nothing when that is 0. */
  function AiSellStep(b: AiBook, sellFraction: real, price: real): (r: AiBook)
    requires BookValid(b) && 0.0 < sellFraction <= 1.0 && price > 0.0
    ensures BookValid(r)
  {
    var qty := AiSellQuantity(SharesOf(b.account.holdings), sellFraction);
    AiSellBounded(SharesOf(b.account.holdings), sellFraction);
    if qty > 0 then AiBook(SellShares(b.account, qty, price), b.log + [AiTrade(Sell, qty, price)])
    else b
  }

  /** An AI buy that happens pays for every share in full out of its cash,
      so AI cash never goes negative, and logs exactly one entry. */
  lemma AiBuyPaysInFull(b: AiBook, buyFraction: real, price: real)
    requires BookValid(b) && 0.0 < buyFraction <= 1.0 && price > 0.0
    ensures var r := AiBuyStep(b, buyFraction, price);
      var qty := AiBuyQuantity(b.account.cash, buyFraction, price);
      && (qty > 0 ==>
          && r.account.cash == b.account.cash - qty as real * price >= 0.0
          && SharesOf(r.account.holdings) == SharesOf(b.account.holdings) + qty
          && r.log == b.log + [AiTrade(Buy, qty, price)])
      && (qty <= 0 ==> r == b)
  {
    AiBuyAffordable(b.account.cash, buyFraction, price);
  }

  /** An AI sell that happens sells `floor(shares * fraction)` of the shares it
      holds, never more, and logs exactly one entry. */
  lemma AiSellWithinHoldings(b: AiBook, sellFraction: real, price: real)
    requires BookValid(b) && 0.0 < sellFraction <= 1.0 && price > 0.0
    ensures var r := AiSellStep(b, sellFraction, price);
      var qty := AiSellQuantity(SharesOf(b.account.holdings), sellFraction);
      && (qty > 0 ==>
          && r.account.cash == b.account.cash + qty as real * price
          && SharesOf(r.account.holdings) == SharesOf(b.account.holdings) - qty >= 0
          && r.log == b.log + [AiTrade(Sell, qty, price)])
      && (qty <= 0 ==> r == b)
  {
    AiSellBounded(SharesOf(b.account.holdings), sellFraction);
    var qty := AiSellQuantity(SharesOf(b.account.holdings), sellFraction);
    if qty > 0 {
      assert SellQuantity(b.account, qty) == qty;
    }
  }

  /** `currentSim[currentSim.length - 1]`, or 1 while there is no price yet. */
  function CurrentPrice(sim: seq<real>): real
  {
    if |sim| > 0 then sim[|sim| - 1] else 1.0
  }

  /** The crossover effect, run whenever the price series changes. */
  function CrossoverStep(b: AiBook, sim: seq<real>, showAI: bool, strategy: Strategy,
                         buyFraction: real, sellFraction: real): (r: AiBook)
    requires BookValid(b) && FractionsValid(buyFraction, sellFraction) && CurrentPrice(sim) > 0.0
    ensures BookValid(r)
  {
    if !showAI || |sim| < LongWindow || strategy != Crossover then b
    else
      var price := CurrentPrice(sim);
      var signal := CrossoverSignal(sim);
      if signal == Some(Buy) && b.account.cash >= price then AiBuyStep(b, buyFraction, price)
      else if signal == Some(Sell) && SharesOf(b.account.holdings) > 0 then AiSellStep(b, sellFraction, price)
      else b
  }

  /** The crossover bot never trades while fewer than 20 prices exist, nor when
      the two averages are equal, and it only trades on the side its signal
      names. */
  lemma CrossoverTradesOnlyOnSignal(b: AiBook, sim: seq<real>, showAI: bool, strategy: Strategy,
                                    buyFraction: real, sellFraction: real)
    requires BookValid(b) && FractionsValid(buyFraction, sellFraction) && CurrentPrice(sim) > 0.0
    ensures |sim| < LongWindow ==> CrossoverStep(b, sim, showAI, strategy, buyFraction, sellFraction) == b
    ensures CrossoverSignal(sim) == None ==> CrossoverStep(b, sim, showAI, strategy, buyFraction, sellFraction) == b
    ensures var r := CrossoverStep(b, sim, showAI, strategy, buyFraction, sellFraction);
      |r.log| > |b.log| ==>
        && |r.log| == |b.log| + 1 && r.log[..|b.log|] == b.log
        && (r.log[|b.log|].side == Buy <==> CrossoverSignal(sim) == Some(Buy))
  {
    var r := CrossoverStep(b, sim, showAI, strategy, buyFraction, sellFraction);
    if showAI && |sim| >= LongWindow && strategy == Crossover {
      var price := CurrentPrice(sim);
      if CrossoverSignal(sim) == Some(Buy) && b.account.cash >= price {
        AiBuyPaysInFull(b, buyFraction, price);
      } else if CrossoverSignal(sim) == Some(Sell) && SharesOf(b.account.holdings) > 0 {
        AiSellWithinHoldings(b, sellFraction, price);
      }
    }
  }

  /** `confirmAiTrade`: carries out the pending action under the same guards as the bot. */
  function ConfirmStep(b: AiBook, pending: Option<Side>, buyFraction: real, sellFraction: real,
                       price: real): (r: AiBook)
    requires BookValid(b) && FractionsValid(buyFraction, sellFraction) && price > 0.0
    ensures BookValid(r)
  {
    if pending == Some(Buy) && b.account.cash >= price then AiBuyStep(b, buyFraction, price)
    else if pending == Some(Sell) && SharesOf(b.account.holdings) > 0 then AiSellStep(b, sellFraction, price)
    else b
  }

  /** `[...prev.slice(-99), value]` */
  function PushHistory(history: seq<real>, value: real): (r: seq<real>)
    ensures 0 < |r| <= HistoryCapacity && r[|r| - 1] == value
  {
    var keep := if |history| < HistoryCapacity - 1 then |history| else HistoryCapacity - 1;
    history[|history| - keep..] + [value]
  }

  /** The history never grows past 100 samples, its newest sample is last, and
      it is always the newest part of the full sequence of samples. */
  lemma PushHistoryBounded(history: seq<real>, value: real)
    ensures |PushHistory(history, value)| <= HistoryCapacity
    ensures PushHistory(history, value)[|PushHistory(history, value)| - 1] == value
    ensures var full := history + [value];
      PushHistory(history, value) == full[|full| - |PushHistory(history, value)|..]
    ensures |history| < HistoryCapacity ==> PushHistory(history, value) == history + [value]
  {
    var full := history + [value];
    var r := PushHistory(history, value);
    assert r == full[|full| - |r|..];
  }

  /** `(netWorth - 10000) / 10000 * 100`, the gain in percent. */
  function Gain(netWorth: real): (g: real)
    ensures g == 0.0 <==> netWorth == Ledger.InitialCash
    ensures netWorth >= 0.0 ==> g >= -100.0
  {
    (netWorth - Ledger.InitialCash) / Ledger.InitialCash * 100.0
  }

  /** The gain is shown green exactly when net worth is at least the starting cash. */
  lemma GainSign(netWorth: real)
    ensures Gain(netWorth) >= 0.0 <==> netWorth >= Ledger.InitialCash
  {
  }

  /** `simulationData[0]?.[0] || 1`: a missing or zero first price counts as 1. */
  function FirstPrice(sim: seq<real>): (p: real)
    ensures p != 0.0
  {
    if |sim| > 0 && sim[0] != 0.0 then sim[0] else 1.0
  }

  /** `Math.floor(10000 / firstPrice)`, the buy-and-hold comparison's share count. */
  function BuyHoldShares(sim: seq<real>): (n: int)
    ensures |sim| == 0 || sim[0] == 0.0 ==> n == 10000
  {
    Ledger.BuyAndHoldShares(FirstPrice(sim))
  }

  /** For a positive first price the comparison holds the most shares 10000 buys. */
  lemma BuyHoldSharesAffordable(sim: seq<real>)
    requires |sim| > 0 && sim[0] > 0.0
    ensures BuyHoldShares(sim) >= 0
    ensures BuyHoldShares(sim) as real * sim[0] <= Ledger.InitialCash < (BuyHoldShares(sim) + 1) as real * sim[0]
  {
    Ledger.BuyAndHoldSplit(sim[0]);
    MulAddOne(BuyHoldShares(sim) as real, sim[0]);
  }

  // ---------------------------------------------------------------------
  // The page's state
  // ---------------------------------------------------------------------

  class Session {
    var cash: real
    var holdings: Holdings
    var aiCash: real
    var aiHoldings: Holdings
    var aiTradeLog: seq<AiTrade>
    var aiBuyFraction: real
    var aiSellFraction: real
    var aiActionPending: Option<Side>
    var portfolioHistory: seq<real>

    ghost predicate Valid()
      reads this
    {
      && AccountValid(Player())
      && BookValid(Ai())
      && FractionsValid(aiBuyFraction, aiSellFraction)
      && |portfolioHistory| <= HistoryCapacity
    }

    function Player(): Account
      reads this
    {
      Account(cash, holdings)
    }

    function Ai(): AiBook
      reads this
    {
      AiBook(Account(aiCash, aiHoldings), aiTradeLog)
    }

    constructor ()
      ensures Valid()
      ensures Player() == Account(Ledger.InitialCash, map[])
      ensures Ai() == AiBook(Account(Ledger.InitialCash, map[]), [])
      ensures aiBuyFraction == 1.0 && aiSellFraction == 1.0
      ensures aiActionPending == None && portfolioHistory == []
    {
      cash := Ledger.InitialCash;
      holdings := map[];
      aiCash := Ledger.InitialCash;
      aiHoldings := map[];
      aiTradeLog := [];
      aiBuyFraction := 1.0;
      aiSellFraction := 1.0;
      aiActionPending := None;
      portfolioHistory := [];
    }

    /** `handleBuy(qty)` at the current price. */
    method HandleBuy(qty: int, price: real) returns (alert: Option<Alert>)
      requires Valid() && qty > 0 && price >= 0.0
      modifies this`cash, this`holdings
      ensures Valid()
      ensures Player() == BuyShares(old(Player()), qty, price)
      ensures alert == if CanAfford(old(Player()), qty, price) then None else Some(NotEnoughCash)
    {
      var cost := qty as real * price;
      if cash >= cost {
        cash := cash - cost;
        holdings := AddLot(holdings, qty, price);
        alert := None;
      } else {
        alert := Some(NotEnoughCash);
      }
    }

    /** `handleBuyAll()`: buy `floor(cash / price)` shares, or alert when that is 0. */
    method HandleBuyAll(price: real) returns (alert: Option<Alert>)
      requires Valid() && price > 0.0
      modifies this`cash, this`holdings
      ensures Valid()
      ensures var maxQty := BuyAllQuantity(old(Player()), price);
        && (maxQty > 0 ==> alert == None && Player() == BuyShares(old(Player()), maxQty, price)
                           && 0.0 <= cash < price)
        && (maxQty <= 0 ==> alert == Some(NotEnoughCashForAny) && Player() == old(Player()))
    {
      var maxQty := Affordable(cash, price);
      if maxQty > 0 {
        BuyAllSpendsDown(Player(), price);
        alert := HandleBuy(maxQty, price);
      } else {
        alert := Some(NotEnoughCashForAny);
      }
    }

    /** `handleSell(qty)` at the current price. */
    method HandleSell(qty: int, price: real)
      requires Valid() && price >= 0.0
      modifies this`cash, this`holdings
      ensures Valid()
      ensures Player() == SellShares(old(Player()), qty, price)
    {
      var owned := SharesOf(holdings);
      var sellQty := if qty < owned then qty else owned;
      if sellQty > 0 {
        MulNonNeg(sellQty as real, price);
        cash := cash + sellQty as real * price;
        holdings := RemoveShares(holdings, sellQty);
      }
    }

    /** `handleSellAll()`: sell every share held and close the position. */
    method HandleSellAll(price: real)
      requires Valid() && price >= 0.0
      modifies this`cash, this`holdings
      ensures Valid()
      ensures StockName !in holdings
      ensures cash == old(cash) + SharesOf(old(holdings)) as real * price
      ensures holdings == old(holdings) - {StockName}
    {
      HandleSell(SharesOf(holdings), price);
    }

    /** `confirmAiTrade()`: perform the pending action, then clear it. */
    method ConfirmAiTrade(price: real)
      requires Valid() && price > 0.0
      modifies this`aiCash, this`aiHoldings, this`aiTradeLog, this`aiActionPending
      ensures Valid()
      ensures Ai() == ConfirmStep(old(Ai()), old(aiActionPending), aiBuyFraction, aiSellFraction, price)
      ensures aiActionPending == None
    {
      if aiActionPending == Some(Buy) && aiCash >= price {
        AiBuy(price);
      } else if aiActionPending == Some(Sell) && SharesOf(aiHoldings) > 0 {
        AiSell(price);
      }
      aiActionPending := None;
    }

    /** The crossover effect (runs on every change of the price series). */
    method OnPricesChanged(sim: seq<real>, showAI: bool, strategy: Strategy)
      requires Valid() && CurrentPrice(sim) > 0.0
      modifies this`aiCash, this`aiHoldings, this`aiTradeLog
      ensures Valid()
      ensures Ai() == CrossoverStep(old(Ai()), sim, showAI, strategy, aiBuyFraction, aiSellFraction)
    {
      if !showAI || |sim| < LongWindow {
        return;
      }
      var price := CurrentPrice(sim);
      var signal := CrossoverSignal(sim);
      if strategy == Crossover {
        if signal == Some(Buy) && aiCash >= price {
          AiBuy(price);
        } else if signal == Some(Sell) && SharesOf(aiHoldings) > 0 {
          AiSell(price);
        }
      }
    }

    /** The net-worth effect: append `aiCash + aiShares * price`, keeping the newest 100. */
    method RecordNetWorth(price: real)
      requires Valid()
      modifies this`portfolioHistory
      ensures Valid()
      ensures portfolioHistory == PushHistory(old(portfolioHistory), Ledger.NetWorth(aiCash, SharesOf(aiHoldings), price))
    {
      PushHistoryBounded(portfolioHistory, Ledger.NetWorth(aiCash, SharesOf(aiHoldings), price));
      portfolioHistory := PushHistory(portfolioHistory, Ledger.NetWorth(aiCash, SharesOf(aiHoldings), price));
    }

    /** The AI buy block shared by the bot effect and `confirmAiTrade`. */
    method AiBuy(price: real)
      requires Valid() && price > 0.0
      modifies this`aiCash, this`aiHoldings, this`aiTradeLog
      ensures Valid()
      ensures Ai() == AiBuyStep(old(Ai()), aiBuyFraction, price)
    {
      var qty := AiBuyQuantity(aiCash, aiBuyFraction, price);
      AiBuyPaysInFull(Ai(), aiBuyFraction, price);
      if qty > 0 {
        aiCash := aiCash - qty as real * price;
        aiHoldings := AddLot(aiHoldings, qty, price);
        aiTradeLog := aiTradeLog + [AiTrade(Buy, qty, price)];
      }
    }

    /** The AI sell block shared by the bot effect and `confirmAiTrade`. */
    method AiSell(price: real)
      requires Valid() && price > 0.0
      modifies this`aiCash, this`aiHoldings, this`aiTradeLog
      ensures Valid()
      ensures Ai() == AiSellStep(old(Ai()), aiSellFraction, price)
    {
      var qty := AiSellQuantity(SharesOf(aiHoldings), aiSellFraction);
      AiSellBounded(SharesOf(aiHoldings), aiSellFraction);
      if qty > 0 {
        MulNonNeg(qty as real, price);
        aiCash := aiCash + qty as real * price;
        aiHoldings := RemoveShares(aiHoldings, qty);
        aiTradeLog := aiTradeLog + [AiTrade(Sell, qty, price)];
      }
    }
  }
}
