/** Records and formulas shared by the two "Enhanced" simulators: price
    points, trade and performance records, the buy-and-hold baseline, net
    worth, and the short-lived volatility event that scales the shown price. */
module Ledger {
  import opened Prelude

  /** Cash every account starts with. */
  const InitialCash: real := 10000.0
  /** At most this many price points are kept after a load. */
  const MaxPoints: nat := 500
  /** The SMA period the bots use. */
  const SmaPeriod: nat := 10

  datatype PricePoint = PricePoint(time: int, price: real)
  datatype TradeKind = BuyTrade | SellTrade
  /** `{ type, shares, price, time }` */
  datatype Trade = Trade(kind: TradeKind, shares: int, price: real, time: int)
  /** `{ time, botNetWorth, buyHoldNetWorth }` */
  datatype PerfPoint = PerfPoint(time: int, botNetWorth: real, buyHoldNetWorth: real)
  /** The pop-up messages; their text and the three-second dismissal are not modelled. */
  datatype Notice =
    | BotBought(shares: int, price: real)
    | BotSold(shares: int, price: real)
    | ManuallyBought(shares: int, price: real)
    | ManuallySold(shares: int, price: real)
    | NotEnoughCash(shares: int)
    | NotEnoughShares(shares: int)
  /** `mode` is `null` until the user picks one. */
  datatype Mode = Simulated | Real
  /** The `botMode` prop: "max" trades everything, any other value trades one share. */
  datatype BotMode = Simple | Max
  datatype VolatilityEvent = VolatilityEvent(isSpike: bool, multiplier: real)

  /** The price column of a series of points. */
  function Prices(data: seq<PricePoint>): (r: seq<real>)
    ensures |r| == |data|
  {
    seq(|data|, i requires 0 <= i < |data| => data[i].price)
  }

  /** Prices of a slice are the slice of the prices. */
  lemma PricesOfSlice(data: seq<PricePoint>, lo: nat, hi: nat)
    requires lo <= hi <= |data|
    ensures Prices(data[lo..hi]) == Prices(data)[lo..hi]
  {
  }

  /** Cash plus the marked-to-market value of the shares. */
  function NetWorth(cash: real, shares: int, price: real): real
  {
    cash + shares as real * price
  }

  /** `Math.floor(10000 / initial)`: the shares the baseline buys at the first price. */
  function BuyAndHoldShares(initial: real): (n: int)
    requires initial != 0.0
    ensures n as real <= InitialCash / initial < n as real + 1.0
  {
    (InitialCash / initial).Floor
  }

  /** At a positive first price the baseline spends all it can: the shares are
      affordable, and the cash it keeps is non-negative and below one share. */
  lemma BuyAndHoldSplit(initial: real)
    requires initial > 0.0
    ensures BuyAndHoldShares(initial) >= 0
    ensures 0.0 <= InitialCash - BuyAndHoldShares(initial) as real * initial < initial
  {
    assert BuyAndHoldShares(initial) == Affordable(InitialCash, initial);
    AffordableBounds(InitialCash, initial);
  }

  /** The example of a first price of 100: exactly 100 shares and no cash left. */
  lemma BuyAndHoldAtHundred()
    ensures BuyAndHoldShares(100.0) == 100
    ensures InitialCash - BuyAndHoldShares(100.0) as real * 100.0 == 0.0
  {
    assert InitialCash / 100.0 == 100.0;
  }

  /** The price the simulator trades at: the stored price, scaled while a
      volatility event is active in simulated mode. */
  function EffectivePrice(base: real, event: Option<VolatilityEvent>, mode: Option<Mode>): (p: real)
    ensures p != base ==> event.Some? && mode == Some(Simulated)
  {
    if event.Some? && mode == Some(Simulated) then base * event.value.multiplier else base
  }

  /** A spike raises the price by `u * 0.5`, a crash lowers it by as much. */
  function VolatilityMultiplier(isSpike: bool, u: real): real
  {
    if isSpike then 1.0 + u * 0.5 else 1.0 - u * 0.5
  }

  /** With `u = Math.random()` in [0, 1), a spike multiplier lies in [1, 1.5)
      and a crash multiplier in (0.5, 1]. */
  lemma VolatilityMultiplierBounds(isSpike: bool, u: real)
    requires 0.0 <= u < 1.0
    ensures isSpike ==> 1.0 <= VolatilityMultiplier(isSpike, u) < 1.5
    ensures !isSpike ==> 0.5 < VolatilityMultiplier(isSpike, u) <= 1.0
  {
  }

  /** One tick's draw: with `r1 < 0.05` an event starts, a spike when `r2 < 0.5`,
      of size `r3`; otherwise nothing starts. */
  function DrawVolatilityEvent(r1: real, r2: real, r3: real): (e: Option<VolatilityEvent>)
    requires 0.0 <= r3 < 1.0
    ensures e.Some? <==> r1 < 0.05
    ensures e.Some? ==> e.value.isSpike == (r2 < 0.5) && 0.5 < e.value.multiplier < 1.5
  {
    VolatilityMultiplierBounds(r2 < 0.5, r3);
    if r1 < 0.05 then Some(VolatilityEvent(r2 < 0.5, VolatilityMultiplier(r2 < 0.5, r3))) else None
  }

  /** The multipliers that `DrawVolatilityEvent` can produce. */
  predicate EventBounded(event: Option<VolatilityEvent>)
  {
    event.Some? ==> 0.5 < event.value.multiplier < 1.5
  }

  /** A bounded event keeps a positive price positive. */
  lemma EffectivePricePositive(base: real, event: Option<VolatilityEvent>, mode: Option<Mode>)
    requires base > 0.0 && EventBounded(event)
    ensures EffectivePrice(base, event, mode) > 0.0
  {
    if event.Some? && mode == Some(Simulated) {
      MulPos(base, event.value.multiplier);
    }
  }

  // ---------------------------------------------------------------------
  // The bot's book: cash, shares, trade log and notifications
  // ---------------------------------------------------------------------

  /** The bot's account as the tick and the manual-trade handlers change it. */
  datatype Book = Book(cash: real, shares: int, trades: seq<Trade>, notices: seq<Notice>)

  /** What the bot rule decided on one tick. */
  datatype BotAction = Hold | BotBuy(qty: int) | BotSell(qty: int)

  /** A book never holds a negative share count, and every logged trade moved
      at least one share. */
  predicate Sound(b: Book)
  {
    b.shares >= 0 && forall i :: 0 <= i < |b.trades| ==> b.trades[i].shares > 0
  }

  /** The initial book: 10000 in cash, nothing held, nothing logged. */
  function FreshBook(): (b: Book)
    ensures Sound(b) && b.cash == InitialCash
  {
    Book(InitialCash, 0, [], [])
  }

  /** Carrying out the bot's decision at `price`, logging it at `time`. */
  function ApplyBot(b: Book, a: BotAction, price: real, time: int): (r: Book)
    ensures a.Hold? ==> r == b
    ensures |b.trades| <= |r.trades| && r.trades[..|b.trades|] == b.trades
  {
    match a
    case Hold => b
    case BotBuy(q) =>
      Book(b.cash - q as real * price, b.shares + q,
           b.trades + [Trade(BuyTrade, q, price, time)], b.notices + [BotBought(q, price)])
    case BotSell(q) =>
      Book(b.cash + q as real * price, b.shares - q,
           b.trades + [Trade(SellTrade, q, price, time)], b.notices + [BotSold(q, price)])
  }

  /** `handleManualBuy` with `manualTradeQty = qty` at the displayed `price`. */
  function ManualBuy(b: Book, qty: int, price: real, time: int): (r: Book)
    ensures b.cash >= 0.0 ==> r.cash >= 0.0
    ensures r.shares >= b.shares
  {
    if qty <= 0 then b
    else if b.cash >= qty as real * price then
      Book(b.cash - qty as real * price, b.shares + qty,
           b.trades + [Trade(BuyTrade, qty, price, time)], b.notices + [ManuallyBought(qty, price)])
    else b.(notices := b.notices + [NotEnoughCash(qty)])
  }

  /** `handleManualSell`: the whole quantity or nothing, never clamped. */
  function ManualSell(b: Book, qty: int, price: real, time: int): (r: Book)
    ensures b.shares >= 0 ==> 0 <= r.shares <= b.shares
  {
    if qty <= 0 then b
    else if b.shares >= qty then
      Book(b.cash + qty as real * price, b.shares - qty,
           b.trades + [Trade(SellTrade, qty, price, time)], b.notices + [ManuallySold(qty, price)])
    else b.(notices := b.notices + [NotEnoughShares(qty)])
  }

  /** A manual buy either moves exactly `qty` shares for `qty * price`, never
      spending more cash than there is, or is refused; a refusal changes
      nothing but the notifications, and a non-positive quantity changes nothing. */
  lemma ManualBuyOutcome(b: Book, qty: int, price: real, time: int)
    ensures var r := ManualBuy(b, qty, price, time);
      && (qty <= 0 ==> r == b)
      && (qty > 0 && b.cash >= qty as real * price ==>
            r.cash == b.cash - qty as real * price >= 0.0 && r.shares == b.shares + qty
            && r.trades == b.trades + [Trade(BuyTrade, qty, price, time)])
      && (qty > 0 && b.cash < qty as real * price ==>
            r.cash == b.cash && r.shares == b.shares && r.trades == b.trades
            && r.notices == b.notices + [NotEnoughCash(qty)])
  {
  }

  /** A manual sell either moves exactly `qty` shares, never more than are
      held, or is refused with only a notification. */
  lemma ManualSellOutcome(b: Book, qty: int, price: real, time: int)
    ensures var r := ManualSell(b, qty, price, time);
      && (qty <= 0 ==> r == b)
      && (qty > 0 && b.shares >= qty ==>
            r.cash == b.cash + qty as real * price && r.shares == b.shares - qty >= 0
            && r.trades == b.trades + [Trade(SellTrade, qty, price, time)])
      && (qty > 0 && b.shares < qty ==>
            r.cash == b.cash && r.shares == b.shares && r.trades == b.trades
            && r.notices == b.notices + [NotEnoughShares(qty)])
  {
  }

  /** Manual trades keep a book sound, and a solvent book solvent when the
      price is not negative. */
  lemma ManualTradesKeepSound(b: Book, qty: int, price: real, time: int)
    requires Sound(b)
    ensures Sound(ManualBuy(b, qty, price, time)) && Sound(ManualSell(b, qty, price, time))
    ensures b.cash >= 0.0 ==> ManualBuy(b, qty, price, time).cash >= 0.0
    ensures b.cash >= 0.0 && price >= 0.0 ==> ManualSell(b, qty, price, time).cash >= 0.0
  {
    if qty > 0 && price >= 0.0 {
      MulNonNeg(qty as real, price);
    }
  }

  /** Buying `qty` and selling them again at the same price restores the cash
      and the share count, and logs the two trades in order. */
  lemma ManualRoundTrip(b: Book, qty: int, price: real, time: int)
    requires Sound(b) && qty > 0 && b.cash >= qty as real * price
    ensures var r := ManualSell(ManualBuy(b, qty, price, time), qty, price, time);
      && r.cash == b.cash && r.shares == b.shares
      && r.trades == b.trades + [Trade(BuyTrade, qty, price, time), Trade(SellTrade, qty, price, time)]
  {
  }

  /** A trade at the price it is valued at never changes net worth at that
      price: cash and stock value move by the same amount. */
  lemma TradesAreValueNeutral(b: Book, a: BotAction, qty: int, price: real, time: int)
    ensures var r := ApplyBot(b, a, price, time);
      NetWorth(r.cash, r.shares, price) == NetWorth(b.cash, b.shares, price)
    ensures var r := ManualBuy(b, qty, price, time);
      NetWorth(r.cash, r.shares, price) == NetWorth(b.cash, b.shares, price)
    ensures var r := ManualSell(b, qty, price, time);
      NetWorth(r.cash, r.shares, price) == NetWorth(b.cash, b.shares, price)
  {
    AddTimes(b.shares as real, qty as real, price);
    AddTimes(b.shares as real, -(qty as real), price);
    match a {
      case Hold =>
      case BotBuy(q) => AddTimes(b.shares as real, q as real, price);
      case BotSell(q) => AddTimes(b.shares as real, -(q as real), price);
    }
  }

  /** The trade log is append-only: every step keeps the old log as a prefix
      and adds at most one record, and a bot step adds one exactly when it trades. */
  lemma TradeLogAppendOnly(b: Book, a: BotAction, qty: int, price: real, time: int)
    ensures var r := ApplyBot(b, a, price, time);
      b.trades <= r.trades && |r.trades| == |b.trades| + (if a.Hold? then 0 else 1)
    ensures var r := ManualBuy(b, qty, price, time);
      b.trades <= r.trades && |r.trades| <= |b.trades| + 1
    ensures var r := ManualSell(b, qty, price, time);
      b.trades <= r.trades && |r.trades| <= |b.trades| + 1
  {
  }

  // ---------------------------------------------------------------------
  // Buy and hold
  // ---------------------------------------------------------------------

  /** The baseline's cash after buying `BuyAndHoldShares(initial)` at `initial`. */
  function BuyAndHoldCash(initial: real): real
    requires initial != 0.0
  {
    InitialCash - BuyAndHoldShares(initial) as real * initial
  }

  // ---------------------------------------------------------------------
  // The simulated random walk
  // ---------------------------------------------------------------------

  const WalkStart: real := 100.0
  const WalkLength: nat := 500

  /** The walk's price after the draws `us`: each draw `u` moves it by
      `(u - 0.5) * 2`, so in closed form it is 100 plus twice the draws' sum
      minus their count. */
  function Walk(us: seq<real>): (p: real)
    ensures p == WalkStart + 2.0 * Sum(us) - |us| as real
  {
    if us == [] then WalkStart else Walk(us[..|us| - 1]) + (us[|us| - 1] - 0.5) * 2.0
  }

  /** Every draw of `Math.random()` lies in [0, 1). */
  predicate UnitDraws(us: seq<real>)
  {
    forall i :: 0 <= i < |us| ==> 0.0 <= us[i] < 1.0
  }

  /** Each draw moves the walk by at least -1 and by less than +1, so after n
      draws it lies within n of the start. */
  lemma {:induction false} WalkWithinDrift(us: seq<real>)
    requires UnitDraws(us)
    ensures WalkStart - |us| as real <= Walk(us) <= WalkStart + |us| as real
  {
    if us != [] {
      var init := us[..|us| - 1];
      assert UnitDraws(init) by {
        forall i | 0 <= i < |init| ensures 0.0 <= init[i] < 1.0 {
          assert init[i] == us[i];
        }
      }
      WalkWithinDrift(init);
    }
  }

  /** The generating loop: point `i` has time `i` and the walk's price after
      `i + 1` draws. */
  method GenerateWalk(us: seq<real>) returns (points: seq<PricePoint>)
    requires |us| == WalkLength
    ensures |points| == WalkLength
    ensures forall i :: 0 <= i < WalkLength ==> points[i] == PricePoint(i, Walk(us[..i + 1]))
  {
    var price := WalkStart;
    points := [];
    var i := 0;
    while i < WalkLength
      invariant 0 <= i <= WalkLength && |points| == i
      invariant price == Walk(us[..i])
      invariant forall k :: 0 <= k < i ==> points[k] == PricePoint(k, Walk(us[..k + 1]))
    {
      assert us[..i + 1][..i] == us[..i];
      price := price + (us[i] - 0.5) * 2.0;
      points := points + [PricePoint(i, price)];
      i := i + 1;
    }
  }

  /** Consecutive generated prices differ by at least -1 and by less than +1. */
  lemma WalkStepBounded(us: seq<real>, i: nat)
    requires UnitDraws(us) && 0 < i < |us|
    ensures -1.0 <= Walk(us[..i + 1]) - Walk(us[..i]) < 1.0
  {
    assert us[..i + 1][..i] == us[..i];
  }
}
