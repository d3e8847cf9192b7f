# TradeDojo trading core in Dafny

TradeDojo is a set of browser pages for practising stock trading against a
simulated or historical price series. This project models the bookkeeping
and decision logic that sits under the charts, and proves properties about it:

- **The main page** (`src/App.js`) has two traders. One is a manual trader
  with cash and a holdings map. The other is an AI trader with its own
  account, a 5/20 moving-average crossover rule, fractional buy and sell
  sizes, an append-only trade log and a net-worth history capped at 100
  samples. Module `App`; the page state is class `App.Session`.
- **The two "Enhanced" simulators** each move a time cursor over 500 price
  points. The points are either CSV closes or a generated random walk.
  - `src/EnhancedStockSimulator.js` is module `EnhancedSimulator`. Its bot
    trades against a 10-tick simple moving average (SMA), in "simple" mode
    (one share) or "max" mode (everything).
  - `src/EnhancedStockSimulatorWithRecharts.js` is module `RechartsSimulator`.
    Its one-share bot checks the cash before buying and runs only in real
    mode, and a mode switch resets both accounts.
  - Both have a buy-and-hold baseline, manual trades on the bot's account, a
    per-tick performance record and a short-lived volatility event.
  - What they share is in `Ledger` (records, the bot's book, buy-and-hold,
    the random walk) and `MovingAverage` (the SMA).
- **The trading-simulation panel** (`src/components/TradingSimulation.jsx`)
  grows one price series. It either replays historical closes or takes
  random geometric steps floored at 0.01. It also has a multi-day
  fast-forward, the 63-day quarter calendar and the 1Q/1Y/5Y/ALL view
  window. Module `TradingSimulation`; the window is in `TimeFrames`.
- **The display cards:**
  - the dashboard metrics (`StockDashboard`);
  - portfolio valuation and profit/loss (`Portfolio`);
  - the seven-band market sentiment meter (`Sentiment`);
  - the quarterly price summary (`QuarterlySummary`).
- **The ticker-list script** (`ticker.py`) filters file names by the
  `_full.csv` suffix, strips it and sorts the result. Module `Tickers`.

Prices and cash are exact `real`s and share counts are `int`s. `Math.floor`
is `.Floor`. A JavaScript `null` is `Option.None`. Every random draw
(`Math.random()`, or the lognormal growth factor) is a parameter. Every
React handler or effect is one atomic transition of a class's fields.

## Model

| member | source | states |
|---|---|---|
| Prelude.AffordableBounds | src/App.js:89-90 | `floor(budget / price)` shares never cost more than the budget, and the leftover is below one share's price. |
| MovingAverage.SmaWithinWindow | src/EnhancedStockSimulator.js:8-13 | Once `period` prices exist the SMA exists, and it lies between any bounds of the prices in its trailing window. |
| MovingAverage.SmaOfFlatWindow | src/EnhancedStockSimulator.js:11-12 | A trailing window of equal prices averages to that price. |
| MovingAverage.SmaAt | src/EnhancedStockSimulator.js:8-13 | The SMA at index i exists exactly from index `period-1` on (null during the warm-up); SmaWithinWindow and SmaOfFlatWindow state what its value is. |
| TimeFrames.Trailing | src/components/TradingSimulation.jsx:120-126 | The shown series is the newest `min(n, sliceDays)` points, a suffix of the full series (63/252/1260 days; whole series for ALL). |
| TimeFrames.TrailingWhole | src/components/TradingSimulation.jsx:122-124 | ALL, an unknown frame name, or a series no longer than the frame shows the whole series. |
| TimeFrames.TrailingKeepsNewest | src/components/StockDashboard.jsx:9-16 | A non-empty series gives a non-empty window that ends with the newest price. |
| Ledger.BuyAndHoldSplit | src/EnhancedStockSimulator.js:146-153 | For a positive first price the baseline buys `floor(10000/p0)` shares and keeps cash in `[0, p0)`. |
| Ledger.BuyAndHoldAtHundred | src/EnhancedStockSimulator.js:148-151 | At a first price of 100 the baseline holds 100 shares and no cash. |
| Ledger.BuyAndHoldShares | src/EnhancedStockSimulator.js:148-149 | The baseline's share count is the floor of `10000/p0`: it is at most that quotient and above it minus one. |
| Ledger.VolatilityMultiplierBounds | src/EnhancedStockSimulatorWithRecharts.js:203-204 | With `u` in [0,1) a spike multiplier lies in [1, 1.5) and a crash multiplier in (0.5, 1]. |
| Ledger.DrawVolatilityEvent | src/EnhancedStockSimulatorWithRecharts.js:202-205 | An event starts exactly when the first draw is below 0.05; it is a spike exactly when the second is below 0.5; its multiplier lies in (0.5, 1.5). |
| Ledger.EffectivePricePositive | src/EnhancedStockSimulatorWithRecharts.js:167-171 | Scaling by an event's multiplier keeps a positive price positive. |
| Ledger.EffectivePrice | src/EnhancedStockSimulatorWithRecharts.js:167-171 | The traded price differs from the stored one only while a volatility event is active in simulated mode. |
| Ledger.FreshBook | src/EnhancedStockSimulator.js:33-39 | The bot starts with 10000 in cash, no shares and an empty trade log (a sound book). |
| Ledger.ApplyBot | src/EnhancedStockSimulator.js:278-300 | Holding changes nothing, and carrying out a decision only appends to the trade log; TradesAreValueNeutral and TradeLogAppendOnly state its effect on net worth and on the log. |
| Ledger.ManualBuy | src/EnhancedStockSimulator.js:364-382 | A manual buy never overdraws a solvent book and never lowers the share count; ManualBuyOutcome states its three branches. |
| Ledger.ManualSell | src/EnhancedStockSimulator.js:383-401 | A manual sell never sells more shares than are held; ManualSellOutcome states its three branches. |
| Ledger.ManualBuyOutcome | src/EnhancedStockSimulator.js:364-382 | A non-positive quantity changes nothing. An affordable buy pays exactly `qty*price`, never overdraws and logs one buy. Otherwise only a "not enough cash" notice is added. |
| Ledger.ManualSellOutcome | src/EnhancedStockSimulator.js:383-401 | A non-positive quantity changes nothing. A sell of at most the shares held is executed in full and logged, and is never clamped. Otherwise only a "not enough shares" notice is added. |
| Ledger.ManualTradesKeepSound | src/EnhancedStockSimulatorWithRecharts.js:230-266 | Manual trades never make shares negative; a solvent book stays solvent (for the sell, at a non-negative price). |
| Ledger.ManualRoundTrip | src/EnhancedStockSimulator.js:364-401 | Buying `qty` and selling them at the same price restores cash and shares, and logs the buy then the sell. |
| Ledger.TradesAreValueNeutral | src/EnhancedStockSimulator.js:260-300 | No bot or manual trade changes net worth `cash + shares*price` at the price it trades at. |
| Ledger.TradeLogAppendOnly | src/EnhancedStockSimulatorWithRecharts.js:181-266 | Every bot and manual step keeps the old trade log as a prefix and adds at most one record; a bot step adds one exactly when it trades. |
| Ledger.WalkWithinDrift | src/EnhancedStockSimulator.js:129-133 | After n draws the random walk lies within n of 100. |
| Ledger.GenerateWalk | src/EnhancedStockSimulator.js:129-134 | The generating loop yields 500 points; point i has time i and the walk's price after i+1 draws. |
| Ledger.WalkStepBounded | src/EnhancedStockSimulator.js:131-132 | Consecutive walk prices differ by an amount in [-1, 1). |
| Ledger.Walk | src/EnhancedStockSimulator.js:129-132 | In closed form the walk after the draws `us` is `100 + 2*sum(us) - len(us)`. |
| App.AddLot | src/App.js:73-82 | A buy of `qty` at `price` adds `qty` shares and exactly `qty*price` to the cost basis, keeps every other holding, and leaves a valid position. |
| App.MeanOf | src/App.js:78 | The new average price is non-negative, and the new share count times it is the new total cost. |
| App.RemoveShares | src/App.js:104-112 | A sell removes the entry exactly when no shares remain; otherwise only the share count changes and the average price is kept. |
| App.BuyShares | src/App.js:69-87 | An affordable buy lowers cash by exactly `qty*price` and adds the lot; an unaffordable one changes nothing. |
| App.SellShares | src/App.js:98-114 | A sell executes `min(qty, owned)` shares for their value; when that is not positive nothing changes. |
| App.SellIsClamped | src/App.js:98-101 | A sell never sells more than is held, and selling at least the holding leaves 0 shares. |
| App.SellQuantity | src/App.js:99-100 | The executed quantity is `Math.min(qty, owned)`: at most each of the two, and equal to one of them. |
| App.BuyLots | src/App.js:73-82 | Any sequence of buys keeps the holdings valid. |
| App.BuyLotsCostBasis | src/App.js:73-82 | After a sequence of buys, shares and cost basis are the old ones plus every lot's shares and cost. |
| App.AveragePriceIsWeightedMean | src/App.js:73-82 | Starting from no position, the average price after buys is total cost over total shares. |
| App.TwoLotsExample | src/App.js:73-82 | 10 shares at 50 followed by 10 at 100 give 20 shares at an average of 75. |
| App.BuyThenSellRoundTrip | src/App.js:69-114 | With no position open, buying then selling the same quantity at the same price restores the account exactly. |
| App.BuyAllSpendsDown | src/App.js:89-96 | Buy-all buys `floor(cash/price)` shares, which is affordable, and leaves cash in `[0, price)`. |
| App.BuyAllQuantity | src/App.js:90 | `floor(cash/price)` is the most whole shares the cash pays for: `q*price <= cash < (q+1)*price`, and it is non-negative for non-negative cash. |
| App.FlatMarketHolds | src/App.js:185-193 | When the last 20 prices are equal, both averages are equal and there is no signal. |
| App.CrossoverSignal | src/App.js:185-193 | No signal before 20 prices exist, and a signal only when the 5- and 20-period averages differ; CrossoverTradesOnlyOnSignal states its side. |
| App.AiBuyAffordable | src/App.js:194 | With a buy fraction in (0, 1] the AI's share count costs at most its cash. |
| App.AiBuyQuantity | src/App.js:194 | The AI's count costs at most `cash * fraction` and is non-negative when that budget is. |
| App.AiSellBounded | src/App.js:211 | With a sell fraction in (0, 1] the AI sells between 0 and its shares. |
| App.AiSellQuantity | src/App.js:211 | The AI sells the floor of `shares * fraction`: at most that product and above it minus one. |
| App.AiBuyStep | src/App.js:193-209 | The AI buy keeps cash non-negative, holdings valid and every logged quantity positive. |
| App.AiSellStep | src/App.js:210-224 | The AI sell keeps cash non-negative, holdings valid and every logged quantity positive. |
| App.AiBuyPaysInFull | src/App.js:193-209 | An AI buy of `floor(cash*f/price)` shares pays `qty*price` from cash, which stays non-negative, and logs one entry; a zero count changes nothing. |
| App.AiSellWithinHoldings | src/App.js:210-224 | An AI sell of `floor(shares*f)` shares never sells more than is held, credits `qty*price` and logs one entry; a zero count changes nothing. |
| App.CrossoverStep | src/App.js:184-227 | The crossover effect keeps the AI's book valid. |
| App.CrossoverTradesOnlyOnSignal | src/App.js:185-224 | No trade with fewer than 20 prices or with equal averages. A trade appends one log entry, which is a buy exactly when the short average is above the long one. |
| App.ConfirmStep | src/App.js:138-177 | Confirming a pending action keeps the AI's book valid. |
| App.PushHistoryBounded | src/App.js:229-234 | The history never exceeds 100 samples, its newest value is last, and it is the newest part of all samples. |
| App.PushHistory | src/App.js:233 | The new history is non-empty, holds at most 100 samples and ends with the new sample. |
| App.GainSign | src/App.js:54-60 | The gain is non-negative exactly when net worth is at least 10000. |
| App.Gain | src/App.js:55 | The gain is 0 exactly at a net worth of 10000, and a non-negative net worth never loses more than 100%. |
| App.FirstPrice | src/App.js:62 | A missing or zero first price counts as a non-zero price (1), so the division is defined. |
| App.BuyHoldSharesAffordable | src/App.js:62-65 | For a positive first price the comparison holds the most shares 10000 buys: `n*p0 <= 10000 < (n+1)*p0`. |
| App.BuyHoldShares | src/App.js:62-63 | With no first price, or a first price of 0, the comparison holds 10000 shares (the price falls back to 1). |
| App.Session.constructor | src/App.js:16-46 | Both traders start with 10000 in cash and no holdings; both fractions are 1; nothing is pending; the history is empty. |
| App.Session.HandleBuy | src/App.js:69-87 | The player's account becomes `BuyShares` of the old one; an alert is raised exactly when the buy is unaffordable. |
| App.Session.HandleBuyAll | src/App.js:89-96 | Buys `floor(cash/price)` shares and leaves cash in `[0, price)`, or alerts and changes nothing when that count is 0. |
| App.Session.HandleSell | src/App.js:98-114 | The player's account becomes `SellShares` of the old one. |
| App.Session.HandleSellAll | src/App.js:116-119 | Sells every share for its value; the new holdings are exactly the old ones without the position, so every other holding is kept. |
| App.Session.ConfirmAiTrade | src/App.js:138-177 | Carries out the pending buy or sell under the bot's guards, and always leaves nothing pending. |
| App.Session.OnPricesChanged | src/App.js:184-227 | The AI's book becomes `CrossoverStep` of the old one. |
| App.Session.RecordNetWorth | src/App.js:229-234 | Appends the AI's `cash + shares*price` to the history, keeping the newest 100. |
| App.Session.AiBuy | src/App.js:193-209 | The AI's book becomes `AiBuyStep` of the old one; the page state stays valid. |
| App.Session.AiSell | src/App.js:210-224 | The AI's book becomes `AiSellStep` of the old one; the page state stays valid. |
| EnhancedSimulator.CalculateSma | src/EnhancedStockSimulator.js:5-17 | One entry per point with the point's time; null before index `period-1`, then the trailing `period`-point mean. |
| EnhancedSimulator.BotFollowsSma | src/EnhancedStockSimulator.js:272-290 | No trade before index 10, with a null or zero SMA, or at the SMA. Buys happen only above the SMA and sells only below it, always of at least one share. |
| EnhancedSimulator.BotDecision | src/EnhancedStockSimulator.js:272-300 | A trade needs index 10 or later and a present, non-zero SMA, and moves a positive quantity; buys happen above the SMA and sells below it. |
| EnhancedSimulator.BotBuyQuantity | src/EnhancedStockSimulator.js:276-277 | "simple" buys one share; "max" buys a non-negative count it can pay for from non-negative cash. |
| EnhancedSimulator.BotSellQuantity | src/EnhancedStockSimulator.js:289-290 | The bot sells between 0 and the shares held, and at least one whenever it holds any. |
| EnhancedSimulator.TickAction | src/EnhancedStockSimulator.js:267-304 | In simulated mode the bot never trades, and it trades only from cursor index 10 on. |
| EnhancedSimulator.BotSellWithinHoldings | src/EnhancedStockSimulator.js:289-300 | A bot sale sells all shares in "max" mode and one in "simple" mode, never more than are held. |
| EnhancedSimulator.MaxBotStaysSolvent | src/EnhancedStockSimulator.js:276-287 | In "max" mode a purchase leaves cash in `[0, price)`. |
| EnhancedSimulator.SimpleBotMayOverdraw | src/EnhancedStockSimulator.js:276-287 | "simple" mode buys without a cash check: with 0 cash it still buys one share at 10, leaving -10. |
| EnhancedSimulator.BotStepKeepsSound | src/EnhancedStockSimulator.js:268-304 | A bot step never makes shares negative and logs only positive quantities. |
| EnhancedSimulator.ClosePoints | src/EnhancedStockSimulator.js:116-119 | CSV line i becomes the point with time i and that line's close; reading the prices back gives exactly the closes, and times strictly increase along the series. |
| EnhancedSimulator.Simulator.constructor | src/EnhancedStockSimulator.js:23-41 | No mode or data, cursor 0, speed 1, not running; bot and baseline hold 10000 in cash and no shares; all logs empty. |
| EnhancedSimulator.Simulator.SelectMode | src/EnhancedStockSimulator.js:65-88 | Choosing a mode, or no mode for the Reset button, rewinds the cursor and clears history, trades and notifications, but keeps the bot's cash and shares; speed is 10 when simulated, else 1 (Reset included). |
| EnhancedSimulator.Simulator.LoadData | src/EnhancedStockSimulator.js:109-141 | Real mode: the first 500 closes as points with time i, and `dataLoaded` counts all rows. Simulated mode: the 500-point walk. No mode: nothing changes. |
| EnhancedSimulator.Simulator.InitBuyAndHold | src/EnhancedStockSimulator.js:146-153 | While the baseline holds 0 shares and data exists, it buys `floor(10000/p0)` shares at a non-zero first price p0; otherwise nothing changes. |
| EnhancedSimulator.Simulator.Advance | src/EnhancedStockSimulator.js:334-340 | The cursor moves forward by exactly 1, or stays at the last point and stops the run. |
| EnhancedSimulator.Simulator.Tick | src/EnhancedStockSimulator.js:253-316 | Appends one performance record (bot and baseline net worth at the current price), applies the SMA rule outside simulated mode, and in simulated mode may start a volatility event. |
| EnhancedSimulator.Simulator.SmaBotStep | src/EnhancedStockSimulator.js:267-304 | Outside simulated mode the bot's book becomes `ApplyBot` of the SMA decision at the cursor, and the book stays sound. |
| EnhancedSimulator.Simulator.ManualBuyShares | src/EnhancedStockSimulator.js:364-382 | The bot's book becomes `ManualBuy` at the current price. |
| EnhancedSimulator.Simulator.ManualSellShares | src/EnhancedStockSimulator.js:383-401 | The bot's book becomes `ManualSell` at the current price. |
| RechartsSimulator.CalculateSma | src/EnhancedStockSimulatorWithRecharts.js:15-27 | Same length as the data; null before index `period-1`, then the trailing mean. |
| RechartsSimulator.ParsedPoints | src/EnhancedStockSimulatorWithRecharts.js:103-107 | Keeps exactly the rows whose close parsed, each with its original row index as time and that row's close; times strictly increase. |
| RechartsSimulator.ParsedPointsAllValid | src/EnhancedStockSimulatorWithRecharts.js:103-107 | With no unparsable row the filter keeps every row. |
| RechartsSimulator.BotFollowsSma | src/EnhancedStockSimulatorWithRecharts.js:177-199 | Buys one share exactly when in real mode with an SMA, price above it and cash covering it. Sells one exactly when below it with shares held. At the SMA it holds. |
| RechartsSimulator.BotDecision | src/EnhancedStockSimulatorWithRecharts.js:176-199 | Only real mode with an SMA trades; a buy is one share above the SMA with the cash to pay, a sell is one share below it with a share to sell. |
| RechartsSimulator.TickAction | src/EnhancedStockSimulatorWithRecharts.js:176-199 | The tick trades only in real mode and only once the SMA exists, from cursor index 9 on. |
| RechartsSimulator.BotKeepsSolvent | src/EnhancedStockSimulatorWithRecharts.js:181-197 | A bot step keeps cash and shares non-negative. |
| RechartsSimulator.Simulator.constructor | src/EnhancedStockSimulatorWithRecharts.js:31-47 | No mode or data, cursor 0, speed 1; bot and baseline hold 10000 in cash and no shares; logs empty. |
| RechartsSimulator.Simulator.SelectMode | src/EnhancedStockSimulatorWithRecharts.js:57-73 | Choosing a mode, or no mode for the Reset button, rewinds the cursor, clears the logs, and resets the bot and the baseline to 10000 in cash and no shares; speed is 10 when simulated, else 1. |
| RechartsSimulator.Simulator.LoadData | src/EnhancedStockSimulatorWithRecharts.js:90-130 | Real mode: the first 500 parsed points, and `dataLoaded` counts all parsed points. Simulated mode: the 500-point walk. No mode: nothing changes. |
| RechartsSimulator.Simulator.InitBuyAndHold | src/EnhancedStockSimulatorWithRecharts.js:133-140 | While the baseline holds 0 shares and data exists, it buys `floor(10000/p0)` shares at a non-zero first price p0. |
| RechartsSimulator.Simulator.Advance | src/EnhancedStockSimulatorWithRecharts.js:150-158 | The cursor moves forward by exactly 1, or stays at the last point and stops the run. |
| RechartsSimulator.Simulator.Tick | src/EnhancedStockSimulatorWithRecharts.js:164-208 | Appends one performance record with both net worths, applies the bot rule, and in simulated mode may start a volatility event. |
| RechartsSimulator.Simulator.ManualBuyShares | src/EnhancedStockSimulatorWithRecharts.js:230-247 | The bot's book becomes `ManualBuy` at the displayed price. |
| RechartsSimulator.Simulator.ManualSellShares | src/EnhancedStockSimulatorWithRecharts.js:249-266 | The bot's book becomes `ManualSell` at the displayed price. |
| TradingSimulation.NextPrice | src/components/TradingSimulation.jsx:78 | The next random price is at least 0.01, and equals `last*factor` whenever that is at least 0.01. |
| TradingSimulation.Grow | src/components/TradingSimulation.jsx:106-113 | Stepping by k factors appends exactly k prices and leaves the old series as a prefix. |
| TradingSimulation.GrowAboveFloor | src/components/TradingSimulation.jsx:106-113 | Every appended random price is at least 0.01. |
| TradingSimulation.GrowCompose | src/components/TradingSimulation.jsx:100-118 | Advancing by two runs of days equals advancing once by both. |
| TradingSimulation.DayInQuarter | src/components/TradingSimulation.jsx:97 | The day of the quarter lies in 1..63. |
| TradingSimulation.DaysUntilQuarterEnd | src/components/TradingSimulation.jsx:98 | Days left lie in 0..62 and add up with the day of the quarter to 63. |
| TradingSimulation.QuarterCalendarRepeats | src/components/TradingSimulation.jsx:97-98 | The calendar repeats every 63 days; day 1 falls exactly on multiples of 63. |
| TradingSimulation.ParsedCloses | src/components/TradingSimulation.jsx:46-48 | One close per parsed row, as many as there are parsed rows; every parsed close is kept and nothing else is. |
| TradingSimulation.ParsedClosesInOrder | src/components/TradingSimulation.jsx:46-48 | The close of parsed row i sits at the position counting the parsed rows before it: the kept closes are the parsed rows' closes, in file order, duplicates included. |
| TradingSimulation.ParsedCountMonotone | src/components/TradingSimulation.jsx:46-48 | A parsed row's position among the kept closes comes strictly before that of any later row. |
| TradingSimulation.Simulation.constructor | src/components/TradingSimulation.jsx:22-32 | The panel starts with the series `[100]` at time 0 and the ALL window. |
| TradingSimulation.Simulation.SelectSource | src/components/TradingSimulation.jsx:40-61 | The real source loads the parsed closes and shows the first; the random source restarts at 100; time becomes 0. |
| TradingSimulation.Simulation.Tick | src/components/TradingSimulation.jsx:66-83 | Real: appends `realPrices[time+1]` only while one is left. Random: appends one floored step. Earlier values are unchanged. |
| TradingSimulation.Simulation.HandleAdvance | src/components/TradingSimulation.jsx:100-118 | A no-op unless the source is random; then appends exactly `days` floored steps and moves time on by `days`. |
| TradingSimulation.Simulation.Displayed | src/components/TradingSimulation.jsx:120-126 | The chart shows a suffix of the series, non-empty whenever the series is. |
| StockDashboard.MaxOf | src/components/StockDashboard.jsx:20 | The high is a price of the window and no price exceeds it. |
| StockDashboard.MinOf | src/components/StockDashboard.jsx:21 | The low is a price of the window and no price is below it. |
| StockDashboard.PercentChangeSign | src/components/StockDashboard.jsx:17 | For a positive start the change exists, and its sign is the sign of current minus start. |
| StockDashboard.PercentChange | src/components/StockDashboard.jsx:17 | The change exists exactly for a non-zero start, and applying it to the start gives back the current price. |
| StockDashboard.Dashboard | src/components/StockDashboard.jsx:5-21 | The card is absent exactly when there is no series or it is empty. |
| StockDashboard.DashboardMetricsSound | src/components/StockDashboard.jsx:8-21 | Start is the window's first price and current the newest. High and low are window prices bounding the whole window. Market cap is current × 1,000,000. The percent change is `(current - start) / start * 100` (absent for a zero start), and its sign follows the move. |
| StockDashboard.DashboardAllStartsAtFirst | src/components/StockDashboard.jsx:9-15 | Under ALL the starting price is the series' very first price. |
| Portfolio.TotalIsSumOfRows | src/components/Portfolio.jsx:13-17 | The total stock value is the sum of the holdings' values. |
| Portfolio.RowValue | src/components/Portfolio.jsx:14-16 | A holding without a current price is worth 0, and a non-negative holding at a non-negative price is worth at least 0. |
| Portfolio.TotalStockValue | src/components/Portfolio.jsx:13-17 | No holdings are worth 0; TotalIsSumOfRows and TotalStockValueNonNegative state the fold's value and sign. |
| Portfolio.TotalStockValueNonNegative | src/components/Portfolio.jsx:13-17 | Non-negative holdings at non-negative prices are worth at least 0. |
| Portfolio.TotalValueBaseCases | src/components/Portfolio.jsx:13-19 | With no holdings the stock value is 0 and net worth is the cash; one holding adds shares × price. |
| Portfolio.TotalValue | src/components/Portfolio.jsx:19 | With no holdings net worth is the cash. |
| Portfolio.RowPnLSign | src/components/Portfolio.jsx:41-44 | For an open position P/L is non-negative exactly when the price is at least the average cost, zero exactly when equal, and equals value minus cost. |
| Portfolio.RowPnL | src/components/Portfolio.jsx:42-43 | A row's P/L is its market value minus what its shares cost at the average price. |
| Sentiment.ClassifyBands | src/components/MarketSentimentMeter.jsx:16-37 | Each of the seven labels is exactly its band of scores. |
| Sentiment.Classify | src/components/MarketSentimentMeter.jsx:16-37 | Neutral is exactly the scores in [0, 0.05), and Very Bullish exactly the scores from 0.5 up. |
| Sentiment.ClassifyMonotone | src/components/MarketSentimentMeter.jsx:16-37 | A larger score never gets a more bearish label. |
| Sentiment.BearishIffNegative | src/components/MarketSentimentMeter.jsx:16-26 | The three bearish labels are exactly the negative scores. |
| Sentiment.ColoursDistinct | src/components/MarketSentimentMeter.jsx:16-37 | Different labels are drawn in different colours. |
| Sentiment.ScoreFacts | src/components/MarketSentimentMeter.jsx:10 | Zero volatility scores 0, which is Neutral; for positive volatility the score is negative exactly when the drift is. |
| Sentiment.Score | src/components/MarketSentimentMeter.jsx:10 | For non-zero volatility the score times the volatility gives back the drift; zero volatility scores 0. |
| QuarterlySummary.Summarize | src/components/QuarterlySummary.jsx:5-13 | Nothing for empty data. Otherwise `floor(len/63)` entries, entry k at index `63k+62 < len` carrying `sim[63k+62]`. |
| QuarterlySummary.QuarterEndsStep | src/components/QuarterlySummary.jsx:11 | Sampled indices rise in steps of exactly 63, starting at 62. |
| QuarterlySummary.QuarterOfMonth | src/components/QuarterlySummary.jsx:21 | The quarter lies in 1..4, and for months 0..11 it is `month/3 + 1`. |
| Tickers.RemoveAll | ticker.py:9 | Removing the pattern never lengthens a name. |
| Tickers.StripSuffix | ticker.py:9 | `X_full.csv` yields `X` for any stem without '_'. |
| Tickers.RemovesEveryOccurrence | ticker.py:9 | Every occurrence is removed: `A_full.csv_full.csv` yields `A`. |
| Tickers.Matching | ticker.py:7-10 | There are never more tickers than names. |
| Tickers.MatchingExact | ticker.py:7-10 | One ticker per matching name: as many tickers as names ending in the suffix, and the stripped name of matching name i sits at the position counting the matches before it, so listing order is kept. |
| Tickers.MatchingComplete | ticker.py:7-10 | Every name ending in the suffix contributes its stripped name. |
| Tickers.MatchingSound | ticker.py:7-10 | Only names ending in the suffix contribute, each with its stripped name; if every name matches there is one ticker per name. |
| Tickers.CollectTickers | ticker.py:7-10 | The loop collects exactly the stripped matching names, in listing order. |
| Tickers.LexLeTotal | ticker.py:13 | Any two names are comparable in string order. |
| Tickers.LexLeTransitive | ticker.py:13 | String order is transitive. |
| Tickers.LexLeReflexive | ticker.py:13 | String order is reflexive. |
| Tickers.LexLeAntisymmetric | ticker.py:13 | String order is antisymmetric. |
| Tickers.Insert | ticker.py:13 | Inserting into a sorted list gives a sorted list with one more copy of the name. |
| Tickers.SortTickers | ticker.py:13 | The result is sorted ascending and a permutation of the input. |
| Tickers.SortedUnique | ticker.py:13 | Two sorted permutations of the same names are equal, so the order is fully determined. |
| Tickers.BuildTickerList | ticker.py:7-13 | The output is the matching tickers, sorted ascending. |

## Left out

- Floating point is not modelled: IEEE doubles, NaN and `toFixed` are left out. So is the `Math.round(x*100)/100` cent rounding of SMA values and walk prices. Prices are exact reals.
- `Math.random`, the Box-Muller normal draw and the `Math.exp` growth factor become parameters: draws `u` in [0, 1), or a `factor`.
- Timers and scheduling are left out: `setInterval`, `requestAnimationFrame` and the speed-based tick timing. So are the 3-second notification dismissal and the 1-second volatility-event expiry. `Advance` and `Tick` model one tick's body.
- `fetch`, the CSV text split, `parseFloat`, PapaParse internals, `os.listdir` and `json.dump` are left out. Rows arrive as a given sequence of parsed closes, or of `Option` values where a row may fail to parse.
- The CSV load of `src/EnhancedStockSimulator.js` keeps rows whose close is NaN. The model cannot represent NaN, so it receives every row as a number.
- `Date` arithmetic for the simulated calendar date and for the quarter label's year is left out. Only the month-to-quarter map is modelled.
- Chart construction and rendering are left out, with all JSX and styling. So are `src/components/TradeControls.jsx`, `src/RechartsStockSimulator.js`, `src/SimpleStockSimulator.js`, `src/StockSimulator.jsx`, `src/components/RebuiltStockChart.js` and the download scripts.
- React state batching and stale closures are left out. Each handler or effect is one atomic transition.
- The ticker choice, the dark-mode switch and the drift/volatility inputs are left out. Those inputs enter only through the growth factor.
- The AI strategies other than crossover do nothing in the source, and the model shows that. `aiActionPending` is never set in the source, so it is taken as given state.
- TradingSimulation.Simulation: the source keeps a list of series that always has one element. The model keeps that one series.
- TradingSimulation.Simulation.SelectSource: when no close parses, the source shows a series holding `undefined`. The model shows an empty series.
- App.Session.HandleBuy: requires `qty > 0`. The only caller, buy-all, passes a positive count. A non-positive count would divide by zero in the average price.
- App.Session.HandleBuy, App.Session.HandleSell, App.Session.HandleSellAll: require a non-negative price. Every call site in `src/App.js` passes `currentPrice`, the newest value of the trading panel's series. That series holds closes or random steps floored at 0.01, so the price is always positive.
- App.Session.HandleBuyAll, App.Session.ConfirmAiTrade, App.Session.OnPricesChanged, App.Session.AiBuy, App.Session.AiSell: require a positive price, for the same reason.
- EnhancedSimulator.Simulator.InitBuyAndHold: requires a non-zero first price when the baseline buys. With a first price of 0, JavaScript computes `Math.floor(10000 / 0)` = Infinity shares and `10000 - Infinity * 0` = NaN cash, which reals cannot represent. The simulated walk starts near 100, so only a real close of 0 reaches this case.
- RechartsSimulator.Simulator.InitBuyAndHold: requires a non-zero first price when the baseline buys, for the same reason: JavaScript gives Infinity shares and NaN cash at a first price of 0.
- EnhancedSimulator.BotBuyQuantity: in "max" mode a non-positive price gives 0 shares. JavaScript would divide by that price instead.
- StockDashboard.PercentChange: a zero starting price gives no value. JavaScript shows Infinity or NaN.
- Sentiment.Classify: a NaN score cannot be represented. JavaScript would fall through to "Very Bullish".
- Portfolio.RowValue: `shares || 0` is taken as the stored share count, because holdings always carry a number.
- The typed manual quantity (`manualTradeQty`) is an integer. Fractional quantities are not modelled.
- RechartsSimulator.ParsedPointsAllValid: states only the count kept. That they keep their order and row numbers follows from the contract of `ParsedPoints`.
