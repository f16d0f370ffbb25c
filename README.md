# XAUFX trading bot — a verified model of its core

This project models the decision and bookkeeping logic of a MetaTrader 5
trading bot. The bot:

- trades gold and synthetic indices;
- detects an EMA crossover confirmed by a Donchian breakout, under an M5 trend
  filter and M1 filters;
- sizes each position from the risk it takes;
- opens the position on one account or fans the order out to several accounts;
- manages open positions with break-even, a partial close, trailing stops and a
  chandelier exit;
- journals every opening and closing in a per-account MongoDB database.

The model also covers:

- the offline backtester of the XAUUSD pivot strategy;
- the script that replays the broker's deal history into the journal.

Every query to the broker is an input of the model:

- ticks, bars, indicator values;
- account and symbol information;
- order replies, deal histories.

Every order the bot would send is an output. Prices, balances and volumes are
exact reals.

The modules follow the program's files:

- `common.dfy`: sides, deal entries, Python's `round`, sums.
- `config.dfy`: the constants of `config.py`.
- `database.dfy` (`database.py`): the journal is a map from (database,
  collection) to tickets to documents. `save_open` and `save_close` are upserts
  on it.
- `strategy.dfy` (`strategy.py`): lot sizing, the Donchian channel, the trigger,
  the M5/M1 filters, the squeeze, the signal and the request. Also
  `open_trade`, the chandelier exit, the trade monitor and the volatility gate.
- `trader.py` → `trader.dfy`: the single-account lot size and market order.
- `position_manager.py` → `position_manager.dfy`: the daily loss limit, the
  requests sent for every managed position, and `close_position`.
- `backtest.py` → `backtest.dfy`: the loop body over bars, as a function on the
  simulation variables and as an imperative `Backtester` class that updates
  them in place.
- `multi_account.py` → `multi_account.dfy`: the `Manager` class, with its
  account list and account-information cache.
- `sync_history.py` → `sync_history.dfy`: the replay of the history of every
  enabled account.
- `main.py` → `bot_loop.dfy`: the choice of the monitored account, single or
  multi-account execution, and one pass of the per-symbol loop.

## Model

| member | source | states |
|---|---|---|
| Common.Round2 | trader.py:12 | `round(x, 2)` is a whole number of cents within half a cent of x; on a tie it is an even number of cents |
| Common.RoundIsNearest | trader.py:12 | no integer is nearer to x than `round(x)` |
| Common.Round2IsNearestCent | trader.py:12 | no whole number of cents is nearer to x than `round(x, 2)` |
| Common.RoundToStep | strategy.py:128 | the lot rounded to the volume step is a whole number of steps, at most half a step away |
| Common.MaxOf | strategy.py:150-151 | the peak is one of the values and bounds all of them |
| Database.NatToStringInjective | database.py:17-19 | distinct account numbers print differently |
| Database.DbNameInjective | database.py:17-19 | two accounts never share a `trading_bot_<n>` database |
| Database.DbName | database.py:17-19 | every account database is named `trading_bot_` followed by the number |
| Database.CollectionName | database.py:27 | the collection name has the symbol's length; each character is the symbol's, lower-cased, with spaces replaced by `_` |
| Database.CollectionNameIsSafe | database.py:27 | a collection name contains no space and no upper-case letter |
| Database.CollectionNameIdempotent | database.py:27 | cleaning an already clean name changes nothing |
| Database.SymbolsShareCollection | database.py:27 | "Volatility 100 Index" is journaled in `volatility_100_index` |
| Database.UpsertOpen | database.py:69-82 | `$setOnInsert`: a new ticket gets an OPEN document with no profit; an existing document and all other tickets are untouched; tickets stay unique |
| Database.UpsertClose | database.py:95-104 | `$set` with upsert: the ticket ends with the status, the profit rounded to cents, the close price and time; its opening fields survive; other tickets are untouched |
| Database.SaveOpenRepeatIsNoOp | database.py:69-82 | a retried save_open leaves the document as the first one wrote it |
| Database.OpenCloseOrder | database.py:61-106 | open-then-close and close-then-open give the same status, profit and close price; on a new ticket open-then-close keeps save_open's open price, side and symbol, while close-then-open leaves all three missing; on an existing document both keep its open price |
| Database.SaveOpenOn | database.py:61-84 | save_open writes only the collection of its account and symbol, and keeps every collection keyed by ticket |
| Database.SaveCloseOn | database.py:87-106 | save_close writes only the collection of its account and symbol, and keeps every collection keyed by ticket |
| Database.SaveCloseKeepsStatus | database.py:95-104 | writing a status over a document that already has it never changes that status |
| Database.Journal.SaveOpen | database.py:61-84 | the journal after save_open is `SaveOpenOn` of the journal before |
| Database.Journal.SaveClose | database.py:87-106 | the journal after save_close is `SaveCloseOn` of the journal before |
| Database.Journal.constructor | database.py:12-15 | the journal starts empty |
| Strategy.ClampLot | strategy.py:128 | a lot inside [volume_min, volume_max] is kept, one below becomes volume_min, one above becomes volume_max; when volume_min exceeds volume_max the result is volume_min |
| Strategy.GetDynamicLot | strategy.py:90-130 | no account, a zero stop distance or no symbol gives the 0.1 fallback; otherwise the risk lot (balance × risk over distance × tick value) rounded to the volume step and clamped as `ClampLot` clamps; inside the bounds it is within half a step of the raw risk lot |
| Strategy.DonchianAsWritten | strategy.py:143-153 | the channel as written bounds the last `period` bars, the current one included |
| Strategy.DonchianPrior | strategy.py:143-153 | the corrected channel bounds the `period` bars before the current one and is attained by one of them |
| Strategy.TriggerDecision | strategy.py:377-423 | BUY iff a bullish cross and a close above the upper band; SELL iff no BUY, a bearish cross and a close below the lower band; entry at the close; the target is three times the risk |
| Strategy.DetectEmaCrossAndDonchianBreakAsWritten | strategy.py:331-423 | too few bars, no EMAs or no ATR give no trigger |
| Strategy.BreakoutUnreachableAsWritten | strategy.py:150-151 | with the current bar inside its own band, no close ever breaks out, so the trigger never fires |
| Strategy.DetectEmaCrossAndDonchianBreak | strategy.py:331-423 | the corrected trigger fires only with enough data: BUY on a bullish cross with the close above every high of the previous 20 bars and the stop 3·ATR below; SELL symmetrically; the target is three times the risk |
| Strategy.BreakoutReachable | strategy.py:331-423 | the corrected trigger does fire on a concrete 26-bar breakout |
| Strategy.MarketContextM5 | strategy.py:243-266 | Up iff enough bars and the close is above the EMA50; Down iff below; otherwise Neutral |
| Strategy.CheckM1Filters | strategy.py:268-329 | the side passes iff enough bars, price on the side's side of the EMA200, ADX above 20 and RSI above 55 (BUY) or below 45 (SELL) |
| Strategy.DetectSqueeze | strategy.py:208-241 | a squeeze iff the bandwidth is below 85% of its mean; the size multiplier is 1.5 on a squeeze, 0.5 when the bandwidth is above 115% of its mean, 1.0 otherwise (missing bands included) |
| Strategy.SignalFrom | strategy.py:434-467 | given a trigger, a signal iff the M5 context is not neutral, agrees with the trigger's side and the M1 filters pass; it carries that trigger and the squeeze multiplier and flag |
| Strategy.GetSmartSignalAsWritten | strategy.py:425-467 | as written, a signal needs a trigger from the as-written detector |
| Strategy.SmartSignalSilentAsWritten | strategy.py:425-467 | as written, get_smart_signal never signals once the last M1 bar is well formed |
| Strategy.GetSmartSignal | strategy.py:425-473 | a signal iff the M5 context is not neutral, a trigger agrees with it and the M1 filters pass; it carries the trigger and the squeeze multiplier |
| Strategy.Targets | strategy.py:504-508 | the first two targets lie 33% and 66% of the way from the entry to the final take-profit, strictly between them |
| Strategy.ScaledLot | strategy.py:490-499 | with symbol information, the multiplied lot rounded to the step and clamped as `ClampLot` clamps; without it, the multiplied lot as is |
| Strategy.PrepareTradeRequest | strategy.py:475-528 | no tick, no request; entry at ask (BUY) or bid (SELL) with the signal's stops and the bot's magic number; the lot is the dynamic lot for that entry scaled by the squeeze multiplier (0.1 × multiplier without symbol information); tp1 and tp2 at 33% and 66% of the way to tp3, the signal's take-profit, and ordered toward it |
| Strategy.OpenTrade | strategy.py:530-584 | a filled order returns its ticket and lot and journals one save_open; otherwise no ticket, lot 0, journal unchanged |
| Strategy.UpdateChandelierExit | strategy.py:586-644 | a stop request is sent iff the candidate (bid − 3·ATR for BUY, ask + 3·ATR for SELL) tightens the stop, or a SELL has none; the request carries that candidate as its stop and keeps the take-profit |
| Strategy.TrailBuyStops | strategy.py:586-644 | applying the chandelier requests in turn never lowers a BUY stop |
| Strategy.TrailBuyFollowsPrice | strategy.py:586-644 | after a run of bids the BUY stop is at least the last bid minus 3·ATR |
| Strategy.TrailSellStops | strategy.py:586-644 | applying the chandelier requests in turn never raises a set SELL stop and leaves a positive stop once any ask was seen |
| Strategy.TrailSellFollowsPrice | strategy.py:586-644 | after a run of asks the SELL stop is at most the last ask plus 3·ATR |
| Strategy.CloseIndex | strategy.py:666-734 | the index of the first poll that finds the position gone |
| Strategy.PollRequests | strategy.py:714-715 | one poll sends at most one chandelier request |
| Strategy.ChandelierRequestsSound | strategy.py:683-715 | a run of polls sends at most one request per poll, each one what update_chandelier_exit sends for some poll |
| Strategy.HighestBidBounds | strategy.py:679-724 | `highest_reached` is never negative, bounds the bid of every poll of a BUY position and is 0 or one of those bids |
| Strategy.LowestAskBounds | strategy.py:680-727 | `lowest_reached` bounds the ask of every poll of a SELL position and, once set, is one of those asks |
| Strategy.MonitorActiveTrade | strategy.py:666-727 | the run closes iff some poll finds the position gone; the requests sent are exactly the chandelier requests of the polls before that one, in order; the best bid and ask are those of the same polls; the close is journaled once with the summed profit and the last price |
| Strategy.IsVolatilityGood | strategy.py:736-757 | no bars refuse with NoData and no ATR with AtrError; a "too quiet" ATR refuses; everything else is OK |
| Strategy.QuietMarketSkipped | strategy.py:736-757 | an ATR at half its mean refuses as too quiet |
| Strategy.VolatilityGoodAtPeak | strategy.py:736-757 | an ATR at or above every earlier value never refuses |
| Trader.RoundMonotone | trader.py:12 | Python's `round` is monotone |
| Trader.PointValue | trader.py:9 | `point_value or 1.0`: a missing or zero point value counts as 1 |
| Trader.CalculateLotSize | trader.py:7-13 | the lot is the raw lot rounded to cents when that reaches 0.01, and 0.01 otherwise; away from the floor it is within half a cent of the raw lot |
| Trader.RawLotRisksShare | trader.py:10-11 | before rounding, the lot times the value of the stop is exactly RISK_PERCENT of the balance |
| Trader.LotRisksShareOfBalance | trader.py:7-13 | away from the floor, the order risks RISK_PERCENT of the balance, up to half a cent of lot |
| Trader.LotGrowsWithBalance | trader.py:7-13 | a larger balance never buys a smaller lot |
| Trader.SlDistancePoints | trader.py:35-36 | the distance in points times the point size is \|price − sl\|; 100 when the point size is not positive |
| Trader.ExecuteTrade | trader.py:15-60 | each refusal happens iff its guard is the first to fail (not selected, no tick, a missing stop, no account, a zero distance) and an order is sent iff none fails; a sent order is at the ask for "BUY" and the bid otherwise, carries the signal's stops and the bot's magic number, and its lot follows calculate_lot_size; a zero distance is the division by zero |
| Trader.StopsPassThrough | trader.py:40-53 | the stops reach the broker unchanged whatever the point size; only the volume depends on it |
| PositionManager.CheckLossLimits | position_manager.py:14-35 | trading is blocked only when there is a history, the balance is positive and today's closed profit over the balance is below the limit |
| PositionManager.LossLimitStaysHit | position_manager.py:14-35 | once the daily limit is hit, further losing exits keep it hit |
| PositionManager.RiskDistance | position_manager.py:65 | the initial risk is \|open − sl\|, or the ATR when no stop is set |
| PositionManager.BreakEvenRequests | position_manager.py:68-96 | break-even closes a rounded share of the volume when that share reaches the minimum lot, then moves the stop to the open price |
| PositionManager.TrailCandidate | position_manager.py:99-105 | the corrected trailing stop sits below the bid for BUY and above the ask for SELL; as written the sides are swapped |
| PositionManager.PositionRequests | position_manager.py:65-105 | at most three requests per position, all on its ticket, keeping its take-profit; break-even and trailing requests appear iff they are due |
| PositionManager.StopNeverLoosensLive | position_manager.py:68-105 | with the corrected guards, the stop after one pass is never looser than before |
| PositionManager.BreakEvenDisarmsItself | position_manager.py:68-105 | corrected, the pass in which break-even fires leaves the stop at the open price or beyond it, so break-even is no longer armed |
| PositionManager.BreakEvenStaysDisarmed | position_manager.py:68-105 | corrected, once the stop is at the open price or beyond, a pass sends no break-even and keeps it there |
| PositionManager.BreakEvenFiresOnceLive | position_manager.py:68-105 | corrected, after the pass in which break-even fires, no later pass on the position is armed or due, whatever the price, profit or ATR |
| PositionManager.BreakEvenSettlesAtEntry | position_manager.py:68-105 | corrected, a BUY at 100 with stop 90 and bid 104 (ATR 5) ends the break-even pass with its stop at 100, not re-armed |
| PositionManager.TrailingIsProtective | position_manager.py:99-105 | a corrected trailing stop is on the protective side of the market |
| PositionManager.TrailingAboveMarketAsWritten | position_manager.py:100 | as written, a running BUY gets a stop above the bid, which closes it at once |
| PositionManager.BreakEvenRefiresLiveAsWritten | position_manager.py:68 | as written, break-even fires again on a trailed position and loosens its stop |
| PositionManager.ManageRequests | position_manager.py:38-105 | nothing is sent when the loss limit blocks trading |
| PositionManager.RequestsConcernManagedPositions | position_manager.py:38-105 | every request concerns a position of a managed symbol |
| PositionManager.ManagePositions | position_manager.py:38-105 | the requests sent are exactly those of the loss limit, the feeds and the corrected rules |
| PositionManager.OutcomeOf | position_manager.py:110-139 | WIN iff the profit is positive, LOSS iff negative, BREAKEVEN iff zero |
| PositionManager.ClosePosition | position_manager.py:110-139 | no tick, no order; a filled close reports the ticket and the broker's profit |
| Backtest.GetTrendBias | backtest.py:23-41 | with enough H4 bars the bias is bullish iff the close is above the EMA50 and bearish iff below; otherwise neutral |
| Backtest.Initial | backtest.py:55-94 | no position, no trades, balance, equity and peak at the initial balance, no drawdown |
| Backtest.InitialInv | backtest.py:55-94 | the loop invariant holds before the first bar |
| Backtest.BreakEven | backtest.py:133-139 | break-even fires iff the profit reaches the initial risk and the guard is armed; then half the floating profit is banked, half the volume closed and the stop moved to the entry; otherwise nothing changes |
| Backtest.Trail | backtest.py:141-146 | after more than one ATR of profit, a candidate at the entry ± ATR × the trailing multiplier that tightens the stop becomes the stop; otherwise nothing changes; a BUY stop never drops and a SELL stop never rises |
| Backtest.CloseAt | backtest.py:170-192 | the position closes, one trade is appended with the rounded profit, exactly one win or loss is counted and the balance takes the profit; entry, stop, target, volume, equity, peak and drawdown are unchanged |
| Backtest.Exit | backtest.py:149-192 | exits in order: reversal, then stop-loss (a loss), then take-profit (a win); a position that stays open is untouched |
| Backtest.MarkToMarket | backtest.py:121-130 | marking to the close changes only equity, peak and drawdown: equity is the balance plus the open profit; the peak is the larger of the old peak and the equity; the drawdown is the larger of the old drawdown and the distance from the peak |
| Backtest.Manage | backtest.py:121-192 | the peak equity bounds the equity, the drawdown never decreases, and an open position keeps its side, entry and target |
| Backtest.RewardRisk | backtest.py:240-245 | the reward/risk ratio times the risk is the reward; 0 for a zero risk |
| Backtest.EntryVolume | backtest.py:248-250 | the volume is the rounded risk-based lot, never below 0.01 |
| Backtest.TryEnter | backtest.py:198-265 | a position opens iff the bias is not neutral, accumulation and a pivot are found, the close is in the widened zone, the confirmations suffice, the target lies beyond the close on the profit side (the corrected gate; the as-written version skips this) and the reward/risk reaches the minimum; it then opens at the close with the source's stop, target and volume; a refusal changes nothing else |
| Backtest.StepWith | backtest.py:94-115 | a filtered bar changes nothing |
| Backtest.Visited | backtest.py:94 | the loop visits every bar from ATR_PERIOD + 50 on, in order |
| Backtest.SkippedBarChangesNothing | backtest.py:98-115 | a bar outside the session or without a usable ATR changes nothing |
| Backtest.NeutralBiasOpensNothing | backtest.py:199-205 | a neutral H4 bias opens nothing |
| Backtest.EntryRefusals | backtest.py:217-228 | a close outside the widened pivot zone, or too few confirmations, opens nothing |
| Backtest.EntryOpensWithBias | backtest.py:231-262 | with the corrected target gate, an opened position follows the bias, opens at the close with at least 0.01 lot, its stop below the entry and its target above it for a BUY (the reverse for a SELL) |
| Backtest.TargetExitGains | backtest.py:182-186 | a take-profit exit of a position whose target is on the profit side raises the balance and records a win |
| Backtest.TargetSideKept | backtest.py:121-192 | with the corrected gate, a bar that keeps the position open keeps its target on the profit side of the entry |
| Backtest.WrongSideTargetAsWritten | backtest.py:233-245 | as written, a BUY at 100 opens with its target at 90, and the next bar at 98 "takes profit" as a win while the balance falls below its start; the corrected gate refuses the entry |
| Backtest.VolumeNeverIncreases | backtest.py:133-139 | while a position is open its volume never grows |
| Backtest.StepKeepsInv | backtest.py:94-192 | every bar keeps the invariant: peak ≥ equity, a non-negative drawdown, wins + losses = closed trades |
| Backtest.DrawdownNeverDecreases | backtest.py:121-130 | the maximum drawdown never decreases from one bar to the next |
| Backtest.ExitCountsOnce | backtest.py:149-192 | each exit closes the position and counts exactly one win or one loss |
| Backtest.StopNeverLoosens | backtest.py:133-146 | with the corrected guard the stop never moves against the position |
| Backtest.BreakEvenFiresOnce | backtest.py:133-139 | with the corrected guard, break-even never fires again once the stop has reached the entry |
| Backtest.BreakEvenRefiresAsWritten | backtest.py:134 | as written, a trailed position gets break-even again: the stop drops back to the entry and the volume halves a second time |
| Backtest.SimulateKeepsInv | backtest.py:94-192 | the invariant holds after any number of bars |
| Backtest.SimulateDrawdownMonotone | backtest.py:121-130 | over a whole run the maximum drawdown only grows |
| Backtest.Summary | backtest.py:268-272 | the trade count is wins + losses; the win rate is wins × 100 / trades (0 without trades), lies in [0, 100] and is 100 iff there are no losses; the profit is the balance gain and its percentage is profit × 100 / initial balance (0 for a non-positive initial balance); the reported drawdown is the run's maximum |
| Backtest.Backtester.constructor | backtest.py:55-94 | the variables start as `Initial` |
| Backtest.Backtester.Close | backtest.py:149-192 | the state after closing is `CloseAt` of the state before |
| Backtest.Backtester.ManageOpen | backtest.py:121-192 | the state after managing is `Manage` of the state before |
| Backtest.Backtester.TryOpen | backtest.py:198-265 | the state after trying to enter is `TryEnter` of the state before |
| Backtest.Backtester.Step | backtest.py:94-265 | one iteration is `StepSpec`, so it keeps the loop invariant |
| Backtest.Backtester.Run | backtest.py:94-265 | the loop leaves the state `Simulate` gives over the visited bars |
| MultiAccount.DisplayName | multi_account.py:105 | a configured name is kept; an empty one becomes "Compte <number>" |
| MultiAccount.ConnectResultsCoverAccounts | multi_account.py:42-60 | connect_all reports on every configured account number |
| MultiAccount.ConnectResultOfAccount | multi_account.py:42-60 | with distinct numbers, an account reports True iff it is enabled and connects |
| MultiAccount.CacheOnlyOnSuccess | multi_account.py:79-117 | the cache gains exactly the accounts that connect; other entries are untouched |
| MultiAccount.FindAccount | multi_account.py:134-137 | the first configured account with the number, or none |
| MultiAccount.AdjustVolume | multi_account.py:151-157 | the volume is scaled by the risk multiplier and unchanged at 1.0 |
| MultiAccount.TradeTypeName | multi_account.py:165-186 | the journal says "BUY" iff the order is a buy or a buy-limit, "SELL" otherwise |
| MultiAccount.TradeOnAccount | multi_account.py:123-191 | an unknown or disabled account sends nothing; a fill gives a result with the broker's ticket and price and one save_open |
| MultiAccount.FanOutUsesTemplate | multi_account.py:193-219 | every result comes from an enabled account, with the template volume scaled by its multiplier |
| MultiAccount.FanOutAllFilled | multi_account.py:193-219 | when every order fills, the results are the enabled accounts, in configuration order |
| MultiAccount.Manager.constructor | multi_account.py:31-40 | the manager keeps the account list and starts with an empty cache |
| MultiAccount.Manager.ConnectAccount | multi_account.py:62-121 | success iff the connection and account query succeed; only then is the cache entry written |
| MultiAccount.Manager.ConnectAll | multi_account.py:42-60 | the results and the cache are `ConnectResults` and `CacheAfter` |
| MultiAccount.Manager.GetAccountInfo | multi_account.py:221-223 | the cached entry of the account, if any |
| MultiAccount.Manager.GetAllAccountsInfo | multi_account.py:225-227 | the whole cache, agreeing with GetAccountInfo |
| MultiAccount.Manager.ExecuteTradeOnAccount | multi_account.py:123-191 | the result and the journal are those of `TradeOnAccount` |
| MultiAccount.Manager.ExecuteTradeAllAccounts | multi_account.py:193-219 | the results and journal writes are those of the fan-out over every account in order |
| SyncHistory.ClosesAreRelevantExits | sync_history.py:54-73 | the deals written are exactly the exit deals of the bot or without magic number |
| SyncHistory.ReplayMarksClose | sync_history.py:63-73 | after the replay every such exit's order has a CLOSED document under its symbol |
| SyncHistory.ReplayLeavesUntouched | sync_history.py:63-73 | a document no exit targets is left as it was |
| SyncHistory.ReplayStaysInAccount | sync_history.py:17-84 | the replay writes only into its own account's database |
| SyncHistory.DisabledAccountsIgnored | sync_history.py:96-98 | the broker's answers for disabled accounts never matter |
| SyncHistory.SyncAllStaysInEnabledAccounts | sync_history.py:86-100 | databases of no enabled account are left as they were |
| SyncHistory.SyncAccount | sync_history.py:17-84 | returns the number of exit deals written, 0 when connection or history fails; the journal is the replay of the history |
| SyncHistory.SyncCounts | sync_history.py:86-100 | one update count per enabled account in configuration order (its history's relevant exits, 0 without history); none when no account is enabled |
| SyncHistory.SyncAll | sync_history.py:86-100 | without confirmation nothing is written and nothing reported; with it every enabled account is synced in order, and the update count each sync logs is reported in that order |
| BotLoop.FirstEnabled | main.py:43-45 | the first enabled account, or none |
| BotLoop.AccountForMonitoring | main.py:37-46 | in multi-account mode the first enabled account, otherwise (or if none) the configured account |
| BotLoop.MonitoredAccountIsEnabledOrDefault | main.py:37-46 | the monitored account is an enabled configured account or the default one |
| BotLoop.ToTradeRequest | main.py:54-59 | the fan-out request carries the strategy request's fields and a market BUY or SELL |
| BotLoop.TradeTypeAgrees | main.py:54-71 | a fanned-out order is journaled with the same side as a single-account one |
| BotLoop.ExecuteTradeWithMultiAccount | main.py:49-71 | multi mode returns the first fan-out result's ticket and account, or nothing; single mode is open_trade on the default account |
| BotLoop.PauseAfter | main.py:93-131 | 5 s when disconnected, 300 s on a quiet market, 10 s otherwise |
| BotLoop.PassEndOf | main.py:90-108 | the guards in order: connection, volatility, an existing position |
| BotLoop.ExecutedTicket | main.py:49-71 | no ticket without a prepared request; in single-account mode a ticket exactly when a tick is there and the broker reports the order done |
| BotLoop.RunPass | main.py:87-131 | the pause matches where the pass ended; after a full analysis with a signal, the pass trades exactly the nonzero ticket that execution returns, and monitors it; otherwise the journal is unchanged |

## Left out

- MetaTrader 5, MongoDB, Telegram and logging calls are not modelled. Their
  answers are parameters; their effects are outputs or the journal map.
- Indicator computations (EMA, ADX, RSI, Bollinger bands, ATR) and
  `get_price_data` are not modelled. Their latest values are inputs, as
  `Option<real>` where a NaN is possible.
- In the backtester, `is_reversal_signal`, `find_swings`, `detect_accumulation`,
  `find_pivot_candle` and `get_confirmations` are not part of this model. Their
  answers are fields of each bar's input. `backtest.py` imports all five from
  `strategy.py`, which defines none of them, so the module would not import as
  written.
- `database.py` imports `MONGODB_URI` from `config.py`, which does not define it,
  so that module would not import as written either. The journal is a map.
- `position_manager.py` imports `get_preset`, `DAILY_LOSS_LIMIT` and `SYMBOLS`.
  Their values are parameters: `strategy.py` does not define `get_preset`, and
  `config.py` defines neither `DAILY_LOSS_LIMIT` nor `SYMBOLS` (only `SYMBOL`).
- `position_manager.py` also imports `update_trade_on_close`, which `database.py`
  does not define, so the module would not import as written. The journal write
  after `close_position` is not modelled: `ClosePosition` only returns the close
  record, and no journal is touched.
- Floating point is not modelled: prices are exact reals, and Python's `round`
  is round-half-even on exact values, not on binary doubles.
- Threads, `time.sleep` and the endless loops are not modelled. A loop pass
  returns its pause. The trade monitor runs over a finite sequence of polls.
- Exceptions are not modelled: the bare `except` around every journal write and
  the `try` of the bot loop. A missing tick in `manage_positions` raises in the
  source; in the model every `SymbolFeed` carries a tick, so that case cannot be
  expressed. The source reads the tick once per position; the model reads it once
  per symbol and shares it among that symbol's positions.
- PositionManager.Managed: `if not rates_h1` on the numpy array MT5 returns raises
  `ValueError` when the array has more than one row. The model reads the check
  as "no rates", as evidently intended; the exception is not modelled.
- Strategy.GetDynamicLot: a zero tick value or a zero volume step raises
  `ZeroDivisionError` in the source; `WellFormedSymbol` excludes both, since
  exceptions are not modelled. A negative volume step is excluded too.
- Strategy.GetSmartSignal uses the corrected trigger, and so do `OpenTrade` and
  `BotLoop.RunPass`. The signal as written is `GetSmartSignalAsWritten`, which
  `SmartSignalSilentAsWritten` shows never fires on well-formed bars.
- Database.LowerChar lower-cases ASCII letters only; Python's `str.lower` also
  lower-cases other Unicode letters.
- `MultiAccountManager.disconnect_all` and the `connected_accounts` list are not
  modelled. The list is never written.
- `app.py`, `connexion.py`, `utils.py` and `test_installation.py` are not part of
  this model.
- Trader.PointValue: `symbol_info.point_value` is not an attribute that MT5
  reports, so it is an input.
- PositionManager.ClosePosition: `result.profit` is not a field of the result
  MT5's `order_send` returns, so the closed profit is an input (`reply.profit`).
- BotLoop.RunPass: on the traded path, the journal is stated only as `Valid()`.
  The writes of execution and monitoring are stated by
  `ExecuteTradeWithMultiAccount` and `MonitorActiveTrade`.
- Strategy.MonitorActiveTrade: the chandelier requests are stated per poll. The
  broker applying them between polls is not modelled.
- PositionManager.ManagePositions is stated with the corrected break-even guard
  and trailing sides. The as-written behaviour is kept beside it as
  `PositionRequests(…, AsWritten)`.
- Backtest.Backtester.Step is stated with the corrected break-even guard and the
  corrected target gate, and so are `Backtest.Backtester.ManageOpen` (the guard),
  `Backtest.Backtester.TryOpen` (the gate) and `Backtest.Backtester.Run` (both,
  through `StepSpec`). The as-written loop body is `StepAsWritten`.

## Findings

| source | as written | input that shows it | evidently intended | confidence | as-written member | corrected member |
|---|---|---|---|---|---|---|
| strategy.py:150-151 | the Donchian high/low are rolling over the last `period` bars including the current one, so `close > upper` can never hold for a well-formed bar | any M1 history whose last bar has low ≤ close ≤ high | the channel of the `period` bars before the current one | not executed | Strategy.BreakoutUnreachableAsWritten | Strategy.BreakoutReachable |
| backtest.py:134 | break-even is guarded by `sl != entry_price`, so after trailing moves the stop past the entry it fires again | BUY at 100, stop 90, volume 1; bar at 112 with ATR 5: break-even gives stop 100 and volume 0.5, trailing gives 106; the next bar drops the stop to 104.8 and halves the volume again | break-even once per position: only while the stop is short of the entry | not executed | Backtest.BreakEvenRefiresAsWritten | Backtest.BreakEvenFiresOnce |
| backtest.py:233-245 | the target is the last swing high (low for SELL) with no check of its side, and the reward/risk takes absolute distances, so a target behind the entry passes | a BUY at 100 with pivot 99-101, ATR 10 and last swing high 90: stop 97, target 90, RR 10/3; the next bar at 98 exits "at take-profit" as a win and the balance drops from 1000 to 967 | a BUY target above the entry, a SELL target below it | not executed | Backtest.WrongSideTargetAsWritten | Backtest.TargetExitGains |
| position_manager.py:100 | the trailing candidate is `price + atr·k` for BUY and `price − atr·k` for SELL, placing the stop on the wrong side of the market | a BUY at 100 with bid 110, ATR 4 and multiplier 1.2: the candidate stop is 114.8, above the bid | `price − atr·k` for BUY, `price + atr·k` for SELL | not executed | PositionManager.TrailingAboveMarketAsWritten | PositionManager.TrailingIsProtective |
| position_manager.py:68 | break-even is guarded by `sl != price_open`, so a trailed position gets break-even again | a BUY at 100 with stop 106, bid 108, ATR 6: a partial close of 0.5 lot and the stop moved back to 100 | break-even once per position: only while the stop is unset or short of the open price, with the trailing candidate weighed against the stop break-even has just set | not executed | PositionManager.BreakEvenRefiresLiveAsWritten | PositionManager.BreakEvenFiresOnceLive |
