# MetaTrader 5 grid-trading engine — a Dafny model

This project models the trading core (`trader/`) of a grid ("recovery sequence") trading bot for
MetaTrader 5 and proves properties of that model.

The bot runs one **Buy sequence** and one **Sell sequence** on one symbol. A sequence is the list of
open positions carrying the direction's strategy tag (magic number 1231 for Buy, 1832 for Sell).
One pass of the main loop does the following:

- It refreshes the account snapshot and the performance counters.
- It rebuilds both sequences from the terminal's open positions.
- An empty sequence gets a new 16-character identifier and one market order.
- A non-empty sequence goes through four steps, refreshed in between:
  - add a position when four gates pass (not in profit, not past the maximum count, far enough from
    the last entry, long enough after it);
  - align every take-profit on one target;
  - trail the stops once the profit passes 45 points per lot;
  - close everything once the profit passes 30 points per lot.

Lot sizes follow the order manager's rules. A new sequence's lot is balance / base-balance volume
steps. A recovery lot is the loss plus one take-profit unit, in steps, one step more when that equals
the last volume. Every lot is clamped to at least one step and rounded to whole steps. Beside the
engine sit a pre-trade validator (a chain of early-return checks) and a market calendar (four trading
sessions with local opening hours).

Modules:

- `Numeric` (numeric.dfy): Python's `round` (ties to even) over exact reals, the "snap to a grid"
  idiom `round(x / unit) * unit`, and powers.
- `Parameters` (parameters.dfy): the data model of trader/parameters.py (settings, timeframes, tags,
  position, sequence, account statistics, metrics) and the start-up settings.
- `Gateway` (gateway.dfy): the terminal as the engine sees it. It is a `Terminal` object with
  - `market(k)`: what every query returns once `k` requests have been sent;
  - `replies(k)`: the broker's reply to request `k`;
  - `log`: the requests sent so far, in order.

  `Send` appends to the log. Every method that sends orders states exactly what it appends, up to a
  whole pass of the main loop. A later step's requests are a function of what the terminal shows
  once the earlier steps' requests have been sent.
- `OrderManager` (order_manager.dfy): lot sizing, take-profit placement, and the open / modify /
  close operations.
- `Tracking` (tracking.dfy): how a sequence is rebuilt from the terminal, and how its last position
  is resolved. The first matching open position wins; otherwise it takes the latest matching order
  of the last seven days.
- `StrategyRules` (strategy_rules.dfy): the strategy's value-level rules — the identifier format, the
  deviation and time gates, take-profit alignment, the close and trailing thresholds, the
  deal-history fold and the metrics update.
- `TradingStrategy` (strategy.dfy): the `Strategy` class with its fields and the methods of
  trader/strategy.py, against the terminal.
- `Validator` (validator.dfy): trader/validator.py.
- `MarketSchedules` (market_schedules.dfy): trader/market_schedules.py.

Conventions:

- Floats are exact `real`s.
- The random draws (deviation factor, minute jitter, identifier digits) and the wall-clock minute
  are parameters. Their ranges are preconditions.
- The time-zone offsets of the four sessions are part of the moment they are asked about.
- Message texts become `Reason` tags.
- An exception that the source catches becomes the `Error` tag (validator) or a `false` result
  (strategy).

## Model

| member | source | states |
|---|---|---|
| `Numeric.Round` | trader/order_manager.py:127 | Python's `round`: the result is within one half of `x`, and a tie goes to the even neighbour |
| `Numeric.RoundUnique` | trader/order_manager.py:131 | the three rounding properties determine the result uniquely |
| `Numeric.SnapOnGrid` | trader/order_manager.py:59-60 | `round(x / p) * p` is a whole multiple of `p`, as the normalised stops are |
| `Numeric.SnapIdempotent` | trader/order_manager.py:138 | normalising an already normalised value changes nothing |
| `Numeric.SnapAtLeastUnit` | trader/order_manager.py:135-138 | for a value of at least one unit, normalising gives at least one unit |
| `Numeric.PowStrictlyIncreasing` | trader/strategy.py:185 | each further power of a base above one is strictly larger |
| `Numeric.PowMonotoneInBase` | trader/strategy.py:183-185 | a larger non-negative base gives a power at least as large |
| `Parameters.Timeframe.Minutes` | trader/parameters.py:8-16 | each timeframe's value in minutes, from 1 to 240; one minute, one hour, three and four hours are recognised exactly |
| `Parameters.TimeframeMinutesInjective` | trader/parameters.py:8-16 | no two timeframes share a number of minutes |
| `Parameters.DirectionOfMagic` | trader/parameters.py:50-52 | a tag belongs to a direction exactly when it is that direction's magic number (1231 Buy, 1832 Sell) |
| `Parameters.InitParameters` | trader/strategy.py:37-51 | start-up settings: all switches on, a three-hour timeframe, base balance 3000, and the account's take-profit, maximum count and deviation parameters |
| `Parameters.DefaultPositionIsBlank` | trader/parameters.py:56-66 | a default position has zero volume, price, take-profit and tag, and no comment |
| `Parameters.SumsOfAppend` | trader/strategy.py:265-267 | appending a position adds its profit and volume to the sequence totals |
| `Parameters.NewSequenceIsEmpty` | trader/strategy.py:17-18 | a new sequence has its direction, no positions, no id, and consistent totals |
| `OrderManager.ClampToStepIsWholeSteps` | trader/order_manager.py:135-138 | the clamp always yields at least one step and a whole number of steps |
| `OrderManager.ClampToStepKeepsWholeSteps` | trader/order_manager.py:135-138 | a lot already at whole steps (at least one) passes the clamp unchanged |
| `OrderManager.LotSizeIsWholeSteps` | trader/order_manager.py:117-139 | every lot OptimizedLotSize returns is at least one volume step and a whole number of steps |
| `OrderManager.SeedLotScalesWithBalance` | trader/order_manager.py:123-127 | for an empty sequence the lot is one step while balance ≤ base balance, and otherwise `round(balance / base)` steps |
| `OrderManager.SeedOfSteps` | trader/order_manager.py:124-127 | raising the scaled lot to one step and rounding gives one step, or the rounded number of steps |
| `OrderManager.StepOnAvoidsLast` | trader/order_manager.py:131-133 | moving one step on from a rounded lot equal to the last volume yields a different whole-step lot |
| `OrderManager.RecoveryLotMovesOn` | trader/order_manager.py:128-139 | when the recovery target is at least one step, the new lot differs from the last position's volume |
| `OrderManager.RecoveryLotCanRepeatLastVolume` | trader/order_manager.py:128-136 | a concrete sequence (no loss, 0.01 step, 80 points of 0.00001) gets a lot equal to the last volume: the clamp runs after the "differ from last" step |
| `OrderManager.TakeProfit` | trader/order_manager.py:141-150 | the take-profit is exactly `tpPoints * point` from the entry price: above it for Buy, below it for Sell |
| `OrderManager.OpenRequestSideSelection` | trader/order_manager.py:18-40 | the open order carries the direction's tag and order type, the ask (Buy) or bid (Sell) of the moment the request is built, a take-profit exactly the take-profit distance from that price (both read from the same market, see Left out), the sequence id, and a whole-step volume of at least one step |
| `OrderManager.OpenPosition` | trader/order_manager.py:18-54 | sends exactly one open order and reports true iff the reply is "done"; "No money" is told apart from other failures; when the recovery lot would divide by a zero take-profit distance, nothing is sent and the division error is reported |
| `OrderManager.ModifyRequestsOnePerPosition` | trader/order_manager.py:61-73 | one stops request per position, in list order, each with that position's ticket, price, type and tag |
| `OrderManager.ModifyPositions` | trader/order_manager.py:56-83 | snaps sl and tp to the point grid once and sends one request per position; true iff some reply was "done" |
| `OrderManager.CloseRequestOpposesPosition` | trader/order_manager.py:85-104 | a buy position is closed by a sell at the bid and a sell position by a buy at the ask, for its full volume, ticket and tag |
| `OrderManager.ClosePosition` | trader/order_manager.py:85-115 | sends exactly one closing order, priced at the tick of the moment; true iff the reply is "done" |
| `Tracking.GetLastOrder` | trader/strategy.py:298-339 | the scan over open positions and then over the order history gives the reference last position |
| `Tracking.Refresh` | trader/strategy.py:244-270 | a rebuilt sequence keeps exactly the tagged positions, sums their profit and volume, takes the last 16-character comment as id, and resolves the last position |
| `Tracking.TaggedKeepsExactlyTheTag` | trader/strategy.py:248-265 | every kept position has the tag and comes from the terminal's list; every tagged terminal position is kept |
| `Tracking.TaggedOfConcat` | trader/strategy.py:250-265 | filtering a concatenated list is concatenating the filtered parts, so order is kept |
| `Tracking.TrackedDirectionsDisjoint` | trader/strategy.py:237-251 | the Buy and the Sell sequence built from one list share no position |
| `Tracking.IdOfIsLastIdLongComment` | trader/strategy.py:247-270 | the id is "" exactly when no kept comment is 16 characters; otherwise it is the last such comment |
| `Tracking.FirstOpenIsFirst` | trader/strategy.py:303-315 | the first matching open position wins, however many later ones match |
| `Tracking.FirstOpenNone` | trader/strategy.py:303-316 | there is no open candidate exactly when no open position matches type and tag |
| `Tracking.LatestOrderIsLatest` | trader/strategy.py:321-333 | the history fallback takes the latest matching order inside the window |
| `Tracking.LastOrderTakesFirstOpen` | trader/strategy.py:305-315 | with a matching open position, the last position is copied from the first one |
| `Tracking.LastOrderFallsBackOnHistory` | trader/strategy.py:317-335 | with no matching open position, the last position comes from the history |
| `Tracking.LastHistoryTakesLatestOrder` | trader/strategy.py:318-333 | the history fallback copies the latest matching order of the last seven days, with profit 0 |
| `StrategyRules.SequenceIdentifier` | trader/strategy.py:152-172 | the id has 16 characters; position 10 is 'B' for Buy and 'S' for Sell; every other position is a digit |
| `StrategyRules.TwoDigitsValue` | trader/strategy.py:167 | a two-digit field reads back as its number |
| `StrategyRules.ThreeDigitsValue` | trader/strategy.py:164 | a zero-padded three-digit field reads back as its number |
| `StrategyRules.ParseGeneratedIdentifier` | trader/strategy.py:158-170 | parsing a generated id gives back the stamp, the direction, the draw and the hash |
| `StrategyRules.RefreshRecoversIdentifier` | trader/strategy.py:263-270 | if kept positions carry the id and no other 16-character comment, a refresh recovers exactly that id |
| `StrategyRules.DeviationGrowsWithCount` | trader/strategy.py:180-186 | for a factor above one, each further position needs a strictly larger price distance |
| `StrategyRules.DeviationWithinDrawRange` | trader/strategy.py:183-185 | with the factor drawn from [1.3, 1.5], the distance lies between the two extremes' |
| `StrategyRules.TimeDifference` | trader/strategy.py:174-178 | the wait is the timeframe plus the drawn minutes, in seconds, so within ±30 minutes of the timeframe |
| `StrategyRules.GatesAdmitOneBeyondMaximum` | trader/strategy.py:107-138 | a sequence not in profit, already holding the maximum count, passes all four gates when the deviation and time gates hold; the count test is strictly greater |
| `StrategyRules.GatesBlockProfitAndOverflow` | trader/strategy.py:108-116 | a sequence in profit, or past the maximum count, is never added to |
| `StrategyRules.ModifyFallbackIgnoresDirection` | trader/strategy.py:191-193 | with no take-profit on the last position, the target is entry plus the distance for Sell as well as for Buy |
| `StrategyRules.ModifyCallCountZeroIff` | trader/strategy.py:195-207 | CheckModify makes no call exactly when every position already has the target, and the target is set; at most two calls per position |
| `StrategyRules.UnsetTakeProfitCallsTwice` | trader/strategy.py:196-203 | a position without a take-profit triggers two modify calls |
| `StrategyRules.ModifyConverges` | trader/strategy.py:188-207 | once a done batch has set the grid-aligned target on every position, a second alignment sends nothing |
| `StrategyRules.TrailingImpliesClose` | trader/strategy.py:209-222 | the trailing threshold is strictly above the close threshold, so a sequence that trails also closes |
| `StrategyRules.TrailingStopsFollowPrice` | trader/strategy.py:217-233 | the trailing stop is 20 points behind the closing price, and the take-profit moves 20 points further the same way |
| `StrategyRules.CountsOfAppend` | trader/strategy.py:284-291 | one more deal adds one win (or loss) and its amount exactly when it is a winning (or losing) entry deal |
| `StrategyRules.FoldDealsCounts` | trader/strategy.py:284-291 | folding the history adds exactly the number and amounts of winning and losing entry deals |
| `StrategyRules.FoldDealsMonotone` | trader/strategy.py:284-291 | the win and loss counters and amounts never decrease |
| `StrategyRules.FoldingTwiceDoubleCounts` | trader/strategy.py:274-293 | folding the same history twice counts each winning and losing deal twice; the fold is not idempotent |
| `StrategyRules.UpdatedMetricsProperties` | trader/strategy.py:362-385 | win and loss percentages add to 100; max drawdown is the max of old and current; both percentages lie in 0–100 when the wins are among the trades; other fallbacks as in the source |
| `StrategyRules.MaxDrawdownNeverDecreases` | trader/strategy.py:384-385 | the recorded maximum drawdown never decreases |
| `TradingStrategy.CloseRequestsOnePerPosition` | trader/strategy.py:213-215 | closing sends one order per position, in list order, each at the tick of its own moment |
| `TradingStrategy.ClosePositions` | trader/strategy.py:214-215 | the close loop appends exactly those orders |
| `TradingStrategy.AlignTakeProfits` | trader/strategy.py:195-207 | the alignment loop sends one full modify batch per call, and the call count is as computed |
| `TradingStrategy.Strategy.constructor` | trader/strategy.py:13-35 | two empty sequences, zeroed statistics, the start-up settings, and the terminal's point size |
| `TradingStrategy.Strategy.GetTradeHistory` | trader/strategy.py:274-296 | the counters become the fold of the reported deals; false and nothing changed when none are reported |
| `TradingStrategy.Strategy.UpdateSequenceTracking` | trader/strategy.py:235-272 | the direction's sequence becomes the rebuilt one, after folding the history; the other sequence is untouched |
| `TradingStrategy.Strategy.UpdatePerformanceMetrics` | trader/strategy.py:362-385 | the account percentages, the metrics and the loss counter become their updated values |
| `TradingStrategy.Strategy.AccountInfo` | trader/strategy.py:341-359 | false and nothing changed without an account; otherwise the snapshot is copied and the metrics updated only when trades exist |
| `TradingStrategy.Strategy.CheckModify` | trader/strategy.py:188-207 | sends exactly the modify batches for the sequence's target, and nothing else |
| `TradingStrategy.Strategy.CheckClose` | trader/strategy.py:209-215 | above the close threshold, closes every position once, in order; otherwise sends nothing |
| `TradingStrategy.Strategy.CheckTrailingStop` | trader/strategy.py:217-233 | above the trailing threshold, sends one batch with the trailing stops; otherwise nothing |
| `TradingStrategy.Strategy.CheckSequence` | trader/strategy.py:104-150 | sends nothing unless the four gates pass and the lot is defined; then exactly one open order, and on "done" the alignment batches of the sequence the terminal then shows; every field after every branch is stated |
| `TradingStrategy.Strategy.AddAndAlign` | trader/strategy.py:72-75 | appends exactly the add check's requests, then the alignment of the sequence the terminal shows after them; ends with the sequence the terminal now shows |
| `TradingStrategy.Strategy.TrailAndClose` | trader/strategy.py:76-78 | appends exactly the trailing batch of the sequence, then the close orders of the sequence the terminal shows after that batch |
| `TradingStrategy.Strategy.ManageSequence` | trader/strategy.py:71-78 | appends exactly the requests of the four steps, each on the sequence as the terminal shows it after the earlier steps; the other sequence and the account are kept |
| `TradingStrategy.Strategy.StartSequence` | trader/strategy.py:79-82 | the empty branch sets the new id and sends exactly one open order for it |
| `TradingStrategy.Strategy.ProcessSequence` | trader/strategy.py:71-95 | one direction's half of a pass: an empty sequence gets its new id and exactly one open order; a non-empty one gets exactly the four steps' requests |
| `TradingStrategy.Strategy.RefreshAll` | trader/strategy.py:63-68 | sends nothing; both sequences become what the terminal shows, and the balance the account's (kept when there is no account) |
| `TradingStrategy.Strategy.ProcessBoth` | trader/strategy.py:71-95 | the Buy half, then the Sell half starting where the Buy half's requests end, both on the sequences the pass started from |
| `TradingStrategy.Strategy.RunPass` | trader/strategy.py:62-95 | the log after one pass is exactly the Buy half and then the Sell half, on the sequences the terminal showed at the start of the pass and with the balance just read |
| `TradingStrategy.AddOpensAtMostOne` | trader/strategy.py:139-143 | the add check opens exactly one position when the four gates pass and the lot is defined, and none otherwise |
| `TradingStrategy.ManageOpensAtMostOne` | trader/strategy.py:71-78 | the four steps of a non-empty sequence open one position iff its gates pass and its lot is defined; alignment, trailing and closing never open one |
| `TradingStrategy.SideOpensAtMostOne` | trader/strategy.py:71-95 | each side of a pass opens exactly one position when empty, and otherwise one or none as its gates decide |
| `TradingStrategy.PassOpensAtMostTwo` | trader/strategy.py:62-95 | one pass opens at most two positions |
| `TradingStrategy.EmptySidesOpenBuyThenSell` | trader/strategy.py:79-95 | with both sequences empty, a pass appends exactly two market orders: Buy at the ask, then Sell at the bid of the next moment, each with its new id |
| `Validator.DailyDrawdown` | trader/validator.py:204-230 | the drawdown is never negative, and 0 without deals, without an account, or at a zero starting balance |
| `Validator.TradingValidator.ValidateAccountConditions` | trader/validator.py:36-78 | fails without an account, and at a zero balance; it never reports an error |
| `Validator.TradingValidator.ValidateOrderParameters` | trader/validator.py:80-121 | fails for an unknown symbol; passes exactly when the volume is in range and a whole number of steps and the price levels are valid |
| `Validator.TradingValidator.ValidateSequence` | trader/validator.py:123-162 | fails when at least the maximum count is held; passes exactly when fewer are held, the volume is within the allowance, and a non-empty sequence's last entry is a timeframe old |
| `Validator.TradingValidator.ValidateRiskParameters` | trader/validator.py:164-202 | fails without an account; passes exactly when the new position's exposure is within 2% of the balance and the sequence's within 6% |
| `Validator.TradingValidator.ValidateMarketConditions` | trader/validator.py:277-334 | fails for an unknown symbol; passes exactly when trade mode is full, a tick with a non-zero bid exists, and spread, volume, volatility and activity are in bounds |
| `Validator.TradingValidator.ValidatePositionCorrelation` | trader/validator.py:336-366 | fails exactly when the sequence is non-empty, some open position exists and the correlation is above 0.7 |
| `Validator.TradingValidator.ValidateAdvancedRisk` | trader/validator.py:368-412 | fails at 20 daily deals; passes exactly when there are fewer, fewer than 5 positions on the symbol, enough risk/reward for a non-empty sequence, and a loss within 2% of the balance |
| `Validator.AccountCheckMeansSeventyPercentEquity` | trader/validator.py:50-73 | for a positive balance the account check passes exactly when equity is at least 70% of the balance and the daily drawdown is at most 60% |
| `Validator.FifteenPercentEquityRefused` | trader/validator.py:50-56 | an equity of 15% of the balance is refused as below the minimum |
| `Validator.ProfitableDayHasDrawdown` | trader/validator.py:216-227 | a profitable day also counts as drawdown, because the percentage is absolute |
| `Validator.OpenRequestOrderCheck` | trader/validator.py:100-112 | the engine's own open order passes the volume-step test |
| `Validator.TakeProfitMeetsStopsLevel` | trader/validator.py:245-256 | the engine's take-profit passes the price-level test exactly when its distance is at least the broker's stops level, with the order built and checked against one market (see Left out) |
| `Validator.GatesAdmitWhatValidatorRefuses` | trader/validator.py:133-137 | at exactly the maximum count the validator refuses, while the strategy's gates let the position through whenever its deviation and time gates hold |
| `Validator.NoAccountRefusesVolume` | trader/validator.py:139-145 | without an account no volume is allowed, so any sequence holding volume is refused |
| `Validator.RiskCheckMonotoneInVolume` | trader/validator.py:178-197 | a smaller new volume passes the risk test whenever a larger one does |
| `Validator.ZeroBidIsAnError` | trader/validator.py:300-334 | a zero bid is a caught division error, reported as an error |
| `Validator.WeightedEntryBounds` | trader/validator.py:501 | the volume-weighted entry sum lies between the smallest and the largest entry times the total volume |
| `Validator.AverageEntryBetweenExtremes` | trader/validator.py:501-517 | the average entry lies between the smallest and the largest entry, so the Buy and Sell risks are never negative |
| `Validator.EqualEntriesAverage` | trader/validator.py:501 | when all entries are equal, the average is that entry |
| `Validator.EqualEntriesFailAdvancedRisk` | trader/validator.py:394-400 | a sequence whose entries are all equal has no risk, a ratio of 0, and is refused for a low risk/reward |
| `MarketSchedules.Weekday` | trader/market_schedules.py:30-34 | the weekday of the UTC date, Monday 0, is always in 0..6 |
| `MarketSchedules.WeekendIsSaturdayAndSunday` | trader/market_schedules.py:30-34 | counting on from a Monday, exactly the fifth and sixth days are the weekend |
| `MarketSchedules.TimeOfDay` | trader/market_schedules.py:48-49 | the local time of day, in [0, 24h) |
| `MarketSchedules.GetActiveSessions` | trader/market_schedules.py:36-55 | the loop produces the reference list of active sessions, in table order |
| `MarketSchedules.OpenAmongMembership` | trader/market_schedules.py:46-53 | a session is listed exactly when it is open among those scanned |
| `MarketSchedules.OpenAmongNonEmpty` | trader/market_schedules.py:44-55 | the list is non-empty exactly when some scanned session is open |
| `MarketSchedules.ActiveSessionsMembership` | trader/market_schedules.py:36-55 | nothing is active on a weekend; on a weekday a session is listed iff its local time is in [open, close) |
| `MarketSchedules.SessionNamesDistinct` | trader/market_schedules.py:7-28 | the four session names are distinct |
| `MarketSchedules.MarketOpen` | trader/market_schedules.py:78-82 | the market is open iff it is not a weekend and some session's local time is in its hours |
| `MarketSchedules.CandidateAhead` | trader/market_schedules.py:96-103 | each session's next opening lies strictly after the moment, and at most a day after it |
| `MarketSchedules.GetNextMarketOpen` | trader/market_schedules.py:84-112 | nothing iff `dt` is a weekday and the market is open now; otherwise the earliest opening, ties to the first session in table order |
| `MarketSchedules.NextOpenAhead` | trader/market_schedules.py:95-111 | the reported opening lies strictly after `dt`, within one day |
| `MarketSchedules.GetMarketState` | trader/market_schedules.py:57-76 | the weekend flag, the active list, and per session the local time and the hours test |
| `MarketSchedules.MarketStateAgrees` | trader/market_schedules.py:61-74 | on a weekday a session is active iff its per-session test is open; on a weekend none is active, whatever that test says |

## Left out

- The MetaTrader 5 terminal itself is not modelled: connecting, querying and `order_send`. What the
  queries return and what the broker replies are the inputs `Terminal.market` and
  `Terminal.replies`.
- The history lists are given unfiltered. For GetLastOrder's order history, the model applies the
  seven-day window the terminal would apply, both ends included. Today's deals and the deal history
  are taken as the terminal returns them.
- The market does not move between two sends: every query made between two requests sees the
  same tick, symbol information, positions and history (`Terminal.Now()`). The source makes several
  separate reads with no send between them, and on a live terminal the tick can change between
  them. Examples are the order price (trader/order_manager.py:23 and :27), the take-profit's own
  tick (trader/order_manager.py:143) and the volume step (trader/order_manager.py:118). The exact
  take-profit distance stated by OrderManager.OpenRequestSideSelection and
  Validator.TakeProfitMeetsStopsLevel relies on this. On a live terminal the distance is the
  configured one plus whatever the tick moved between those reads.
- A tick or symbol query that returns `None` in the strategy and the order manager raises in the
  source. The model assumes a tick and symbol information are always present there.
- An `order_send` that returns `None` for an open order: trader/order_manager.py:43-44 then reads
  its comment and raises. Inside CheckSequence the error is caught; from the empty-sequence branch
  it ends `Run` (trader/strategy.py:98-102). Every reply in the model is present. Modify and close
  treat a missing reply as a failure, which a non-"done" reply models.
- Gateway.Terminal.WellFormed: every moment's symbol information is assumed to have a positive
  volume step and point size. The source divides by both without checking; a broker reporting 0
  would raise a division error that the model does not cover.
- The validator's `_calculate_volatility`, `_check_market_activity` and
  `_calculate_symbol_correlation` are not modelled: they use numpy over price history. Their results
  are inputs of the checks that use them.
- The wall-clock loop of `Run` is reduced to one pass (`RunPass`): the ten-second cycle and the
  two-second sleep are not modelled.
- `SequenceAnalysis.Run_Assessment`, `get_stats` and `is_running` are not modelled; they belong to
  the analysis and dashboard layers.
- Console output and the colour codes are not modelled, and message texts are not kept; each
  failure becomes a `Reason` tag.
- Floating-point rounding is not modelled; exact reals are used. In particular `volume % step != 0`
  becomes "not a whole multiple", so float remainder artefacts do not arise.
- Python's `random` and `datetime.now()` are not modelled; the draws and the clock reading are
  parameters with the source's ranges.
- pytz and daylight-saving rules are not modelled. Each session's UTC offset is part of the
  moment. A session's next opening keeps the offset of `dt`, so an opening just after a
  daylight-saving change is off by the change.
- Sub-second precision is not modelled: times are whole seconds. `is_weekend` is taken on the UTC
  date, which is how the code calls it.
- `account_manager.py`, `TradeInfo` and `Accounts_Data` are not part of this model. Nor are the
  database, analysis, ai and UI packages.
- TradingStrategy.Strategy.ProcessSequence: for a non-empty sequence, the sequence's final value is
  stated only as what the terminal showed at some moment of the step; the log is stated exactly.
- TradingStrategy.Strategy.RunPass: does not state the sequences or the performance counters after
  the pass; each refresh's fold is stated by UpdateSequenceTracking.
- TradingStrategy.Strategy.CheckModify: requires only a positive point size. It does not re-read the
  settings invariant, because it never opens an order.
- The validator's own terminal queries (account, symbol, tick, today's deals, open positions) are
  inputs of its checks; today's window is applied by the terminal and not modelled.
