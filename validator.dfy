/** The pre-trade validator (trader/validator.py): a set of independent checks, each an early-return
    chain of threshold comparisons. What a check reads from the terminal is an argument; a value
    the terminal may fail to return is an `Option`. The validator is not called by the strategy. */
module Validator {
  import opened Numeric
  import opened Parameters
  import opened Gateway
  import opened OrderManager
  import opened StrategyRules

  // Thresholds set in the validator's constructor.
  const MaxPositionsPerSymbol: int := 5
  const MaxDailyTrades: int := 20
  const MinRiskRewardRatio: real := 1.5
  const MaxCorrelationThreshold: real := 0.7
  const VolatilityThreshold: real := 0.002
  const MinDailyVolume: int := 1000
  const MaxSpreadPercent: real := 0.1
  const MinMarketActivity: int := 100

  /** Why a check failed; each reason stands for one of the source's messages. `Error` is an
      exception the check caught (a division by zero, a missing tick). */
  datatype Reason =
    | NoAccount
    | EquityBelowMinimum
    | EquityDrawdownExceeded
    | DailyDrawdownExceeded
    | InvalidSymbol
    | VolumeOutOfRange
    | VolumeNotMultipleOfStep
    | InvalidPriceLevels
    | MaxPositionsReached
    | TotalVolumeExceeded
    | MinimumTimeNotMet
    | RiskPerTradeExceeded
    | TotalRiskExceeded
    | MarketClosed
    | NoMarketData
    | SpreadTooWide
    | VolumeTooLow
    | VolatilityTooHigh
    | ActivityTooLow
    | HighCorrelation
    | MaxDailyTradesReached
    | MaxSymbolPositionsReached
    | RiskRewardTooLow
    | SequenceLossExceeded
    | Error

  /** `ValidationResult`: valid, or invalid for a reason. */
  datatype ValidationResult = Passed | Failed(reason: Reason)

  /** The equity as a percentage of the balance; 0 for a zero balance. */
  function EquityPercent(a: AccountInfo): real
  {
    if a.balance != 0.0 then a.equity / a.balance * 100.0 else 0.0
  }

  /** The equity drawdown as a percentage of the balance; 0 for a zero balance. */
  function EquityDrawdown(a: AccountInfo): real
  {
    if a.balance != 0.0 then (a.balance - a.equity) / a.balance * 100.0 else 0.0
  }

  function SumDealProfit(ds: seq<Deal>): real
  {
    if |ds| == 0 then 0.0 else SumDealProfit(ds[..|ds| - 1]) + ds[|ds| - 1].profit
  }

  /** `_calculate_daily_drawdown`: today's deal profit relative to the balance the day started
      with, as an absolute percentage. */
  function DailyDrawdown(todayDeals: Option<seq<Deal>>, account: Option<AccountInfo>): (d: real)
    ensures d >= 0.0
    ensures todayDeals.None? || account.None? ==> d == 0.0
    ensures todayDeals.Some? && account.Some? && account.value.balance - SumDealProfit(todayDeals.value) == 0.0 ==> d == 0.0
  {
    if todayDeals.None? then 0.0
    else
      var dailyPnl := SumDealProfit(todayDeals.value);
      if account.None? then 0.0
      else
        var startingBalance := account.value.balance - dailyPnl;
        if startingBalance == 0.0 then 0.0 else Abs(dailyPnl / startingBalance * 100.0)
  }

  /** `_get_daily_trade_count`: every deal of today counts; none when the terminal returns none. */
  function DailyTradeCount(todayDeals: Option<seq<Deal>>): (n: nat)
    ensures todayDeals.Some? ==> n == |todayDeals.value|
    ensures todayDeals.None? ==> n == 0
  {
    if todayDeals.None? then 0 else |todayDeals.value|
  }

  /** `_get_max_allowed_volume`: one lot per hundred thousand of equity; 0 without an account. */
  function MaxAllowedVolume(account: Option<AccountInfo>): real
  {
    if account.None? then 0.0 else account.value.equity / 100000.0
  }

  /** `_validate_price_levels`: a stop-loss or take-profit closer to the price than the broker's
      stops level (in points) is refused, on the losing and winning side of each direction; a zero
      level is not checked; other order types pass; without a tick nothing passes. */
  function PriceLevelsValid(info: SymbolInfo, tick: Option<Tick>, orderType: int, price: real, sl: real, tp: real): bool
  {
    if tick.None? then false
    else
      var minStopLevel := info.point * info.stopsLevel as real;
      if orderType == OrderTypeBuy then
        !(sl > 0.0 && price - sl < minStopLevel) && !(tp > 0.0 && tp - price < minStopLevel)
      else if orderType == OrderTypeSell then
        !(sl > 0.0 && sl - price < minStopLevel) && !(tp > 0.0 && price - tp < minStopLevel)
      else true
  }

  /** The volume-weighted sum of entry prices. */
  function WeightedEntry(ps: seq<PositionInfo>): real
  {
    if |ps| == 0 then 0.0 else WeightedEntry(ps[..|ps| - 1]) + ps[|ps| - 1].entryPrice * ps[|ps| - 1].volume
  }

  function MinEntry(ps: seq<PositionInfo>): real
    requires |ps| > 0
  {
    if |ps| == 1 then ps[0].entryPrice
    else
      var m := MinEntry(ps[..|ps| - 1]);
      if ps[|ps| - 1].entryPrice < m then ps[|ps| - 1].entryPrice else m
  }

  function MaxEntry(ps: seq<PositionInfo>): real
    requires |ps| > 0
  {
    if |ps| == 1 then ps[0].entryPrice
    else
      var m := MaxEntry(ps[..|ps| - 1]);
      if ps[|ps| - 1].entryPrice > m then ps[|ps| - 1].entryPrice else m
  }

  /** `_calculate_risk_reward_ratio`: the distance from the average entry to the price the
      sequence would close at, over the distance from the average entry to the worst entry; 0 for
      an empty sequence, a zero total volume (the division error is caught), no tick, or no risk. */
  function RiskRewardRatio(s: Sequence, tick: Option<Tick>): real
  {
    if |s.positions| == 0 || SumVolume(s.positions) == 0.0 || tick.None? then 0.0
    else
      var avgEntry := WeightedEntry(s.positions) / SumVolume(s.positions);
      var currentPrice := if s.dir == Buy then tick.value.bid else tick.value.ask;
      var reward := if s.dir == Buy then currentPrice - avgEntry else avgEntry - currentPrice;
      var risk := if s.dir == Buy then avgEntry - MinEntry(s.positions) else MaxEntry(s.positions) - avgEntry;
      if risk > 0.0 then reward / risk else 0.0
  }

  function SymbolPositionCount(ps: seq<PositionInfo>, symbol: string): nat
  {
    if |ps| == 0 then 0
    else SymbolPositionCount(ps[..|ps| - 1], symbol) + if ps[|ps| - 1].symbol == symbol then 1 else 0
  }

  /** The total exposure of a sequence: one percent of volume times entry price, summed. */
  function TotalRisk(ps: seq<PositionInfo>): real
  {
    if |ps| == 0 then 0.0 else TotalRisk(ps[..|ps| - 1]) + ps[|ps| - 1].volume * ps[|ps| - 1].entryPrice * 0.01
  }

  /** `TradingValidator`: the account snapshot and settings it was built with; one function per check. */
  datatype TradingValidator = TradingValidator(accountStats: AccountStatistics, settings: LogicSettings)
  {
    /** `validate_account_conditions`: the first failure of: no account, equity below 20% of the
        balance, equity drawdown above 30%, daily drawdown above 60%. */
    function ValidateAccountConditions(account: Option<AccountInfo>, todayDeals: Option<seq<Deal>>): (r: ValidationResult)
      ensures account.None? ==> r == Failed(NoAccount)
      ensures account.Some? && account.value.balance == 0.0 ==> r == Failed(EquityBelowMinimum)
      ensures r != Failed(Error)
    {
      if account.None? then Failed(NoAccount)
      else if EquityPercent(account.value) < MinEquityPercent then Failed(EquityBelowMinimum)
      else if EquityDrawdown(account.value) > MaxEquityDrawdown then Failed(EquityDrawdownExceeded)
      else if DailyDrawdown(todayDeals, account) > MaxDailyDrawdown then Failed(DailyDrawdownExceeded)
      else Passed
    }

    /** `validate_order_parameters`: the symbol must exist, the volume must lie within the broker's
        bounds and be a whole number of volume steps (a zero step is a caught division error),
        and the price levels decide the rest. */
    function ValidateOrderParameters(info: Option<SymbolInfo>, tick: Option<Tick>, orderType: int,
                                     volume: real, price: real, sl: real, tp: real): (r: ValidationResult)
      ensures info.None? ==> r == Failed(InvalidSymbol)
      ensures r == Passed <==>
        info.Some? && info.value.volumeMin <= volume <= info.value.volumeMax &&
        info.value.volumeStep != 0.0 && MultipleOf(volume, info.value.volumeStep) &&
        PriceLevelsValid(info.value, tick, orderType, price, sl, tp)
    {
      if info.None? then Failed(InvalidSymbol)
      else if volume < info.value.volumeMin || volume > info.value.volumeMax then Failed(VolumeOutOfRange)
      else if info.value.volumeStep == 0.0 then Failed(Error)
      else if !MultipleOf(volume, info.value.volumeStep) then Failed(VolumeNotMultipleOfStep)
      else if !PriceLevelsValid(info.value, tick, orderType, price, sl, tp) then Failed(InvalidPriceLevels)
      else Passed
    }

    /** `validate_sequence`: fewer positions than the maximum, a total volume within what the equity
        allows, and for a non-empty sequence at least one timeframe since the last entry (a missing
        tick there is a caught error). */
    function ValidateSequence(s: Sequence, account: Option<AccountInfo>, tick: Option<Tick>): (r: ValidationResult)
      ensures |s.positions| >= settings.maxPositions ==> r == Failed(MaxPositionsReached)
      ensures r == Passed <==>
        |s.positions| < settings.maxPositions && SumVolume(s.positions) <= MaxAllowedVolume(account) &&
        (|s.positions| > 0 ==> tick.Some? && tick.value.time - s.lastPosition.entryTime >= settings.timeFrame.Seconds())
    {
      if |s.positions| >= settings.maxPositions then Failed(MaxPositionsReached)
      else if SumVolume(s.positions) > MaxAllowedVolume(account) then Failed(TotalVolumeExceeded)
      else if |s.positions| > 0 && tick.None? then Failed(Error)
      else if |s.positions| > 0 && tick.value.time - s.lastPosition.entryTime < settings.timeFrame.Minutes() * 60 then
        Failed(MinimumTimeNotMet)
      else Passed
    }

    /** `validate_risk_parameters`: the new position's exposure (one percent of volume times the
        last entry price) within 2% of the balance, and the sequence's within 6%. */
    function ValidateRiskParameters(newVolume: real, s: Sequence, account: Option<AccountInfo>): (r: ValidationResult)
      ensures account.None? ==> r == Failed(NoAccount)
      ensures r == Passed <==>
        account.Some? && newVolume * s.lastPosition.entryPrice * 0.01 <= account.value.balance * 0.02 &&
        TotalRisk(s.positions) <= account.value.balance * 0.06
    {
      if account.None? then Failed(NoAccount)
      else if newVolume * s.lastPosition.entryPrice * 0.01 > account.value.balance * 0.02 then Failed(RiskPerTradeExceeded)
      else if TotalRisk(s.positions) > account.value.balance * 0.06 then Failed(TotalRiskExceeded)
      else Passed
    }

    /** `validate_market_conditions`: the symbol exists and fully tradable, a tick exists, the spread
        is at most 0.1% of the bid (a zero bid is a caught division error), the tick volume at least
        1000, the volatility at most 0.002 and the activity at least 100 ticks. The volatility and
        the activity are computed outside this model and given as numbers. */
    function ValidateMarketConditions(info: Option<SymbolInfo>, tick: Option<Tick>, volatility: real, activity: int): (r: ValidationResult)
      ensures info.None? ==> r == Failed(InvalidSymbol)
      ensures r == Passed <==>
        info.Some? && info.value.tradeMode == SymbolTradeModeFull && tick.Some? && tick.value.bid != 0.0 &&
        (tick.value.ask - tick.value.bid) / tick.value.bid * 100.0 <= MaxSpreadPercent &&
        tick.value.volume >= MinDailyVolume && volatility <= VolatilityThreshold && activity >= MinMarketActivity
    {
      if info.None? then Failed(InvalidSymbol)
      else if info.value.tradeMode != SymbolTradeModeFull then Failed(MarketClosed)
      else if tick.None? then Failed(NoMarketData)
      else if tick.value.bid == 0.0 then Failed(Error)
      else if (tick.value.ask - tick.value.bid) / tick.value.bid * 100.0 > MaxSpreadPercent then Failed(SpreadTooWide)
      else if tick.value.volume < MinDailyVolume then Failed(VolumeTooLow)
      else if volatility > VolatilityThreshold then Failed(VolatilityTooHigh)
      else if activity < MinMarketActivity then Failed(ActivityTooLow)
      else Passed
    }

    /** `validate_position_correlation`: only a non-empty sequence, with some open position in the
        account, is checked; the highest correlation, computed outside this model, must not exceed 0.7. */
    function ValidatePositionCorrelation(s: Sequence, positions: Option<seq<TerminalPosition>>, correlation: real): (r: ValidationResult)
      ensures r == Failed(HighCorrelation) <==>
        |s.positions| > 0 && positions.Some? && |positions.value| > 0 && correlation > MaxCorrelationThreshold
      ensures r == Passed || r == Failed(HighCorrelation)
    {
      if |s.positions| == 0 then Passed
      else if positions.None? then Passed
      else if |positions.value| > 0 && correlation > MaxCorrelationThreshold then Failed(HighCorrelation)
      else Passed
    }

    /** `validate_advanced_risk`: fewer than 20 deals today, fewer than 5 of the sequence's positions
        on the symbol, a risk/reward ratio of at least 1.5 for a non-empty sequence, and a sequence
        loss within 2% of the balance. */
    function ValidateAdvancedRisk(symbol: string, s: Sequence, todayDeals: Option<seq<Deal>>, tick: Option<Tick>): (r: ValidationResult)
      ensures DailyTradeCount(todayDeals) >= MaxDailyTrades ==> r == Failed(MaxDailyTradesReached)
      ensures r == Passed <==>
        DailyTradeCount(todayDeals) < MaxDailyTrades &&
        SymbolPositionCount(s.positions, symbol) < MaxPositionsPerSymbol &&
        (|s.positions| > 0 ==> RiskRewardRatio(s, tick) >= MinRiskRewardRatio) &&
        s.profit >= -(accountStats.balance * 0.02)
    {
      if DailyTradeCount(todayDeals) >= MaxDailyTrades then Failed(MaxDailyTradesReached)
      else if SymbolPositionCount(s.positions, symbol) >= MaxPositionsPerSymbol then Failed(MaxSymbolPositionsReached)
      else if |s.positions| > 0 && RiskRewardRatio(s, tick) < MinRiskRewardRatio then Failed(RiskRewardTooLow)
      else if s.profit < -(accountStats.balance * 0.02) then Failed(SequenceLossExceeded)
      else Passed
    }
  }

  // ---- What the checks mean ----

  lemma DivLessIff(x: real, b: real, c: real)
    requires b > 0.0
    ensures x / b * 100.0 < c <==> x < c / 100.0 * b
  {
    var q := x / b;
    assert x == q * b;
    if q * 100.0 < c {
      assert q < c / 100.0;
      assert q * b < c / 100.0 * b;
    } else {
      assert q >= c / 100.0;
      assert q * b >= c / 100.0 * b;
    }
  }

  /** For a positive balance the account check passes exactly when the equity is at least 70% of
      the balance (the 20% floor is then already met) and the daily drawdown is within 60%. */
  lemma AccountCheckMeansSeventyPercentEquity(v: TradingValidator, a: AccountInfo, todayDeals: Option<seq<Deal>>)
    requires a.balance > 0.0
    ensures v.ValidateAccountConditions(Some(a), todayDeals) == Passed <==>
      a.equity >= 0.7 * a.balance && DailyDrawdown(todayDeals, Some(a)) <= MaxDailyDrawdown
  {
    DivLessIff(a.equity, a.balance, 20.0);
    DivLessIff(a.balance - a.equity, a.balance, 30.0);
    assert EquityDrawdown(a) > 30.0 <==> !((a.balance - a.equity) / a.balance * 100.0 < 30.0 || (a.balance - a.equity) / a.balance * 100.0 == 30.0);
    var q := (a.balance - a.equity) / a.balance;
    assert q * a.balance == a.balance - a.equity;
    assert q * 100.0 == 30.0 <==> a.balance - a.equity == 0.3 * a.balance;
  }

  /** An equity of 15% of a positive balance is refused for that reason. */
  lemma FifteenPercentEquityRefused(v: TradingValidator, a: AccountInfo, todayDeals: Option<seq<Deal>>)
    requires a.balance > 0.0 && a.equity == 0.15 * a.balance
    ensures v.ValidateAccountConditions(Some(a), todayDeals) == Failed(EquityBelowMinimum)
  {
    assert a.equity / a.balance == 0.15;
  }

  /** A profitable day counts as drawdown too: the percentage is taken absolutely. */
  lemma ProfitableDayHasDrawdown(ds: seq<Deal>, a: AccountInfo)
    requires SumDealProfit(ds) > 0.0 && a.balance - SumDealProfit(ds) > 0.0
    ensures DailyDrawdown(Some(ds), Some(a)) > 0.0
  {
    var pnl := SumDealProfit(ds);
    var start := a.balance - pnl;
    assert pnl / start > 0.0;
  }

  /** The engine's own open request passes the volume-step test, so the order check of an open
      request is decided by the volume bounds and the price levels alone. */
  lemma OpenRequestOrderCheck(v: TradingValidator, s: Sequence, view: View, balance: real, settings: LogicSettings, point: real)
    requires view.info.volumeStep > 0.0
    requires settings.baseBalance != 0.0 && LotDefined(s, settings)
    ensures var r := OpenRequest(s, view, balance, settings, point);
      v.ValidateOrderParameters(Some(view.info), Some(view.tick), r.orderType, r.volume, r.price, 0.0, r.tp) == Passed <==>
        view.info.volumeMin <= r.volume <= view.info.volumeMax &&
        PriceLevelsValid(view.info, Some(view.tick), r.orderType, r.price, 0.0, r.tp)
  {
    OpenRequestSideSelection(s, view, balance, settings, point);
  }

  lemma ScaleLessIff(a: real, b: real, p: real)
    requires p > 0.0
    ensures a * p < b * p <==> a < b
  {
    if a < b {
      assert (b - a) * p > 0.0;
    } else {
      assert (a - b) * p >= 0.0;
    }
  }

  /** The take-profit the engine places passes the price-level check exactly when its distance in
      points reaches the broker's stops level (Buy at the ask; Sell at the bid with a positive
      take-profit). */
  lemma TakeProfitMeetsStopsLevel(dir: Direction, info: SymbolInfo, tick: Tick, tpPoints: real)
    requires info.point > 0.0
    requires dir == Buy ==> tick.ask + tpPoints * info.point > 0.0
    requires dir == Sell ==> tick.bid - tpPoints * info.point > 0.0
    ensures var price := EntryPrice(dir, tick);
      PriceLevelsValid(info, Some(tick), OrderTypeOf(dir), price, 0.0, TakeProfit(dir, tick, tpPoints, info.point)) <==>
        tpPoints >= info.stopsLevel as real
  {
    var price := EntryPrice(dir, tick);
    var tp := TakeProfit(dir, tick, tpPoints, info.point);
    var distance := tpPoints * info.point;
    var minStopLevel := info.point * info.stopsLevel as real;
    ScaleLessIff(tpPoints, info.stopsLevel as real, info.point);
    assert minStopLevel == info.stopsLevel as real * info.point;
    if dir == Buy {
      assert tp - price == distance;
      assert PriceLevelsValid(info, Some(tick), OrderTypeBuy, price, 0.0, tp) <==> !(distance < minStopLevel);
    } else {
      assert price - tp == distance;
      assert PriceLevelsValid(info, Some(tick), OrderTypeSell, price, 0.0, tp) <==> !(distance < minStopLevel);
    }
  }

  /** The strategy's own gate and the validator disagree at the limit: a sequence holding exactly
      the maximum number of positions is refused by the validator, yet the strategy's gates add a
      position to it whenever its price and time gates hold. */
  lemma GatesAdmitWhatValidatorRefuses(v: TradingValidator, s: Sequence, tick: Tick, point: real, f: real, r: int,
                                       account: Option<AccountInfo>)
    requires point > 0.0
    requires |s.positions| == v.settings.maxPositions && s.profit <= 0.0
    requires Abs(GatePrice(s.dir, tick) - s.lastPosition.entryPrice) / point >= Deviation(|s.positions|, v.settings.minDevDistance, f)
    requires IntAbs(tick.time - s.lastPosition.entryTime) >= TimeDifference(v.settings.timeFrame, r)
    ensures v.ValidateSequence(s, account, Some(tick)) == Failed(MaxPositionsReached)
    ensures AddGatesPass(s, tick, v.settings, point, f, r)
  {
    GatesAdmitOneBeyondMaximum(s, tick, v.settings, point, f, r);
  }

  /** Without an account no volume is allowed, so a sequence holding any volume is refused. */
  lemma NoAccountRefusesVolume(v: TradingValidator, s: Sequence, tick: Option<Tick>)
    requires SumVolume(s.positions) > 0.0
    ensures v.ValidateSequence(s, None, tick).Failed?
  {
  }

  /** The per-trade risk test is monotone: a smaller new volume passes whenever a larger one does. */
  lemma RiskCheckMonotoneInVolume(v: TradingValidator, small: real, large: real, s: Sequence, a: AccountInfo)
    requires 0.0 <= small <= large && s.lastPosition.entryPrice >= 0.0
    requires v.ValidateRiskParameters(large, s, Some(a)) == Passed
    ensures v.ValidateRiskParameters(small, s, Some(a)) == Passed
  {
    assert small * s.lastPosition.entryPrice <= large * s.lastPosition.entryPrice;
  }

  /** A zero bid is a caught division error once the symbol is tradable and a tick exists. */
  lemma ZeroBidIsAnError(v: TradingValidator, info: SymbolInfo, tick: Tick, volatility: real, activity: int)
    requires info.tradeMode == SymbolTradeModeFull && tick.bid == 0.0
    ensures v.ValidateMarketConditions(Some(info), Some(tick), volatility, activity) == Failed(Error)
  {
  }

  // ---- The average entry ----

  predicate NonNegativeVolumes(ps: seq<PositionInfo>)
  {
    forall i :: 0 <= i < |ps| ==> ps[i].volume >= 0.0
  }

  lemma MulMono(e: real, m: real, vol: real)
    requires vol >= 0.0 && e >= m
    ensures e * vol >= m * vol
  {
    assert (e - m) * vol >= 0.0;
  }

  /** One more position keeps the weighted sum between the bounds, over plain numbers. */
  lemma BoundsStep(w: real, total: real, lo0: real, hi0: real, lo: real, hi: real, e: real, vol: real, w1: real, total1: real)
    requires lo0 * total <= w <= hi0 * total
    requires total >= 0.0 && vol >= 0.0
    requires lo <= lo0 && lo <= e && hi >= hi0 && hi >= e
    requires w1 == w + e * vol && total1 == total + vol
    ensures lo * total1 <= w1 <= hi * total1
  {
    MulMono(lo0, lo, total);
    MulMono(hi, hi0, total);
    MulMono(e, lo, vol);
    MulMono(hi, e, vol);
    calc {
      lo * total1;
    ==
      lo * total + lo * vol;
    <=
      w + e * vol;
    ==
      w1;
    }
    calc {
      w1;
    ==
      w + e * vol;
    <=
      hi * total + hi * vol;
    ==
      hi * total1;
    }
  }

  /** The weighted sum lies between the smallest and the largest entry times the total volume. */
  lemma {:induction false} WeightedEntryBounds(ps: seq<PositionInfo>)
    requires |ps| > 0 && NonNegativeVolumes(ps)
    ensures MinEntry(ps) * SumVolume(ps) <= WeightedEntry(ps) <= MaxEntry(ps) * SumVolume(ps)
  {
    var last := ps[|ps| - 1];
    var init := ps[..|ps| - 1];
    if |ps| == 1 {
      assert init == [];
      MulMono(last.entryPrice, last.entryPrice, last.volume);
    } else {
      assert NonNegativeVolumes(init) by {
        forall i | 0 <= i < |init| ensures init[i].volume >= 0.0 {
          assert init[i] == ps[i];
        }
      }
      WeightedEntryBounds(init);
      SumVolumeNonNegative(init);
      BoundsStep(WeightedEntry(init), SumVolume(init), MinEntry(init), MaxEntry(init),
        MinEntry(ps), MaxEntry(ps), last.entryPrice, last.volume, WeightedEntry(ps), SumVolume(ps));
    }
  }

  lemma {:induction false} SumVolumeNonNegative(ps: seq<PositionInfo>)
    requires NonNegativeVolumes(ps)
    ensures SumVolume(ps) >= 0.0
  {
    if |ps| > 0 {
      var init := ps[..|ps| - 1];
      assert forall i :: 0 <= i < |init| ==> init[i] == ps[i];
      SumVolumeNonNegative(init);
    }
  }

  /** With non-negative volumes summing to more than zero, the average entry lies between the
      smallest and the largest entry, so the risk of either direction is never negative. */
  lemma AverageEntryBetweenExtremes(ps: seq<PositionInfo>)
    requires |ps| > 0 && NonNegativeVolumes(ps) && SumVolume(ps) > 0.0
    ensures MinEntry(ps) <= WeightedEntry(ps) / SumVolume(ps) <= MaxEntry(ps)
  {
    WeightedEntryBounds(ps);
    DivBetween(WeightedEntry(ps), SumVolume(ps), MinEntry(ps), MaxEntry(ps));
  }

  lemma DivBetween(w: real, total: real, lo: real, hi: real)
    requires total > 0.0 && lo * total <= w <= hi * total
    ensures lo <= w / total <= hi
  {
    var avg := w / total;
    assert avg * total == w;
    ScaleLessIff(avg, lo, total);
    ScaleLessIff(hi, avg, total);
  }

  /** All entries equal: the average is that entry. */
  lemma {:induction false} EqualEntriesAverage(ps: seq<PositionInfo>, e: real)
    requires forall i :: 0 <= i < |ps| ==> ps[i].entryPrice == e
    ensures WeightedEntry(ps) == e * SumVolume(ps)
    ensures |ps| > 0 ==> MinEntry(ps) == e && MaxEntry(ps) == e
  {
    if |ps| > 0 {
      var init := ps[..|ps| - 1];
      assert forall i :: 0 <= i < |init| ==> init[i] == ps[i];
      EqualEntriesAverage(init, e);
      if |ps| == 1 {
        assert init == [];
      }
    }
  }

  /** A sequence whose entries are all equal (one position in particular) carries no risk, so its
      ratio is 0 and it never passes the advanced risk check once the earlier limits are met. */
  lemma EqualEntriesFailAdvancedRisk(v: TradingValidator, symbol: string, s: Sequence, e: real,
                                     todayDeals: Option<seq<Deal>>, tick: Option<Tick>)
    requires |s.positions| > 0
    requires forall i :: 0 <= i < |s.positions| ==> s.positions[i].entryPrice == e
    requires DailyTradeCount(todayDeals) < MaxDailyTrades
    requires SymbolPositionCount(s.positions, symbol) < MaxPositionsPerSymbol
    ensures RiskRewardRatio(s, tick) == 0.0
    ensures v.ValidateAdvancedRisk(symbol, s, todayDeals, tick) == Failed(RiskRewardTooLow)
  {
    EqualEntriesAverage(s.positions, e);
    if SumVolume(s.positions) != 0.0 {
      assert WeightedEntry(s.positions) / SumVolume(s.positions) == e;
    }
  }
}
