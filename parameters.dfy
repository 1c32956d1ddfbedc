/** The engine's data model: settings, direction tags, position and sequence records,
    performance counters and the sizing and risk constants (trader/parameters.py). */
module Parameters {

  // Look-back and polling constants.
  const LookBackDays: int := 10
  const EventsPeriodSeconds: int := 10
  const AccountInfoUpdateIntervalSeconds: int := 60

  // Account risk limits, in percent.
  const MaxEquityDrawdown: real := 30.0
  const MaxDailyDrawdown: real := 60.0
  const MinEquityPercent: real := 20.0

  // Position management defaults.
  const BaseBalance: real := 3000.0
  const DefaultTpPoints: real := 80.0
  const DefaultMinDeviationDistance: real := 80.0
  const DefaultDeviationIncreaseFactor: real := 1.4

  /** The evaluation timeframes; each value is a number of minutes. */
  datatype Timeframe =
    | Min | FiveMin | FifteenMin | ThirtyMin | Hour | TwoHour | ThreeHour | FourHour
  {
    function Minutes(): (m: int)
      ensures 1 <= m <= 240
      ensures this == Min <==> m == 1
      ensures this == Hour <==> m == 60
      ensures this == ThreeHour <==> m == 180
      ensures this == FourHour <==> m == 240
    {
      match this
      case Min => 1
      case FiveMin => 5
      case FifteenMin => 15
      case ThirtyMin => 30
      case Hour => 60
      case TwoHour => 120
      case ThreeHour => 180
      case FourHour => 240
    }

    /** What the engine and the validator compare elapsed seconds against. */
    function Seconds(): int
    {
      Minutes() * 60
    }
  }

  /** Distinct timeframes are distinct numbers of minutes. */
  lemma TimeframeMinutesInjective(a: Timeframe, b: Timeframe)
    requires a.Minutes() == b.Minutes()
    ensures a == b
  {
  }

  const TradingPeriod: Timeframe := Min

  /** The direction of a sequence: the text "Buy" or "Sell" of `Sequence.type`. */
  datatype Direction = Buy | Sell {
    /** The strategy tag (MetaTrader "magic number") the direction stamps on its orders. */
    function Magic(): int
    {
      if Buy? then BuyMagic else SellMagic
    }
  }

  const BuyMagic: int := 1231
  const SellMagic: int := 1832

  /** The direction that owns a tag, if any. */
  function DirectionOfMagic(magic: int): (d: Option<Direction>)
    ensures forall dir: Direction :: d == Some(dir) <==> dir.Magic() == magic
  {
    if magic == BuyMagic then Some(Buy)
    else if magic == SellMagic then Some(Sell)
    else None
  }

  datatype Option<T> = None | Some(value: T)

  /** The logic settings; set once at start-up. */
  datatype LogicSettings = LogicSettings(
    isBotActivated: bool,
    isBuysActivated: bool,
    isSellsActivated: bool,
    timeFrame: Timeframe,
    drawdownMaxEquity: real,
    drawdownMaxDaily: real,
    drawdownMinEquity: real,
    drawdownMinBalance: real,
    drawdownMinProfit: real,
    baseBalance: real,
    takeProfitPoints: real,
    maxPositions: int,
    minDevDistance: real,
    devIncreaseFactor: real)

  /** The per-account parameters read from the account file. */
  datatype AccountSpecificParameters = AccountSpecificParameters(
    symbol: string,
    tpPoints: real,
    maxPositions: int,
    minDeviationDistance: real,
    deviationIncreaseFactor: real)

  /** The settings a strategy starts with: its own defaults overwritten from the account parameters
      (InitParameters), fixing the base balance and a three-hour timeframe. */
  function InitParameters(p: AccountSpecificParameters): (s: LogicSettings)
    ensures s.isBotActivated && s.isBuysActivated && s.isSellsActivated
    ensures s.timeFrame.Seconds() == 3 * 60 * 60
    ensures s.baseBalance == BaseBalance
    ensures s.takeProfitPoints == p.tpPoints && s.maxPositions == p.maxPositions
    ensures s.minDevDistance == p.minDeviationDistance && s.devIncreaseFactor == p.deviationIncreaseFactor
  {
    LogicSettings(true, true, true, ThreeHour, 0.0, 0.0, 0.0, 0.0, 0.0,
                  BaseBalance, p.tpPoints, p.maxPositions, p.minDeviationDistance, p.deviationIncreaseFactor)
  }

  /** A snapshot of one filled position. */
  datatype PositionInfo = PositionInfo(
    orderType: int,
    volume: real,
    profit: real,
    entryPrice: real,
    takeProfit: real,
    magicNumber: int,
    ticketNumber: int,
    entryTime: int,
    symbol: string,
    comment: string)

  /** `PositionInfo()`: every field at its default. */
  function DefaultPosition(): PositionInfo
  {
    PositionInfo(0, 0.0, 0.0, 0.0, 0.0, 0, 0, 0, "", "")
  }

  /** A take-profit of 0.0 is the "no take-profit set" sentinel. */
  predicate HasTakeProfit(p: PositionInfo)
  {
    p.takeProfit != 0.0
  }

  /** A default position has nothing set: no volume, no price, no take-profit, no tag. */
  lemma DefaultPositionIsBlank()
    ensures var p := DefaultPosition();
      p.volume == 0.0 && p.profit == 0.0 && p.entryPrice == 0.0 && p.entryTime == 0 &&
      p.magicNumber == 0 && p.ticketNumber == 0 && !HasTakeProfit(p) &&
      DirectionOfMagic(p.magicNumber) == None
  {
  }

  function SumProfit(ps: seq<PositionInfo>): real
  {
    if |ps| == 0 then 0.0 else SumProfit(ps[..|ps| - 1]) + ps[|ps| - 1].profit
  }

  function SumVolume(ps: seq<PositionInfo>): real
  {
    if |ps| == 0 then 0.0 else SumVolume(ps[..|ps| - 1]) + ps[|ps| - 1].volume
  }

  lemma SumsOfAppend(ps: seq<PositionInfo>, p: PositionInfo)
    ensures SumProfit(ps + [p]) == SumProfit(ps) + p.profit
    ensures SumVolume(ps + [p]) == SumVolume(ps) + p.volume
  {
    assert (ps + [p])[..|ps|] == ps;
  }

  /** One chain of same-direction positions. */
  datatype Sequence = Sequence(
    id: string,
    dir: Direction,
    profit: real,
    volume: real,
    positions: seq<PositionInfo>,
    lastPosition: PositionInfo)

  /** The aggregates agree with the positions, as every tracking refresh leaves them. */
  predicate Consistent(s: Sequence)
  {
    s.profit == SumProfit(s.positions) && s.volume == SumVolume(s.positions)
  }

  /** `Sequence(type=...)` as the strategy creates it. */
  function NewSequence(dir: Direction): Sequence
  {
    Sequence("", dir, 0.0, 0.0, [], DefaultPosition())
  }

  /** A fresh sequence is empty, has no id, and is already consistent. */
  lemma NewSequenceIsEmpty(dir: Direction)
    ensures var s := NewSequence(dir);
      s.dir == dir && s.id == "" && s.positions == [] && Consistent(s) &&
      s.profit == 0.0 && s.volume == 0.0 && s.lastPosition == DefaultPosition()
  {
  }

  datatype AccountStatistics = AccountStatistics(
    accountNumber: int,
    accountName: string,
    currency: string,
    accountType: string,
    accountMode: int,
    server: string,
    deposit: real,
    balance: real,
    balancePercent: real,
    equity: real,
    equityPercent: real,
    profit: real,
    floatingProfit: real)

  function DefaultAccountStatistics(): AccountStatistics
  {
    AccountStatistics(0, "", "", "", 0, "", 0.0, 0.0, 0.0, 0.0, 0.0, 0.0, 0.0)
  }

  /** The performance counters ("Loosers" and "LoosePercent" keep the source's spelling). */
  datatype Metrics = Metrics(
    wins: nat,
    winPercent: real,
    loosers: nat,
    loosePercent: real,
    maxDrawdown: real,
    maxDailyDrawdown: real,
    currDrawdown: real,
    profitFactor: real,
    sharpeRatio: real,
    avgTradeProfit: real,
    riskRewardRatio: real,
    totalWinAmount: real,
    totalLossAmount: real,
    avgWinAmount: real,
    avgLossAmount: real)

  function DefaultMetrics(): Metrics
  {
    Metrics(0, 0.0, 0, 0.0, 0.0, 0.0, 0.0, 0.0, 0.0, 0.0, 0.0, 0.0, 0.0, 0.0, 0.0)
  }
}
