/** The value-level rules of the trading strategy (trader/strategy.py): the sequence identifier,
    the add-position gates, the take-profit alignment, the close and trailing thresholds and the
    performance counters. The strategy class applies them to its state. */
module StrategyRules {
  import opened Numeric
  import opened Parameters
  import opened Gateway
  import opened OrderManager
  import opened Tracking

  // ---- GenerateSequenceIdentifier ----

  /** The wall-clock minute the identifier is stamped with. */
  datatype Stamp = Stamp(year: int, month: int, day: int, hour: int, minute: int)

  predicate ValidStamp(c: Stamp)
  {
    0 <= c.year && 1 <= c.month <= 12 && 1 <= c.day <= 31 && 0 <= c.hour <= 23 && 0 <= c.minute <= 59
  }

  function Digit(d: int): char
    requires 0 <= d <= 9
  {
    ('0' as int + d) as char
  }

  predicate IsDigit(ch: char)
  {
    '0' <= ch <= '9'
  }

  function DigitValue(ch: char): int
  {
    ch as int - '0' as int
  }

  /** A zero-padded two-digit field. */
  function TwoDigits(n: int): string
    requires 0 <= n <= 99
  {
    [Digit(n / 10), Digit(n % 10)]
  }

  /** A zero-padded three-digit field. */
  function ThreeDigits(n: int): string
    requires 0 <= n <= 999
  {
    [Digit(n / 100), Digit(n / 10 % 10), Digit(n % 10)]
  }

  /** `%y%m%d%H%M`. */
  function StampText(c: Stamp): string
    requires ValidStamp(c)
  {
    TwoDigits(c.year % 100) + TwoDigits(c.month) + TwoDigits(c.day) + TwoDigits(c.hour) + TwoDigits(c.minute)
  }

  /** The identifier of a new sequence: the stamp, 'B' or 'S', a three-digit draw from 1..999 and a
      two-digit draw from 10..99. */
  function SequenceIdentifier(dir: Direction, c: Stamp, seqNo: int, hash: int): (id: string)
    requires ValidStamp(c) && 1 <= seqNo <= 999 && 10 <= hash <= 99
    ensures |id| == IdLength
    ensures id[10] == 'B' <==> dir == Buy
    ensures id[10] == 'S' <==> dir == Sell
    ensures forall i :: 0 <= i < |id| && i != 10 ==> IsDigit(id[i])
  {
    StampText(c) + [if dir == Buy then 'B' else 'S'] + ThreeDigits(seqNo) + TwoDigits(hash)
  }

  /** The decimal value of a string of digits. */
  function NumberOf(s: string): int
  {
    if |s| == 0 then 0 else NumberOf(s[..|s| - 1]) * 10 + DigitValue(s[|s| - 1])
  }

  /** The fields an identifier carries. */
  datatype IdFields = IdFields(dir: Direction, year: int, month: int, day: int, hour: int, minute: int, seqNo: int, hash: int)

  /** Reads the fields back out of an identifier; None unless it is sixteen characters long, has
      'B' or 'S' at index 10 and digits everywhere else. */
  function ParseIdentifier(id: string): Option<IdFields>
  {
    if |id| != IdLength || !(id[10] == 'B' || id[10] == 'S') then None
    else if exists i :: 0 <= i < |id| && i != 10 && !IsDigit(id[i]) then None
    else Some(IdFields(if id[10] == 'B' then Buy else Sell,
      NumberOf(id[0..2]), NumberOf(id[2..4]), NumberOf(id[4..6]), NumberOf(id[6..8]), NumberOf(id[8..10]),
      NumberOf(id[11..14]), NumberOf(id[14..16])))
  }

  lemma DigitValueOfDigit(d: int)
    requires 0 <= d <= 9
    ensures DigitValue(Digit(d)) == d && IsDigit(Digit(d))
  {
  }

  lemma TwoDigitsValue(n: int)
    requires 0 <= n <= 99
    ensures NumberOf(TwoDigits(n)) == n
  {
    var s := TwoDigits(n);
    DigitValueOfDigit(n / 10);
    DigitValueOfDigit(n % 10);
    assert s[..1][..0] == [];
    assert s[..1] == [Digit(n / 10)];
    assert NumberOf(s[..1]) == n / 10;
    assert NumberOf(s) == NumberOf(s[..1]) * 10 + DigitValue(s[1]);
  }

  lemma ThreeDigitsValue(n: int)
    requires 0 <= n <= 999
    ensures NumberOf(ThreeDigits(n)) == n
  {
    var s := ThreeDigits(n);
    DigitValueOfDigit(n / 100);
    DigitValueOfDigit(n / 10 % 10);
    DigitValueOfDigit(n % 10);
    assert s[..2][..1][..0] == [];
    assert s[..2][..1] == [Digit(n / 100)];
    assert NumberOf(s[..2][..1]) == n / 100;
    assert s[..2] == [Digit(n / 100), Digit(n / 10 % 10)];
    assert NumberOf(s[..2]) == n / 100 * 10 + n / 10 % 10;
    assert NumberOf(s) == NumberOf(s[..2]) * 10 + DigitValue(s[2]);
  }

  /** Parsing a generated identifier gives back its direction, its stamp (with a two-digit year)
      and both random draws. */
  lemma ParseGeneratedIdentifier(dir: Direction, c: Stamp, seqNo: int, hash: int)
    requires ValidStamp(c) && 1 <= seqNo <= 999 && 10 <= hash <= 99
    ensures ParseIdentifier(SequenceIdentifier(dir, c, seqNo, hash)) ==
      Some(IdFields(dir, c.year % 100, c.month, c.day, c.hour, c.minute, seqNo, hash))
  {
    var id := SequenceIdentifier(dir, c, seqNo, hash);
    var stamp := StampText(c);
    assert id == stamp + [id[10]] + ThreeDigits(seqNo) + TwoDigits(hash);
    assert id[0..2] == TwoDigits(c.year % 100);
    assert id[2..4] == TwoDigits(c.month);
    assert id[4..6] == TwoDigits(c.day);
    assert id[6..8] == TwoDigits(c.hour);
    assert id[8..10] == TwoDigits(c.minute);
    assert id[11..14] == ThreeDigits(seqNo);
    assert id[14..16] == TwoDigits(hash);
    TwoDigitsValue(c.year % 100);
    TwoDigitsValue(c.month);
    TwoDigitsValue(c.day);
    TwoDigitsValue(c.hour);
    TwoDigitsValue(c.minute);
    ThreeDigitsValue(seqNo);
    TwoDigitsValue(hash);
  }

  /** A tracking refresh hands the identifier back: if some kept position carries it as its comment
      and no kept position carries another sixteen-character comment, the refreshed id is it. */
  lemma RefreshRecoversIdentifier(ps: seq<PositionInfo>, id: string)
    requires |id| == IdLength
    requires exists i :: 0 <= i < |ps| && ps[i].comment == id
    requires forall i :: 0 <= i < |ps| && |ps[i].comment| == IdLength ==> ps[i].comment == id
    ensures IdOf(ps) == id
  {
    IdOfIsLastIdLongComment(ps);
  }

  // ---- GetDeviation and GetTimeDifference ----

  /** The price distance, in points, a new position needs: the minimum distance times the drawn
      factor `f` to the power of the number of positions. */
  function Deviation(count: nat, minDev: real, f: real): real
  {
    minDev * Pow(f, count)
  }

  /** For a fixed factor above one, every further position needs a strictly larger distance. */
  lemma DeviationGrowsWithCount(m: nat, n: nat, minDev: real, f: real)
    requires f > 1.0 && minDev > 0.0 && m < n
    ensures Deviation(m, minDev, f) < Deviation(n, minDev, f)
  {
    PowMonotone(f, m, n);
  }

  /** With the factor drawn from [1.3, 1.5], the distance lies between the two extreme factors'. */
  lemma DeviationWithinDrawRange(count: nat, minDev: real, f: real)
    requires 1.3 <= f <= 1.5 && minDev >= 0.0
    ensures Deviation(count, minDev, 1.3) <= Deviation(count, minDev, f) <= Deviation(count, minDev, 1.5)
  {
    PowMonotoneInBase(1.3, f, count);
    PowMonotoneInBase(f, 1.5, count);
    assert minDev * Pow(1.3, count) <= minDev * Pow(f, count);
    assert minDev * Pow(f, count) <= minDev * Pow(1.5, count);
  }

  /** The seconds that must have passed since the last entry: the timeframe plus the drawn minutes. */
  function TimeDifference(tf: Timeframe, r: int): (secs: int)
    ensures -30 <= r <= 30 ==> (tf.Minutes() - 30) * 60 <= secs <= (tf.Minutes() + 30) * 60
    ensures secs == tf.Seconds() + r * 60
  {
    (tf.Minutes() + r) * 60
  }

  // ---- CheckSequence ----

  /** The price CheckSequence measures the distance with: the bid for Buy, the ask for Sell. */
  function GatePrice(dir: Direction, tick: Tick): real
  {
    if dir == Buy then tick.bid else tick.ask
  }

  /** All four gates of CheckSequence: the sequence is not in profit, it has at most the maximum
      number of positions, the price has moved far enough from the last entry, and long enough has
      passed since it. */
  predicate AddGatesPass(s: Sequence, tick: Tick, settings: LogicSettings, point: real, f: real, r: int)
    requires point != 0.0
  {
    && s.profit <= 0.0
    && |s.positions| <= settings.maxPositions
    && Abs(GatePrice(s.dir, tick) - s.lastPosition.entryPrice) / point >= Deviation(|s.positions|, settings.minDevDistance, f)
    && IntAbs(tick.time - s.lastPosition.entryTime) >= TimeDifference(settings.timeFrame, r)
  }

  /** A sequence that already holds the maximum number of positions can still be added to: the
      count gate is strict, so once the price and time gates hold the add goes ahead. */
  lemma GatesAdmitOneBeyondMaximum(s: Sequence, tick: Tick, settings: LogicSettings, point: real, f: real, r: int)
    requires point > 0.0
    requires |s.positions| == settings.maxPositions && s.profit <= 0.0
    requires Abs(GatePrice(s.dir, tick) - s.lastPosition.entryPrice) / point >= Deviation(|s.positions|, settings.minDevDistance, f)
    requires IntAbs(tick.time - s.lastPosition.entryTime) >= TimeDifference(settings.timeFrame, r)
    ensures AddGatesPass(s, tick, settings, point, f, r)
  {
  }

  /** No position is added to a sequence in profit, or to one beyond the maximum. */
  lemma GatesBlockProfitAndOverflow(s: Sequence, tick: Tick, settings: LogicSettings, point: real, f: real, r: int)
    requires point != 0.0
    requires s.profit > 0.0 || |s.positions| > settings.maxPositions
    ensures !AddGatesPass(s, tick, settings, point, f, r)
  {
  }

  // ---- CheckModify ----

  /** The take-profit CheckModify aligns a sequence on: the last position's, or, when that is
      unset, the last entry plus the take-profit distance whatever the direction. */
  function ModifyTarget(s: Sequence, tpPoints: real, point: real): real
  {
    if s.lastPosition.takeProfit == 0.0 then s.lastPosition.entryPrice + tpPoints * point
    else s.lastPosition.takeProfit
  }

  /** The fallback target does not depend on the direction: for a Sell sequence it also lies above
      the last entry. */
  lemma ModifyFallbackIgnoresDirection(s: Sequence, tpPoints: real, point: real)
    requires s.lastPosition.takeProfit == 0.0 && tpPoints * point > 0.0
    ensures ModifyTarget(s.(dir := Buy), tpPoints, point) == ModifyTarget(s.(dir := Sell), tpPoints, point)
    ensures ModifyTarget(s, tpPoints, point) > s.lastPosition.entryPrice
  {
  }

  /** How many times CheckModify calls ModifyPositions: once for every position without a
      take-profit, and once more for every position whose take-profit is not the target. */
  function ModifyCallCount(ps: seq<PositionInfo>, target: real): nat
  {
    if |ps| == 0 then 0
    else
      var p := ps[|ps| - 1];
      ModifyCallCount(ps[..|ps| - 1], target) + (if p.takeProfit == 0.0 then 1 else 0) + (if p.takeProfit != target then 1 else 0)
  }

  /** CheckModify changes nothing exactly when every position already has the target as a set
      take-profit; each position causes at most two calls. */
  lemma {:induction false} ModifyCallCountZeroIff(ps: seq<PositionInfo>, target: real)
    ensures ModifyCallCount(ps, target) == 0 <==>
      forall i :: 0 <= i < |ps| ==> ps[i].takeProfit == target && ps[i].takeProfit != 0.0
    ensures ModifyCallCount(ps, target) <= 2 * |ps|
  {
    if |ps| > 0 {
      var init := ps[..|ps| - 1];
      ModifyCallCountZeroIff(init, target);
      assert forall i :: 0 <= i < |init| ==> init[i] == ps[i];
    }
  }

  /** The calls CheckModify has made after `i + 1` positions. */
  lemma ModifyCallCountStep(ps: seq<PositionInfo>, i: nat, target: real)
    requires i < |ps|
    ensures ModifyCallCount(ps[..i + 1], target) == ModifyCallCount(ps[..i], target) +
      (if ps[i].takeProfit == 0.0 then 1 else 0) + (if ps[i].takeProfit != target then 1 else 0)
  {
    assert ps[..i + 1][..i] == ps[..i];
  }

  /** With a set target, a position without a take-profit causes two calls. */
  lemma UnsetTakeProfitCallsTwice(ps: seq<PositionInfo>, p: PositionInfo, target: real)
    requires p.takeProfit == 0.0 && target != 0.0
    ensures ModifyCallCount(ps + [p], target) == ModifyCallCount(ps, target) + 2
  {
    assert (ps + [p])[..|ps|] == ps;
  }

  /** Every position with its take-profit replaced by `tp`, as a done modify batch leaves them. */
  function WithTakeProfit(ps: seq<PositionInfo>, tp: real): (qs: seq<PositionInfo>)
    ensures |qs| == |ps|
    ensures forall i :: 0 <= i < |ps| ==> qs[i] == ps[i].(takeProfit := tp)
  {
    if |ps| == 0 then [] else WithTakeProfit(ps[..|ps| - 1], tp) + [ps[|ps| - 1].(takeProfit := tp)]
  }

  /** Alignment settles: once the broker has applied a batch with a target on the point grid, the
      next CheckModify on the same target sends nothing. */
  lemma ModifyConverges(ps: seq<PositionInfo>, target: real, point: real)
    requires point > 0.0 && target != 0.0 && MultipleOf(target, point)
    ensures ModifyCallCount(WithTakeProfit(ps, Snap(target, point)), target) == 0
  {
    SnapOfMultiple(target, point);
    ModifyCallCountZeroIff(WithTakeProfit(ps, Snap(target, point)), target);
  }

  /** `n` copies of `batch`, one after the other. */
  function Repeat(batch: seq<Request>, n: nat): seq<Request>
  {
    if n == 0 then [] else Repeat(batch, n - 1) + batch
  }

  /** Sending one more batch after `n` copies gives `n + 1` copies. */
  lemma RepeatOnceMore(log: seq<Request>, batch: seq<Request>, n: nat)
    ensures log + Repeat(batch, n) + batch == log + Repeat(batch, n + 1)
  {
  }

  /** Everything CheckModify sends for a sequence: one identical batch per ModifyPositions call,
      each with no stop-loss and the snapped target. */
  function ModifyBatches(s: Sequence, tpPoints: real, point: real): seq<Request>
    requires point != 0.0
  {
    var target := ModifyTarget(s, tpPoints, point);
    Repeat(ModifyRequests(s.positions, Snap(0.0, point), Snap(target, point)), ModifyCallCount(s.positions, target))
  }

  // ---- CheckClose and CheckTrailingStop ----

  /** The profit CheckClose requires: thirty points per lot of the last position. */
  function CloseThreshold(point: real, lastVolume: real): real
  {
    30.0 * point * lastVolume
  }

  /** The profit CheckTrailingStop requires: one and a half times the close threshold. */
  function TrailingThreshold(point: real, lastVolume: real): real
  {
    30.0 * 1.5 * point * lastVolume
  }

  /** A sequence far enough in profit to trail is far enough in profit to close, and some
      sequences (those between the two thresholds) close without ever trailing. */
  lemma TrailingImpliesClose(profit: real, point: real, lastVolume: real)
    requires point > 0.0 && lastVolume > 0.0
    ensures CloseThreshold(point, lastVolume) < TrailingThreshold(point, lastVolume)
    ensures profit > TrailingThreshold(point, lastVolume) ==> profit > CloseThreshold(point, lastVolume)
  {
    assert TrailingThreshold(point, lastVolume) == 1.5 * CloseThreshold(point, lastVolume);
  }

  const TrailingStopPoints: real := 20.0

  /** The stop-loss and take-profit CheckTrailingStop sends. */
  datatype Stops = Stops(sl: real, tp: real)

  function TrailingStops(dir: Direction, tick: Tick, lastTp: real, point: real): Stops
  {
    if dir == Buy then Stops(tick.bid - TrailingStopPoints * point, lastTp + TrailingStopPoints * point)
    else Stops(tick.ask + TrailingStopPoints * point, lastTp - TrailingStopPoints * point)
  }

  /** The trailing stop sits twenty points behind the closing price, on the losing side, and the
      take-profit moves twenty points further in the sequence's favour. */
  lemma TrailingStopsFollowPrice(dir: Direction, tick: Tick, lastTp: real, point: real)
    requires point > 0.0
    ensures var st := TrailingStops(dir, tick, lastTp, point);
      && Abs(st.sl - GatePrice(dir, tick)) == 20.0 * point
      && Abs(st.tp - lastTp) == 20.0 * point
      && (dir == Buy ==> st.sl < tick.bid && st.tp > lastTp)
      && (dir == Sell ==> st.sl > tick.ask && st.tp < lastTp)
  {
  }

  // ---- GetTradeHistory ----

  /** One deal folded into the counters: only entry deals count; a gain adds a win and its amount,
      a loss adds a loser and its absolute amount, and a zero profit adds nothing. */
  function FoldDeal(m: Metrics, d: Deal): Metrics
  {
    if d.entry != DealEntryIn then m
    else if d.profit > 0.0 then m.(wins := m.wins + 1, totalWinAmount := m.totalWinAmount + d.profit)
    else if d.profit < 0.0 then m.(loosers := m.loosers + 1, totalLossAmount := m.totalLossAmount + Abs(d.profit))
    else m
  }

  function FoldDeals(m: Metrics, ds: seq<Deal>): Metrics
  {
    if |ds| == 0 then m else FoldDeal(FoldDeals(m, ds[..|ds| - 1]), ds[|ds| - 1])
  }

  predicate WinningEntry(d: Deal) { d.entry == DealEntryIn && d.profit > 0.0 }
  predicate LosingEntry(d: Deal) { d.entry == DealEntryIn && d.profit < 0.0 }

  /** The reference counts, read from the front. */
  function Wins(ds: seq<Deal>): nat
  {
    if |ds| == 0 then 0 else (if WinningEntry(ds[0]) then 1 else 0) + Wins(ds[1..])
  }

  function Losses(ds: seq<Deal>): nat
  {
    if |ds| == 0 then 0 else (if LosingEntry(ds[0]) then 1 else 0) + Losses(ds[1..])
  }

  function WinAmount(ds: seq<Deal>): (a: real)
    ensures a >= 0.0
  {
    if |ds| == 0 then 0.0 else (if WinningEntry(ds[0]) then ds[0].profit else 0.0) + WinAmount(ds[1..])
  }

  function LossAmount(ds: seq<Deal>): (a: real)
    ensures a >= 0.0
  {
    if |ds| == 0 then 0.0 else (if LosingEntry(ds[0]) then -ds[0].profit else 0.0) + LossAmount(ds[1..])
  }

  lemma {:induction false} CountsOfAppend(ds: seq<Deal>, d: Deal)
    ensures Wins(ds + [d]) == Wins(ds) + (if WinningEntry(d) then 1 else 0)
    ensures Losses(ds + [d]) == Losses(ds) + (if LosingEntry(d) then 1 else 0)
    ensures WinAmount(ds + [d]) == WinAmount(ds) + (if WinningEntry(d) then d.profit else 0.0)
    ensures LossAmount(ds + [d]) == LossAmount(ds) + (if LosingEntry(d) then -d.profit else 0.0)
  {
    if |ds| == 0 {
      assert [d][1..] == [];
    } else {
      CountsOfAppend(ds[1..], d);
      assert (ds + [d])[1..] == ds[1..] + [d];
    }
  }

  /** Folding the deals adds exactly the winning and losing entry deals and their amounts, and
      leaves every other counter as it was. */
  lemma {:induction false} FoldDealsCounts(m: Metrics, ds: seq<Deal>)
    ensures FoldDeals(m, ds) == m.(
      wins := m.wins + Wins(ds), loosers := m.loosers + Losses(ds),
      totalWinAmount := m.totalWinAmount + WinAmount(ds), totalLossAmount := m.totalLossAmount + LossAmount(ds))
  {
    if |ds| > 0 {
      var init := ds[..|ds| - 1];
      FoldDealsCounts(m, init);
      CountsOfAppend(init, ds[|ds| - 1]);
      assert init + [ds[|ds| - 1]] == ds;
    }
  }

  /** The counters never decrease. */
  lemma FoldDealsMonotone(m: Metrics, ds: seq<Deal>)
    ensures var m' := FoldDeals(m, ds);
      m'.wins >= m.wins && m'.loosers >= m.loosers &&
      m'.totalWinAmount >= m.totalWinAmount && m'.totalLossAmount >= m.totalLossAmount
  {
    FoldDealsCounts(m, ds);
  }

  /** Folding the same history twice counts every winning and losing deal twice: the fold is not
      idempotent as soon as the history holds one counted deal. */
  lemma FoldingTwiceDoubleCounts(m: Metrics, ds: seq<Deal>)
    ensures var once := FoldDeals(m, ds);
      var twice := FoldDeals(once, ds);
      twice.wins == m.wins + 2 * Wins(ds) && twice.loosers == m.loosers + 2 * Losses(ds)
    ensures Wins(ds) + Losses(ds) > 0 ==> FoldDeals(FoldDeals(m, ds), ds) != FoldDeals(m, ds)
  {
    FoldDealsCounts(m, ds);
    FoldDealsCounts(FoldDeals(m, ds), ds);
  }

  // ---- UpdatePerformanceMetrics ----

  /** The account percentages and profit UpdatePerformanceMetrics recomputes; a zero deposit or
      balance gives a zero percentage. */
  function UpdatedStatistics(a: AccountStatistics): AccountStatistics
  {
    a.(balancePercent := if a.deposit != 0.0 then a.balance / a.deposit * 100.0 else 0.0,
       equityPercent := if a.balance != 0.0 then a.equity / a.balance * 100.0 else 0.0,
       profit := a.balance - a.deposit)
  }

  /** The performance ratios UpdatePerformanceMetrics recomputes from the counters and the updated
      account statistics `a`. */
  function UpdatedMetrics(m: Metrics, a: AccountStatistics, total: nat): Metrics
    requires total > 0
  {
    var winPercent := m.wins as real / total as real * 100.0;
    var avgWin := if m.wins > 0 then m.totalWinAmount / m.wins as real else 0.0;
    var avgLoss := if m.loosers > 0 then m.totalLossAmount / m.loosers as real else 1.0;
    var curr := if a.balance != 0.0 then (a.balance - a.equity) / a.balance else 0.0;
    m.(winPercent := winPercent,
       loosePercent := 100.0 - winPercent,
       profitFactor := if m.totalLossAmount > 0.0 then m.totalWinAmount / m.totalLossAmount else 0.0,
       avgTradeProfit := a.profit / total as real,
       avgWinAmount := avgWin,
       avgLossAmount := avgLoss,
       riskRewardRatio := if avgLoss != 0.0 then Abs(avgWin / avgLoss) else 0.0,
       currDrawdown := curr,
       maxDrawdown := if curr > m.maxDrawdown then curr else m.maxDrawdown)
  }

  /** The loss counter: one more whenever any loss has ever been recorded, else back to zero. */
  function UpdatedLosses(m: Metrics, losses: nat): nat
  {
    if m.totalLossAmount > 0.0 then losses + 1 else 0
  }

  /** The percentages add up to a hundred and lie in [0, 100] when the wins are among the trades;
      the maximum drawdown becomes the larger of itself and the current drawdown; the counters
      themselves are untouched. */
  lemma UpdatedMetricsProperties(m: Metrics, a: AccountStatistics, total: nat)
    requires total > 0
    ensures var m' := UpdatedMetrics(m, a, total);
      && m'.winPercent + m'.loosePercent == 100.0
      && m'.maxDrawdown == Max(m.maxDrawdown, m'.currDrawdown)
      && m'.wins == m.wins && m'.loosers == m.loosers
      && m'.totalWinAmount == m.totalWinAmount && m'.totalLossAmount == m.totalLossAmount
      && (m.wins <= total ==> 0.0 <= m'.winPercent <= 100.0)
      && (m.wins == total ==> m'.winPercent == 100.0)
      && (m.loosers == 0 ==> m'.avgLossAmount == 1.0 && m'.riskRewardRatio == Abs(m'.avgWinAmount))
  {
    var w := m.wins as real;
    var t := total as real;
    if m.wins <= total {
      assert 0.0 <= w / t;
      assert w / t <= 1.0;
      assert 0.0 <= w / t * 100.0 <= 100.0;
    }
  }

  /** The maximum drawdown never decreases. */
  lemma MaxDrawdownNeverDecreases(m: Metrics, a: AccountStatistics, total: nat)
    requires total > 0
    ensures UpdatedMetrics(m, a, total).maxDrawdown >= m.maxDrawdown
  {
  }
}
