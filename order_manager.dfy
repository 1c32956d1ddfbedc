/** Lot sizing, take-profit placement and the three order operations (trader/order_manager.py).
    The order operations send their requests through the terminal and report success. */
module OrderManager {
  import opened Numeric
  import opened Parameters
  import opened Gateway

  /** The price a new position of the direction is opened at: the ask for Buy, the bid for Sell. */
  function EntryPrice(dir: Direction, tick: Tick): real
  {
    if dir == Buy then tick.ask else tick.bid
  }

  /** The recovery target volume: one take-profit unit plus the sequence's current loss (or gain),
      divided by the take-profit distance in points. */
  function RecoveryVolume(s: Sequence, settings: LogicSettings, point: real): real
    requires settings.takeProfitPoints != 0.0
  {
    (settings.takeProfitPoints * point + Abs(s.profit)) / settings.takeProfitPoints
  }

  /** The last two lines of OptimizedLotSize: at least one step, then whole steps. */
  function ClampToStep(lot: real, step: real): real
    requires step > 0.0
  {
    Snap(if lot < step then step else lot, step)
  }

  lemma ClampToStepIsWholeSteps(lot: real, step: real)
    requires step > 0.0
    ensures ClampToStep(lot, step) >= step && MultipleOf(ClampToStep(lot, step), step)
  {
    SnapAtLeastUnit(if lot < step then step else lot, step);
    SnapOnGrid(if lot < step then step else lot, step);
  }

  /** A lot that is already a whole number (at least one) of steps passes the clamp unchanged. */
  lemma ClampToStepKeepsWholeSteps(lot: real, step: real)
    requires step > 0.0 && lot >= step && MultipleOf(lot, step)
    ensures ClampToStep(lot, step) == lot
  {
    SnapOfMultiple(lot, step);
  }

  /** The unclamped seed lot: balance / base balance steps, at least one step, in whole steps. */
  function SeedLot(balance: real, baseBalance: real, step: real): real
    requires step > 0.0 && baseBalance != 0.0
  {
    Snap(Max((balance / baseBalance) * step, step), step)
  }

  /** The unclamped recovery lot: the recovery target in whole steps, one step more when that
      equals the last position's volume. */
  function RecoveryLot(s: Sequence, settings: LogicSettings, step: real, point: real): real
    requires step > 0.0 && settings.takeProfitPoints != 0.0
  {
    var rounded := Snap(RecoveryVolume(s, settings, point), step);
    if rounded == s.lastPosition.volume then rounded + step else rounded
  }

  /** The volume of the next position (OptimizedLotSize): the seed lot for an empty sequence,
      the recovery lot otherwise, clamped to one step and rounded to whole steps again. */
  function OptimizedLotSize(s: Sequence, balance: real, settings: LogicSettings, step: real, point: real): real
    requires step > 0.0
    requires |s.positions| == 0 ==> settings.baseBalance != 0.0
    requires |s.positions| > 0 ==> settings.takeProfitPoints != 0.0
  {
    var lot :=
      if |s.positions| == 0 then SeedLot(balance, settings.baseBalance, step)
      else RecoveryLot(s, settings, step, point);
    ClampToStep(lot, step)
  }

  /** The lot is always at least one volume step and a whole number of steps. */
  lemma LotSizeIsWholeSteps(s: Sequence, balance: real, settings: LogicSettings, step: real, point: real)
    requires step > 0.0
    requires |s.positions| == 0 ==> settings.baseBalance != 0.0
    requires |s.positions| > 0 ==> settings.takeProfitPoints != 0.0
    ensures var lot := OptimizedLotSize(s, balance, settings, step, point);
      lot >= step && MultipleOf(lot, step)
  {
    var lot :=
      if |s.positions| == 0 then SeedLot(balance, settings.baseBalance, step)
      else RecoveryLot(s, settings, step, point);
    ClampToStepIsWholeSteps(lot, step);
  }

  /** A seed lot scales with the balance: one step while the balance is at most the base balance,
      otherwise balance / base balance steps rounded to whole steps. */
  lemma SeedLotScalesWithBalance(s: Sequence, balance: real, settings: LogicSettings, step: real, point: real)
    requires step > 0.0 && settings.baseBalance > 0.0
    requires |s.positions| == 0
    ensures var lot := OptimizedLotSize(s, balance, settings, step, point);
      var steps := balance / settings.baseBalance;
      (steps <= 1.0 ==> lot == step) &&
      (steps >= 1.0 ==> lot == Round(steps) as real * step)
  {
    var steps := balance / settings.baseBalance;
    var seed := SeedLot(balance, settings.baseBalance, step);
    assert OptimizedLotSize(s, balance, settings, step, point) == ClampToStep(seed, step);
    assert seed == Snap(Max(steps * step, step), step);
    SeedOfSteps(steps, step);
    ClampToStepKeepsWholeSteps(seed, step);
  }

  lemma SeedOfSteps(steps: real, step: real)
    requires step > 0.0
    ensures steps <= 1.0 ==> Snap(Max(steps * step, step), step) == step
    ensures steps >= 1.0 ==> Snap(Max(steps * step, step), step) == Round(steps) as real * step
    ensures Snap(Max(steps * step, step), step) >= step
    ensures MultipleOf(Snap(Max(steps * step, step), step), step)
  {
    var minLot := steps * step;
    var lot := Max(minLot, step);
    SnapAtLeastUnit(lot, step);
    SnapOnGrid(lot, step);
    ScaledUnit(steps, step);
    if steps <= 1.0 {
      assert lot == step;
      assert lot / step == 1.0;
      RoundOfWhole(1);
    } else {
      assert lot == minLot;
    }
  }

  /** Scaling a positive unit, over plain numbers. */
  lemma ScaledUnit(steps: real, step: real)
    requires step > 0.0
    ensures steps <= 1.0 ==> steps * step <= step
    ensures steps >= 1.0 ==> steps * step >= step
    ensures (steps * step) / step == steps
  {
    assert steps * step - step == (steps - 1.0) * step;
  }

  /** Moving one step on from a whole number (at least one) of steps when it hits `last`. */
  lemma StepOnAvoidsLast(k: int, step: real, last: real)
    requires k >= 1 && step > 0.0
    ensures var rounded := k as real * step;
      var lot := if rounded == last then rounded + step else rounded;
      lot != last && lot >= step && MultipleOf(lot, step)
  {
    var rounded := k as real * step;
    assert rounded >= 1.0 * step;
    WholeTimesUnitIsMultiple(k, step);
    WholeTimesUnitIsMultiple(k + 1, step);
    assert rounded + step == (k + 1) as real * step;
  }

  /** When the rounded recovery target is at least one step, the new lot differs from the last
      position's volume. */
  lemma RecoveryLotMovesOn(s: Sequence, balance: real, settings: LogicSettings, step: real, point: real)
    requires step > 0.0 && settings.takeProfitPoints != 0.0
    requires |s.positions| > 0
    requires Round(RecoveryVolume(s, settings, point) / step) >= 1
    ensures OptimizedLotSize(s, balance, settings, step, point) != s.lastPosition.volume
  {
    var k := Round(RecoveryVolume(s, settings, point) / step);
    assert Snap(RecoveryVolume(s, settings, point), step) == k as real * step;
    StepOnAvoidsLast(k, step, s.lastPosition.volume);
    ClampToStepKeepsWholeSteps(RecoveryLot(s, settings, step, point), step);
  }

  /** A rounded recovery target of zero steps is clamped to one step, and that can be exactly the
      last position's volume: with a 0.01 step, 80 take-profit points of 0.00001 and no loss the
      next lot repeats a last volume of 0.01. */
  lemma RecoveryLotCanRepeatLastVolume()
    ensures var last := DefaultPosition().(volume := 0.01);
      var s := Sequence("", Buy, 0.0, 0.01, [last], last);
      var settings := InitParameters(AccountSpecificParameters("EURUSD", DefaultTpPoints, 5, DefaultMinDeviationDistance, DefaultDeviationIncreaseFactor));
      OptimizedLotSize(s, 3000.0, settings, 0.01, 0.00001) == s.lastPosition.volume
  {
    var last := DefaultPosition().(volume := 0.01);
    var s := Sequence("", Buy, 0.0, 0.01, [last], last);
    var settings := InitParameters(AccountSpecificParameters("EURUSD", DefaultTpPoints, 5, DefaultMinDeviationDistance, DefaultDeviationIncreaseFactor));
    assert RecoveryVolume(s, settings, 0.00001) == 0.00001;
    assert Round(0.00001 / 0.01) == 0;
    assert Snap(0.00001, 0.01) == 0.0;
    RoundOfWhole(1);
    assert Snap(0.01, 0.01) == 0.01;
  }

  /** The take-profit price of a new position: `tpPoints * point` beyond the entry price, above it
      for Buy and below it for Sell. */
  function TakeProfit(dir: Direction, tick: Tick, tpPoints: real, point: real): (tp: real)
    ensures Abs(tp - EntryPrice(dir, tick)) == Abs(tpPoints * point)
    ensures tpPoints * point > 0.0 ==> (dir == Buy <==> tp > EntryPrice(dir, tick))
  {
    if dir == Buy then tick.ask + tpPoints * point else tick.bid - tpPoints * point
  }

  /** OptimizedLotSize divides by the take-profit distance only for a sequence that already holds
      positions; there a zero distance raises a division error before anything is sent. */
  predicate LotDefined(s: Sequence, settings: LogicSettings)
  {
    |s.positions| > 0 ==> settings.takeProfitPoints != 0.0
  }

  /** The market order OpenPosition sends for a sequence. */
  function OpenRequest(s: Sequence, v: View, balance: real, settings: LogicSettings, point: real): Request
    requires v.info.volumeStep > 0.0
    requires settings.baseBalance != 0.0 && LotDefined(s, settings)
  {
    MarketOrder(
      volume := OptimizedLotSize(s, balance, settings, v.info.volumeStep, point),
      orderType := OrderTypeOf(s.dir),
      price := EntryPrice(s.dir, v.tick),
      deviation := 2,
      magic := s.dir.Magic(),
      tp := TakeProfit(s.dir, v.tick, settings.takeProfitPoints, point),
      comment := s.id)
  }

  /** An open request carries the direction's tag and order type, is priced at the direction's
      entry side, is a whole number (at least one) of volume steps, places its take-profit exactly
      the take-profit distance from its price, and is commented with the sequence id. */
  lemma OpenRequestSideSelection(s: Sequence, v: View, balance: real, settings: LogicSettings, point: real)
    requires v.info.volumeStep > 0.0
    requires settings.baseBalance != 0.0 && LotDefined(s, settings)
    ensures var r := OpenRequest(s, v, balance, settings, point);
      && r.MarketOrder?
      && DirectionOfMagic(r.magic) == Some(s.dir)
      && (r.orderType == OrderTypeBuy <==> s.dir == Buy)
      && r.price == (if s.dir == Buy then v.tick.ask else v.tick.bid)
      && r.volume >= v.info.volumeStep && MultipleOf(r.volume, v.info.volumeStep)
      && Abs(r.tp - r.price) == Abs(settings.takeProfitPoints * point)
      && r.comment == s.id
  {
    LotSizeIsWholeSteps(s, balance, settings, v.info.volumeStep, point);
  }

  /** How an open attempt ended; "No money" is reported apart from other failures, and
      `LotSizeError` is the division error OptimizedLotSize raises before anything is sent. */
  datatype OpenOutcome = Opened | NoMoney | SendFailed(comment: string) | LotSizeError

  /** OpenPosition: send one market order for the sequence; true iff the terminal reports it done.
      When the lot cannot be computed, the error leaves the method with nothing sent. */
  method OpenPosition(t: Terminal, s: Sequence, balance: real, settings: LogicSettings, point: real)
    returns (success: bool, outcome: OpenOutcome)
    requires t.WellFormed()
    requires settings.baseBalance != 0.0
    modifies t
    ensures !LotDefined(s, settings) ==> t.log == old(t.log) && !success && outcome == LotSizeError
    ensures LotDefined(s, settings) ==>
      && t.log == old(t.log) + [OpenRequest(s, old(t.Now()), balance, settings, point)]
      && var reply := t.replies(|old(t.log)|);
      && (success <==> reply.retcode == TradeRetcodeDone)
      && (outcome == Opened <==> success)
      && (outcome == NoMoney <==> !success && reply.comment == "No money")
      && outcome != LotSizeError
  {
    if !LotDefined(s, settings) {
      return false, LotSizeError;
    }
    var request := OpenRequest(s, t.Now(), balance, settings, point);
    var reply := t.Send(request);
    if reply.retcode != TradeRetcodeDone {
      if reply.comment == "No money" {
        success, outcome := false, NoMoney;
      } else {
        success, outcome := false, SendFailed(reply.comment);
      }
    } else {
      success, outcome := true, Opened;
    }
  }

  /** The stop-loss / take-profit change ModifyPositions sends for one position. */
  function StopsRequest(p: PositionInfo, sl: real, tp: real): Request
  {
    ModifyStops(p.ticketNumber, p.entryPrice, tp, sl, p.orderType, p.magicNumber, 20)
  }

  /** One stops request per position, in list order, all with the same stop-loss and take-profit. */
  function ModifyRequests(ps: seq<PositionInfo>, sl: real, tp: real): seq<Request>
  {
    if |ps| == 0 then [] else ModifyRequests(ps[..|ps| - 1], sl, tp) + [StopsRequest(ps[|ps| - 1], sl, tp)]
  }

  /** The batch holds exactly one request per position, in list order, all alike but for the
      position they name. */
  lemma {:induction false} ModifyRequestsOnePerPosition(ps: seq<PositionInfo>, sl: real, tp: real)
    ensures |ModifyRequests(ps, sl, tp)| == |ps|
    ensures forall i :: 0 <= i < |ps| ==> ModifyRequests(ps, sl, tp)[i] == StopsRequest(ps[i], sl, tp)
  {
    if |ps| > 0 {
      ModifyRequestsOnePerPosition(ps[..|ps| - 1], sl, tp);
    }
  }

  /** ModifyPositions: snap the stop-loss and take-profit to the point grid once, then send the same
      pair for every position of the sequence, continuing past failures; true iff at least one
      request was done. */
  method ModifyPositions(t: Terminal, s: Sequence, sl: real, tp: real, point: real) returns (modified: bool)
    requires point != 0.0
    modifies t
    ensures t.log == old(t.log) + ModifyRequests(s.positions, Snap(sl, point), Snap(tp, point))
    ensures modified <==>
      exists k :: |old(t.log)| <= k < |old(t.log)| + |s.positions| && t.replies(k).retcode == TradeRetcodeDone
  {
    modified := false;
    var tp' := Snap(tp, point);
    var sl' := Snap(sl, point);
    var i := 0;
    while i < |s.positions|
      invariant 0 <= i <= |s.positions|
      invariant t.log == old(t.log) + ModifyRequests(s.positions[..i], sl', tp')
      invariant |t.log| == |old(t.log)| + i
      invariant modified <==>
        exists k :: |old(t.log)| <= k < |old(t.log)| + i && t.replies(k).retcode == TradeRetcodeDone
    {
      var position := s.positions[i];
      var reply := t.Send(StopsRequest(position, sl', tp'));
      assert s.positions[..i + 1][..i] == s.positions[..i];
      if reply.retcode == TradeRetcodeDone {
        modified := true;
      }
      i := i + 1;
    }
    assert s.positions[..i] == s.positions;
  }

  /** The closing order for one position: the opposite side, at the bid for a buy position and at
      the ask otherwise, for the full volume of that ticket. */
  function CloseRequest(p: PositionInfo, tick: Tick): Request
  {
    if p.orderType == OrderTypeBuy then
      CloseOrder(p.volume, OrderTypeSell, p.ticketNumber, tick.bid, 20, p.magicNumber)
    else
      CloseOrder(p.volume, OrderTypeBuy, p.ticketNumber, tick.ask, 20, p.magicNumber)
  }

  /** Closing trades against the position: a buy is closed by a sell at the bid and a sell by a buy
      at the ask, for the whole volume of the same ticket. */
  lemma CloseRequestOpposesPosition(p: PositionInfo, tick: Tick)
    requires p.orderType == OrderTypeBuy || p.orderType == OrderTypeSell
    ensures var r := CloseRequest(p, tick);
      && (r.orderType == OrderTypeBuy || r.orderType == OrderTypeSell)
      && r.orderType != p.orderType
      && r.price == (if p.orderType == OrderTypeBuy then tick.bid else tick.ask)
      && r.volume == p.volume && r.ticket == p.ticketNumber && r.magic == p.magicNumber
  {
  }

  /** ClosePosition: send the closing order for one position; true iff the terminal reports it done. */
  method ClosePosition(t: Terminal, p: PositionInfo) returns (closed: bool)
    modifies t
    ensures t.log == old(t.log) + [CloseRequest(p, old(t.Now()).tick)]
    ensures closed <==> t.replies(|old(t.log)|).retcode == TradeRetcodeDone
  {
    var reply := t.Send(CloseRequest(p, t.Now().tick));
    closed := reply.retcode == TradeRetcodeDone;
  }
}
