/** The trading strategy (trader/strategy.py): one Buy and one Sell sequence on one symbol, the
    account snapshot and the performance counters, driven against the terminal. */
module TradingStrategy {
  import opened Numeric
  import opened Parameters
  import opened Gateway
  import opened OrderManager
  import opened Tracking
  import opened StrategyRules

  /** The random draws and the clock reading one processing of a sequence uses: the deviation
      factor and the minute jitter of CheckSequence, and the stamp and two numbers of a new id. */
  datatype Draws = Draws(f: real, r: int, stamp: Stamp, seqNo: int, hash: int)

  /** The ranges the draws are taken from. */
  predicate ValidDraws(d: Draws)
  {
    1.3 <= d.f <= 1.5 && -30 <= d.r <= 30 && ValidStamp(d.stamp) && 1 <= d.seqNo <= 999 && 10 <= d.hash <= 99
  }

  /** The counters after GetTradeHistory has read the view: unchanged when no deals are returned. */
  function HistoryFold(m: Metrics, v: View): Metrics
  {
    if v.deals.Some? then FoldDeals(m, v.deals.value) else m
  }

  /** The closing orders CheckClose sends, request `i` priced at the tick seen after `start + i`
      requests. */
  function CloseRequests(market: nat -> View, start: nat, ps: seq<PositionInfo>): seq<Request>
  {
    if |ps| == 0 then []
    else CloseRequests(market, start, ps[..|ps| - 1]) + [CloseRequest(ps[|ps| - 1], market(start + |ps| - 1).tick)]
  }

  /** CheckClose closes every position once, in list order, each at the tick of its moment. */
  lemma {:induction false} CloseRequestsOnePerPosition(market: nat -> View, start: nat, ps: seq<PositionInfo>)
    ensures |CloseRequests(market, start, ps)| == |ps|
    ensures forall i :: 0 <= i < |ps| ==> CloseRequests(market, start, ps)[i] == CloseRequest(ps[i], market(start + i).tick)
  {
    if |ps| > 0 {
      CloseRequestsOnePerPosition(market, start, ps[..|ps| - 1]);
    }
  }

  /** Closing one more position extends the closing orders by its own. */
  lemma CloseRequestsStep(market: nat -> View, start: nat, ps: seq<PositionInfo>, i: nat)
    requires i < |ps|
    ensures CloseRequests(market, start, ps[..i + 1]) ==
      CloseRequests(market, start, ps[..i]) + [CloseRequest(ps[i], market(start + i).tick)]
  {
    assert ps[..i + 1][..i] == ps[..i];
  }

  /** The loop of CheckClose: one closing order per position, in list order. */
  method ClosePositions(t: Terminal, ps: seq<PositionInfo>)
    modifies t
    ensures t.log == old(t.log) + CloseRequests(t.market, |old(t.log)|, ps)
  {
    var i := 0;
    while i < |ps|
      invariant 0 <= i <= |ps|
      invariant t.log == old(t.log) + CloseRequests(t.market, |old(t.log)|, ps[..i])
      invariant |t.log| == |old(t.log)| + i
    {
      var closed := ClosePosition(t, ps[i]);
      CloseRequestsStep(t.market, |old(t.log)|, ps, i);
      i := i + 1;
    }
    assert ps[..i] == ps;
  }

  /** What CheckTrailingStop sends for `s` at `tick`: once the profit exceeds the trailing threshold,
      one batch moving every stop-loss behind the price and every take-profit further; otherwise
      nothing. */
  function TrailRequests(s: Sequence, tick: Tick, point: real): seq<Request>
    requires point > 0.0
  {
    var st := TrailingStops(s.dir, tick, s.lastPosition.takeProfit, point);
    if s.profit > TrailingThreshold(point, s.lastPosition.volume)
    then ModifyRequests(s.positions, Snap(st.sl, point), Snap(st.tp, point))
    else []
  }

  /** What CheckClose sends for `s` once `start` requests have been sent: above the close threshold
      one closing order per position; otherwise nothing. */
  function CloseAllRequests(s: Sequence, market: nat -> View, start: nat, point: real): seq<Request>
  {
    if s.profit > CloseThreshold(point, s.lastPosition.volume) then CloseRequests(market, start, s.positions) else []
  }

  /** `batch`, sent once `n` requests have been sent, followed by the take-profit alignment of the
      sequence as the terminal shows it after that batch. */
  function ThenAlign(dir: Direction, batch: seq<Request>, market: nat -> View, n: nat, tpPoints: real, point: real)
    : seq<Request>
    requires point > 0.0
  {
    batch + ModifyBatches(Tracked(dir, market(n + |batch|)), tpPoints, point)
  }

  /** `batch` followed by the closing orders of the sequence as the terminal shows it after that batch. */
  function ThenClose(dir: Direction, batch: seq<Request>, market: nat -> View, n: nat, point: real): seq<Request>
  {
    var k := n + |batch|;
    batch + CloseAllRequests(Tracked(dir, market(k)), market, k, point)
  }

  /** What CheckSequence sends for `s` once `n` requests have been sent: nothing unless the four
      gates pass and the lot can be computed; otherwise the open request and, when the terminal
      reports it done, the take-profit alignment of the sequence refreshed after it. */
  function AddRequests(dir: Direction, s: Sequence, market: nat -> View, replies: nat -> Reply, n: nat,
                       balance: real, settings: LogicSettings, point: real, f: real, r: int): seq<Request>
    requires point > 0.0 && settings.baseBalance != 0.0 && market(n).info.volumeStep > 0.0
  {
    if !AddGatesPass(s, market(n).tick, settings, point, f, r) || !LotDefined(s, settings) then []
    else if replies(n).retcode == TradeRetcodeDone
    then ThenAlign(dir, [OpenRequest(s, market(n), balance, settings, point)], market, n, settings.takeProfitPoints, point)
    else [OpenRequest(s, market(n), balance, settings, point)]
  }

  /** What the first half of the branch for a non-empty sequence sends: the add check, then the
      alignment of the sequence as the terminal shows it after the add check's requests. */
  function AddThenAlign(dir: Direction, s: Sequence, market: nat -> View, replies: nat -> Reply, n: nat,
                        balance: real, settings: LogicSettings, point: real, f: real, r: int): seq<Request>
    requires point > 0.0 && settings.baseBalance != 0.0 && market(n).info.volumeStep > 0.0
  {
    ThenAlign(dir, AddRequests(dir, s, market, replies, n, balance, settings, point, f, r), market, n,
      settings.takeProfitPoints, point)
  }

  /** What the second half sends for `s` once `m` requests have been sent: the trailing stop, then
      the close of the sequence as the terminal shows it after the trailing batch. */
  function TrailThenClose(dir: Direction, s: Sequence, market: nat -> View, m: nat, point: real): seq<Request>
    requires point > 0.0
  {
    ThenClose(dir, TrailRequests(s, market(m).tick, point), market, m, point)
  }

  /** `batch` followed by the second half on the sequence as the terminal shows it after that batch. */
  function ThenTrailAndClose(dir: Direction, batch: seq<Request>, market: nat -> View, n: nat, point: real)
    : seq<Request>
    requires point > 0.0
  {
    var k := n + |batch|;
    batch + TrailThenClose(dir, Tracked(dir, market(k)), market, k, point)
  }

  /** Everything the branch for a non-empty sequence sends in a pass of Run: the add check, the
      alignment, the trailing stop and the close, each step working on the sequence as the terminal
      shows it once the earlier steps' requests have been sent. */
  function ManageRequests(dir: Direction, s: Sequence, market: nat -> View, replies: nat -> Reply, n: nat,
                          balance: real, settings: LogicSettings, point: real, f: real, r: int): seq<Request>
    requires point > 0.0 && settings.baseBalance != 0.0 && market(n).info.volumeStep > 0.0
  {
    ThenTrailAndClose(dir, AddThenAlign(dir, s, market, replies, n, balance, settings, point, f, r), market, n, point)
  }

  /** Appending two batches in turn appends their concatenation. */
  lemma AppendSteps(log: seq<Request>, first: seq<Request>, second: seq<Request>, mid: seq<Request>, last: seq<Request>)
    requires mid == log + first && last == mid + second
    ensures last == log + (first + second)
  {
    assert log + (first + second) == (log + first) + second;
  }

  /** A batch followed by the alignment of the sequence refreshed after it. */
  lemma AlignStep(log: seq<Request>, batch: seq<Request>, afterBatch: seq<Request>, after: seq<Request>,
                  dir: Direction, current: Sequence, market: nat -> View, tpPoints: real, point: real)
    requires point > 0.0
    requires afterBatch == log + batch && current == Tracked(dir, market(|afterBatch|))
    requires after == afterBatch + ModifyBatches(current, tpPoints, point)
    ensures after == log + ThenAlign(dir, batch, market, |log|, tpPoints, point)
  {
    AppendSteps(log, batch, ModifyBatches(current, tpPoints, point), afterBatch, after);
  }

  /** A batch followed by the closing orders of the sequence refreshed after it. */
  lemma CloseStep(log: seq<Request>, batch: seq<Request>, afterBatch: seq<Request>, after: seq<Request>,
                  dir: Direction, current: Sequence, market: nat -> View, point: real)
    requires afterBatch == log + batch && current == Tracked(dir, market(|afterBatch|))
    requires after == afterBatch + CloseAllRequests(current, market, |afterBatch|, point)
    ensures after == log + ThenClose(dir, batch, market, |log|, point)
  {
    AppendSteps(log, batch, CloseAllRequests(current, market, |afterBatch|, point), afterBatch, after);
  }

  /** A batch followed by the second half on the sequence refreshed after it. */
  lemma TrailAndCloseStep(log: seq<Request>, batch: seq<Request>, afterBatch: seq<Request>, after: seq<Request>,
                          dir: Direction, current: Sequence, market: nat -> View, point: real)
    requires point > 0.0
    requires afterBatch == log + batch && current == Tracked(dir, market(|afterBatch|))
    requires after == afterBatch + TrailThenClose(dir, current, market, |afterBatch|, point)
    ensures after == log + ThenTrailAndClose(dir, batch, market, |log|, point)
  {
    AppendSteps(log, batch, TrailThenClose(dir, current, market, |afterBatch|, point), afterBatch, after);
  }

  /** Everything one direction sends in a pass of Run: for an empty sequence one open request under
      a fresh identifier, otherwise the management of the sequence. */
  function SideRequests(dir: Direction, s: Sequence, market: nat -> View, replies: nat -> Reply, n: nat,
                        balance: real, settings: LogicSettings, point: real, d: Draws): seq<Request>
    requires point > 0.0 && settings.baseBalance != 0.0 && market(n).info.volumeStep > 0.0 && ValidDraws(d)
  {
    if |s.positions| > 0 then ManageRequests(dir, s, market, replies, n, balance, settings, point, d.f, d.r)
    else [OpenRequest(s.(id := SequenceIdentifier(dir, d.stamp, d.seqNo, d.hash)), market(n), balance, settings, point)]
  }

  // ---- How many positions a pass opens ----

  /** The number of new market orders among `log`. */
  function OpenOrderCount(log: seq<Request>): nat
  {
    if |log| == 0 then 0
    else OpenOrderCount(log[..|log| - 1]) + (if log[|log| - 1].MarketOrder? then 1 else 0)
  }

  lemma {:induction false} OpenOrderCountConcat(a: seq<Request>, b: seq<Request>)
    ensures OpenOrderCount(a + b) == OpenOrderCount(a) + OpenOrderCount(b)
  {
    if |b| == 0 {
      assert a + b == a;
    } else {
      assert (a + b)[..|a + b| - 1] == a + b[..|b| - 1];
      OpenOrderCountConcat(a, b[..|b| - 1]);
    }
  }

  /** A run of requests none of which is a market order opens nothing. */
  lemma {:induction false} NoMarketOrderOpensNothing(log: seq<Request>)
    requires forall i :: 0 <= i < |log| ==> !log[i].MarketOrder?
    ensures OpenOrderCount(log) == 0
  {
    if |log| > 0 {
      NoMarketOrderOpensNothing(log[..|log| - 1]);
    }
  }

  lemma {:induction false} RepeatOpensNothing(batch: seq<Request>, n: nat)
    requires OpenOrderCount(batch) == 0
    ensures OpenOrderCount(Repeat(batch, n)) == 0
  {
    if n > 0 {
      RepeatOpensNothing(batch, n - 1);
      OpenOrderCountConcat(Repeat(batch, n - 1), batch);
    }
  }

  /** Stops requests open nothing. */
  lemma ModifyRequestsOpenNothing(ps: seq<PositionInfo>, sl: real, tp: real)
    ensures OpenOrderCount(ModifyRequests(ps, sl, tp)) == 0
  {
    ModifyRequestsOnePerPosition(ps, sl, tp);
    NoMarketOrderOpensNothing(ModifyRequests(ps, sl, tp));
  }

  /** The alignment appended to a batch opens nothing more than the batch. */
  lemma ThenAlignOpens(dir: Direction, batch: seq<Request>, market: nat -> View, n: nat, tpPoints: real, point: real)
    requires point > 0.0
    ensures OpenOrderCount(ThenAlign(dir, batch, market, n, tpPoints, point)) == OpenOrderCount(batch)
  {
    var s := Tracked(dir, market(n + |batch|));
    var target := ModifyTarget(s, tpPoints, point);
    var batches := ModifyRequests(s.positions, Snap(0.0, point), Snap(target, point));
    ModifyRequestsOpenNothing(s.positions, Snap(0.0, point), Snap(target, point));
    RepeatOpensNothing(batches, ModifyCallCount(s.positions, target));
    OpenOrderCountConcat(batch, ModifyBatches(s, tpPoints, point));
  }

  lemma TrailRequestsOpenNothing(s: Sequence, tick: Tick, point: real)
    requires point > 0.0
    ensures OpenOrderCount(TrailRequests(s, tick, point)) == 0
  {
    var st := TrailingStops(s.dir, tick, s.lastPosition.takeProfit, point);
    ModifyRequestsOpenNothing(s.positions, Snap(st.sl, point), Snap(st.tp, point));
  }

  lemma CloseAllRequestsOpenNothing(s: Sequence, market: nat -> View, start: nat, point: real)
    ensures OpenOrderCount(CloseAllRequests(s, market, start, point)) == 0
  {
    CloseRequestsOnePerPosition(market, start, s.positions);
    NoMarketOrderOpensNothing(CloseRequests(market, start, s.positions));
  }

  /** Trailing and closing open nothing. */
  lemma TrailThenCloseOpensNothing(dir: Direction, s: Sequence, market: nat -> View, m: nat, point: real)
    requires point > 0.0
    ensures OpenOrderCount(TrailThenClose(dir, s, market, m, point)) == 0
  {
    var trail := TrailRequests(s, market(m).tick, point);
    TrailRequestsOpenNothing(s, market(m).tick, point);
    var current := Tracked(dir, market(m + |trail|));
    CloseAllRequestsOpenNothing(current, market, m + |trail|, point);
    OpenOrderCountConcat(trail, CloseAllRequests(current, market, m + |trail|, point));
  }

  /** Trailing and closing appended to a batch open nothing more than the batch. */
  lemma ThenTrailAndCloseOpens(dir: Direction, batch: seq<Request>, market: nat -> View, n: nat, point: real)
    requires point > 0.0
    ensures OpenOrderCount(ThenTrailAndClose(dir, batch, market, n, point)) == OpenOrderCount(batch)
  {
    var k := n + |batch|;
    var current := Tracked(dir, market(k));
    TrailThenCloseOpensNothing(dir, current, market, k, point);
    OpenOrderCountConcat(batch, TrailThenClose(dir, current, market, k, point));
  }

  /** The add check opens exactly one position when the four gates pass and the lot is defined. */
  lemma AddOpensAtMostOne(dir: Direction, s: Sequence, market: nat -> View, replies: nat -> Reply, n: nat,
                          balance: real, settings: LogicSettings, point: real, f: real, r: int)
    requires point > 0.0 && settings.baseBalance != 0.0 && market(n).info.volumeStep > 0.0
    ensures OpenOrderCount(AddRequests(dir, s, market, replies, n, balance, settings, point, f, r)) ==
      if AddGatesPass(s, market(n).tick, settings, point, f, r) && LotDefined(s, settings) then 1 else 0
  {
    if AddGatesPass(s, market(n).tick, settings, point, f, r) && LotDefined(s, settings) {
      var batch := [OpenRequest(s, market(n), balance, settings, point)];
      assert OpenOrderCount(batch) == 1 by {
        assert batch[..0] == [];
      }
      ThenAlignOpens(dir, batch, market, n, settings.takeProfitPoints, point);
    }
  }

  /** The branch for a non-empty sequence opens exactly one position when the four gates pass and
      the lot is defined, and none otherwise, whatever the broker replies. */
  lemma ManageOpensAtMostOne(dir: Direction, s: Sequence, market: nat -> View, replies: nat -> Reply, n: nat,
                             balance: real, settings: LogicSettings, point: real, f: real, r: int)
    requires point > 0.0 && settings.baseBalance != 0.0 && market(n).info.volumeStep > 0.0
    ensures OpenOrderCount(ManageRequests(dir, s, market, replies, n, balance, settings, point, f, r)) ==
      if AddGatesPass(s, market(n).tick, settings, point, f, r) && LotDefined(s, settings) then 1 else 0
  {
    var add := AddRequests(dir, s, market, replies, n, balance, settings, point, f, r);
    AddOpensAtMostOne(dir, s, market, replies, n, balance, settings, point, f, r);
    ThenAlignOpens(dir, add, market, n, settings.takeProfitPoints, point);
    ThenTrailAndCloseOpens(dir, ThenAlign(dir, add, market, n, settings.takeProfitPoints, point), market, n, point);
  }

  /** Each side of a pass opens at most one position: an empty sequence always one, a non-empty one
      exactly when its gates pass and its lot is defined. */
  lemma SideOpensAtMostOne(dir: Direction, s: Sequence, market: nat -> View, replies: nat -> Reply, n: nat,
                           balance: real, settings: LogicSettings, point: real, d: Draws)
    requires point > 0.0 && settings.baseBalance != 0.0 && market(n).info.volumeStep > 0.0 && ValidDraws(d)
    ensures OpenOrderCount(SideRequests(dir, s, market, replies, n, balance, settings, point, d)) ==
      if |s.positions| == 0 then 1
      else if AddGatesPass(s, market(n).tick, settings, point, d.f, d.r) && LotDefined(s, settings) then 1 else 0
  {
    if |s.positions| > 0 {
      ManageOpensAtMostOne(dir, s, market, replies, n, balance, settings, point, d.f, d.r);
    } else {
      var open := SideRequests(dir, s, market, replies, n, balance, settings, point, d);
      assert open[..0] == [];
    }
  }

  /** The log after one pass, starting from `log`: the Buy side's requests, then the Sell side's,
      each on the sequence the pass started from and pricing with one balance. */
  function PassLog(log: seq<Request>, buyStart: Sequence, sellStart: Sequence, market: nat -> View,
                   replies: nat -> Reply, balance: real, settings: LogicSettings, point: real,
                   buy: Draws, sell: Draws): seq<Request>
    requires point > 0.0 && settings.baseBalance != 0.0 && ValidDraws(buy) && ValidDraws(sell)
    requires forall k: nat :: market(k).info.volumeStep > 0.0
  {
    var afterBuy := log + SideRequests(Buy, buyStart, market, replies, |log|, balance, settings, point, buy);
    afterBuy + SideRequests(Sell, sellStart, market, replies, |afterBuy|, balance, settings, point, sell)
  }

  /** A pass opens at most two positions, at most one per side. */
  lemma PassOpensAtMostTwo(log: seq<Request>, buyStart: Sequence, sellStart: Sequence, market: nat -> View,
                           replies: nat -> Reply, balance: real, settings: LogicSettings, point: real,
                           buy: Draws, sell: Draws)
    requires point > 0.0 && settings.baseBalance != 0.0 && ValidDraws(buy) && ValidDraws(sell)
    requires forall k: nat :: market(k).info.volumeStep > 0.0
    ensures OpenOrderCount(PassLog(log, buyStart, sellStart, market, replies, balance, settings, point, buy, sell)) <=
      OpenOrderCount(log) + 2
  {
    var buyLog := SideRequests(Buy, buyStart, market, replies, |log|, balance, settings, point, buy);
    var afterBuy := log + buyLog;
    var sellLog := SideRequests(Sell, sellStart, market, replies, |afterBuy|, balance, settings, point, sell);
    SideOpensAtMostOne(Buy, buyStart, market, replies, |log|, balance, settings, point, buy);
    SideOpensAtMostOne(Sell, sellStart, market, replies, |afterBuy|, balance, settings, point, sell);
    OpenOrderCountConcat(log, buyLog);
    OpenOrderCountConcat(afterBuy, sellLog);
  }

  /** With both sequences empty, a pass appends exactly two orders: the Buy sequence's open order
      at the ask of the first moment, then the Sell sequence's at the bid of the next, each under
      its direction's tag and carrying its new identifier. */
  lemma EmptySidesOpenBuyThenSell(log: seq<Request>, v: View, market: nat -> View, replies: nat -> Reply,
                                  balance: real, settings: LogicSettings, point: real, buy: Draws, sell: Draws)
    requires point > 0.0 && settings.baseBalance != 0.0 && ValidDraws(buy) && ValidDraws(sell)
    requires forall k: nat :: market(k).info.volumeStep > 0.0
    requires |Tracked(Buy, v).positions| == 0 && |Tracked(Sell, v).positions| == 0
    ensures var after := PassLog(log, Tracked(Buy, v), Tracked(Sell, v), market, replies, balance, settings, point, buy, sell);
      var n := |log|;
      && |after| == n + 2 && after[..n] == log
      && after[n].MarketOrder? && DirectionOfMagic(after[n].magic) == Some(Buy)
      && after[n].price == market(n).tick.ask
      && after[n].comment == SequenceIdentifier(Buy, buy.stamp, buy.seqNo, buy.hash)
      && after[n + 1].MarketOrder? && DirectionOfMagic(after[n + 1].magic) == Some(Sell)
      && after[n + 1].price == market(n + 1).tick.bid
      && after[n + 1].comment == SequenceIdentifier(Sell, sell.stamp, sell.seqNo, sell.hash)
  {
    var n := |log|;
    var b := Tracked(Buy, v).(id := SequenceIdentifier(Buy, buy.stamp, buy.seqNo, buy.hash));
    var s := Tracked(Sell, v).(id := SequenceIdentifier(Sell, sell.stamp, sell.seqNo, sell.hash));
    OpenRequestSideSelection(b, market(n), balance, settings, point);
    OpenRequestSideSelection(s, market(n + 1), balance, settings, point);
    var after := PassLog(log, Tracked(Buy, v), Tracked(Sell, v), market, replies, balance, settings, point, buy, sell);
    assert after == log + [OpenRequest(b, market(n), balance, settings, point)] + [OpenRequest(s, market(n + 1), balance, settings, point)];
  }

  /** The account snapshot AccountInfo copies from the terminal. */
  function WithAccount(a: AccountStatistics, info: AccountInfo): AccountStatistics
  {
    a.(balance := info.balance, equity := info.equity, floatingProfit := info.profit)
  }

  /** The loop of CheckModify over the positions of `s`. */
  method AlignTakeProfits(t: Terminal, s: Sequence, takeProfit: real, point: real)
    requires point != 0.0
    modifies t
    ensures t.log == old(t.log) +
      Repeat(ModifyRequests(s.positions, Snap(0.0, point), Snap(takeProfit, point)), ModifyCallCount(s.positions, takeProfit))
  {
    ghost var batch := ModifyRequests(s.positions, Snap(0.0, point), Snap(takeProfit, point));
    var i := 0;
    while i < |s.positions|
      invariant 0 <= i <= |s.positions|
      invariant t.log == old(t.log) + Repeat(batch, ModifyCallCount(s.positions[..i], takeProfit))
    {
      var positionTp := s.positions[i].takeProfit;
      ModifyCallCountStep(s.positions, i, takeProfit);
      ghost var calls := ModifyCallCount(s.positions[..i], takeProfit);
      if positionTp == 0.0 {
        var aligned := ModifyPositions(t, s, 0.0, takeProfit, point);
        RepeatOnceMore(old(t.log), batch, calls);
        calls := calls + 1;
      }
      if positionTp != takeProfit {
        var modified := ModifyPositions(t, s, 0.0, takeProfit, point);
        RepeatOnceMore(old(t.log), batch, calls);
        calls := calls + 1;
      }
      assert calls == ModifyCallCount(s.positions[..i + 1], takeProfit);
      i := i + 1;
    }
    assert s.positions[..i] == s.positions;
  }

  class Strategy {
    const terminal: Terminal
    const settings: LogicSettings
    /** The symbol's point size, read once at start-up. */
    const point: real
    var buySequence: Sequence
    var sellSequence: Sequence
    var accountStatistics: AccountStatistics
    var performanceMetrics: Metrics
    var consecutiveLosses: nat

    /** The broker and settings guarantees the engine relies on, and each sequence keeps its side. */
    ghost predicate Valid()
      reads this
    {
      && terminal.WellFormed()
      && point > 0.0
      && settings.baseBalance != 0.0
      && buySequence.dir == Buy && sellSequence.dir == Sell
    }

    function SequenceOf(dir: Direction): Sequence
      reads this
    {
      if dir == Buy then buySequence else sellSequence
    }

    /** A new strategy: settings from the account parameters, the point size from the terminal,
      two empty sequences and zeroed statistics. */
    constructor (terminal: Terminal, parameters: AccountSpecificParameters)
      requires terminal.WellFormed()
      ensures Valid()
      ensures this.terminal == terminal && settings == InitParameters(parameters)
      ensures point == terminal.Now().info.point
      ensures buySequence == NewSequence(Buy) && sellSequence == NewSequence(Sell)
      ensures accountStatistics == DefaultAccountStatistics() && performanceMetrics == DefaultMetrics()
      ensures consecutiveLosses == 0
    {
      this.terminal := terminal;
      settings := InitParameters(parameters);
      point := terminal.Now().info.point;
      buySequence := NewSequence(Buy);
      sellSequence := NewSequence(Sell);
      accountStatistics := DefaultAccountStatistics();
      performanceMetrics := DefaultMetrics();
      consecutiveLosses := 0;
    }

    /** GetTradeHistory: fold every deal the terminal reports into the counters; false, with nothing
        changed, when it reports none. */
    method GetTradeHistory() returns (ok: bool)
      modifies this
      ensures ok <==> terminal.Now().deals.Some?
      ensures performanceMetrics == HistoryFold(old(performanceMetrics), terminal.Now())
      ensures buySequence == old(buySequence) && sellSequence == old(sellSequence)
      ensures accountStatistics == old(accountStatistics) && consecutiveLosses == old(consecutiveLosses)
    {
      var v := terminal.Now();
      if v.deals.None? {
        return false;
      }
      var deals := v.deals.value;
      var i := 0;
      while i < |deals|
        invariant 0 <= i <= |deals|
        invariant performanceMetrics == FoldDeals(old(performanceMetrics), deals[..i])
        invariant buySequence == old(buySequence) && sellSequence == old(sellSequence)
        invariant accountStatistics == old(accountStatistics) && consecutiveLosses == old(consecutiveLosses)
      {
        var deal := deals[i];
        if deal.entry == DealEntryIn {
          if deal.profit > 0.0 {
            performanceMetrics := performanceMetrics.(
              wins := performanceMetrics.wins + 1,
              totalWinAmount := performanceMetrics.totalWinAmount + deal.profit);
          } else if deal.profit < 0.0 {
            performanceMetrics := performanceMetrics.(
              loosers := performanceMetrics.loosers + 1,
              totalLossAmount := performanceMetrics.totalLossAmount + Abs(deal.profit));
          }
        }
        assert deals[..i + 1][..i] == deals[..i];
        i := i + 1;
      }
      assert deals[..i] == deals;
      return true;
    }

    /** UpdateSequenceTracking: fold the trade history, then rebuild the direction's sequence from
        the terminal; the other sequence and the account snapshot stay as they were. */
    method UpdateSequenceTracking(dir: Direction)
      requires Valid()
      modifies this
      ensures Valid()
      ensures SequenceOf(dir) == Tracked(dir, terminal.Now())
      ensures dir == Buy ==> sellSequence == old(sellSequence)
      ensures dir == Sell ==> buySequence == old(buySequence)
      ensures performanceMetrics == HistoryFold(old(performanceMetrics), terminal.Now())
      ensures accountStatistics == old(accountStatistics) && consecutiveLosses == old(consecutiveLosses)
    {
      var ok := GetTradeHistory();
      var s := Refresh(dir, terminal.Now());
      if dir == Buy {
        buySequence := s;
      } else {
        sellSequence := s;
      }
    }

    /** UpdatePerformanceMetrics: recompute the account percentages, then the performance ratios,
        then the loss counter. */
    method UpdatePerformanceMetrics(total: nat)
      requires total > 0
      modifies this
      ensures accountStatistics == UpdatedStatistics(old(accountStatistics))
      ensures performanceMetrics == UpdatedMetrics(old(performanceMetrics), accountStatistics, total)
      ensures consecutiveLosses == UpdatedLosses(old(performanceMetrics), old(consecutiveLosses))
      ensures buySequence == old(buySequence) && sellSequence == old(sellSequence)
    {
      accountStatistics := UpdatedStatistics(accountStatistics);
      consecutiveLosses := UpdatedLosses(performanceMetrics, consecutiveLosses);
      performanceMetrics := UpdatedMetrics(performanceMetrics, accountStatistics, total);
    }

    /** AccountInfo: copy balance, equity and floating profit from the terminal and, once any trade
        has been counted, update the performance metrics; false, with nothing changed, when the
        terminal reports no account. */
    method AccountInfo() returns (ok: bool)
      requires Valid()
      modifies this
      ensures Valid()
      ensures ok <==> terminal.Now().account.Some?
      ensures buySequence == old(buySequence) && sellSequence == old(sellSequence)
      ensures !ok ==>
        accountStatistics == old(accountStatistics) && performanceMetrics == old(performanceMetrics) &&
        consecutiveLosses == old(consecutiveLosses)
      ensures ok ==>
        var a := WithAccount(old(accountStatistics), terminal.Now().account.value);
        var total := old(performanceMetrics).wins + old(performanceMetrics).loosers;
        if total == 0 then
          accountStatistics == a && performanceMetrics == old(performanceMetrics) &&
          consecutiveLosses == old(consecutiveLosses)
        else
          accountStatistics == UpdatedStatistics(a) &&
          performanceMetrics == UpdatedMetrics(old(performanceMetrics), UpdatedStatistics(a), total) &&
          consecutiveLosses == UpdatedLosses(old(performanceMetrics), old(consecutiveLosses))
    {
      var account := terminal.Now().account;
      if account.None? {
        return false;
      }
      accountStatistics := WithAccount(accountStatistics, account.value);
      var totalTrades := performanceMetrics.wins + performanceMetrics.loosers;
      if totalTrades > 0 {
        UpdatePerformanceMetrics(totalTrades);
      }
      return true;
    }

    /** CheckModify: align the take-profit of every position on the target, calling
        ModifyPositions once for an unset take-profit and once for one that differs from the
        target, without refreshing the sequence in between. */
    method CheckModify(dir: Direction)
      requires point > 0.0
      modifies terminal
      ensures terminal.log == old(terminal.log) + ModifyBatches(SequenceOf(dir), settings.takeProfitPoints, point)
    {
      var s := SequenceOf(dir);
      var takeProfit := s.lastPosition.takeProfit;
      if takeProfit == 0.0 {
        takeProfit := s.lastPosition.entryPrice + settings.takeProfitPoints * point;
      }
      AlignTakeProfits(terminal, s, takeProfit, point);
    }

    /** CheckClose: once the sequence's profit exceeds thirty points per lot of its last position,
        close every position, one after the other; otherwise send nothing. */
    method CheckClose(dir: Direction)
      requires Valid()
      modifies terminal
      ensures terminal.log == old(terminal.log) + CloseAllRequests(SequenceOf(dir), terminal.market, |old(terminal.log)|, point)
    {
      var s := SequenceOf(dir);
      var profitThreshold := 30.0 * point * s.lastPosition.volume;
      if s.profit > profitThreshold {
        ClosePositions(terminal, s.positions);
      }
    }

    /** CheckTrailingStop: once the sequence's profit exceeds forty-five points per lot of its last
        position, move every position's stop-loss behind the price and its take-profit twenty
        points further; otherwise send nothing. */
    method CheckTrailingStop(dir: Direction)
      requires Valid()
      modifies terminal
      ensures terminal.log == old(terminal.log) + TrailRequests(SequenceOf(dir), old(terminal.Now()).tick, point)
    {
      var s := SequenceOf(dir);
      var profitThreshold := 30.0 * 1.5 * point * s.lastPosition.volume;
      if s.profit > profitThreshold {
        var tick := terminal.Now().tick;
        var trailingStop, newTp;
        if s.dir == Buy {
          trailingStop := tick.bid - TrailingStopPoints * point;
          newTp := s.lastPosition.takeProfit + TrailingStopPoints * point;
        } else {
          trailingStop := tick.ask + TrailingStopPoints * point;
          newTp := s.lastPosition.takeProfit - TrailingStopPoints * point;
        }
        var modified := ModifyPositions(terminal, s, trailingStop, newTp, point);
      }
    }

    /** CheckSequence: when all four gates pass, open one more position and, if it is done,
        refresh the sequence and align its take-profits; `sent` says whether an open request was
        sent. A lot that cannot be computed is a division error CheckSequence catches. */
    method CheckSequence(dir: Direction, f: real, r: int) returns (sent: bool)
      requires Valid()
      modifies this, terminal
      ensures Valid()
      ensures sent <==>
        AddGatesPass(old(SequenceOf(dir)), old(terminal.Now()).tick, settings, point, f, r) && LotDefined(old(SequenceOf(dir)), settings)
      ensures terminal.log == old(terminal.log) +
        AddRequests(dir, old(SequenceOf(dir)), terminal.market, terminal.replies, |old(terminal.log)|,
          old(accountStatistics.balance), settings, point, f, r)
      ensures accountStatistics == old(accountStatistics) && consecutiveLosses == old(consecutiveLosses)
      ensures !sent || terminal.replies(|old(terminal.log)|).retcode != TradeRetcodeDone ==>
        buySequence == old(buySequence) && sellSequence == old(sellSequence) && performanceMetrics == old(performanceMetrics)
      ensures sent && terminal.replies(|old(terminal.log)|).retcode == TradeRetcodeDone ==>
        var v := terminal.market(|old(terminal.log)| + 1);
        && SequenceOf(dir) == Tracked(dir, v)
        && (dir == Buy ==> sellSequence == old(sellSequence))
        && (dir == Sell ==> buySequence == old(buySequence))
        && performanceMetrics == HistoryFold(old(performanceMetrics), v)
    {
      var s := SequenceOf(dir);
      if s.profit > 0.0 {
        return false;
      }
      if |s.positions| > settings.maxPositions {
        return false;
      }
      var tick := terminal.Now().tick;
      var currentPrice := if s.dir == Buy then tick.bid else tick.ask;
      var priceDeviation := Abs(currentPrice - s.lastPosition.entryPrice) / point;
      var refDeviation := Deviation(|s.positions|, settings.minDevDistance, f);
      if priceDeviation < refDeviation {
        return false;
      }
      var timeDifference := IntAbs(tick.time - s.lastPosition.entryTime);
      var refTime := TimeDifference(settings.timeFrame, r);
      if timeDifference < refTime {
        return false;
      }
      var success, outcome := OpenPosition(terminal, s, accountStatistics.balance, settings, point);
      sent := outcome != LotSizeError;
      if success {
        ghost var openBatch := [OpenRequest(s, old(terminal.Now()), accountStatistics.balance, settings, point)];
        ghost var afterOpen := terminal.log;
        UpdateSequenceTracking(dir);
        ghost var current := SequenceOf(dir);
        CheckModify(dir);
        AlignStep(old(terminal.log), openBatch, afterOpen, terminal.log, dir, current, terminal.market,
          settings.takeProfitPoints, point);
      }
    }

    /** The first half of the non-empty branch of one direction in a pass of Run: check for
        adding and align the take-profits, refreshing after each; the sequence is left as the
        terminal now shows it. */
    method AddAndAlign(dir: Direction, f: real, r: int)
      requires Valid()
      modifies this, terminal
      ensures Valid()
      ensures terminal.log == old(terminal.log) +
        AddThenAlign(dir, old(SequenceOf(dir)), terminal.market, terminal.replies, |old(terminal.log)|,
          accountStatistics.balance, settings, point, f, r)
      ensures accountStatistics == old(accountStatistics) && consecutiveLosses == old(consecutiveLosses)
      ensures dir == Buy ==> sellSequence == old(sellSequence)
      ensures dir == Sell ==> buySequence == old(buySequence)
      ensures SequenceOf(dir) == Tracked(dir, terminal.Now())
    {
      var sent := CheckSequence(dir, f, r);
      ghost var added := AddRequests(dir, old(SequenceOf(dir)), terminal.market, terminal.replies, |old(terminal.log)|,
        accountStatistics.balance, settings, point, f, r);
      ghost var afterAdd := terminal.log;
      UpdateSequenceTracking(dir);
      ghost var current := SequenceOf(dir);
      CheckModify(dir);
      AlignStep(old(terminal.log), added, afterAdd, terminal.log, dir, current, terminal.market, settings.takeProfitPoints, point);
      UpdateSequenceTracking(dir);
    }

    /** The second half: trail the stops, refresh, and close if the profit threshold is met; the
        sequence is left as the terminal showed it before the closing orders. */
    method TrailAndClose(dir: Direction)
      requires Valid()
      modifies this, terminal
      ensures Valid()
      ensures terminal.log == old(terminal.log) + TrailThenClose(dir, old(SequenceOf(dir)), terminal.market, |old(terminal.log)|, point)
      ensures exists k: nat :: |old(terminal.log)| <= k <= |terminal.log| && SequenceOf(dir) == Tracked(dir, terminal.market(k))
      ensures accountStatistics == old(accountStatistics) && consecutiveLosses == old(consecutiveLosses)
      ensures dir == Buy ==> sellSequence == old(sellSequence)
      ensures dir == Sell ==> buySequence == old(buySequence)
    {
      ghost var trailed := TrailRequests(SequenceOf(dir), terminal.Now().tick, point);
      CheckTrailingStop(dir);
      ghost var afterTrail := terminal.log;
      UpdateSequenceTracking(dir);
      ghost var current := SequenceOf(dir);
      CheckClose(dir);
      CloseStep(old(terminal.log), trailed, afterTrail, terminal.log, dir, current, terminal.market, point);
      assert SequenceOf(dir) == Tracked(dir, terminal.market(|afterTrail|));
    }

    /** The non-empty branch of one direction in a pass of Run: check for adding, align the
        take-profits, trail and close, with a refresh before each step after the first. */
    method ManageSequence(dir: Direction, f: real, r: int)
      requires Valid()
      modifies this, terminal
      ensures Valid()
      ensures terminal.log == old(terminal.log) +
        ManageRequests(dir, old(SequenceOf(dir)), terminal.market, terminal.replies, |old(terminal.log)|,
          accountStatistics.balance, settings, point, f, r)
      ensures accountStatistics == old(accountStatistics) && consecutiveLosses == old(consecutiveLosses)
      ensures dir == Buy ==> sellSequence == old(sellSequence)
      ensures dir == Sell ==> buySequence == old(buySequence)
      ensures exists k: nat :: |old(terminal.log)| <= k <= |terminal.log| && SequenceOf(dir) == Tracked(dir, terminal.market(k))
    {
      AddAndAlign(dir, f, r);
      ghost var afterHead := terminal.log;
      ghost var current := SequenceOf(dir);
      TrailAndClose(dir);
      ghost var head := AddThenAlign(dir, old(SequenceOf(dir)), terminal.market, terminal.replies, |old(terminal.log)|,
        accountStatistics.balance, settings, point, f, r);
      TrailAndCloseStep(old(terminal.log), head, afterHead, terminal.log, dir, current, terminal.market, point);
    }

    /** The empty branch of one direction in a pass of Run: give the sequence a new identifier and
        send one open request for it. */
    method StartSequence(dir: Direction, d: Draws)
      requires Valid() && ValidDraws(d) && |SequenceOf(dir).positions| == 0
      modifies this, terminal
      ensures Valid()
      ensures accountStatistics == old(accountStatistics) && consecutiveLosses == old(consecutiveLosses)
      ensures performanceMetrics == old(performanceMetrics)
      ensures dir == Buy ==> sellSequence == old(sellSequence)
      ensures dir == Sell ==> buySequence == old(buySequence)
      ensures SequenceOf(dir) == old(SequenceOf(dir)).(id := SequenceIdentifier(dir, d.stamp, d.seqNo, d.hash))
      ensures terminal.log == old(terminal.log) + [OpenRequest(SequenceOf(dir), old(terminal.Now()), accountStatistics.balance, settings, point)]
    {
      var id := SequenceIdentifier(dir, d.stamp, d.seqNo, d.hash);
      if dir == Buy {
        buySequence := buySequence.(id := id);
      } else {
        sellSequence := sellSequence.(id := id);
      }
      var success, outcome := OpenPosition(terminal, SequenceOf(dir), accountStatistics.balance, settings, point);
    }

    /** The per-direction half of one pass of Run: an empty sequence is started, a non-empty one
        managed. */
    method ProcessSequence(dir: Direction, d: Draws)
      requires Valid() && ValidDraws(d)
      modifies this, terminal
      ensures Valid()
      ensures terminal.log == old(terminal.log) +
        SideRequests(dir, old(SequenceOf(dir)), terminal.market, terminal.replies, |old(terminal.log)|,
          accountStatistics.balance, settings, point, d)
      ensures accountStatistics == old(accountStatistics) && consecutiveLosses == old(consecutiveLosses)
      ensures dir == Buy ==> sellSequence == old(sellSequence)
      ensures dir == Sell ==> buySequence == old(buySequence)
      ensures |old(SequenceOf(dir)).positions| == 0 ==>
        SequenceOf(dir) == old(SequenceOf(dir)).(id := SequenceIdentifier(dir, d.stamp, d.seqNo, d.hash)) &&
        performanceMetrics == old(performanceMetrics)
      ensures |old(SequenceOf(dir)).positions| > 0 ==>
        exists k: nat :: |old(terminal.log)| <= k <= |terminal.log| && SequenceOf(dir) == Tracked(dir, terminal.market(k))
    {
      if |SequenceOf(dir).positions| > 0 {
        ManageSequence(dir, d.f, d.r);
      } else {
        StartSequence(dir, d);
      }
    }

    /** The opening of one pass of Run: refresh the account, then both sequences, without sending
        anything. */
    method RefreshAll()
      requires Valid()
      modifies this
      ensures Valid()
      ensures terminal.log == old(terminal.log)
      ensures buySequence == Tracked(Buy, old(terminal.Now())) && sellSequence == Tracked(Sell, old(terminal.Now()))
      ensures accountStatistics.balance ==
        if old(terminal.Now()).account.Some? then old(terminal.Now()).account.value.balance else old(accountStatistics.balance)
    {
      var ok := AccountInfo();
      UpdateSequenceTracking(Buy);
      UpdateSequenceTracking(Sell);
    }

    /** The two per-direction halves of a pass of Run, Buy first, each on the sequence as it stood
        when the pass began and pricing with the balance read then. */
    method ProcessBoth(buy: Draws, sell: Draws)
      requires Valid() && ValidDraws(buy) && ValidDraws(sell)
      modifies this, terminal
      ensures Valid()
      ensures terminal.log == PassLog(old(terminal.log), old(buySequence), old(sellSequence), terminal.market,
        terminal.replies, old(accountStatistics.balance), settings, point, buy, sell)
    {
      ProcessSequence(Buy, buy);
      ProcessSequence(Sell, sell);
    }

    /** One pass of Run: refresh the account, refresh both sequences, then process the Buy sequence
        and the Sell sequence. Both refreshes see the terminal as the pass found it, and both sides
        price their orders with the balance just read. */
    method RunPass(buy: Draws, sell: Draws)
      requires Valid() && ValidDraws(buy) && ValidDraws(sell)
      modifies this, terminal
      ensures Valid()
      ensures
        var v := old(terminal.Now());
        terminal.log == PassLog(old(terminal.log), Tracked(Buy, v), Tracked(Sell, v), terminal.market, terminal.replies,
          if v.account.Some? then v.account.value.balance else old(accountStatistics.balance), settings, point, buy, sell)
    {
      ghost var v := terminal.Now();
      RefreshAll();
      ghost var buyStart, sellStart, balance := buySequence, sellSequence, accountStatistics.balance;
      assert buyStart == Tracked(Buy, v) && sellStart == Tracked(Sell, v);
      assert balance == if v.account.Some? then v.account.value.balance else old(accountStatistics.balance);
      assert terminal.log == old(terminal.log);
      ProcessBoth(buy, sell);
    }
  }
}
