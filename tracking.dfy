/** The sequence tracker (trader/strategy.py, UpdateSequenceTracking and GetLastOrder): every
    refresh rebuilds a direction's sequence from what the terminal reports, never from the previous
    sequence. */
module Tracking {
  import opened Parameters
  import opened Gateway

  /** The length of the sequence ids the engine writes into order comments. */
  const IdLength: nat := 16

  /** How far back GetLastOrder looks into the order history: seven days, in seconds. */
  const LookbackSeconds: int := 7 * 24 * 60 * 60

  /** All fields of a terminal position, as UpdateSequenceTracking copies them. */
  function ToPositionInfo(g: TerminalPosition): PositionInfo
  {
    PositionInfo(g.orderType, g.volume, g.profit, g.priceOpen, g.tp, g.magic, g.ticket, g.time, g.symbol, g.comment)
  }

  /** The snapshots of the terminal positions that carry `magic`, in the terminal's order. */
  function Tagged(gs: seq<TerminalPosition>, magic: int): seq<PositionInfo>
  {
    if |gs| == 0 then []
    else
      var last := if gs[|gs| - 1].magic == magic then [ToPositionInfo(gs[|gs| - 1])] else [];
      Tagged(gs[..|gs| - 1], magic) + last
  }

  /** The comment of the last position whose comment is exactly an id long, or "". */
  function IdOf(ps: seq<PositionInfo>): string
  {
    if |ps| == 0 then ""
    else if |ps[|ps| - 1].comment| == IdLength then ps[|ps| - 1].comment
    else IdOf(ps[..|ps| - 1])
  }

  /** The positions a refresh keeps for a direction; none when the terminal returns no list. */
  function TrackedPositions(dir: Direction, v: View): seq<PositionInfo>
  {
    match v.positions
    case None => []
    case Some(gs) => Tagged(gs, dir.Magic())
  }

  // ---- GetLastOrder ----

  predicate OpenMatches(g: TerminalPosition, dir: Direction)
  {
    g.orderType == OrderTypeOf(dir) && g.magic == dir.Magic()
  }

  predicate OrderMatches(o: HistoryOrder, dir: Direction)
  {
    o.orderType == OrderTypeOf(dir) && o.magic == dir.Magic()
  }

  /** The history query's window: orders set up between `from` and `to`, both included. */
  predicate InWindow(o: HistoryOrder, from: int, to: int)
  {
    from <= o.timeSetup <= to
  }

  /** The first open position of the direction, in the terminal's order. */
  function FirstOpen(gs: seq<TerminalPosition>, dir: Direction): Option<TerminalPosition>
  {
    if |gs| == 0 then None
    else if OpenMatches(gs[0], dir) then Some(gs[0])
    else FirstOpen(gs[1..], dir)
  }

  /** The last order of the direction inside the window, in the terminal's order. */
  function LatestOrder(os: seq<HistoryOrder>, dir: Direction, from: int, to: int): Option<HistoryOrder>
  {
    if |os| == 0 then None
    else if OrderMatches(os[|os| - 1], dir) && InWindow(os[|os| - 1], from, to) then Some(os[|os| - 1])
    else LatestOrder(os[..|os| - 1], dir, from, to)
  }

  /** The fields GetLastOrder copies from an open position (type and comment stay at their defaults). */
  function FromOpenPosition(g: TerminalPosition): PositionInfo
  {
    DefaultPosition().(ticketNumber := g.ticket, magicNumber := g.magic, entryPrice := g.priceOpen,
      volume := g.volume, entryTime := g.time, profit := g.profit, takeProfit := g.tp, symbol := g.symbol)
  }

  /** The fields GetLastOrder copies from a historical order; its profit is 0. */
  function FromHistoryOrder(o: HistoryOrder): PositionInfo
  {
    DefaultPosition().(ticketNumber := o.ticket, magicNumber := o.magic, entryPrice := o.priceOpen,
      volume := o.volumeInitial, entryTime := o.timeSetup, profit := 0.0, takeProfit := o.tp, symbol := o.symbol)
  }

  /** The history fallback of GetLastOrder. */
  function LastHistoryOrder(dir: Direction, v: View): PositionInfo
  {
    match v.orders
    case None => DefaultPosition()
    case Some(os) =>
      match LatestOrder(os, dir, v.tick.time - LookbackSeconds, v.tick.time)
      case Some(o) => FromHistoryOrder(o)
      case None => DefaultPosition()
  }

  /** What GetLastOrder resolves as a direction's last position. */
  function LastOrder(dir: Direction, v: View): PositionInfo
  {
    var first := if v.positions.Some? then FirstOpen(v.positions.value, dir) else None;
    match first
    case Some(g) => FromOpenPosition(g)
    case None => LastHistoryOrder(dir, v)
  }

  /** GetLastOrder: scan the open positions forwards, then the order history backwards. */
  method GetLastOrder(dir: Direction, v: View) returns (last: PositionInfo)
    ensures last == LastOrder(dir, v)
  {
    if v.positions.Some? {
      var gs := v.positions.value;
      var i := 0;
      while i < |gs|
        invariant 0 <= i <= |gs|
        invariant FirstOpen(gs, dir) == FirstOpen(gs[i..], dir)
      {
        if gs[i].orderType == OrderTypeOf(dir) && gs[i].magic == dir.Magic() {
          return FromOpenPosition(gs[i]);
        }
        assert gs[i..][1..] == gs[i + 1..];
        i := i + 1;
      }
    }
    var currentTime := v.tick.time;
    var fromTime := currentTime - LookbackSeconds;
    if v.orders.Some? {
      var os := v.orders.value;
      var j := |os|;
      assert os[..j] == os;
      while j > 0
        invariant 0 <= j <= |os|
        invariant LatestOrder(os, dir, fromTime, currentTime) == LatestOrder(os[..j], dir, fromTime, currentTime)
      {
        var order := os[j - 1];
        if InWindow(order, fromTime, currentTime) && order.orderType == OrderTypeOf(dir) && order.magic == dir.Magic() {
          return FromHistoryOrder(order);
        }
        assert os[..j][..j - 1] == os[..j - 1];
        j := j - 1;
      }
    }
    return DefaultPosition();
  }

  /** The sequence a refresh produces. */
  function Tracked(dir: Direction, v: View): Sequence
  {
    var ps := TrackedPositions(dir, v);
    Sequence(IdOf(ps), dir, SumProfit(ps), SumVolume(ps), ps, LastOrder(dir, v))
  }

  /** The body of UpdateSequenceTracking: start from zero, keep the positions carrying the
      direction's tag while summing their profit and volume and remembering the last id-long
      comment, then resolve the last position. */
  method Refresh(dir: Direction, v: View) returns (s: Sequence)
    ensures s.dir == dir
    ensures s.positions == TrackedPositions(dir, v)
    ensures s.profit == SumProfit(s.positions) && s.volume == SumVolume(s.positions)
    ensures s.id == IdOf(s.positions)
    ensures s.lastPosition == LastOrder(dir, v)
  {
    var magic := dir.Magic();
    var profit := 0.0;
    var volume := 0.0;
    var positions: seq<PositionInfo> := [];
    var stringId := "";
    if v.positions.Some? {
      var gs := v.positions.value;
      var i := 0;
      while i < |gs|
        invariant 0 <= i <= |gs|
        invariant positions == Tagged(gs[..i], magic)
        invariant profit == SumProfit(positions) && volume == SumVolume(positions)
        invariant stringId == IdOf(positions)
      {
        var position := gs[i];
        assert gs[..i + 1][..i] == gs[..i];
        if position.magic == magic {
          var posInfo := ToPositionInfo(position);
          if |posInfo.comment| == IdLength {
            stringId := posInfo.comment;
          }
          SumsOfAppend(positions, posInfo);
          assert (positions + [posInfo])[..|positions|] == positions;
          positions := positions + [posInfo];
          profit := profit + posInfo.profit;
          volume := volume + posInfo.volume;
        }
        i := i + 1;
      }
      assert gs[..i] == gs;
    }
    var last := GetLastOrder(dir, v);
    s := Sequence(stringId, dir, profit, volume, positions, last);
  }

  // ---- What a refresh guarantees ----

  /** A refresh keeps exactly the positions carrying the tag: each kept snapshot has the tag and
      comes from a reported position, and every reported position with the tag is kept. */
  lemma {:induction false} TaggedKeepsExactlyTheTag(gs: seq<TerminalPosition>, magic: int)
    ensures forall p :: p in Tagged(gs, magic) ==>
      p.magicNumber == magic && exists g :: g in gs && ToPositionInfo(g) == p
    ensures forall g :: g in gs && g.magic == magic ==> ToPositionInfo(g) in Tagged(gs, magic)
    ensures |Tagged(gs, magic)| <= |gs|
  {
    if |gs| > 0 {
      var init := gs[..|gs| - 1];
      TaggedKeepsExactlyTheTag(init, magic);
      assert gs == init + [gs[|gs| - 1]];
      forall g | g in gs && g.magic == magic
        ensures ToPositionInfo(g) in Tagged(gs, magic)
      {
        if g != gs[|gs| - 1] {
          assert g in init;
        }
      }
    }
  }

  /** Refreshing each tag over its own segment and concatenating is refreshing the whole list,
      so the kept positions stay in the terminal's order. */
  lemma {:induction false} TaggedOfConcat(a: seq<TerminalPosition>, b: seq<TerminalPosition>, magic: int)
    ensures Tagged(a + b, magic) == Tagged(a, magic) + Tagged(b, magic)
    decreases |b|
  {
    if |b| == 0 {
      assert a + b == a;
    } else {
      var b' := b[..|b| - 1];
      TaggedOfConcat(a, b', magic);
      assert (a + b)[..|a + b| - 1] == a + b';
      assert (a + b)[|a + b| - 1] == b[|b| - 1];
    }
  }

  /** The Buy and Sell refreshes of one list share no position: the two tags differ. */
  lemma TrackedDirectionsDisjoint(v: View)
    ensures forall p :: p in TrackedPositions(Buy, v) ==> p !in TrackedPositions(Sell, v)
  {
    if v.positions.Some? {
      TaggedKeepsExactlyTheTag(v.positions.value, BuyMagic);
      TaggedKeepsExactlyTheTag(v.positions.value, SellMagic);
    }
  }

  /** The recovered id is either "" (no kept comment is id-long) or the comment of the last kept
      position whose comment is id-long. */
  lemma {:induction false} IdOfIsLastIdLongComment(ps: seq<PositionInfo>)
    ensures IdOf(ps) == "" <==> forall j :: 0 <= j < |ps| ==> |ps[j].comment| != IdLength
    ensures IdOf(ps) != "" ==>
      |IdOf(ps)| == IdLength &&
      exists i :: 0 <= i < |ps| && ps[i].comment == IdOf(ps) &&
        forall j :: i < j < |ps| ==> |ps[j].comment| != IdLength
  {
    if |ps| > 0 {
      var init := ps[..|ps| - 1];
      IdOfIsLastIdLongComment(init);
      if |ps[|ps| - 1].comment| != IdLength && IdOf(init) != "" {
        var i :| 0 <= i < |init| && init[i].comment == IdOf(init) &&
          forall j :: i < j < |init| ==> |init[j].comment| != IdLength;
        assert ps[i].comment == IdOf(ps);
      }
    }
  }

  /** The first matching open position wins, however many later ones match. */
  lemma {:induction false} FirstOpenIsFirst(gs: seq<TerminalPosition>, dir: Direction, i: nat)
    requires i < |gs| && OpenMatches(gs[i], dir)
    requires forall j :: 0 <= j < i ==> !OpenMatches(gs[j], dir)
    ensures FirstOpen(gs, dir) == Some(gs[i])
  {
    if i > 0 {
      FirstOpenIsFirst(gs[1..], dir, i - 1);
    }
  }

  lemma {:induction false} FirstOpenNone(gs: seq<TerminalPosition>, dir: Direction)
    ensures FirstOpen(gs, dir) == None <==> forall j :: 0 <= j < |gs| ==> !OpenMatches(gs[j], dir)
  {
    if |gs| > 0 {
      FirstOpenNone(gs[1..], dir);
      assert forall j :: 1 <= j < |gs| ==> gs[j] == gs[1..][j - 1];
    }
  }

  /** The fallback takes the latest matching order of the window. */
  lemma {:induction false} LatestOrderIsLatest(os: seq<HistoryOrder>, dir: Direction, from: int, to: int, i: nat)
    requires i < |os| && OrderMatches(os[i], dir) && InWindow(os[i], from, to)
    requires forall j :: i < j < |os| ==> !(OrderMatches(os[j], dir) && InWindow(os[j], from, to))
    ensures LatestOrder(os, dir, from, to) == Some(os[i])
  {
    if i < |os| - 1 {
      LatestOrderIsLatest(os[..|os| - 1], dir, from, to, i);
    }
  }

  /** GetLastOrder's first rule: the first matching open position in the terminal's order wins. */
  lemma LastOrderTakesFirstOpen(dir: Direction, v: View, i: nat)
    requires v.positions.Some? && i < |v.positions.value| && OpenMatches(v.positions.value[i], dir)
    requires forall j :: 0 <= j < i ==> !OpenMatches(v.positions.value[j], dir)
    ensures LastOrder(dir, v) == FromOpenPosition(v.positions.value[i])
  {
    FirstOpenIsFirst(v.positions.value, dir, i);
  }

  /** GetLastOrder's second rule: without a matching open position it falls back on the history. */
  lemma LastOrderFallsBackOnHistory(dir: Direction, v: View)
    requires v.positions.Some? ==> forall j :: 0 <= j < |v.positions.value| ==> !OpenMatches(v.positions.value[j], dir)
    ensures LastOrder(dir, v) == LastHistoryOrder(dir, v)
  {
    if v.positions.Some? {
      FirstOpenNone(v.positions.value, dir);
    }
  }

  /** The history fallback takes the latest matching order set up in the last seven days. */
  lemma LastHistoryTakesLatestOrder(dir: Direction, v: View, i: nat)
    requires v.orders.Some? && i < |v.orders.value|
    requires OrderMatches(v.orders.value[i], dir) && InWindow(v.orders.value[i], v.tick.time - LookbackSeconds, v.tick.time)
    requires forall j :: i < j < |v.orders.value| ==>
      !(OrderMatches(v.orders.value[j], dir) && InWindow(v.orders.value[j], v.tick.time - LookbackSeconds, v.tick.time))
    ensures LastHistoryOrder(dir, v) == FromHistoryOrder(v.orders.value[i])
  {
    LatestOrderIsLatest(v.orders.value, dir, v.tick.time - LookbackSeconds, v.tick.time, i);
  }
}
