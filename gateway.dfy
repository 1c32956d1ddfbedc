/** The MetaTrader 5 terminal as the engine sees it: what its queries return, the requests the
    engine sends, and the replies it gets. The terminal itself is outside the model; its answers
    are inputs. */
module Gateway {
  import opened Parameters

  // MetaTrader 5 constants used by the engine.
  const OrderTypeBuy: int := 0
  const OrderTypeSell: int := 1
  const TradeActionDeal: int := 1
  const TradeActionSlTp: int := 6
  const OrderFillingIoc: int := 1
  const DealEntryIn: int := 0
  const SymbolTradeModeFull: int := 4
  const TradeRetcodeDone: int := 10009

  /** The order type of a direction's positions. */
  function OrderTypeOf(dir: Direction): int
  {
    if dir == Buy then OrderTypeBuy else OrderTypeSell
  }

  /** `symbol_info_tick(symbol)`. */
  datatype Tick = Tick(bid: real, ask: real, time: int, volume: int)

  /** `symbol_info(symbol)`. */
  datatype SymbolInfo = SymbolInfo(
    point: real,
    volumeMin: real,
    volumeMax: real,
    volumeStep: real,
    stopsLevel: int,
    tradeMode: int)

  /** An open position as `positions_get` reports it. */
  datatype TerminalPosition = TerminalPosition(
    ticket: int,
    orderType: int,
    magic: int,
    volume: real,
    priceOpen: real,
    tp: real,
    profit: real,
    time: int,
    symbol: string,
    comment: string)

  /** A historical order as `history_orders_get` reports it. */
  datatype HistoryOrder = HistoryOrder(
    ticket: int,
    orderType: int,
    magic: int,
    priceOpen: real,
    volumeInitial: real,
    timeSetup: int,
    tp: real,
    symbol: string)

  /** A historical deal as `history_deals_get` reports it. */
  datatype Deal = Deal(ticket: int, entry: int, profit: real, time: int)

  /** `account_info()`. */
  datatype AccountInfo = AccountInfo(balance: real, equity: real, profit: real)

  /** Everything the engine can query about its one symbol at one moment. A query that can
      return `None` is an `Option`; the tick and the symbol information are always present
      (the engine dereferences them without a check). */
  datatype View = View(
    tick: Tick,
    info: SymbolInfo,
    positions: Option<seq<TerminalPosition>>,
    orders: Option<seq<HistoryOrder>>,
    deals: Option<seq<Deal>>,
    account: Option<AccountInfo>)

  /** The requests `order_send` receives from the engine (the symbol is the engine's one symbol;
      the filling mode is always IOC). */
  datatype Request =
    | MarketOrder(volume: real, orderType: int, price: real, deviation: int, magic: int, tp: real, comment: string)
    | ModifyStops(ticket: int, price: real, tp: real, sl: real, orderType: int, magic: int, deviation: int)
    | CloseOrder(volume: real, orderType: int, ticket: int, price: real, deviation: int, magic: int)

  /** The reply of `order_send`. */
  datatype Reply = Reply(retcode: int, comment: string)

  /** The terminal: `market(k)` is what the queries return once `k` requests have been sent, and
      `replies(k)` is the reply to the request with index `k`. `log` is every request sent so far. */
  class Terminal {
    const market: nat -> View
    const replies: nat -> Reply
    var log: seq<Request>

    /** The broker always reports a positive volume step and a positive point size. */
    ghost predicate WellFormed()
    {
      forall k: nat :: market(k).info.volumeStep > 0.0 && market(k).info.point > 0.0
    }

    constructor (market: nat -> View, replies: nat -> Reply)
      ensures this.market == market && this.replies == replies
      ensures log == []
    {
      this.market := market;
      this.replies := replies;
      log := [];
    }

    /** What every query returns right now. */
    function Now(): View
      reads this
    {
      market(|log|)
    }

    /** `order_send(request)`. */
    method Send(r: Request) returns (reply: Reply)
      modifies this
      ensures log == old(log) + [r]
      ensures reply == replies(|old(log)|)
    {
      reply := replies(|log|);
      log := log + [r];
    }
  }
}
