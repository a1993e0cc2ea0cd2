/** The values that travel between client, gateway and engine: sides, orders, commands and events. */
module Common {

  type OrderId = nat
  type AccountId = nat
  type SymbolId = nat
  type Price = int
  type Qty = int

  datatype Option<+T> = None | Some(value: T)

  datatype Side = Buy | Sell {
    function Opposite(): Side {
      if Buy? then Sell else Buy
    }
  }

  datatype TimeInForce = Gtc | Ioc

  datatype Order = Order(
    orderId: OrderId,
    accountId: AccountId,
    symbolId: SymbolId,
    side: Side,
    price: Price,
    qtyRem: Qty,
    tif: TimeInForce,
    postOnly: bool)

  datatype RiskLimits = RiskLimits(maxLong: Qty, maxShort: Qty, maxOrderSize: Qty)

  const DEFAULT_LIMITS := RiskLimits(10_000, 10_000, 1_000)

  datatype Position = Position(net: Qty, avgPrice: Price, realizedPnl: int)

  const FLAT := Position(0, 0, 0)

  datatype NewOrder = NewOrder(
    clientSeq: nat,
    orderId: OrderId,
    accountId: AccountId,
    symbolId: SymbolId,
    side: Side,
    price: Price,
    qty: Qty,
    tif: TimeInForce,
    postOnly: bool)

  datatype Cancel = Cancel(clientSeq: nat, orderId: OrderId, accountId: AccountId, symbolId: SymbolId)

  datatype Replace = Replace(
    clientSeq: nat,
    orderId: OrderId,
    accountId: AccountId,
    symbolId: SymbolId,
    newPrice: Price,
    newQty: Qty)

  datatype Command =
    | New(no: NewOrder)
    | CancelOrder(cancel: Cancel)
    | ReplaceOrder(replace: Replace)
    | SetLimits(clientSeq: nat, accountId: AccountId, symbolId: SymbolId, limits: RiskLimits)
    | QueryAccount(clientSeq: nat, accountId: AccountId, symbolId: SymbolId)
    | Authenticate(apiKey: string)

  datatype RejectReason = Invalid | Risk | Overloaded | NotFound | PostOnlyWouldCross | RateLimitExceeded

  datatype Fill = Fill(
    serverSeq: nat,
    clientSeq: nat,
    symbolId: SymbolId,
    takerOrderId: OrderId,
    makerOrderId: OrderId,
    price: Price,
    qty: Qty)

  /** An order as an engine reports it for reconciliation. */
  datatype OrderSnapshot = OrderSnapshot(
    orderId: OrderId,
    accountId: AccountId,
    symbolId: SymbolId,
    side: Side,
    price: Price,
    qtyRem: Qty,
    reservedAmount: int)

  /** The best price of one side and the quantity resting there. */
  datatype Quote = Quote(price: Price, qty: Qty)

  datatype Event =
    | Ack(serverSeq: nat, clientSeq: nat, orderId: OrderId)
    | Reject(serverSeq: nat, clientSeq: nat, rejected: Option<OrderId>, reason: RejectReason)
    | Filled(fill: Fill)
    | BookTop(serverSeq: nat, symbolId: SymbolId,
              bidPx: Option<Price>, bidQty: Option<Qty>, askPx: Option<Price>, askQty: Option<Qty>)
    | AccountState(serverSeq: nat, clientSeq: nat, accountId: AccountId, symbolId: SymbolId,
                   position: Position, limits: RiskLimits)
    | AuthSuccess(accountId: AccountId)
    | AuthFailure(failure: string)

  function PriceOf(q: Option<Quote>): Option<Price> {
    if q.Some? then Some(q.value.price) else None
  }

  function QtyAt(q: Option<Quote>): Option<Qty> {
    if q.Some? then Some(q.value.qty) else None
  }

  /** The event that shows the top of both sides. */
  function TopEvent(serverSeq: nat, symbolId: SymbolId, bid: Option<Quote>, ask: Option<Quote>): Event {
    BookTop(serverSeq, symbolId, PriceOf(bid), QtyAt(bid), PriceOf(ask), QtyAt(ask))
  }

  function Min(a: int, b: int): int {
    if a <= b then a else b
  }

  function Abs(a: int): nat {
    if a < 0 then -a else a
  }
}
