/** The gateway's message handling: each method is one atomic section of the protocol, performed on
    the shared ledger and the shared map of pending orders. */
module ClientHandlers {
  import opened Common
  import opened GatewayLedger
  import opened GatewayProtocol

  class ClientHandler {
    const ledger: AccountManager
    var pending: Pending
    var locals: map<LocalKey, Side>
    ghost var inFlight: seq<Token>

    ghost function View(): Gateway
      reads this, ledger
    {
      Gateway(ledger.accounts, pending, locals, inFlight)
    }

    constructor (ledger: AccountManager)
      ensures this.ledger == ledger
      ensures View() == Gateway(ledger.accounts, map[], map[], [])
    {
      this.ledger := ledger;
      pending, locals, inFlight := map[], map[], [];
    }

    /** The risk check of a new order; the reservation is in flight until it is tracked. */
    method Reserve(order: NewOrder) returns (r: Reservation)
      modifies this, ledger
      ensures View() == Apply(old(View()), ReserveNew(order))
      ensures r.Granted? ==> inFlight == old(inFlight) + [r.token] && r.token == OrderToken(order)
      ensures r.Refused? ==> View() == old(View()) && OrderViolation(old(ledger.accounts), order) == Some(r.violation)
    {
      r := ledger.CheckAndReserveOrder(order);
      if r.Granted? {
        inFlight := inFlight + [r.token];
      }
    }

    /** Records the new order under its id, both locally and for the response handler. */
    method Track(conn: ConnId, order: NewOrder, token: Token, ghost flight: nat)
      requires flight < |inFlight| && inFlight[flight] == token
      modifies this
      ensures View() == Apply(old(View()), TrackNew(flight, conn, order.orderId, order.side))
    {
      var isBuy := order.side == Buy;
      var side := if isBuy then Buy else Sell;
      locals := locals[LocalKey(conn, order.orderId) := side];
      pending := pending[order.orderId := Metadata(token, side, Active, conn)];
      inFlight := Without(inFlight, flight);
    }

    method Cancel(id: OrderId)
      modifies this
      ensures View() == Apply(old(View()), MarkCancel(id))
    {
      if id in pending {
        pending := pending[id := pending[id].(operation := CancelPending)];
      }
    }

    /** The cancel could not be routed to the engine. */
    method CancelFailed(id: OrderId)
      modifies this
      ensures View() == Apply(old(View()), RestoreActive(id))
    {
      if id in pending {
        pending := pending[id := pending[id].(operation := Active)];
      }
    }

    /** Adjusts the reservation of a pending order and, if this connection sent it, its entry. */
    method ReplaceOrder(conn: ConnId, r: Replace) returns (refusal: Option<RejectReason>)
      modifies this, ledger
      ensures View() == Apply(old(View()), OnReplace(conn, r))
      ensures refusal == if r.orderId !in old(pending) then Some(NotFound)
                         else if ReplaceViolation(old(ledger.accounts), old(pending)[r.orderId].token, r).Some?
                           then Some(Risk)
                         else None
    {
      if r.orderId !in pending {
        return Some(NotFound);
      }
      var res := ledger.AdjustReservation(pending[r.orderId].token, r);
      if res.Refused? {
        return Some(Risk);
      }
      var key := LocalKey(conn, r.orderId);
      if key in locals {
        var side := locals[key];
        pending := pending[r.orderId := Metadata(res.token, side, Active, conn)];
      }
      return None;
    }

    /** A new order or a replace could not be routed to the engine, after it was tracked. */
    method RoutingFailed(conn: ConnId, token: Token, wasNew: bool)
      modifies this, ledger
      ensures View() == Apply(old(View()), RouteFailed(conn, token, wasNew))
    {
      ledger.ReleaseReservation(token);
      if wasNew {
        locals := locals - {LocalKey(conn, token.orderId)};
      }
    }

    /** A fill settles both parties; the first fill of an order ends its reservation. */
    method HandleFill(fill: Fill)
      modifies this, ledger
      ensures View() == Apply(old(View()), OnFill(fill))
    {
      var maker := if fill.makerOrderId in pending then Some(pending[fill.makerOrderId]) else None;
      var taker := if fill.takerOrderId in pending then Some(pending[fill.takerOrderId]) else None;
      if maker.Some? {
        ledger.ApplyFill(fill, maker.value.token, maker.value.side == Buy);
        pending := pending - {fill.makerOrderId};
      }
      if taker.Some? {
        ledger.ApplyFill(fill, taker.value.token, taker.value.side == Buy);
        pending := pending - {fill.takerOrderId};
      }
      assert pending == old(pending) - {fill.makerOrderId, fill.takerOrderId};
    }

    /** An acknowledgement settles the order only if its cancel was pending. */
    method HandleAck(id: OrderId)
      modifies this, ledger
      ensures View() == Apply(old(View()), OnAck(id))
    {
      if id in pending {
        var metadata := pending[id];
        match metadata.operation
        case CancelPending =>
          pending := pending - {id};
          ledger.ReleaseReservation(metadata.token);
        case Active =>
      }
    }

    method HandleReject(id: OrderId)
      modifies this, ledger
      ensures View() == Apply(old(View()), OnReject(id))
    {
      if id in pending {
        var metadata := pending[id];
        pending := pending - {id};
        ledger.ReleaseReservation(metadata.token);
      }
    }
  }
}
