/** Whether the gateway's books keep up with what the engines book, in money and in lots: an order's first fill
    ends its pending entry, and later fills of the order pass the gateway by. */
module SettledFills {
  import opened Common
  import opened EndToEnd
  import L = GatewayLedger
  import G = GatewayProtocol

  /** What is followed: an account's money, or its position in one symbol. */
  datatype Gauge = Money | Lots(symbolId: SymbolId)

  /** What a fill brings a buyer or a seller. */
  function Worth(m: Gauge, fill: Fill, buys: bool): int {
    match m
    case Money => if buys then -(fill.price * fill.qty) else fill.price * fill.qty
    case Lots(y) => if fill.symbolId != y then 0 else if buys then fill.qty else -fill.qty
  }

  /** What a fill brings an account by the order under this id: the engine's side of it. */
  function Flow(s: System, fill: Fill, id: OrderId, a: AccountId, m: Gauge): int {
    if id in s.orders && s.orders[id].accountId == a then Worth(m, fill, s.orders[id].side.Buy?) else 0
  }

  /** The part of it that finds no pending entry. */
  function Unseen(s: System, fill: Fill, id: OrderId, a: AccountId, m: Gauge): int {
    if id in s.gateway.pending then 0 else Flow(s, fill, id, a, m)
  }

  /** A fill is handed to the gateway. */
  predicate IsFill(s: System, h: Happening) {
    h.Deliver? && Possible(s, h) && s.links[h.symbolId].events[h.at].Filled?
  }

  function FillAt(s: System, h: Happening): Fill
    requires IsFill(s, h)
  {
    s.links[h.symbolId].events[h.at].fill
  }

  /** What the happening should bring an account. */
  function Due(s: System, h: Happening, a: AccountId, m: Gauge): int {
    if IsFill(s, h) then
      var fill := FillAt(s, h);
      Flow(s, fill, fill.makerOrderId, a, m) + Flow(s, fill, fill.takerOrderId, a, m)
    else 0
  }

  /** Nothing that matters to the account is missed. */
  predicate Seen(s: System, h: Happening, a: AccountId, m: Gauge) {
    IsFill(s, h) ==>
      var fill := FillAt(s, h);
      Unseen(s, fill, fill.makerOrderId, a, m) + Unseen(s, fill, fill.takerOrderId, a, m) == 0
  }

  /** What an account has on the gateway's books. */
  function Has(l: L.Ledger, a: AccountId, m: Gauge): int
    requires a in l
  {
    match m
    case Money => l[a].buyingPower
    case Lots(y) => L.PositionFor(l[a], y).net
  }

  lemma ConsumedMoves(l: L.Ledger, fill: Fill, token: L.Token, isBuy: bool, a: AccountId, m: Gauge)
    requires a in l
    ensures var l' := L.Consumed(l, fill, token, isBuy);
            && a in l'
            && Has(l', a, m) == Has(l, a, m) + if token.accountId == a then Worth(m, fill, isBuy) else 0
  {
  }

  lemma FillMoves(s: System, fill: Fill, a: AccountId, m: Gauge)
    requires TokensKnown(s) && fill.makerOrderId != fill.takerOrderId && a in s.gateway.ledger
    ensures var g := G.AfterFill(s.gateway, fill);
            && a in g.ledger
            && Has(g.ledger, a, m) == Has(s.gateway.ledger, a, m)
                 + Flow(s, fill, fill.makerOrderId, a, m) + Flow(s, fill, fill.takerOrderId, a, m)
                 - Unseen(s, fill, fill.makerOrderId, a, m) - Unseen(s, fill, fill.takerOrderId, a, m)
  {
    hide L.Consumed, Has, Worth;
    var maker, taker, g := fill.makerOrderId, fill.takerOrderId, s.gateway;
    var l1 := if maker in g.pending then G.ConsumedBy(g.ledger, fill, g.pending[maker]) else g.ledger;
    if maker in g.pending {
      ConsumedMoves(g.ledger, fill, g.pending[maker].token, g.pending[maker].side.Buy?, a, m);
    }
    if taker in g.pending {
      ConsumedMoves(l1, fill, g.pending[taker].token, g.pending[taker].side.Buy?, a, m);
    }
  }

  lemma OthersMoveNothing(g: G.Gateway, sec: G.Section, a: AccountId, m: Gauge)
    requires G.Enabled(g, sec) && !sec.OnFill? && a in g.ledger
    ensures a in G.Apply(g, sec).ledger && Has(G.Apply(g, sec).ledger, a, m) == Has(g.ledger, a, m)
  {
  }

  lemma ExecutedKeepsGateway(s: System, y: SymbolId, at: nat)
    requires BooksOk(s) && Possible(s, Execute(y, at))
    ensures Next(s, Execute(y, at)).gateway == s.gateway
  {
  }

  lemma DeliveredFollows(s: System, y: SymbolId, at: nat, a: AccountId, m: Gauge)
    requires Good(s) && Possible(s, Deliver(y, at)) && a in s.gateway.ledger
    ensures var g := Delivered(s, y, at).gateway;
            && a in g.ledger
            && (Has(g.ledger, a, m) == Has(s.gateway.ledger, a, m) + Due(s, Deliver(y, at), a, m)
                <==> Seen(s, Deliver(y, at), a, m))
  {
    hide Safe, HistoryOk, LinksOk, TokensKnown, Flow, Unseen, Has;
    var ev := s.links[y].events[at];
    match ev {
      case Filled(fill) =>
        EventOnLinkOk(s, y, ev);
        FillMoves(s, fill, a, m);
      case Ack(_, _, id) => OthersMoveNothing(s.gateway, G.OnAck(id), a, m);
      case Reject(_, _, Some(id), _) => OthersMoveNothing(s.gateway, G.OnReject(id), a, m);
      case _ =>
    }
  }

  /** A happening changes an account's money, or its position in a symbol, by what its fill brings exactly when
      the parts without a pending entry cancel out for the account. */
  lemma FollowsIffSeen(s: System, h: Happening, a: AccountId, m: Gauge)
    requires BooksOk(s) && Good(s) && Possible(s, h) && a in s.gateway.ledger
    ensures a in Next(s, h).gateway.ledger
    ensures Has(Next(s, h).gateway.ledger, a, m) == Has(s.gateway.ledger, a, m) + Due(s, h, a, m) <==> Seen(s, h, a, m)
  {
    hide BooksOk, Safe, HistoryOk, LinksOk, TokensKnown, Executed, Flow, Unseen, Has;
    match h {
      case Submit(no) => OthersMoveNothing(s.gateway, G.ReserveNew(no), a, m);
      case Send(flight, conn) =>
        var no := s.orders[s.gateway.inFlight[flight].orderId];
        OthersMoveNothing(s.gateway, G.TrackNew(flight, conn, no.orderId, no.side), a, m);
      case MarkCancel(id) => OthersMoveNothing(s.gateway, G.MarkCancel(id), a, m);
      case RouteCancel(_) =>
      case CancelUnroutable(id) => OthersMoveNothing(s.gateway, G.RestoreActive(id), a, m);
      case SendReplace(conn, r) => OthersMoveNothing(s.gateway, G.OnReplace(conn, r), a, m);
      case SendFails(flight, conn) =>
        var no := s.orders[s.gateway.inFlight[flight].orderId];
        OthersMoveNothing(s.gateway, G.TrackNew(flight, conn, no.orderId, no.side), a, m);
        var failed := G.RouteFailed(conn, s.gateway.inFlight[flight], true);
        OthersMoveNothing(Tracked(s, flight, conn).gateway, failed, a, m);
      case ReplaceFails(conn, r) =>
        OthersMoveNothing(s.gateway, G.OnReplace(conn, r), a, m);
        OthersMoveNothing(Adjusted(s, conn, r).gateway, G.RouteFailed(conn, L.ReplaceToken(r), false), a, m);
      case SendOther(_, _) =>
      case Execute(y, at) => ExecutedKeepsGateway(s, y, at);
      case Deliver(y, at) => DeliveredFollows(s, y, at, a, m);
    }
  }

  // ----- runs -----

  predicate AllSeen(s: System, hs: seq<Happening>, a: AccountId, m: Gauge)
    requires BooksOk(s) && AllAdmissible(s, hs)
    decreases |hs|
  {
    hs == [] || (Seen(s, hs[0], a, m) && AllSeen(Next(s, hs[0]), hs[1..], a, m))
  }

  /** After every happening of the run the account has what it should have. */
  predicate AlwaysHas(s: System, hs: seq<Happening>, a: AccountId, m: Gauge, amount: int)
    requires BooksOk(s) && AllAdmissible(s, hs)
    decreases |hs|
  {
    && a in s.gateway.ledger
    && Has(s.gateway.ledger, a, m) == amount
    && (hs == [] || AlwaysHas(Next(s, hs[0]), hs[1..], a, m, amount + Due(s, hs[0], a, m)))
  }

  lemma WrongIsNotRight(s: System, hs: seq<Happening>, a: AccountId, m: Gauge, amount: int)
    requires BooksOk(s) && AllAdmissible(s, hs) && a in s.gateway.ledger && Has(s.gateway.ledger, a, m) != amount
    ensures !AlwaysHas(s, hs, a, m, amount)
  {
  }

  /** Over any run the gateway's books follow the fills it is handed exactly when every fill finds the pending
      entries it needs. */
  lemma {:induction false} BooksFollowIffAllSeen(s: System, hs: seq<Happening>, a: AccountId, m: Gauge)
    requires BooksOk(s) && Good(s) && AllAdmissible(s, hs) && a in s.gateway.ledger
    ensures AlwaysHas(s, hs, a, m, Has(s.gateway.ledger, a, m)) <==> AllSeen(s, hs, a, m)
    decreases |hs|
  {
    hide Good, BooksOk, Next, Seen, Due, Has;
    if hs != [] {
      var next := Next(s, hs[0]);
      FollowsIffSeen(s, hs[0], a, m);
      StaysGood(s, hs[0]);
      if Has(next.gateway.ledger, a, m) == Has(s.gateway.ledger, a, m) + Due(s, hs[0], a, m) {
        BooksFollowIffAllSeen(next, hs[1..], a, m);
      } else {
        WrongIsNotRight(next, hs[1..], a, m, Has(s.gateway.ledger, a, m) + Due(s, hs[0], a, m));
      }
    }
  }
}
