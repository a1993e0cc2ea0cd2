/** The gateway and its engines as one system: commands and events in flight, delivered in any order. On
    the gateway's own books no account is ever overdrawn, as long as no replace lowers a reservation. */
module EndToEnd {
  import opened Common
  import opened PriceTimeBook
  import opened Matching
  import opened EngineSpec
  import opened IndexExact
  import Snapshots
  import L = GatewayLedger
  import G = GatewayProtocol

  /** One engine, the commands on their way to it and the events on their way back. */
  datatype Link = Link(commands: seq<Command>, engine: EngineState, events: seq<Event>)

  /** `orders` remembers every order that was granted a reservation and `granted` what it was last granted,
      `sent` the orders that were tracked and routed, `executed` those that an engine has taken up, and
      `replaced` those whose reservation was adjusted. */
  datatype System = System(
    gateway: G.Gateway,
    links: map<SymbolId, Link>,
    orders: map<OrderId, NewOrder>,
    granted: map<OrderId, int>,
    sent: set<OrderId>,
    executed: set<OrderId>,
    replaced: set<OrderId>)

  datatype Happening =
    | Submit(order: NewOrder)
    | Send(flight: nat, connId: G.ConnId)
    | MarkCancel(orderId: OrderId)
    | RouteCancel(cancel: Cancel)
    | CancelUnroutable(orderId: OrderId)
    | SendFails(flight: nat, connId: G.ConnId)
    | SendReplace(connId: G.ConnId, replace: Replace)
    | ReplaceFails(connId: G.ConnId, replace: Replace)
    | SendOther(symbolId: SymbolId, cmd: Command)
    | Execute(symbolId: SymbolId, at: nat)
    | Deliver(symbolId: SymbolId, at: nat)

  /** The gateway lets the replace through. */
  predicate Accepted(s: System, r: Replace) {
    r.orderId in s.gateway.pending
    && L.ReplaceViolation(s.gateway.ledger, s.gateway.pending[r.orderId].token, r).None?
  }

  predicate Trackable(s: System, flight: nat) {
    flight < |s.gateway.inFlight| && s.gateway.inFlight[flight].orderId in s.orders
  }

  /** What is picked up is there, and every symbol that is traded has an engine. */
  predicate Possible(s: System, h: Happening) {
    match h
    case Send(flight, _) =>
      Trackable(s, flight) && s.orders[s.gateway.inFlight[flight].orderId].symbolId in s.links
    case SendFails(flight, _) => Trackable(s, flight)
    case RouteCancel(c) => c.symbolId in s.links
    case SendReplace(_, r) => Accepted(s, r) ==> r.symbolId in s.links
    case SendOther(y, cmd) => y in s.links && (cmd.SetLimits? || cmd.QueryAccount? || cmd.Authenticate?)
    case Execute(y, at) => y in s.links && at < |s.links[y].commands|
    case Deliver(y, at) => y in s.links && at < |s.links[y].events|
    case _ => true
  }

  /** The replace comes from the connection and the account that hold the order, and asks for at least as
      much as the order was last granted. */
  predicate Raises(s: System, conn: G.ConnId, r: Replace) {
    && r.orderId in s.orders
    && r.orderId in s.granted
    && G.LocalKey(conn, r.orderId) in s.gateway.locals
    && r.accountId == s.orders[r.orderId].accountId
    && r.symbolId == s.orders[r.orderId].symbolId
    && r.newPrice >= 0
    && r.newQty >= 0
    && L.ReplaceToken(r).amount >= s.granted[r.orderId]
  }

  /** Orders come under ids never used before, for non-negative prices and quantities, no replace lowers a
      reservation, and what cannot be routed had nothing reserved. */
  predicate Admissible(s: System, h: Happening) {
    && Possible(s, h)
    && (h.Submit? ==> h.order.orderId !in s.orders && h.order.price >= 0 && h.order.qty >= 0)
    && (h.SendReplace? && Accepted(s, h.replace) ==> Raises(s, h.connId, h.replace))
    && (h.SendFails? ==> s.gateway.inFlight[h.flight].amount == 0)
    && (h.ReplaceFails? && Accepted(s, h.replace) ==>
          Raises(s, h.connId, h.replace) && L.ReplaceToken(h.replace).amount == 0)
  }

  ghost predicate BooksOk(s: System) {
    forall y :: y in s.links ==> BookOk(s.links[y].engine.book)
  }

  function Routed(s: System, y: SymbolId, cmd: Command): System
    requires y in s.links
  {
    s.(links := s.links[y := s.links[y].(commands := s.links[y].commands + [cmd])])
  }

  function Submitted(s: System, no: NewOrder): System {
    s.(gateway := G.Apply(s.gateway, G.ReserveNew(no)),
       orders := if L.OrderViolation(s.gateway.ledger, no).None? then s.orders[no.orderId := no] else s.orders,
       granted := if L.OrderViolation(s.gateway.ledger, no).None?
                  then s.granted[no.orderId := L.Notional(no)] else s.granted)
  }

  /** Tracked under its id; what is left is to route it. */
  function Tracked(s: System, flight: nat, conn: G.ConnId): System
    requires Trackable(s, flight)
  {
    var no := s.orders[s.gateway.inFlight[flight].orderId];
    s.(gateway := G.Apply(s.gateway, G.TrackNew(flight, conn, no.orderId, no.side)), sent := s.sent + {no.orderId})
  }

  /** The reservation is adjusted; what is left is to route the replace. */
  function Adjusted(s: System, conn: G.ConnId, r: Replace): System {
    s.(gateway := G.Apply(s.gateway, G.OnReplace(conn, r)),
       granted := s.granted[r.orderId := L.ReplaceToken(r).amount],
       replaced := s.replaced + {r.orderId})
  }

  /** It could not be routed. */
  function Unsent(s: System, conn: G.ConnId, token: L.Token, wasNew: bool): System {
    s.(gateway := G.Apply(s.gateway, G.RouteFailed(conn, token, wasNew)))
  }

  function Executed(s: System, y: SymbolId, at: nat): System
    requires y in s.links && at < |s.links[y].commands|
    requires BookOk(s.links[y].engine.book)
  {
    var link := s.links[y];
    var cmd := link.commands[at];
    var out := Step(link.engine, cmd);
    s.(links := s.links[y := Link(G.Without(link.commands, at), out.state, link.events + out.events)],
       executed := if cmd.New? then s.executed + {cmd.no.orderId} else s.executed)
  }

  /** What the gateway does with an event. */
  function Handled(g: G.Gateway, ev: Event): G.Gateway {
    match ev
    case Filled(fill) => G.Apply(g, G.OnFill(fill))
    case Ack(_, _, id) => G.Apply(g, G.OnAck(id))
    case Reject(_, _, Some(id), _) => G.Apply(g, G.OnReject(id))
    case _ => g
  }

  function Delivered(s: System, y: SymbolId, at: nat): System
    requires y in s.links && at < |s.links[y].events|
  {
    var link := s.links[y];
    s.(gateway := Handled(s.gateway, link.events[at]),
       links := s.links[y := link.(events := G.Without(link.events, at))])
  }

  function Next(s: System, h: Happening): (r: System)
    requires BooksOk(s) && Possible(s, h)
    ensures BooksOk(r)
  {
    match h
    case Submit(no) => Submitted(s, no)
    case Send(flight, conn) =>
      var no := s.orders[s.gateway.inFlight[flight].orderId];
      Routed(Tracked(s, flight, conn), no.symbolId, New(no))
    case SendFails(flight, conn) => Unsent(Tracked(s, flight, conn), conn, s.gateway.inFlight[flight], true)
    case MarkCancel(id) => s.(gateway := G.Apply(s.gateway, G.MarkCancel(id)))
    case RouteCancel(c) => Routed(s, c.symbolId, CancelOrder(c))
    case CancelUnroutable(id) => s.(gateway := G.Apply(s.gateway, G.RestoreActive(id)))
    case SendReplace(conn, r) => if Accepted(s, r) then Routed(Adjusted(s, conn, r), r.symbolId, ReplaceOrder(r)) else s
    case ReplaceFails(conn, r) =>
      if Accepted(s, r) then Unsent(Adjusted(s, conn, r), conn, L.ReplaceToken(r), false) else s
    case SendOther(y, cmd) => Routed(s, y, cmd)
    case Execute(y, at) => Executed(s, y, at)
    case Deliver(y, at) => Delivered(s, y, at)
  }

  // ----- the invariant -----

  /** The order is known, and if it buys, the fill costs at most what it was granted. */
  predicate PartyOk(s: System, id: OrderId, price: Price, qty: Qty) {
    id in s.orders && id in s.granted && (s.orders[id].side.Buy? ==> price * qty <= s.granted[id])
  }

  predicate FillOk(s: System, maker: OrderId, taker: OrderId, price: Price, qty: Qty) {
    && qty > 0
    && price >= 0
    && maker != taker
    && PartyOk(s, maker, price, qty)
    && PartyOk(s, taker, price, qty)
  }

  /** An order that works for a known one: same account, symbol and side, and filling `qty` lots of it at its
      own price costs a buyer at most what the known order was granted. */
  predicate Covered(s: System, id: OrderId, a: AccountId, y: SymbolId, side: Side, price: Price, qty: Qty) {
    && id in s.orders
    && s.orders[id].accountId == a
    && s.orders[id].symbolId == y
    && s.orders[id].side == side
    && price >= 0
    && PartyOk(s, id, price, qty)
  }

  predicate Backed(s: System, y: SymbolId, o: Order) {
    && o.orderId in s.executed
    && o.symbolId == y
    && Covered(s, o.orderId, o.accountId, o.symbolId, o.side, o.price, o.qtyRem)
  }

  predicate AllBacked(s: System, y: SymbolId, os: seq<Order>) {
    forall o :: o in os ==> Backed(s, y, o)
  }

  predicate BookBacked(s: System, y: SymbolId, b: Book) {
    AllBacked(s, y, Orders(b.bids)) && AllBacked(s, y, Orders(b.asks))
  }

  predicate CommandOk(s: System, y: SymbolId, cmd: Command) {
    match cmd
    case New(no) =>
      && no.orderId in s.sent - s.executed
      && no.orderId in s.orders
      && no == s.orders[no.orderId]
      && no.symbolId == y
      && PartyOk(s, no.orderId, no.price, no.qty)
    case ReplaceOrder(r) =>
      && r.orderId in s.sent
      && r.orderId in s.orders
      && r.newPrice >= 0
      && r.symbolId == y
      && PartyOk(s, r.orderId, r.newPrice, r.newQty)
    case _ => true
  }

  predicate CommandsOk(s: System, y: SymbolId, commands: seq<Command>) {
    && (forall i :: 0 <= i < |commands| ==> CommandOk(s, y, commands[i]))
    && forall i, j :: 0 <= i < j < |commands| && commands[i].New? && commands[j].New? ==>
         commands[i].no.orderId != commands[j].no.orderId
  }

  predicate EventsOk(s: System, evs: seq<Event>) {
    forall ev :: ev in evs && ev.Filled? ==>
      FillOk(s, ev.fill.makerOrderId, ev.fill.takerOrderId, ev.fill.price, ev.fill.qty)
  }

  ghost predicate LinkOk(s: System, y: SymbolId, link: Link) {
    && BookOk(link.engine.book)
    && Exact(link.engine.book)
    && BookBacked(s, y, link.engine.book)
    && CommandsOk(s, y, link.commands)
    && EventsOk(s, link.events)
  }

  predicate HistoryOk(s: System) {
    && s.granted.Keys == s.orders.Keys
    && s.sent <= s.orders.Keys
    && s.executed <= s.sent
    && s.replaced <= s.sent
    && (forall id :: id in s.orders ==>
          && s.orders[id].orderId == id
          && s.orders[id].price >= 0
          && s.orders[id].qty >= 0
          && s.granted[id] >= L.Notional(s.orders[id])
          && (id !in s.replaced ==> s.granted[id] == L.Notional(s.orders[id])))
  }

  /** The reservation that an order was last granted. */
  function TokenOf(s: System, id: OrderId): L.Token
    requires id in s.orders && id in s.granted
  {
    L.Token(s.orders[id].accountId, s.orders[id].symbolId, s.granted[id], id)
  }

  /** Every reservation, pending or in flight, is the one its order was last granted, and every connection
      remembers the right side. */
  predicate TokensKnown(s: System) {
    && (forall id :: id in s.gateway.pending ==>
          id in s.sent && id in s.orders && id in s.granted
          && s.gateway.pending[id].token == TokenOf(s, id)
          && s.gateway.pending[id].side == s.orders[id].side)
    && (forall i :: 0 <= i < |s.gateway.inFlight| ==>
          var id := s.gateway.inFlight[i].orderId;
          id in s.orders && id in s.granted && id !in s.sent && s.gateway.inFlight[i] == TokenOf(s, id))
    && (forall i, j :: 0 <= i < j < |s.gateway.inFlight| ==>
          s.gateway.inFlight[i].orderId != s.gateway.inFlight[j].orderId)
    && (forall key :: key in s.gateway.locals ==>
          key.orderId in s.sent && key.orderId in s.orders && s.gateway.locals[key] == s.orders[key.orderId].side)
  }

  /** Reserved amounts are exactly what is outstanding, and within every account's buying power. */
  ghost predicate Safe(g: G.Gateway) {
    G.Balanced(g) && G.Solvent(g) && G.TokensOk(g)
  }

  ghost predicate LinksOk(s: System) {
    forall y :: y in s.links ==> LinkOk(s, y, s.links[y])
  }

  ghost predicate Good(s: System) {
    Safe(s.gateway) && HistoryOk(s) && TokensKnown(s) && LinksOk(s)
  }

  // ----- the engine's side -----

  predicate FillsOk(s: System, fs: seq<MatchFill>) {
    forall f :: f in fs ==> FillOk(s, f.makerOrderId, f.takerOrderId, f.price, f.qty)
  }

  /** An incoming order that works for a known one. */
  predicate TakerOk(s: System, y: SymbolId, no: NewOrder) {
    no.symbolId == y && Covered(s, no.orderId, no.accountId, no.symbolId, no.side, no.price, no.qty)
  }

  predicate NotAmong(id: OrderId, os: seq<Order>) {
    forall o :: o in os ==> o.orderId != id
  }

  lemma CostsLess(p: Price, q: Qty, price: Price, qty: Qty)
    requires 0 <= p <= price && 0 <= q <= qty
    ensures p * q <= price * qty
  {
    assert p * q <= price * q <= price * qty;
  }

  /** One maker and a taker of other lots than its own. */
  lemma OneFillIsOk(s: System, y: SymbolId, side: Side, o: Order, no: NewOrder, t: Qty)
    requires Backed(s, y, o) && o.side == side.Opposite() && TakerOk(s, y, no) && side == no.side
    requires o.orderId != no.orderId && Reaches(side.Opposite(), no.price, o.price)
    requires 0 < t <= no.qty && t <= o.qtyRem
    ensures FillOk(s, o.orderId, no.orderId, o.price, t)
    ensures Backed(s, y, o.(qtyRem := o.qtyRem - t))
  {
    if side.Buy? {
      CostsLess(o.price, t, no.price, no.qty);
    } else {
      CostsLess(o.price, t, o.price, o.qtyRem);
      CostsLess(o.price, o.qtyRem - t, o.price, o.qtyRem);
    }
  }

  /** A taker whose id does not rest, matched against backed orders. */
  lemma {:induction false} GreedyIsBacked(s: System, y: SymbolId, side: Side, os: seq<Order>, no: NewOrder, qty: Qty)
    requires AllBacked(s, y, os) && NotAmong(no.orderId, os) && TakerOk(s, y, no)
    requires forall o :: o in os ==> o.qtyRem > 0 && o.side == side.Opposite()
    requires side == no.side && qty <= no.qty
    ensures var (fs, rest) := Greedy(side.Opposite(), os, no.orderId, no.price, qty);
            FillsOk(s, fs) && AllBacked(s, y, rest)
  {
    hide FillOk, Backed, TakerOk;
    if qty > 0 && os != [] && Reaches(side.Opposite(), no.price, os[0].price) {
      assert os[0] in os;
      OneFillIsOk(s, y, side, os[0], no, Min(qty, os[0].qtyRem));
      if qty >= os[0].qtyRem {
        GreedyIsBacked(s, y, side, os[1..], no, qty - os[0].qtyRem);
      }
    }
  }

  lemma MemberOrder(l: seq<Resting>, o: Order)
    ensures o in Orders(l) <==> exists i :: 0 <= i < |l| && l[i].order == o
  {
    if o in Orders(l) {
      var i :| 0 <= i < |l| && Orders(l)[i] == o;
    }
    if i :| 0 <= i < |l| && l[i].order == o {
      assert Orders(l)[i] == o;
    }
  }

  lemma FirstIsBacked(s: System, y: SymbolId, r: Resting, l: seq<Resting>)
    ensures AllBacked(s, y, Orders([r] + l)) <==> Backed(s, y, r.order) && AllBacked(s, y, Orders(l))
  {
    hide Backed;
    OrdersConcat([r], l);
    assert Orders([r]) == [r.order];
  }

  lemma {:induction false} EnqueueIsBacked(s: System, y: SymbolId, side: Side, l: seq<Resting>, r: Resting)
    requires AllBacked(s, y, Orders(l)) && Backed(s, y, r.order)
    ensures AllBacked(s, y, Orders(Enqueue(side, l, r)))
  {
    hide Backed, AllBacked, Orders;
    if l == [] || Rank(side, l[0].order.price) > Rank(side, r.order.price) {
      FirstIsBacked(s, y, r, l);
    } else {
      assert l == [l[0]] + l[1..];
      FirstIsBacked(s, y, l[0], l[1..]);
      EnqueueIsBacked(s, y, side, l[1..], r);
      FirstIsBacked(s, y, l[0], Enqueue(side, l[1..], r));
    }
  }

  lemma InsertIsBacked(s: System, y: SymbolId, b: Book, o: Order)
    requires BookBacked(s, y, b) && Backed(s, y, o)
    ensures BookBacked(s, y, Insert(b, o))
  {
    hide AllBacked, Backed, Enqueue, Apply, Orders;
    OrdersUnindex(o.orderId, b.bids);
    OrdersUnindex(o.orderId, b.asks);
    EnqueueIsBacked(s, y, o.side, b.Edited(Unindex(o.orderId)).On(o.side), Resting(o, true));
  }

  lemma RemoveIsBacked(s: System, y: SymbolId, side: Side, l: seq<Resting>, id: OrderId)
    requires ListOk(side, l) && AllBacked(s, y, Orders(l))
    ensures AllBacked(s, y, Orders(Apply(Remove(id), l)))
  {
    hide Backed;
    ApplyKeepsOk(side, Remove(id), l);
    forall x | x in Orders(Apply(Remove(id), l)) ensures Backed(s, y, x) {
      MemberOrder(Apply(Remove(id), l), x);
      var i :| 0 <= i < |Apply(Remove(id), l)| && Apply(Remove(id), l)[i].order == x;
      var j :| 0 <= j < |l| && Apply(Remove(id), l)[i].order == l[j].order;
      MemberOrder(l, x);
    }
  }

  lemma CancelIsBacked(s: System, y: SymbolId, b: Book, id: OrderId, a: AccountId)
    requires BookOk(b) && BookBacked(s, y, b)
    ensures BookBacked(s, y, CancelIn(b, id, a))
  {
    RemoveIsBacked(s, y, Buy, b.bids, id);
    RemoveIsBacked(s, y, Sell, b.asks, id);
  }

  /** The id of no resting order. */
  predicate NotResting(id: OrderId, b: Book) {
    NotAmong(id, Orders(b.bids)) && NotAmong(id, Orders(b.asks))
  }

  lemma NotAmongIffNoCount(id: OrderId, l: seq<Resting>)
    ensures NotAmong(id, Orders(l)) <==> Count(l, id) == 0
  {
    CountZero(l, id);
    if NotAmong(id, Orders(l)) {
      forall r | r in l ensures r.order.orderId != id {
        var i :| 0 <= i < |l| && l[i] == r;
        assert Orders(l)[i] in Orders(l);
      }
    }
    if Count(l, id) == 0 {
      forall o | o in Orders(l) ensures o.orderId != id {
        var i :| 0 <= i < |l| && Orders(l)[i] == o;
        assert l[i] in l;
      }
    }
  }

  lemma NotRestingIffNoCount(id: OrderId, b: Book)
    ensures NotResting(id, b) <==> CountIn(b, id) == 0
  {
    NotAmongIffNoCount(id, b.bids);
    NotAmongIffNoCount(id, b.asks);
  }

  lemma SideOrders(b: Book, side: Side)
    requires BookOk(b)
    ensures forall o :: o in Orders(b.On(side)) ==> o.qtyRem > 0 && o.side == side
  {
    assert ListOk(side, b.On(side));
  }

  /** The engine matches an order whose id does not rest: its fills are all right, and what rests is backed. */
  lemma MatchIsBacked(s: System, y: SymbolId, st: EngineState, no: NewOrder)
    requires BookOk(st.book) && BookBacked(s, y, st.book) && NotResting(no.orderId, st.book) && TakerOk(s, y, no)
    ensures FillsOk(s, FillsFor(st.book, no))
    ensures BookBacked(s, y, MatchStep(st, no).state.book)
  {
    hide AllBacked, FillsOk, NotAmong, TakerOk;
    var side := no.side.Opposite();
    MatchIsGreedy(st.book, no.orderId, no.side, no.price, no.qty);
    SideOrders(st.book, side);
    GreedyIsBacked(s, y, no.side, Orders(st.book.On(side)), no, no.qty);
  }

  lemma EventsOfFills(s: System, serverSeq: nat, symbolId: SymbolId, no: NewOrder, fs: seq<MatchFill>)
    requires FillsOk(s, fs)
    ensures EventsOk(s, FillEvents(serverSeq, symbolId, no, fs))
  {
    hide FillOk;
    var evs := FillEvents(serverSeq, symbolId, no, fs);
    forall ev | ev in evs && ev.Filled?
      ensures FillOk(s, ev.fill.makerOrderId, ev.fill.takerOrderId, ev.fill.price, ev.fill.qty)
    {
      var i :| 0 <= i < |evs| && evs[i] == ev;
      assert fs[i] in fs;
    }
  }

  /** What the system knows once an order has been taken up. */
  function TakenUp(s: System, id: OrderId): System {
    s.(executed := s.executed + {id})
  }

  lemma TakenUpBacks(s: System, y: SymbolId, id: OrderId, b: Book)
    requires BookBacked(s, y, b)
    ensures BookBacked(TakenUp(s, id), y, b)
  {
  }

  lemma RemainderFits(st: EngineState, no: NewOrder)
    requires BookOk(st.book)
    ensures Remainder(st.book, no) <= no.qty
  {
    FillTotalNonNeg(FillsFor(st.book, no));
  }

  lemma RemainderIsBacked(s: System, y: SymbolId, st: EngineState, no: NewOrder)
    requires BookOk(st.book) && TakerOk(s, y, no) && Remainder(st.book, no) > 0
    ensures Backed(TakenUp(s, no.orderId), y, OrderFrom(no, Remainder(st.book, no)))
  {
    RemainderFits(st, no);
    CostsLess(no.price, Remainder(st.book, no), no.price, no.qty);
  }

  lemma NewIsBacked(s: System, y: SymbolId, st: EngineState, no: NewOrder)
    requires BookOk(st.book) && BookBacked(s, y, st.book) && NotResting(no.orderId, st.book) && TakerOk(s, y, no)
    ensures BookBacked(TakenUp(s, no.orderId), y, NewStep(st, no).state.book)
    ensures EventsOk(s, NewStep(st, no).events)
  {
    hide BookBacked, FillsOk, BookOk, Refusal, FillOk, Insert, TakerOk, NotResting, TakenUp, Backed;
    if Refusal(st, no).Some? {
      TakenUpBacks(s, y, no.orderId, st.book);
    } else {
      var matched := MatchStep(st, no);
      MatchIsBacked(s, y, st, no);
      EventsOfFills(s, st.serverSeq, st.symbolId, no, FillsFor(st.book, no));
      TakenUpBacks(s, y, no.orderId, matched.state.book);
      if Remainder(st.book, no) > 0 {
        RemainderIsBacked(s, y, st, no);
        InsertIsBacked(TakenUp(s, no.orderId), y, matched.state.book, OrderFrom(no, Remainder(st.book, no)));
      }
    }
  }

  lemma UnseenIsNotResting(s: System, y: SymbolId, b: Book, id: OrderId)
    requires BookBacked(s, y, b) && id !in s.executed
    ensures NotResting(id, b)
  {
  }

  lemma CancelledIsGone(b: Book, id: OrderId, a: AccountId)
    requires Exact(b) && Cancellable(b, id, a)
    ensures NotResting(id, CancelIn(b, id, a))
  {
    CancelRemoves(b.bids, id);
    CancelRemoves(b.asks, id);
    NotRestingIffNoCount(id, CancelIn(b, id, a));
  }

  /** The order that a replace turns into, when the one it replaces has been cancelled. */
  lemma ReplacementIsOk(s: System, y: SymbolId, b: Book, r: Replace)
    requires BookOk(b) && Exact(b) && BookBacked(s, y, b) && CommandOk(s, y, ReplaceOrder(r))
    requires Cancellable(b, r.orderId, r.accountId)
    ensures r.orderId in s.executed
    ensures TakerOk(s, y, Replacement(Lookup(b, r.orderId).value, r))
    ensures NotResting(r.orderId, CancelIn(b, r.orderId, r.accountId))
  {
    hide Lookup, Exact, NotResting;
    var o := Lookup(b, r.orderId).value;
    Snapshots.LookupInBook(b, r.orderId);
    assert Backed(s, y, o);
    CancelledIsGone(b, r.orderId, r.accountId);
  }

  /** The system's record after the engine has taken up a command. */
  function Recorded(s: System, cmd: Command): System {
    if cmd.New? then TakenUp(s, cmd.no.orderId) else s
  }

  lemma StepIsBacked(s: System, y: SymbolId, st: EngineState, cmd: Command)
    requires BookOk(st.book) && Exact(st.book) && BookBacked(s, y, st.book) && CommandOk(s, y, cmd) && HistoryOk(s)
    ensures BookBacked(Recorded(s, cmd), y, Step(st, cmd).state.book)
    ensures EventsOk(s, Step(st, cmd).events)
  {
    hide BookBacked, BookOk, NewStep, FillOk, Lookup, Exact, NotResting;
    match cmd {
      case New(no) =>
        UnseenIsNotResting(s, y, st.book, no.orderId);
        NewIsBacked(s, y, st, no);
      case CancelOrder(c) => CancelIsBacked(s, y, st.book, c.orderId, c.accountId);
      case ReplaceOrder(r) =>
        if r.symbolId == st.symbolId && r.newQty > 0 && Cancellable(st.book, r.orderId, r.accountId) {
          var book := CancelIn(st.book, r.orderId, r.accountId);
          ReplacementIsOk(s, y, st.book, r);
          CancelIsBacked(s, y, st.book, r.orderId, r.accountId);
          CancelKeepsOk(st.book, r.orderId, r.accountId);
          NewIsBacked(s, y, st.(book := book), Replacement(Lookup(st.book, r.orderId).value, r));
          assert TakenUp(s, r.orderId) == s;
        }
      case _ =>
    }
  }

  lemma StepIsExact(s: System, y: SymbolId, st: EngineState, cmd: Command)
    requires BookOk(st.book) && Exact(st.book) && BookBacked(s, y, st.book) && CommandOk(s, y, cmd)
    ensures Exact(Step(st, cmd).state.book)
  {
    hide BookOk, Exact, Step, BookBacked;
    if cmd.New? {
      UnseenIsNotResting(s, y, st.book, cmd.no.orderId);
      NotRestingIffNoCount(cmd.no.orderId, st.book);
    }
    StepKeepsExact(st, cmd);
  }

  // ----- one happening -----

  /** Nothing known is forgotten, and no order was granted less. */
  predicate Grows(s: System, s': System) {
    && (forall id :: id in s.orders ==> id in s'.orders && s'.orders[id] == s.orders[id])
    && (forall id :: id in s.granted ==> id in s'.granted && s'.granted[id] >= s.granted[id])
    && s.sent <= s'.sent
    && s.executed <= s'.executed
  }

  /** The orders newly taken up are not among those on the way. */
  predicate Untouched(s: System, s': System, commands: seq<Command>) {
    forall i :: 0 <= i < |commands| && commands[i].New? ==> commands[i].no.orderId !in s'.executed - s.executed
  }

  lemma BookStaysBacked(s: System, s': System, y: SymbolId, b: Book)
    requires BookBacked(s, y, b) && Grows(s, s')
    ensures BookBacked(s', y, b)
  {
  }

  lemma EventsStayOk(s: System, s': System, evs: seq<Event>)
    requires EventsOk(s, evs) && Grows(s, s')
    ensures EventsOk(s', evs)
  {
  }

  lemma CommandsStayOk(s: System, s': System, y: SymbolId, commands: seq<Command>)
    requires CommandsOk(s, y, commands) && Grows(s, s') && Untouched(s, s', commands)
    ensures CommandsOk(s', y, commands)
  {
  }

  lemma LinkStaysOk(s: System, s': System, y: SymbolId, link: Link)
    requires LinkOk(s, y, link) && Grows(s, s') && Untouched(s, s', link.commands)
    ensures LinkOk(s', y, link)
  {
    BookStaysBacked(s, s', y, link.engine.book);
    EventsStayOk(s, s', link.events);
    CommandsStayOk(s, s', y, link.commands);
  }

  /** What is left of a sequence without one element is in the sequence, in the same order. */
  lemma WithoutAt<T>(xs: seq<T>, at: nat, i: nat) returns (k: nat)
    requires at < |xs| && i < |xs| - 1
    ensures k < |xs| && k != at && G.Without(xs, at)[i] == xs[k] && k == if i < at then i else i + 1
  {
    k := if i < at then i else i + 1;
  }

  lemma CommandsWithout(s: System, y: SymbolId, commands: seq<Command>, at: nat)
    requires CommandsOk(s, y, commands) && at < |commands|
    ensures CommandsOk(s, y, G.Without(commands, at))
    ensures Untouched(s, Recorded(s, commands[at]), G.Without(commands, at))
  {
    hide CommandOk;
    var rest := G.Without(commands, at);
    forall i, j | 0 <= i < j < |rest| && rest[i].New? && rest[j].New? ensures rest[i].no.orderId != rest[j].no.orderId {
      var k := WithoutAt(commands, at, i);
      var l := WithoutAt(commands, at, j);
    }
    forall i | 0 <= i < |rest|
      ensures CommandOk(s, y, rest[i])
      ensures commands[at].New? && rest[i].New? ==> rest[i].no.orderId != commands[at].no.orderId
    {
      var k := WithoutAt(commands, at, i);
    }
  }

  /** A link depends on the record of orders only. */
  lemma SameRecord(s: System, s': System, y: SymbolId, link: Link)
    requires LinkOk(s, y, link)
    requires s'.orders == s.orders && s'.granted == s.granted && s'.sent == s.sent && s'.executed == s.executed
    ensures LinkOk(s', y, link)
  {
    hide LinkOk;
    LinkStaysOk(s, s', y, link);
  }

  /** The links of other symbols, when one engine takes up an order. */
  lemma OtherLinksStayOk(s: System, s': System, y: SymbolId, z: SymbolId)
    requires HistoryOk(s) && z in s.links && z != y && LinkOk(s, z, s.links[z]) && Grows(s, s')
    requires forall id :: id in s'.executed - s.executed ==> id in s.orders && s.orders[id].symbolId == y
    ensures LinkOk(s', z, s.links[z])
  {
    var link := s.links[z];
    forall i | 0 <= i < |link.commands| && link.commands[i].New?
      ensures link.commands[i].no.orderId !in s'.executed - s.executed
    {
      assert CommandOk(s, z, link.commands[i]);
    }
    LinkStaysOk(s, s', z, link);
  }

  lemma ExecutedLink(s: System, y: SymbolId, link: Link, at: nat)
    requires HistoryOk(s) && LinkOk(s, y, link) && at < |link.commands|
    ensures var out := Step(link.engine, link.commands[at]);
            LinkOk(Recorded(s, link.commands[at]), y,
                   Link(G.Without(link.commands, at), out.state, link.events + out.events))
  {
    hide Step, BookOk, Exact, BookBacked, HistoryOk, FillOk;
    var cmd := link.commands[at];
    assert CommandOk(s, y, cmd);
    StepIsBacked(s, y, link.engine, cmd);
    StepIsExact(s, y, link.engine, cmd);
    CommandsWithout(s, y, link.commands, at);
    EventsStayOk(s, Recorded(s, cmd), link.events + Step(link.engine, cmd).events);
    CommandsStayOk(s, Recorded(s, cmd), y, G.Without(link.commands, at));
  }

  lemma LinkBookOk(s: System, y: SymbolId, link: Link)
    requires LinkOk(s, y, link)
    ensures BookOk(link.engine.book)
  {
  }

  lemma CommandAtOk(s: System, y: SymbolId, link: Link, at: nat)
    requires LinkOk(s, y, link) && at < |link.commands|
    ensures CommandOk(s, y, link.commands[at])
  {
  }

  lemma ExecutedKeepsLinks(s: System, y: SymbolId, at: nat)
    requires HistoryOk(s) && LinksOk(s) && y in s.links && at < |s.links[y].commands|
    ensures LinkOk(s, y, s.links[y])
    ensures LinksOk(Executed(s, y, at))
  {
    hide Step, LinkOk;
    assert LinkOk(s, y, s.links[y]);
    LinkBookOk(s, y, s.links[y]);
    var link, s' := s.links[y], Executed(s, y, at);
    var cmd := link.commands[at];
    CommandAtOk(s, y, link, at);
    ExecutedLink(s, y, link, at);
    SameRecord(Recorded(s, cmd), s', y, s'.links[y]);
    forall z | z in s.links && z != y ensures LinkOk(s', z, s'.links[z]) {
      OtherLinksStayOk(s, s', y, z);
    }
  }

  lemma RecordGrows(s: System, s': System)
    requires LinksOk(s) && s'.links == s.links && Grows(s, s') && s'.executed == s.executed
    ensures LinksOk(s')
  {
    hide LinkOk;
    forall y | y in s'.links ensures LinkOk(s', y, s'.links[y]) {
      LinkStaysOk(s, s', y, s.links[y]);
    }
  }

  lemma RoutedKeepsLinks(s: System, y: SymbolId, cmd: Command)
    requires LinksOk(s) && y in s.links && CommandOk(s, y, cmd)
    requires cmd.New? ==> forall i :: 0 <= i < |s.links[y].commands| && s.links[y].commands[i].New? ==>
                            s.links[y].commands[i].no.orderId != cmd.no.orderId
    ensures LinksOk(Routed(s, y, cmd))
  {
    var s' := Routed(s, y, cmd);
    assert LinkOk(s, y, s.links[y]);
    assert LinkOk(s, y, s'.links[y]);
    forall z | z in s'.links ensures LinkOk(s', z, s'.links[z]) {
      assert LinkOk(s, z, s'.links[z]);
      SameRecord(s, s', z, s'.links[z]);
    }
  }

  lemma DeliveredKeepsLinks(s: System, y: SymbolId, at: nat)
    requires LinksOk(s) && y in s.links && at < |s.links[y].events|
    ensures LinksOk(Delivered(s, y, at))
  {
    var s' := Delivered(s, y, at);
    forall z | z in s'.links ensures LinkOk(s', z, s'.links[z]) {
      assert LinkOk(s, z, s.links[z]);
      assert LinkOk(s, z, s'.links[z]);
      SameRecord(s, s', z, s'.links[z]);
    }
  }

  lemma NotOnTheWay(s: System, y: SymbolId, id: OrderId)
    requires LinksOk(s) && y in s.links && id !in s.sent
    ensures var commands := s.links[y].commands;
            forall i :: 0 <= i < |commands| && commands[i].New? ==> commands[i].no.orderId != id
  {
    assert LinkOk(s, y, s.links[y]);
    forall i | 0 <= i < |s.links[y].commands| ensures CommandOk(s, y, s.links[y].commands[i]) {
    }
  }

  lemma SentKeepsLinks(s: System, flight: nat, conn: G.ConnId)
    requires BooksOk(s) && HistoryOk(s) && TokensKnown(s) && LinksOk(s) && Possible(s, Send(flight, conn))
    ensures LinksOk(Next(s, Send(flight, conn)))
  {
    hide LinksOk, LinkOk;
    var no := s.orders[s.gateway.inFlight[flight].orderId];
    var s1 := Tracked(s, flight, conn);
    RecordGrows(s, s1);
    assert PartyOk(s1, no.orderId, no.price, no.qty);
    NotOnTheWay(s, no.symbolId, no.orderId);
    RoutedKeepsLinks(s1, no.symbolId, New(no));
  }

  lemma SubmittedKeepsLinks(s: System, no: NewOrder)
    requires HistoryOk(s) && LinksOk(s) && no.orderId !in s.orders
    ensures LinksOk(Submitted(s, no))
  {
    hide LinksOk, LinkOk;
    RecordGrows(s, Submitted(s, no));
  }

  lemma ReplacedKeepsLinks(s: System, conn: G.ConnId, r: Replace)
    requires BooksOk(s) && HistoryOk(s) && TokensKnown(s) && LinksOk(s)
    requires Admissible(s, SendReplace(conn, r)) && Accepted(s, r)
    ensures LinksOk(Next(s, SendReplace(conn, r)))
  {
    hide LinksOk, LinkOk;
    var s1 := Adjusted(s, conn, r);
    RecordGrows(s, s1);
    RoutedKeepsLinks(s1, r.symbolId, ReplaceOrder(r));
  }

  lemma UnsentKeepsLinks(s: System, flight: nat, conn: G.ConnId)
    requires BooksOk(s) && HistoryOk(s) && TokensKnown(s) && LinksOk(s) && Possible(s, SendFails(flight, conn))
    ensures LinksOk(Next(s, SendFails(flight, conn)))
  {
    hide LinksOk, LinkOk, G.Unrouted;
    RecordGrows(s, Next(s, SendFails(flight, conn)));
  }

  lemma UnsentReplaceKeepsLinks(s: System, conn: G.ConnId, r: Replace)
    requires BooksOk(s) && HistoryOk(s) && TokensKnown(s) && LinksOk(s)
    requires Admissible(s, ReplaceFails(conn, r)) && Accepted(s, r)
    ensures LinksOk(Next(s, ReplaceFails(conn, r)))
  {
    hide LinksOk, LinkOk, G.Unrouted;
    RecordGrows(s, Next(s, ReplaceFails(conn, r)));
  }

  lemma LinksStayOk(s: System, h: Happening)
    requires BooksOk(s) && HistoryOk(s) && TokensKnown(s) && LinksOk(s) && Admissible(s, h)
    ensures LinksOk(Next(s, h))
  {
    hide LinksOk, HistoryOk, TokensKnown, BooksOk, Raises;
    match h {
      case Submit(no) => SubmittedKeepsLinks(s, no);
      case Send(flight, conn) => SentKeepsLinks(s, flight, conn);
      case MarkCancel(_) => RecordGrows(s, Next(s, h));
      case RouteCancel(c) => RoutedKeepsLinks(s, c.symbolId, CancelOrder(c));
      case CancelUnroutable(_) => RecordGrows(s, Next(s, h));
      case SendReplace(conn, r) =>
        if Accepted(s, r) {
          ReplacedKeepsLinks(s, conn, r);
        }
      case SendFails(flight, conn) => UnsentKeepsLinks(s, flight, conn);
      case ReplaceFails(conn, r) =>
        if Accepted(s, r) {
          UnsentReplaceKeepsLinks(s, conn, r);
        }
      case SendOther(y, cmd) => RoutedKeepsLinks(s, y, cmd);
      case Execute(y, at) => ExecutedKeepsLinks(s, y, at);
      case Deliver(y, at) => DeliveredKeepsLinks(s, y, at);
    }
  }

  lemma SameOrders(s: System, s': System)
    requires HistoryOk(s)
    requires s'.orders == s.orders && s'.granted == s.granted && s'.sent == s.sent
    requires s'.executed == s.executed && s'.replaced == s.replaced
    ensures HistoryOk(s')
  {
  }

  lemma SubmittedHistoryOk(s: System, no: NewOrder)
    requires HistoryOk(s) && no.orderId !in s.orders && no.price >= 0 && no.qty >= 0
    ensures HistoryOk(Submitted(s, no))
  {
  }

  lemma TrackedHistoryOk(s: System, flight: nat, conn: G.ConnId)
    requires HistoryOk(s) && TokensKnown(s) && Trackable(s, flight)
    ensures HistoryOk(Tracked(s, flight, conn))
  {
  }

  lemma AdjustedHistoryOk(s: System, conn: G.ConnId, r: Replace)
    requires HistoryOk(s) && TokensKnown(s) && Accepted(s, r) && Raises(s, conn, r)
    ensures HistoryOk(Adjusted(s, conn, r))
  {
  }

  lemma ExecutedHistoryOk(s: System, y: SymbolId, at: nat)
    requires HistoryOk(s) && y in s.links && at < |s.links[y].commands| && BookOk(s.links[y].engine.book)
    requires CommandOk(s, y, s.links[y].commands[at])
    ensures HistoryOk(Executed(s, y, at))
  {
    hide Step, BookOk;
  }

  lemma CommandOnLinkOk(s: System, y: SymbolId, at: nat)
    requires LinksOk(s) && y in s.links && at < |s.links[y].commands|
    ensures CommandOk(s, y, s.links[y].commands[at]) && BookOk(s.links[y].engine.book)
  {
    assert LinkOk(s, y, s.links[y]);
    CommandAtOk(s, y, s.links[y], at);
  }

  lemma HistoryStaysOk(s: System, h: Happening)
    requires BooksOk(s) && HistoryOk(s) && TokensKnown(s) && LinksOk(s) && Admissible(s, h)
    ensures HistoryOk(Next(s, h))
  {
    hide BooksOk, Step, BookOk, LinksOk, LinkOk, HistoryOk, Adjusted, Raises, Submitted, Tracked, TokensKnown;
    match h {
      case Submit(no) => SubmittedHistoryOk(s, no);
      case Send(flight, conn) =>
        TrackedHistoryOk(s, flight, conn);
        SameOrders(Tracked(s, flight, conn), Next(s, h));
      case SendFails(flight, conn) =>
        TrackedHistoryOk(s, flight, conn);
        SameOrders(Tracked(s, flight, conn), Next(s, h));
      case ReplaceFails(conn, r) =>
        if Accepted(s, r) {
          AdjustedHistoryOk(s, conn, r);
          SameOrders(Adjusted(s, conn, r), Next(s, h));
        }
      case SendReplace(conn, r) =>
        if Accepted(s, r) {
          AdjustedHistoryOk(s, conn, r);
          SameOrders(Adjusted(s, conn, r), Next(s, h));
        }
      case Execute(y, at) =>
        CommandOnLinkOk(s, y, at);
        ExecutedHistoryOk(s, y, at);
      case _ => SameOrders(s, Next(s, h));
    }
  }

  /** No reservation is new, and none has changed hands or side. */
  predicate NothingNew(g: G.Gateway, g': G.Gateway) {
    && g'.inFlight == g.inFlight
    && (forall key :: key in g'.locals ==> key in g.locals && g'.locals[key] == g.locals[key])
    && forall id :: id in g'.pending ==>
         id in g.pending && g'.pending[id].token == g.pending[id].token && g'.pending[id].side == g.pending[id].side
  }

  lemma HandledAddsNothing(g: G.Gateway, ev: Event)
    ensures NothingNew(g, Handled(g, ev))
  {
  }

  lemma KnownStaysKnown(s: System, s': System)
    requires TokensKnown(s) && NothingNew(s.gateway, s'.gateway)
    requires s'.orders == s.orders && s'.granted == s.granted && s'.sent == s.sent
    ensures TokensKnown(s')
  {
  }

  lemma SubmittedStaysKnown(s: System, no: NewOrder)
    requires HistoryOk(s) && TokensKnown(s) && no.orderId !in s.orders
    ensures TokensKnown(Submitted(s, no))
  {
  }

  lemma TrackedStaysKnown(s: System, flight: nat, conn: G.ConnId)
    requires HistoryOk(s) && TokensKnown(s) && Trackable(s, flight)
    ensures TokensKnown(Tracked(s, flight, conn))
  {
    var tokens := s.gateway.inFlight;
    forall i | 0 <= i < |tokens| - 1
      ensures G.Without(tokens, flight)[i].orderId != tokens[flight].orderId
    {
      var k := WithoutAt(tokens, flight, i);
    }
    forall i, j | 0 <= i < j < |tokens| - 1
      ensures G.Without(tokens, flight)[i].orderId != G.Without(tokens, flight)[j].orderId
    {
      var k := WithoutAt(tokens, flight, i);
      var l := WithoutAt(tokens, flight, j);
    }
    forall i | 0 <= i < |tokens| - 1
      ensures exists k :: 0 <= k < |tokens| && G.Without(tokens, flight)[i] == tokens[k]
    {
      var k := WithoutAt(tokens, flight, i);
    }
  }

  lemma AdjustedStaysKnown(s: System, conn: G.ConnId, r: Replace)
    requires HistoryOk(s) && TokensKnown(s) && Accepted(s, r) && Raises(s, conn, r)
    ensures TokensKnown(Adjusted(s, conn, r))
  {
  }

  lemma TokensStayKnown(s: System, h: Happening)
    requires BooksOk(s) && HistoryOk(s) && TokensKnown(s) && Admissible(s, h)
    ensures TokensKnown(Next(s, h))
  {
    hide BooksOk, TokensKnown, HistoryOk, Step, BookOk, Raises, Submitted, Tracked, Adjusted;
    var s' := Next(s, h);
    match h {
      case Submit(no) => SubmittedStaysKnown(s, no);
      case Send(flight, conn) =>
        TrackedStaysKnown(s, flight, conn);
        KnownStaysKnown(Tracked(s, flight, conn), s');
      case SendReplace(conn, r) =>
        if Accepted(s, r) {
          AdjustedStaysKnown(s, conn, r);
          KnownStaysKnown(Adjusted(s, conn, r), s');
        }
      case SendFails(flight, conn) =>
        TrackedStaysKnown(s, flight, conn);
        KnownStaysKnown(Tracked(s, flight, conn), s');
      case ReplaceFails(conn, r) =>
        if Accepted(s, r) {
          AdjustedStaysKnown(s, conn, r);
          KnownStaysKnown(Adjusted(s, conn, r), s');
        }
      case Deliver(y, at) =>
        HandledAddsNothing(s.gateway, s.links[y].events[at]);
        KnownStaysKnown(s, s');
      case _ => KnownStaysKnown(s, s');
    }
  }

  // ----- the theorem -----

  lemma FillIsFunded(s: System, fill: Fill, id: OrderId)
    requires TokensKnown(s) && PartyOk(s, id, fill.price, fill.qty) && fill.price >= 0 && fill.qty > 0
    ensures G.FillFunded(s.gateway, fill, id)
  {
  }

  /** A section that keeps the ledger safe. */
  predicate Sound(g: G.Gateway, sec: G.Section) {
    G.Enabled(g, sec) && G.Orderly(g, sec) && G.Funded(g, sec)
  }

  lemma SoundStaysSafe(g: G.Gateway, sec: G.Section)
    requires Safe(g) && Sound(g, sec)
    ensures Safe(G.Apply(g, sec))
  {
    G.SolvencyKept(g, sec);
  }

  lemma EventOnLinkOk(s: System, y: SymbolId, ev: Event)
    requires LinksOk(s) && y in s.links && ev in s.links[y].events && ev.Filled?
    ensures FillOk(s, ev.fill.makerOrderId, ev.fill.takerOrderId, ev.fill.price, ev.fill.qty)
  {
    assert LinkOk(s, y, s.links[y]);
  }

  lemma DeliveredStaysSafe(s: System, y: SymbolId, ev: Event)
    requires Good(s) && y in s.links && ev in s.links[y].events
    ensures Safe(Handled(s.gateway, ev))
  {
    hide Safe, LinksOk, HistoryOk, TokensKnown;
    match ev {
      case Filled(fill) =>
        EventOnLinkOk(s, y, ev);
        FillIsFunded(s, fill, fill.makerOrderId);
        FillIsFunded(s, fill, fill.takerOrderId);
        SoundStaysSafe(s.gateway, G.OnFill(fill));
      case Ack(_, _, id) => SoundStaysSafe(s.gateway, G.OnAck(id));
      case Reject(_, _, Some(id), _) => SoundStaysSafe(s.gateway, G.OnReject(id));
      case _ =>
    }
  }

  lemma ReplacedStaysSafe(s: System, conn: G.ConnId, r: Replace)
    requires Good(s) && Accepted(s, r) && Raises(s, conn, r)
    ensures Safe(G.Apply(s.gateway, G.OnReplace(conn, r)))
  {
    hide Safe, LinksOk, HistoryOk;
    SoundStaysSafe(s.gateway, G.OnReplace(conn, r));
  }

  /** What cannot be routed had nothing reserved, so giving it back changes nothing. */
  lemma UnsentStaysSafe(s: System, conn: G.ConnId, token: L.Token, wasNew: bool)
    requires Safe(s.gateway) && token.amount == 0
    ensures Safe(Unsent(s, conn, token, wasNew).gateway)
  {
    hide Safe;
    SoundStaysSafe(s.gateway, G.RouteFailed(conn, token, wasNew));
  }

  lemma TrackedStaysSafe(s: System, flight: nat, conn: G.ConnId)
    requires Good(s) && Trackable(s, flight)
    ensures Safe(Tracked(s, flight, conn).gateway)
  {
    hide Safe, LinksOk;
    var no := s.orders[s.gateway.inFlight[flight].orderId];
    SoundStaysSafe(s.gateway, G.TrackNew(flight, conn, no.orderId, no.side));
  }

  lemma GatewayStaysSafe(s: System, h: Happening)
    requires BooksOk(s) && Good(s) && Admissible(s, h)
    ensures Safe(Next(s, h).gateway)
  {
    hide Safe, BooksOk, LinksOk, HistoryOk, TokensKnown, Raises, Step;
    match h {
      case Submit(no) => SoundStaysSafe(s.gateway, G.ReserveNew(no));
      case Send(flight, conn) => TrackedStaysSafe(s, flight, conn);
      case SendFails(flight, conn) =>
        TrackedStaysSafe(s, flight, conn);
        UnsentStaysSafe(Tracked(s, flight, conn), conn, s.gateway.inFlight[flight], true);
      case ReplaceFails(conn, r) =>
        if Accepted(s, r) {
          ReplacedStaysSafe(s, conn, r);
          UnsentStaysSafe(Adjusted(s, conn, r), conn, L.ReplaceToken(r), false);
        }
      case MarkCancel(id) => SoundStaysSafe(s.gateway, G.MarkCancel(id));
      case RouteCancel(_) =>
      case CancelUnroutable(id) => SoundStaysSafe(s.gateway, G.RestoreActive(id));
      case SendReplace(conn, r) =>
        if Accepted(s, r) {
          ReplacedStaysSafe(s, conn, r);
        }
      case SendOther(_, _) =>
      case Execute(_, _) =>
      case Deliver(y, at) => DeliveredStaysSafe(s, y, s.links[y].events[at]);
    }
  }

  lemma StaysGood(s: System, h: Happening)
    requires BooksOk(s) && Good(s) && Admissible(s, h)
    ensures Good(Next(s, h))
  {
    hide Safe, BooksOk, LinksOk, HistoryOk, TokensKnown, Next, Admissible;
    GatewayStaysSafe(s, h);
    HistoryStaysOk(s, h);
    TokensStayKnown(s, h);
    LinksStayOk(s, h);
  }

  predicate AllPossible(s: System, hs: seq<Happening>)
    requires BooksOk(s)
    decreases |hs|
  {
    hs == [] || (Possible(s, hs[0]) && AllPossible(Next(s, hs[0]), hs[1..]))
  }

  predicate AllAdmissible(s: System, hs: seq<Happening>)
    requires BooksOk(s)
    decreases |hs|
  {
    hs == [] || (Admissible(s, hs[0]) && AllAdmissible(Next(s, hs[0]), hs[1..]))
  }

  function After(s: System, hs: seq<Happening>): (r: System)
    requires BooksOk(s) && AllPossible(s, hs)
    ensures BooksOk(r)
    decreases |hs|
  {
    if hs == [] then s else After(Next(s, hs[0]), hs[1..])
  }

  lemma {:induction false} AdmissibleIsPossible(s: System, hs: seq<Happening>)
    requires BooksOk(s) && AllAdmissible(s, hs)
    ensures AllPossible(s, hs)
    decreases |hs|
  {
    if hs != [] {
      AdmissibleIsPossible(Next(s, hs[0]), hs[1..]);
    }
  }

  /** A gateway without orders and idle engines with empty books. */
  predicate Fresh(s: System) {
    && s.gateway.pending == map[]
    && s.gateway.inFlight == []
    && s.gateway.locals == map[]
    && (forall a :: a in s.gateway.ledger ==> s.gateway.ledger[a].reserved == 0 <= s.gateway.ledger[a].buyingPower)
    && (forall y :: y in s.links ==>
          s.links[y].commands == [] && s.links[y].events == [] && s.links[y].engine.book == EMPTY_BOOK)
    && s.orders == map[]
    && s.granted == map[]
    && s.sent == s.executed == s.replaced == {}
  }

  lemma FreshIsGood(s: System)
    requires Fresh(s)
    ensures BooksOk(s) && Good(s)
  {
    forall a ensures G.BalancedAt(s.gateway, a) && G.SolventAt(s.gateway.ledger, a) {
      assert G.Shares(s.gateway.pending, a) == map[];
    }
  }

  lemma {:induction false} GoodThroughout(s: System, hs: seq<Happening>)
    requires BooksOk(s) && Good(s) && AllAdmissible(s, hs)
    ensures AllPossible(s, hs) && Good(After(s, hs))
    decreases |hs|
  {
    hide Good, Admissible, Next;
    AdmissibleIsPossible(s, hs);
    if hs != [] {
      StaysGood(s, hs[0]);
      GoodThroughout(Next(s, hs[0]), hs[1..]);
    }
  }

  /** Gateway and engines together, started afresh: whatever is submitted, replaced, cancelled, executed and
      delivered in whatever order, every account's reserved amount on the gateway's books is the sum of its
      outstanding reservations and lies between zero and its buying power. */
  lemma BooksStaySolvent(s: System, hs: seq<Happening>, a: AccountId)
    requires Fresh(s)
    ensures BooksOk(s)
    ensures AllAdmissible(s, hs) ==>
              && AllPossible(s, hs)
              && var g := After(s, hs).gateway;
                 a in g.ledger ==> 0 <= g.ledger[a].reserved == G.Outstanding(g, a) <= g.ledger[a].buyingPower
  {
    FreshIsGood(s);
    if AllAdmissible(s, hs) {
      GoodThroughout(s, hs);
      var g := After(s, hs).gateway;
      assert G.BalancedAt(g, a) && G.SolventAt(g.ledger, a);
    }
  }
}
