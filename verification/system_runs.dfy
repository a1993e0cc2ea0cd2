/** Runs of the whole system from a fresh start that show where its theorems end. */
module SystemRuns {
  import opened Common
  import opened Finite
  import opened PriceTimeBook
  import opened Matching
  import opened EngineSpec
  import opened EngineRuns
  import opened EndToEnd
  import opened SettledFills
  import opened EngineAccounts
  import opened PositionLimits
  import opened StrandedReservations
  import L = GatewayLedger
  import G = GatewayProtocol

  // ----- putting runs together -----

  lemma {:induction false} Joins(s: System, x: seq<Happening>, y: seq<Happening>)
    requires BooksOk(s) && AllPossible(s, x) && AllPossible(After(s, x), y)
    ensures AllPossible(s, x + y) && After(s, x + y) == After(After(s, x), y)
    decreases |x|
  {
    hide BooksOk, Possible, Next;
    if x == [] {
      assert x + y == y;
    } else {
      assert (x + y)[1..] == x[1..] + y;
      Joins(Next(s, x[0]), x[1..], y);
    }
  }

  lemma {:induction false} JoinsAdmissibly(s: System, x: seq<Happening>, y: seq<Happening>)
    requires BooksOk(s) && AllAdmissible(s, x) && AllPossible(s, x) && AllAdmissible(After(s, x), y)
    ensures AllAdmissible(s, x + y)
    decreases |x|
  {
    hide BooksOk, Possible, Admissible, Next;
    if x == [] {
      assert x + y == y;
    } else {
      assert (x + y)[1..] == x[1..] + y;
      JoinsAdmissibly(Next(s, x[0]), x[1..], y);
    }
  }

  /** From `s` the run leads to `s'`, and everything in it is admissible. */
  ghost predicate Leads(s: System, hs: seq<Happening>, s': System) {
    BooksOk(s) && AllAdmissible(s, hs) && AllPossible(s, hs) && After(s, hs) == s'
  }

  lemma NothingHappens(s: System)
    requires BooksOk(s)
    ensures AllAdmissible(s, []) && AllPossible(s, []) && After(s, []) == s
  {
  }

  lemma OneHappens(s: System, h: Happening)
    requires BooksOk(s) && Admissible(s, h)
    ensures Leads(s, [h], Next(s, h))
  {
    hide BooksOk, Next;
    NothingHappens(Next(s, h));
    var hs := [h];
    assert hs[0] == h && hs[1..] == [];
    assert AllAdmissible(s, hs) && AllPossible(s, hs);
    assert After(s, hs) == After(Next(s, h), hs[1..]);
  }

  lemma LeadsOn(s: System, x: seq<Happening>, s1: System, y: seq<Happening>, s2: System)
    requires Leads(s, x, s1) && Leads(s1, y, s2)
    ensures Leads(s, x + y, s2)
  {
    hide BooksOk;
    Joins(s, x, y);
    JoinsAdmissibly(s, x, y);
  }

  // ----- an order, from the risk check into the engine -----

  function Placing(no: NewOrder): seq<Happening> {
    [Submit(no)] + ([Send(0, 0)] + [Execute(no.symbolId, 0)])
  }

  /** Nothing is on the way to the engine, and the gateway grants the order. */
  ghost predicate Placeable(s: System, no: NewOrder) {
    && BooksOk(s)
    && s.gateway.inFlight == []
    && no.symbolId in s.links
    && s.links[no.symbolId].commands == []
    && no.orderId !in s.orders
    && no.price >= 0
    && no.qty >= 0
    && L.OrderViolation(s.gateway.ledger, no).None?
  }

  /** The gateway's half. */
  function Granted(s: System, no: NewOrder): System {
    s.(gateway := G.Gateway(L.Reserved(s.gateway.ledger, no.accountId, L.Notional(no)),
                            s.gateway.pending[no.orderId := G.Metadata(L.OrderToken(no), no.side, G.Active, 0)],
                            s.gateway.locals[G.LocalKey(0, no.orderId) := no.side], []),
       orders := s.orders[no.orderId := no],
       granted := s.granted[no.orderId := L.Notional(no)],
       sent := s.sent + {no.orderId})
  }

  function Placed(s: System, no: NewOrder): System
    requires BooksOk(s) && no.symbolId in s.links
  {
    var link := s.links[no.symbolId];
    var out := Step(link.engine, New(no));
    Granted(s, no).(links := s.links[no.symbolId := Link([], out.state, link.events + out.events)],
                    executed := s.executed + {no.orderId})
  }

  lemma SubmitThenSend(s: System, no: NewOrder)
    requires Placeable(s, no)
    ensures Leads(s, [Submit(no)] + [Send(0, 0)],
                  Granted(s, no).(links := s.links[no.symbolId := s.links[no.symbolId].(commands := [New(no)])]))
  {
    hide BooksOk, Step;
    var s1 := Submitted(s, no);
    OneHappens(s, Submit(no));
    assert s1.gateway.inFlight == [L.OrderToken(no)] by {
      assert [] + [L.OrderToken(no)] == [L.OrderToken(no)];
    }
    OneHappens(s1, Send(0, 0));
    assert G.Without([L.OrderToken(no)], 0) == [];
    assert [] + [New(no)] == [New(no)];
    LeadsOn(s, [Submit(no)], s1, [Send(0, 0)], Next(s1, Send(0, 0)));
  }

  lemma EngineTakesUp(s: System, no: NewOrder, s2: System)
    requires Placeable(s, no)
    requires s2 == Granted(s, no).(links := s.links[no.symbolId := s.links[no.symbolId].(commands := [New(no)])])
    ensures Leads(s2, [Execute(no.symbolId, 0)], Placed(s, no))
  {
    hide Step;
    var y := no.symbolId;
    assert forall z :: z in s2.links ==> BookOk(s2.links[z].engine.book);
    OneHappens(s2, Execute(y, 0));
    assert G.Without([New(no)], 0) == [];
    assert s2.links[y := Placed(s, no).links[y]] == Placed(s, no).links;
  }

  lemma Places(s: System, no: NewOrder)
    requires Placeable(s, no)
    ensures Leads(s, Placing(no), Placed(s, no))
  {
    hide BooksOk, Step;
    var y := no.symbolId;
    var s2 := Granted(s, no).(links := s.links[y := s.links[y].(commands := [New(no)])]);
    SubmitThenSend(s, no);
    EngineTakesUp(s, no, s2);
    LeadsOn(s, [Submit(no)] + [Send(0, 0)], s2, [Execute(y, 0)], Placed(s, no));
    assert ([Submit(no)] + [Send(0, 0)]) + [Execute(y, 0)] == Placing(no);
  }

  // ----- events that change nothing at the gateway -----

  predicate Quiet(g: G.Gateway, ev: Event) {
    ev.BookTop? || (ev.Ack? && !(ev.orderId in g.pending && g.pending[ev.orderId].operation.CancelPending?))
  }

  function Without1(s: System, y: SymbolId): System
    requires y in s.links && s.links[y].events != []
  {
    s.(links := s.links[y := s.links[y].(events := s.links[y].events[1..])])
  }

  lemma DeliversQuietly(s: System, y: SymbolId)
    requires BooksOk(s) && y in s.links && s.links[y].events != [] && Quiet(s.gateway, s.links[y].events[0])
    ensures Leads(s, [Deliver(y, 0)], Without1(s, y))
  {
    hide BooksOk;
    var events := s.links[y].events;
    assert G.Without(events, 0) == events[1..];
    OneHappens(s, Deliver(y, 0));
  }

  /** The two events that close an accepted order. */
  predicate Closes(evs: seq<Event>, id: OrderId) {
    |evs| == 2 && evs[0].BookTop? && evs[1].Ack? && evs[1].orderId == id
  }

  lemma DeliversClosing(s: System, y: SymbolId, id: OrderId, rest: seq<Event>)
    requires BooksOk(s) && y in s.links && |s.links[y].events| >= 2
    requires Closes(s.links[y].events[..2], id) && s.links[y].events[2..] == rest
    requires id in s.gateway.pending ==> s.gateway.pending[id].operation.Active?
    ensures Leads(s, [Deliver(y, 0)] + [Deliver(y, 0)], s.(links := s.links[y := s.links[y].(events := rest)]))
  {
    hide BooksOk;
    var events := s.links[y].events;
    assert events[0] == events[..2][0] && events[1] == events[..2][1];
    DeliversQuietly(s, y);
    DeliversQuietly(Without1(s, y), y);
    LeadsOn(s, [Deliver(y, 0)], Without1(s, y), [Deliver(y, 0)], Without1(Without1(s, y), y));
    assert events[1..][1..] == rest;
  }

  // ----- what the engine does -----

  lemma NothingMatches(st: EngineState, no: NewOrder)
    requires BookOk(st.book) && Refusal(st, no).None? && !WouldCross(st.book, no.side, no.price)
    ensures Closes(NewStep(st, no).events, no.orderId)
    ensures NewStep(st, no).state.book == if no.tif.Gtc? then Insert(st.book, OrderFrom(no, no.qty)) else st.book
    ensures NewStep(st, no).state.accounts == st.accounts && NewStep(st, no).state.symbolId == st.symbolId
  {
    hide BookOk, PlaceStep, Insert, WouldCross, Top;
    NothingToMatch(st, no);
  }

  /** An order that is filled completely by one maker. */
  predicate FilledBy(evs: seq<Event>, no: NewOrder, maker: OrderId, price: Price) {
    && |evs| == 3
    && evs[0].Filled?
    && evs[0].fill.makerOrderId == maker
    && evs[0].fill.takerOrderId == no.orderId
    && evs[0].fill.price == price
    && evs[0].fill.qty == no.qty
    && evs[0].fill.symbolId == no.symbolId
    && Closes(evs[1..], no.orderId)
  }

  /** The events of an accepted order whose matching is known and complete. */
  lemma MatchedEvents(st: EngineState, no: NewOrder, fs: seq<MatchFill>, b: Book)
    requires BookOk(st.book) && Refusal(st, no).None?
    requires Match(st.book, no.orderId, no.side, no.price, no.qty) == (fs, b) && FillTotal(fs) == no.qty
    ensures NewStep(st, no).state.book == b
    ensures |NewStep(st, no).events| == |fs| + 2
    ensures forall i :: 0 <= i < |fs| ==>
              NewStep(st, no).events[i] == FillEvent(st.serverSeq + i, st.symbolId, no, fs[i])
    ensures Closes(NewStep(st, no).events[|fs|..], no.orderId)
  {
    hide BookOk, Match, Insert, Top, ApplyTrades;
    var evs := FillEvents(st.serverSeq, st.symbolId, no, fs);
    assert PlaceStep(st, no).events == evs;
    var closing := Acknowledged(PlaceStep(st, no).state, [], no.clientSeq, no.orderId).events;
    assert NewStep(st, no).events == evs + closing;
  }

  lemma SellsToOne(st: EngineState, no: NewOrder, o: Order)
    requires BookOk(st.book) && st.book == Alone(o) && o.side.Buy? && no.side.Sell? && no.symbolId == st.symbolId
    requires Refusal(st, no).None? && no.price <= o.price && 0 < no.qty <= o.qtyRem
    ensures FilledBy(NewStep(st, no).events, no, o.orderId, o.price)
    ensures NewStep(st, no).state.book
         == if no.qty < o.qtyRem then Alone(o.(qtyRem := o.qtyRem - no.qty)) else EMPTY_BOOK
  {
    hide BookOk, NewStep, Refusal;
    var r := Resting(o, true);
    var f := MatchFill(o.orderId, o.accountId, no.orderId, o.price, no.qty);
    assert [r][1..] == [] && [f][1..] == [] && [f] + [] == [f];
    var b := if no.qty < o.qtyRem then Alone(o.(qtyRem := o.qtyRem - no.qty)) else EMPTY_BOOK;
    assert [Resting(o.(qtyRem := o.qtyRem - no.qty), true)] + [] == [Resting(o.(qtyRem := o.qtyRem - no.qty), true)];
    assert Match(st.book, no.orderId, no.side, no.price, no.qty) == ([f], b);
    SumByOne(f, QtyFilled);
    MatchedEvents(st, no, [f], b);
  }

  lemma LastMaker(no: NewOrder, o: Order)
    requires no.side.Sell? && no.price <= o.price && o.qtyRem > 0
    ensures Match(Book([Resting(o, true)], []), no.orderId, no.side, no.price, o.qtyRem)
         == ([MatchFill(o.orderId, o.accountId, no.orderId, o.price, o.qtyRem)] + [], EMPTY_BOOK)
  {
    assert [Resting(o, true)][1..] == [];
  }

  lemma SellsToTwo(st: EngineState, no: NewOrder, x: Order, y: Order)
    requires BookOk(st.book) && st.book == Book([Resting(x, true), Resting(y, true)], []) && no.side.Sell?
    requires x.orderId != y.orderId && Refusal(st, no).None?
    requires no.price <= y.price && no.price <= x.price && x.qtyRem > 0 && y.qtyRem > 0 && no.qty == x.qtyRem + y.qtyRem
    ensures var evs := NewStep(st, no).events;
            && |evs| == 4
            && evs[0] == FillEvent(st.serverSeq, st.symbolId, no,
                                   MatchFill(x.orderId, x.accountId, no.orderId, x.price, x.qtyRem))
            && evs[1] == FillEvent(st.serverSeq + 1, st.symbolId, no,
                                   MatchFill(y.orderId, y.accountId, no.orderId, y.price, y.qtyRem))
            && Closes(evs[2..], no.orderId)
    ensures NewStep(st, no).state.book == EMPTY_BOOK
  {
    hide BookOk, NewStep, Refusal;
    var rx, ry := Resting(x, true), Resting(y, true);
    var fx := MatchFill(x.orderId, x.accountId, no.orderId, x.price, x.qtyRem);
    var fy := MatchFill(y.orderId, y.accountId, no.orderId, y.price, y.qtyRem);
    assert [rx, ry][1..] == [ry] && [ry][1..] == [] && Apply(Unindex(x.orderId), [ry]) == [ry] + [];
    assert [fx] + ([fy] + []) == [fx, fy] && [fx, fy][1..] == [fy] && [fy][1..] == [];
    LastMaker(no, y);
    MatchWholeMaker(st.book, no.orderId, no.side, no.price, no.qty);
    assert Match(st.book, no.orderId, no.side, no.price, no.qty) == ([fx, fy], EMPTY_BOOK);
    SumByFirst(fx, [fy], QtyFilled);
    SumByOne(fy, QtyFilled);
    assert [fx, fy] == [fx] + [fy];
    MatchedEvents(st, no, [fx, fy], EMPTY_BOOK);
  }

  // ----- the opening state -----

  /** One engine for symbol 1. Account 1 has a thousand to spend, accounts 2 and 3 only sell. */
  const OPENING := System(
    G.Gateway(map[1 := L.Account(1000, 0, map[], map[]), 2 := L.Account(0, 0, map[], map[]),
                  3 := L.Account(0, 0, map[], map[])], map[], map[], []),
    map[1 := Link([], STARTED, [])], map[], map[], {}, {}, {})

  lemma OpeningIsFresh()
    ensures Fresh(OPENING) && BooksOk(OPENING)
  {
  }

  /** A good-till-cancelled limit order at a hundred. */
  function Limit(id: OrderId, a: AccountId, side: Side, qty: Qty): NewOrder {
    NewOrder(0, id, a, 1, side, 100, qty, Gtc, false)
  }

  // ----- an immediate-or-cancel order that finds nothing -----

  const IOC_BUY := Limit(7, 1, Buy, 10).(tif := Ioc)

  lemma IocIsPlaced()
    ensures BooksOk(OPENING) && Leads(OPENING, Placing(IOC_BUY), Placed(OPENING, IOC_BUY))
    ensures var g := Placed(OPENING, IOC_BUY).gateway;
            && 1 in g.ledger && g.ledger[1].reserved == 1000 == g.ledger[1].buyingPower && g.inFlight == []
            && IsActive(g, 7)
  {
    hide Leads, Step;
    OpeningIsFresh();
    Places(OPENING, IOC_BUY);
  }

  lemma IocFindsNothing()
    requires BooksOk(OPENING)
    ensures var link := Placed(OPENING, IOC_BUY).links[1];
            link.commands == [] && link.engine.book == EMPTY_BOOK && Closes(link.events, 7)
  {
    hide NewStep, Refusal;
    StartedAccepts(IOC_BUY);
    NothingMatches(STARTED, IOC_BUY);
    assert [] + NewStep(STARTED, IOC_BUY).events == NewStep(STARTED, IOC_BUY).events;
  }

  lemma ClosesIs(evs: seq<Event>, id: OrderId)
    requires Closes(evs, id)
    ensures |evs| == 2 && evs[..2] == evs && evs[2..] == []
  {
  }

  lemma PlacedBooksOk(s: System, no: NewOrder)
    requires BooksOk(s) && no.symbolId in s.links
    ensures BooksOk(Placed(s, no))
  {
    hide Step;
  }

  /** Its acknowledgement strands it. Nothing is on the way any more, nothing rests, and all the account's money
      is reserved. */
  lemma UnfilledIocStaysReserved() returns (hs: seq<Happening>, s: System)
    ensures Fresh(OPENING) && Leads(OPENING, hs, s)
    ensures 1 in s.gateway.ledger && s.gateway.ledger[1].reserved == 1000 == s.gateway.ledger[1].buyingPower
    ensures s.gateway.inFlight == [] && s.links.Keys == {1}
    ensures s.links[1].commands == [] && s.links[1].events == [] && s.links[1].engine.book == EMPTY_BOOK
    ensures 7 in s.gateway.pending && !UnderWay(s, 7)
  {
    hide BooksOk, Step, Leads, Granted, Closes;
    OpeningIsFresh();
    IocIsPlaced();
    IocFindsNothing();
    PlacedBooksOk(OPENING, IOC_BUY);
    var s1 := Placed(OPENING, IOC_BUY);
    ClosesIs(s1.links[1].events, 7);
    DeliversClosing(s1, 1, 7, []);
    s := s1.(links := s1.links[1 := s1.links[1].(events := [])]);
    LeadsOn(OPENING, Placing(IOC_BUY), s1, [Deliver(1, 0)] + [Deliver(1, 0)], s);
    hs := Placing(IOC_BUY) + ([Deliver(1, 0)] + [Deliver(1, 0)]);
  }

  // ----- a buy order at rest -----

  const BUY := Limit(7, 1, Buy, 10)

  /** Account 1 has all its money reserved for a resting buy order, and the acknowledgement has been handled. */
  function Rested(): System
    requires BooksOk(OPENING)
  {
    var s := Placed(OPENING, BUY);
    s.(links := s.links[1 := s.links[1].(events := [])])
  }

  const RESTED_GATEWAY :=
    G.Gateway(map[1 := L.Account(1000, 1000, map[], map[]), 2 := L.Account(0, 0, map[], map[]),
                  3 := L.Account(0, 0, map[], map[])],
              map[7 := G.Metadata(L.Token(1, 1, 1000, 7), Buy, G.Active, 0)], map[G.LocalKey(0, 7) := Buy], [])

  lemma BuyIsPlaced()
    ensures BooksOk(OPENING) && Leads(OPENING, Placing(BUY), Placed(OPENING, BUY))
    ensures Placed(OPENING, BUY).gateway == RESTED_GATEWAY && Placed(OPENING, BUY).links.Keys == {1}
    ensures Placed(OPENING, BUY).orders == map[7 := BUY]
  {
    hide Leads, Step;
    OpeningIsFresh();
    Places(OPENING, BUY);
  }

  lemma BuyRests()
    requires BooksOk(OPENING)
    ensures var link := Placed(OPENING, BUY).links[1];
            && link.commands == [] && Closes(link.events, 7)
            && link.engine.book == Alone(OrderFrom(BUY, 10))
            && link.engine.accounts == STARTED.accounts && link.engine.symbolId == 1
  {
    hide NewStep, Refusal;
    StartedAccepts(BUY);
    NothingMatches(STARTED, BUY);
    FirstOrderRests(STARTED, BUY);
    assert [] + NewStep(STARTED, BUY).events == NewStep(STARTED, BUY).events;
  }

  lemma LeadsToBooks(s: System, hs: seq<Happening>, s': System)
    requires Leads(s, hs, s')
    ensures BooksOk(s')
  {
  }

  lemma RestedIs() returns (hs: seq<Happening>)
    ensures BooksOk(OPENING) && Leads(OPENING, hs, Rested()) && BooksOk(Rested())
    ensures Rested().gateway == RESTED_GATEWAY && Rested().links.Keys == {1} && Rested().orders == map[7 := BUY]
    ensures var link := Rested().links[1];
            && link.commands == [] && link.events == []
            && link.engine.book == Alone(OrderFrom(BUY, 10))
            && link.engine.accounts == STARTED.accounts && link.engine.symbolId == 1
  {
    hide BooksOk, Step, Leads, Granted, Closes;
    BuyIsPlaced();
    BuyRests();
    PlacedBooksOk(OPENING, BUY);
    var s := Placed(OPENING, BUY);
    ClosesIs(s.links[1].events, 7);
    DeliversClosing(s, 1, 7, []);
    LeadsOn(OPENING, Placing(BUY), s, [Deliver(1, 0)] + [Deliver(1, 0)], Rested());
    LeadsToBooks(OPENING, Placing(BUY) + ([Deliver(1, 0)] + [Deliver(1, 0)]), Rested());
    hs := Placing(BUY) + ([Deliver(1, 0)] + [Deliver(1, 0)]);
  }

  // ----- a replace that lowers a reservation -----

  const SELL_TEN := Limit(9, 2, Sell, 10)
  const LOWERED := Replace(0, 7, 1, 1, 1, 1)
  const REST_OF_MONEY := NewOrder(0, 8, 1, 1, Buy, 999, 1, Gtc, false)

  /** The resting order has been filled at the engine, and the gateway has not heard of it. */
  function Unheard(): System
    requires BooksOk(OPENING)
  {
    Placed(Rested(), SELL_TEN)
  }

  lemma SaleIsPlaced()
    requires BooksOk(OPENING) && BooksOk(Rested())
    requires Rested().gateway == RESTED_GATEWAY && Rested().links.Keys == {1} && Rested().orders == map[7 := BUY]
    requires Rested().links[1].commands == []
    ensures Leads(Rested(), Placing(SELL_TEN), Unheard())
    ensures Unheard().gateway == RESTED_GATEWAY.(
              pending := RESTED_GATEWAY.pending[9 := G.Metadata(L.Token(2, 1, 0, 9), Sell, G.Active, 0)],
              locals := RESTED_GATEWAY.locals[G.LocalKey(0, 9) := Sell])
    ensures Unheard().links.Keys == {1} && Unheard().orders.Keys == {7, 9}
  {
    hide Leads, Step, BooksOk, Rested;
    Places(Rested(), SELL_TEN);
  }

  lemma AloneOk(o: Order)
    requires o.qtyRem > 0
    ensures BookOk(Alone(o))
  {
  }

  lemma SaleFills(link: Link)
    requires link.engine.book == Alone(OrderFrom(BUY, 10)) && link.engine.accounts == STARTED.accounts
    requires link.engine.symbolId == 1
    ensures FilledBy(Step(link.engine, New(SELL_TEN)).events, SELL_TEN, 7, 100)
  {
    hide NewStep, BookOk;
    var st := link.engine;
    AloneOk(OrderFrom(BUY, 10));
    assert Refusal(st, SELL_TEN).None?;
    SellsToOne(st, SELL_TEN, OrderFrom(BUY, 10));
  }

  lemma UnheardIs() returns (hs: seq<Happening>)
    ensures BooksOk(OPENING) && Leads(OPENING, hs, Unheard()) && BooksOk(Unheard())
    ensures Unheard().gateway == RESTED_GATEWAY.(
              pending := RESTED_GATEWAY.pending[9 := G.Metadata(L.Token(2, 1, 0, 9), Sell, G.Active, 0)],
              locals := RESTED_GATEWAY.locals[G.LocalKey(0, 9) := Sell])
    ensures Unheard().links.Keys == {1} && Unheard().orders.Keys == {7, 9}
    ensures FilledBy(Unheard().links[1].events, SELL_TEN, 7, 100)
  {
    hide BooksOk, Leads, Step, Rested;
    var rest := RestedIs();
    SaleIsPlaced();
    SaleFills(Rested().links[1]);
    var evs := Step(Rested().links[1].engine, New(SELL_TEN)).events;
    assert [] + evs == evs;
    LeadsOn(OPENING, rest, Rested(), Placing(SELL_TEN), Unheard());
    hs := rest + Placing(SELL_TEN);
    LeadsToBooks(OPENING, hs, Unheard());
  }

  /** What the gateway makes of the lowering replace, of the order for the freed money, and of the fill. */
  lemma GatewayOverdraws(g: G.Gateway, fill: Fill)
    requires g == RESTED_GATEWAY.(
               pending := RESTED_GATEWAY.pending[9 := G.Metadata(L.Token(2, 1, 0, 9), Sell, G.Active, 0)],
               locals := RESTED_GATEWAY.locals[G.LocalKey(0, 9) := Sell])
    requires fill.makerOrderId == 7 && fill.takerOrderId == 9 && fill.price == 100 && fill.qty == 10
    ensures L.ReplaceViolation(g.ledger, g.pending[7].token, LOWERED).None?
    ensures var g1 := G.Apply(g, G.OnReplace(0, LOWERED));
            var g2 := G.Apply(g1, G.ReserveNew(REST_OF_MONEY));
            var g3 := G.Apply(g2, G.OnFill(fill));
            && L.OrderViolation(g1.ledger, REST_OF_MONEY).None?
            && 1 in g3.ledger && g3.ledger[1].reserved == 999 && g3.ledger[1].buyingPower == 0
  {
    var g1 := G.Apply(g, G.OnReplace(0, LOWERED));
    assert g1.ledger[1].reserved == 1 && g1.ledger[1].buyingPower == 1000;
    var g2 := G.Apply(g1, G.ReserveNew(REST_OF_MONEY));
    assert g2.ledger[1].reserved == 1000;
  }

  lemma FilledByIs(evs: seq<Event>, no: NewOrder, maker: OrderId, price: Price)
    requires FilledBy(evs, no, maker, price)
    ensures |evs| > 0 && evs[0].Filled? && Closes(evs[1..], no.orderId)
    ensures var f := evs[0].fill;
            && f.makerOrderId == maker
            && f.takerOrderId == no.orderId
            && f.price == price
            && f.qty == no.qty
            && f.symbolId == no.symbolId
  {
  }

  /** From a fresh start a replace to a smaller amount can outrun a fill of the order it replaces; the freed
      money is reserved again, and the fill overdraws the account. All else in the run is admissible. */
  lemma LoweringReplaceOverdraws() returns (before: seq<Happening>, s: System, lowering: Happening,
                                           after: seq<Happening>, s': System)
    ensures Fresh(OPENING) && Leads(OPENING, before, s)
    ensures lowering.SendReplace? && Possible(s, lowering) && Accepted(s, lowering.replace)
    ensures Leads(Next(s, lowering), after, s')
    ensures 1 in s'.gateway.ledger && s'.gateway.ledger[1].reserved > s'.gateway.ledger[1].buyingPower
  {
    hide BooksOk, Leads, Step, Unheard, FilledBy, G.Apply;
    OpeningIsFresh();
    before := UnheardIs();
    s := Unheard();
    FilledByIs(s.links[1].events, SELL_TEN, 7, 100);
    var fill := s.links[1].events[0].fill;
    GatewayOverdraws(s.gateway, fill);
    lowering := SendReplace(0, LOWERED);
    var s1 := Next(s, lowering);
    OneHappens(s1, Submit(REST_OF_MONEY));
    var s2 := Next(s1, Submit(REST_OF_MONEY));
    OneHappens(s2, Deliver(1, 0));
    s' := Next(s2, Deliver(1, 0));
    LeadsOn(s1, [Submit(REST_OF_MONEY)], s2, [Deliver(1, 0)], s');
    after := [Submit(REST_OF_MONEY)] + [Deliver(1, 0)];
  }

  // ----- an order that is filled twice -----

  const SELL_ONE := Limit(9, 2, Sell, 1)
  const BUY_MORE := Limit(8, 1, Buy, 9)
  const SELL_MORE := Limit(10, 3, Sell, 18)

  function FlowOf(s: System, a: AccountId, m: Gauge): Event -> int {
    (ev: Event) =>
      if ev.Filled? then Flow(s, ev.fill, ev.fill.makerOrderId, a, m) + Flow(s, ev.fill, ev.fill.takerOrderId, a, m)
      else 0
  }

  /** What the fills among the events bring an account. */
  function Owed(s: System, evs: seq<Event>, a: AccountId, m: Gauge): int {
    SumBy(evs, FlowOf(s, a, m))
  }

  lemma ClosingOwesNothing(s: System, evs: seq<Event>, id: OrderId, a: AccountId, m: Gauge)
    requires Closes(evs, id)
    ensures Owed(s, evs, a, m) == 0
  {
    assert evs[1..][1..] == [];
    assert Owed(s, evs[1..], a, m) == Owed(s, evs[1..][1..], a, m);
  }

  /** One lot of the resting order is filled. */
  function SoldOne(): System
    requires BooksOk(OPENING) && BooksOk(Rested()) && Rested().links.Keys == {1}
  {
    Placed(Rested(), SELL_ONE)
  }

  const LEFT := OrderFrom(BUY, 9)

  lemma OneTrade(st: EngineState)
    requires st.book == Alone(OrderFrom(BUY, 10)) && BookOk(st.book) && Refusal(st, SELL_ONE).None?
    ensures NewStep(st, SELL_ONE).state.accounts
         == st.accounts.(positions := ApplyTrades(st.accounts.positions, [Trade(2, 1, Sell, 100, 1)]))
    ensures NewStep(st, SELL_ONE).state.symbolId == st.symbolId
  {
    hide BookOk, Refusal, ApplyTrades;
    var r := Resting(OrderFrom(BUY, 10), true);
    var f := MatchFill(7, 1, 9, 100, 1);
    assert [r][1..] == [];
    assert FillsFor(st.book, SELL_ONE) == [f];
    assert TradesOf(SELL_ONE, [f]) == [Trade(2, 1, Sell, 100, 1)];
  }

  lemma OneLotFills(st: EngineState)
    requires st.book == Alone(OrderFrom(BUY, 10)) && st.accounts == STARTED.accounts && st.symbolId == 1
    ensures var out := Step(st, New(SELL_ONE));
            && FilledBy(out.events, SELL_ONE, 7, 100)
            && out.state.book == Alone(LEFT)
            && out.state.symbolId == 1
            && out.state.accounts == STARTED.accounts.(positions :=
                 ApplyTrades(map[], [Trade(2, 1, Sell, 100, 1)]))
  {
    hide BookOk, FilledPosition;
    AloneOk(OrderFrom(BUY, 10));
    assert Refusal(st, SELL_ONE).None?;
    SellsToOne(st, SELL_ONE, OrderFrom(BUY, 10));
    OneTrade(st);
  }

  lemma SaleOfOneIsPlaced()
    requires BooksOk(OPENING) && BooksOk(Rested())
    requires Rested().gateway == RESTED_GATEWAY && Rested().links.Keys == {1} && Rested().orders == map[7 := BUY]
    requires Rested().links[1].commands == []
    ensures Leads(Rested(), Placing(SELL_ONE), SoldOne())
    ensures SoldOne().gateway == RESTED_GATEWAY.(
              pending := RESTED_GATEWAY.pending[9 := G.Metadata(L.Token(2, 1, 0, 9), Sell, G.Active, 0)],
              locals := RESTED_GATEWAY.locals[G.LocalKey(0, 9) := Sell])
    ensures SoldOne().links.Keys == {1} && SoldOne().orders == map[7 := BUY, 9 := SELL_ONE]
  {
    hide Leads, Step, BooksOk, Rested;
    Places(Rested(), SELL_ONE);
  }

  lemma SoldOneIs() returns (hs: seq<Happening>)
    ensures BooksOk(OPENING) && BooksOk(Rested()) && Rested().links.Keys == {1}
    ensures Leads(OPENING, hs, SoldOne()) && BooksOk(SoldOne())
    ensures SoldOne().gateway == RESTED_GATEWAY.(
              pending := RESTED_GATEWAY.pending[9 := G.Metadata(L.Token(2, 1, 0, 9), Sell, G.Active, 0)],
              locals := RESTED_GATEWAY.locals[G.LocalKey(0, 9) := Sell])
    ensures SoldOne().links.Keys == {1} && SoldOne().orders == map[7 := BUY, 9 := SELL_ONE]
    ensures var link := SoldOne().links[1];
            && link.commands == [] && FilledBy(link.events, SELL_ONE, 7, 100)
            && link.engine.book == Alone(LEFT) && link.engine.symbolId == 1
            && link.engine.accounts == STARTED.accounts.(positions := ApplyTrades(map[], [Trade(2, 1, Sell, 100, 1)]))
  {
    hide BooksOk, Leads, Step, Rested, ApplyTrades;
    var rest := RestedIs();
    SaleOfOneIsPlaced();
    OneLotFills(Rested().links[1].engine);
    var evs := Step(Rested().links[1].engine, New(SELL_ONE)).events;
    assert [] + evs == evs;
    LeadsOn(OPENING, rest, Rested(), Placing(SELL_ONE), SoldOne());
    hs := rest + Placing(SELL_ONE);
    LeadsToBooks(OPENING, hs, SoldOne());
  }

  /** The gateway after the fill: the whole reservation has ended with the first lot. */
  const HEARD_GATEWAY :=
    G.Gateway(map[1 := L.Account(900, 0, map[1 := Position(1, 100, 0)], map[]),
                  2 := L.Account(100, 0, map[1 := Position(-1, 100, 0)], map[]),
                  3 := L.Account(0, 0, map[], map[])],
              map[], map[G.LocalKey(0, 7) := Buy, G.LocalKey(0, 9) := Sell], [])

  lemma GatewayHears(g: G.Gateway, fill: Fill)
    requires g == RESTED_GATEWAY.(
               pending := RESTED_GATEWAY.pending[9 := G.Metadata(L.Token(2, 1, 0, 9), Sell, G.Active, 0)],
               locals := RESTED_GATEWAY.locals[G.LocalKey(0, 9) := Sell])
    requires fill.makerOrderId == 7 && fill.takerOrderId == 9 && fill.price == 100 && fill.qty == 1
    requires fill.symbolId == 1
    ensures G.Apply(g, G.OnFill(fill)) == HEARD_GATEWAY
  {
    var l1 := G.ConsumedBy(g.ledger, fill, g.pending[7]);
    assert l1 == map[1 := L.Account(900, 0, map[1 := Position(1, 100, 0)], map[]),
                     2 := L.Account(0, 0, map[], map[]), 3 := L.Account(0, 0, map[], map[])];
    var l2 := G.ConsumedBy(l1, fill, g.pending[9]);
    assert l2 == HEARD_GATEWAY.ledger;
    assert g.pending - {7, 9} == map[];
  }

  /** The gateway has handled the fill of one lot. */
  function Heard(s: System): System
    requires 1 in s.links && s.links[1].events != []
  {
    Delivered(s, 1, 0)
  }

  lemma HeardIs(s: System)
    requires BooksOk(s) && s.links.Keys == {1} && FilledBy(s.links[1].events, SELL_ONE, 7, 100)
    requires s.gateway == RESTED_GATEWAY.(
               pending := RESTED_GATEWAY.pending[9 := G.Metadata(L.Token(2, 1, 0, 9), Sell, G.Active, 0)],
               locals := RESTED_GATEWAY.locals[G.LocalKey(0, 9) := Sell])
    ensures Leads(s, [Deliver(1, 0)], Heard(s)) && BooksOk(Heard(s))
    ensures Heard(s).gateway == HEARD_GATEWAY && Heard(s).orders == s.orders
    ensures Heard(s).links.Keys == {1} && Heard(s).links[1] == s.links[1].(events := s.links[1].events[1..])
  {
    hide BooksOk, Leads, FilledBy, G.Apply;
    FilledByIs(s.links[1].events, SELL_ONE, 7, 100);
    GatewayHears(s.gateway, s.links[1].events[0].fill);
    OneHappens(s, Deliver(1, 0));
    LeadsToBooks(s, [Deliver(1, 0)], Heard(s));
    assert G.Without(s.links[1].events, 0) == s.links[1].events[1..];
  }

  /** The engine's book and ledger after the first fill. */
  predicate AfterFirst(st: EngineState) {
    && st.book == Alone(LEFT)
    && st.symbolId == 1
    && st.accounts == STARTED.accounts.(positions := ApplyTrades(map[], [Trade(2, 1, Sell, 100, 1)]))
  }

  lemma FirstPositions()
    ensures var p := ApplyTrades(map[], [Trade(2, 1, Sell, 100, 1)]);
            PositionOf(p, 1).net == 1 && 3 !in p
  {
    assert [Trade(2, 1, Sell, 100, 1)][..0] == [];
  }

  lemma SecondBuyRests(st: EngineState)
    requires AfterFirst(st)
    ensures BookOk(st.book)
    ensures var out := Step(st, New(BUY_MORE));
            && Closes(out.events, 8)
            && out.state.book == Book([Resting(LEFT, true), Resting(OrderFrom(BUY_MORE, 9), true)], [])
            && out.state.accounts == st.accounts && out.state.symbolId == 1
  {
    hide NewStep, ApplyTrades, Insert;
    AloneOk(LEFT);
    FirstPositions();
    assert Refusal(st, BUY_MORE).None?;
    NothingMatches(st, BUY_MORE);
    InsertSecond(LEFT, OrderFrom(BUY_MORE, 9));
  }

  /** Nothing is reserved for the nine lots that still rest, so as many can be bought again. */
  lemma BuysMore(s: System)
    requires BooksOk(s) && s.gateway == HEARD_GATEWAY && s.orders == map[7 := BUY, 9 := SELL_ONE]
    requires s.links.Keys == {1} && s.links[1].commands == [] && Closes(s.links[1].events, 9)
    requires AfterFirst(s.links[1].engine)
    ensures var s' := Placed(s, BUY_MORE);
            && Leads(s, Placing(BUY_MORE), s') && BooksOk(s')
            && s'.gateway.ledger == HEARD_GATEWAY.ledger[1 := L.Account(900, 900, map[1 := Position(1, 100, 0)], map[])]
            && s'.gateway.inFlight == [] && s'.orders == map[7 := BUY, 9 := SELL_ONE, 8 := BUY_MORE]
            && s'.links.Keys == {1} && s'.links[1].commands == []
            && |s'.links[1].events| == 4 && Closes(s'.links[1].events[..2], 9) && Closes(s'.links[1].events[2..], 8)
            && s'.links[1].engine.book == Book([Resting(LEFT, true), Resting(OrderFrom(BUY_MORE, 9), true)], [])
            && s'.links[1].engine.accounts == s.links[1].engine.accounts && s'.links[1].engine.symbolId == 1
  {
    hide BooksOk, Leads, Step;
    Places(s, BUY_MORE);
    PlacedBooksOk(s, BUY_MORE);
    SecondBuyRests(s.links[1].engine);
    var x, y := s.links[1].events, Step(s.links[1].engine, New(BUY_MORE)).events;
    ClosesIs(x, 9);
    ClosesIs(y, 8);
    assert (x + y)[..2] == x && (x + y)[2..] == y;
  }

  predicate TwoRest(st: EngineState) {
    && st.book == Book([Resting(LEFT, true), Resting(OrderFrom(BUY_MORE, 9), true)], [])
    && st.symbolId == 1
    && st.accounts == STARTED.accounts.(positions := ApplyTrades(map[], [Trade(2, 1, Sell, 100, 1)]))
  }

  /** Two fills of nine lots each, under orders 7 and 8. */
  predicate BothFilled(evs: seq<Event>) {
    && |evs| == 4
    && (forall i :: 0 <= i < 2 ==>
          evs[i].Filled? && evs[i].fill.takerOrderId == 10 && evs[i].fill.symbolId == 1
          && evs[i].fill.price == 100 && evs[i].fill.qty == 9)
    && evs[0].fill.makerOrderId == 7
    && evs[1].fill.makerOrderId == 8
    && Closes(evs[2..], 10)
  }

  lemma BothFill(st: EngineState)
    requires TwoRest(st)
    ensures BookOk(st.book) && BothFilled(Step(st, New(SELL_MORE)).events)
    ensures Step(st, New(SELL_MORE)).state.book == EMPTY_BOOK
  {
    hide NewStep, ApplyTrades;
    FirstPositions();
    assert Refusal(st, SELL_MORE).None?;
    SellsToTwo(st, SELL_MORE, LEFT, OrderFrom(BUY_MORE, 9));
  }

  lemma TwoHeld(st: EngineState)
    requires TwoRest(st)
    ensures RestingQty(st.book, Buy, 1) == 18 && RestingQty(st.book, Sell, 1) == 0
    ensures RestingQty(EMPTY_BOOK, Buy, 1) == 0 && RestingQty(EMPTY_BOOK, Sell, 1) == 0
  {
    var os := Orders(st.book.bids);
    assert os == [LEFT, OrderFrom(BUY_MORE, 9)] && os[1..] == [OrderFrom(BUY_MORE, 9)] && os[1..][1..] == [];
    assert HeldBy(os[1..], 1) == 9 + HeldBy(os[1..][1..], 1);
  }

  /** All eighteen lots join the one that the account had at the engine. */
  lemma EngineHasNineteen(st: EngineState)
    requires TwoRest(st)
    ensures BookOk(st.book) && NetOf(Step(st, New(SELL_MORE)).state, 1) == 19
  {
    hide NewStep, ApplyTrades, RestingQty;
    BothFill(st);
    TwoHeld(st);
    FirstPositions();
    NewDrifts(st, SELL_MORE, 1);
  }

  lemma BothAreOwed(s: System, evs: seq<Event>)
    requires BothFilled(evs) && s.orders == map[7 := BUY, 9 := SELL_ONE, 8 := BUY_MORE, 10 := SELL_MORE]
    ensures Owed(s, evs, 1, Money) == -1800 && Owed(s, evs, 1, Lots(1)) == 18
  {
    assert evs[1..][1..] == evs[2..];
    ClosingOwesNothing(s, evs[2..], 10, 1, Money);
    ClosingOwesNothing(s, evs[2..], 10, 1, Lots(1));
    assert Owed(s, evs[1..], 1, Money) == -900 + Owed(s, evs[1..][1..], 1, Money);
    assert Owed(s, evs[1..], 1, Lots(1)) == 9 + Owed(s, evs[1..][1..], 1, Lots(1));
  }

  lemma EarlierOwesNothing(s: System, x: seq<Event>, y: seq<Event>, m: Gauge)
    requires |x| == 4 && Closes(x[..2], 9) && Closes(x[2..], 8)
    ensures Owed(s, x + y, 1, m) == Owed(s, y, 1, m)
  {
    hide Closes;
    assert x == x[..2] + x[2..];
    ClosingOwesNothing(s, x[..2], 9, 1, m);
    ClosingOwesNothing(s, x[2..], 8, 1, m);
    SumByConcat(x[..2], x[2..], FlowOf(s, 1, m));
    SumByConcat(x, y, FlowOf(s, 1, m));
  }

  /** The account's money and position on the gateway's books, and what the fills on their way will bring. */
  predicate Overcharged(s: System) {
    && 1 in s.gateway.ledger
    && Has(s.gateway.ledger, 1, Money) == 900
    && Has(s.gateway.ledger, 1, Lots(1)) == 1
    && s.links.Keys == {1}
    && Owed(s, s.links[1].events, 1, Money) == -1800
    && Owed(s, s.links[1].events, 1, Lots(1)) == 18
    && NetOf(s.links[1].engine, 1) == 19
  }

  lemma SellsMore(s: System)
    requires BooksOk(s) && s.gateway.inFlight == [] && s.orders == map[7 := BUY, 9 := SELL_ONE, 8 := BUY_MORE]
    requires s.gateway.ledger == HEARD_GATEWAY.ledger[1 := L.Account(900, 900, map[1 := Position(1, 100, 0)], map[])]
    requires s.links.Keys == {1} && s.links[1].commands == [] && TwoRest(s.links[1].engine)
    requires |s.links[1].events| == 4 && Closes(s.links[1].events[..2], 9) && Closes(s.links[1].events[2..], 8)
    ensures Leads(s, Placing(SELL_MORE), Placed(s, SELL_MORE)) && Overcharged(Placed(s, SELL_MORE))
  {
    hide BooksOk, Leads, Step, TwoRest, BothFilled, Owed, NetOf, Closes;
    Places(s, SELL_MORE);
    var s' := Placed(s, SELL_MORE);
    BothFill(s.links[1].engine);
    EngineHasNineteen(s.links[1].engine);
    var x, y := s.links[1].events, Step(s.links[1].engine, New(SELL_MORE)).events;
    BothAreOwed(s', y);
    EarlierOwesNothing(s', x, y, Money);
    EarlierOwesNothing(s', x, y, Lots(1));
  }

  /** From a fresh start and with admissible happenings only: the account had a thousand to spend, has spent a
      hundred of it on one lot by the gateway's books, and is due to pay eighteen hundred more for eighteen lots
      that its engine has already counted. */
  lemma EnginesChargeMore() returns (hs: seq<Happening>, s: System)
    ensures Fresh(OPENING) && 1 in OPENING.gateway.ledger && OPENING.gateway.ledger[1].buyingPower == 1000
    ensures Leads(OPENING, hs, s) && Overcharged(s)
  {
    hide BooksOk, Leads, Step, SoldOne, Rested, Heard, Placed, FilledBy, ApplyTrades, Overcharged;
    OpeningIsFresh();
    hs := SoldOneIs();
    var s1 := SoldOne();
    HeardIs(s1);
    FilledByIs(s1.links[1].events, SELL_ONE, 7, 100);
    var s2 := Heard(s1);
    LeadsOn(OPENING, hs, s1, [Deliver(1, 0)], s2);
    BuysMore(s2);
    var s3 := Placed(s2, BUY_MORE);
    LeadsOn(OPENING, hs + [Deliver(1, 0)], s2, Placing(BUY_MORE), s3);
    SellsMore(s3);
    s := Placed(s3, SELL_MORE);
    LeadsOn(OPENING, hs + [Deliver(1, 0)] + Placing(BUY_MORE), s3, Placing(SELL_MORE), s);
    hs := hs + [Deliver(1, 0)] + Placing(BUY_MORE) + Placing(SELL_MORE);
  }
}
