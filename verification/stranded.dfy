/** When a reservation outlives its order: the gateway keeps a pending entry, and nothing is left that could
    ever settle it. */
module StrandedReservations {
  import opened Common
  import opened PriceTimeBook
  import opened Matching
  import opened EngineSpec
  import opened EndToEnd
  import Snapshots
  import G = GatewayProtocol
  import L = GatewayLedger

  /** The gateway would look up this order when it handles the event. */
  predicate Names(ev: Event, id: OrderId) {
    match ev
    case Ack(_, _, acked) => acked == id
    case Reject(_, _, rejected, _) => rejected == Some(id)
    case Filled(fill) => fill.makerOrderId == id || fill.takerOrderId == id
    case _ => false
  }

  predicate Named(evs: seq<Event>, id: OrderId) {
    exists ev :: ev in evs && Names(ev, id)
  }

  /** The order is on its way to the engine. */
  predicate Carried(commands: seq<Command>, id: OrderId) {
    exists cmd :: cmd in commands && cmd.New? && cmd.no.orderId == id
  }

  predicate KeptBy(link: Link, id: OrderId) {
    Carried(link.commands, id) || !NotResting(id, link.engine.book) || Named(link.events, id)
  }

  /** The order is on its way to an engine, rests there, or is named by an event on its way back. */
  predicate UnderWay(s: System, id: OrderId) {
    exists y :: y in s.links && KeptBy(s.links[y], id)
  }

  /** Every pending entry belongs to an order under way. */
  predicate AllSupported(s: System) {
    forall id :: id in s.gateway.pending ==> UnderWay(s, id)
  }

  predicate IsActive(g: G.Gateway, id: OrderId) {
    id in g.pending && g.pending[id].operation.Active?
  }

  /** An acknowledgement meets an active entry, which it leaves alone, and was the last trace of the order; or an
      order that cannot be routed leaves its entry and no trace. */
  predicate Strands(s: System, h: Happening)
    requires Possible(s, h)
  {
    match h
    case Deliver(y, at) =>
      var ev := s.links[y].events[at];
      ev.Ack? && IsActive(s.gateway, ev.orderId) && !UnderWay(Delivered(s, y, at), ev.orderId)
    case SendFails(flight, _) => !UnderWay(s, s.orders[s.gateway.inFlight[flight].orderId].orderId)
    case _ => false
  }

  // ----- the engine never drops an order silently -----

  predicate Made(fs: seq<MatchFill>, id: OrderId) {
    exists f :: f in fs && f.makerOrderId == id
  }

  /** A resting order stays, or a fill names it. */
  lemma {:induction false} GreedyKeepsOrFills(s: Side, os: seq<Order>, taker: OrderId, limit: Price, qty: Qty,
          id: OrderId)
    requires !NotAmong(id, os)
    ensures var (fs, rest) := Greedy(s, os, taker, limit, qty); !NotAmong(id, rest) || Made(fs, id)
  {
    if qty > 0 && os != [] && Reaches(s, limit, os[0].price) {
      var f := MatchFill(os[0].orderId, os[0].accountId, taker, os[0].price, Min(qty, os[0].qtyRem));
      if qty < os[0].qtyRem {
        var cut := os[0].(qtyRem := os[0].qtyRem - qty);
        assert cut in [cut] + os[1..];
        assert forall o :: o in os ==> o == os[0] || o in [cut] + os[1..];
      } else {
        var (fs, rest) := Greedy(s, os[1..], taker, limit, qty - os[0].qtyRem);
        if os[0].orderId == id {
          assert f in [f] + fs;
        } else {
          GreedyKeepsOrFills(s, os[1..], taker, limit, qty - os[0].qtyRem, id);
          assert forall g :: g in fs ==> g in [f] + fs;
        }
      }
    }
  }

  lemma FillNames(serverSeq: nat, symbolId: SymbolId, no: NewOrder, fs: seq<MatchFill>, id: OrderId)
    requires Made(fs, id)
    ensures Named(FillEvents(serverSeq, symbolId, no, fs), id)
  {
    var f :| f in fs && f.makerOrderId == id;
    var i :| 0 <= i < |fs| && fs[i] == f;
    assert FillEvents(serverSeq, symbolId, no, fs)[i] in FillEvents(serverSeq, symbolId, no, fs);
  }

  lemma NamedConcat(x: seq<Event>, y: seq<Event>, id: OrderId)
    ensures Named(x + y, id) <==> Named(x, id) || Named(y, id)
  {
  }

  lemma MatchKeepsOrNames(st: EngineState, no: NewOrder, id: OrderId)
    requires BookOk(st.book) && !NotResting(id, st.book)
    ensures !NotResting(id, MatchStep(st, no).state.book) || Named(MatchStep(st, no).events, id)
  {
    hide NotAmong, Named, Made, BookOk;
    var s := no.side.Opposite();
    MatchIsGreedy(st.book, no.orderId, no.side, no.price, no.qty);
    if !NotAmong(id, Orders(st.book.On(s))) {
      GreedyKeepsOrFills(s, Orders(st.book.On(s)), no.orderId, no.price, no.qty, id);
      if Made(FillsFor(st.book, no), id) {
        FillNames(st.serverSeq, st.symbolId, no, FillsFor(st.book, no), id);
      }
    }
  }

  predicate NoneRests(id: OrderId, l: seq<Resting>) {
    forall r :: r in l ==> r.order.orderId != id
  }

  lemma NotAmongIffNoneRests(id: OrderId, l: seq<Resting>)
    ensures NotAmong(id, Orders(l)) <==> NoneRests(id, l)
  {
    if NotAmong(id, Orders(l)) {
      forall r | r in l ensures r.order.orderId != id {
        var i :| 0 <= i < |l| && l[i] == r;
        assert Orders(l)[i] in Orders(l);
      }
    }
    if NoneRests(id, l) {
      forall o | o in Orders(l) ensures o.orderId != id {
        var i :| 0 <= i < |l| && Orders(l)[i] == o;
        assert l[i] in l;
      }
    }
  }

  lemma {:induction false} EnqueueHas(s: Side, l: seq<Resting>, r: Resting)
    ensures forall x :: x in l ==> x in Enqueue(s, l, r)
  {
    if l != [] && Rank(s, l[0].order.price) <= Rank(s, r.order.price) {
      EnqueueHas(s, l[1..], r);
    }
  }

  lemma {:induction false} EnqueueKeeps(s: Side, l: seq<Resting>, r: Resting, id: OrderId)
    requires !NotAmong(id, Orders(l))
    ensures !NotAmong(id, Orders(Enqueue(s, l, r)))
  {
    NotAmongIffNoneRests(id, l);
    NotAmongIffNoneRests(id, Enqueue(s, l, r));
    EnqueueHas(s, l, r);
  }

  lemma InsertKeeps(b: Book, o: Order, id: OrderId)
    requires !NotResting(id, b)
    ensures !NotResting(id, Insert(b, o))
  {
    hide NotAmong, Apply, Enqueue;
    OrdersUnindex(o.orderId, b.bids);
    OrdersUnindex(o.orderId, b.asks);
    var l := b.Edited(Unindex(o.orderId)).On(o.side);
    if !NotAmong(id, Orders(l)) {
      EnqueueKeeps(o.side, l, Resting(o, true), id);
    }
  }

  /** Whatever a new order does, every order that rested still rests or is named, and the order itself is named. */
  lemma NewKeepsOrNames(st: EngineState, no: NewOrder, id: OrderId)
    requires BookOk(st.book)
    ensures Named(NewStep(st, no).events, no.orderId)
    ensures !NotResting(id, st.book) ==>
              !NotResting(id, NewStep(st, no).state.book) || Named(NewStep(st, no).events, id)
  {
    hide BookOk, NotResting, Refusal, Top, Insert, MatchStep;
    var evs := NewStep(st, no).events;
    assert evs[|evs| - 1] in evs;
    if Refusal(st, no).None? && !NotResting(id, st.book) {
      var matched := MatchStep(st, no);
      MatchKeepsOrNames(st, no, id);
      if !NotResting(id, matched.state.book) {
        InsertKeeps(matched.state.book, OrderFrom(no, Remainder(st.book, no)), id);
      }
    }
  }

  lemma {:induction false} RemoveHas(removed: OrderId, l: seq<Resting>, r: Resting)
    requires r in l && r.order.orderId != removed
    ensures r in Apply(Remove(removed), l)
  {
    if r != l[0] {
      RemoveHas(removed, l[1..], r);
    }
  }

  /** Removing one id leaves the orders of every other. */
  lemma {:induction false} RemoveKeepsOthers(removed: OrderId, l: seq<Resting>, id: OrderId)
    requires !NotAmong(id, Orders(l)) && id != removed
    ensures !NotAmong(id, Orders(Apply(Remove(removed), l)))
  {
    NotAmongIffNoneRests(id, l);
    NotAmongIffNoneRests(id, Apply(Remove(removed), l));
    var r :| r in l && r.order.orderId == id;
    RemoveHas(removed, l, r);
  }

  lemma CancelKeepsOthers(b: Book, cancelled: OrderId, a: AccountId, id: OrderId)
    requires !NotResting(id, b) && id != cancelled
    ensures !NotResting(id, CancelIn(b, cancelled, a))
  {
    hide NotAmong, Apply, Cancellable;
    if !NotAmong(id, Orders(b.bids)) {
      RemoveKeepsOthers(cancelled, b.bids, id);
    } else {
      RemoveKeepsOthers(cancelled, b.asks, id);
    }
  }

  lemma CancelKeepsOrNames(st: EngineState, c: Cancel, id: OrderId)
    requires BookOk(st.book) && !NotResting(id, st.book)
    ensures !NotResting(id, CancelStep(st, c).state.book) || Named(CancelStep(st, c).events, id)
  {
    hide BookOk, NotResting, Cancellable, CancelIn, Top;
    if c.symbolId == st.symbolId && Cancellable(st.book, c.orderId, c.accountId) {
      if id == c.orderId {
        var evs := CancelStep(st, c).events;
        assert evs[|evs| - 1] in evs;
      } else {
        CancelKeepsOthers(st.book, c.orderId, c.accountId, id);
      }
    }
  }

  lemma ReplaceKeepsOrNames(st: EngineState, r: Replace, id: OrderId)
    requires BookOk(st.book) && !NotResting(id, st.book)
    ensures !NotResting(id, ReplaceStep(st, r).state.book) || Named(ReplaceStep(st, r).events, id)
  {
    hide BookOk, NotResting, Lookup, CancelIn, NewStep, Named;
    if r.symbolId == st.symbolId && r.newQty > 0 && Cancellable(st.book, r.orderId, r.accountId) {
      CancelKeepsOk(st.book, r.orderId, r.accountId);
      var st1 := st.(book := CancelIn(st.book, r.orderId, r.accountId));
      NewKeepsOrNames(st1, Replacement(Lookup(st.book, r.orderId).value, r), id);
      if id != r.orderId {
        CancelKeepsOthers(st.book, r.orderId, r.accountId, id);
      }
    }
  }

  /** Whatever the engine does with a command, an order that rested still rests or an event names it, and a
      new order is named. */
  lemma StepKeepsOrNames(st: EngineState, cmd: Command, id: OrderId)
    requires BookOk(st.book)
    ensures !NotResting(id, st.book) || (cmd.New? && cmd.no.orderId == id) ==>
              !NotResting(id, Step(st, cmd).state.book) || Named(Step(st, cmd).events, id)
  {
    hide BookOk, NotResting, NewStep, CancelStep, ReplaceStep, Named;
    match cmd {
      case New(no) => NewKeepsOrNames(st, no, id);
      case CancelOrder(c) =>
        if !NotResting(id, st.book) {
          CancelKeepsOrNames(st, c, id);
        }
      case ReplaceOrder(r) =>
        if !NotResting(id, st.book) {
          ReplaceKeepsOrNames(st, r, id);
        }
      case _ =>
    }
  }

  // ----- one happening -----

  lemma WithoutKeeps<T>(xs: seq<T>, at: nat, x: T)
    requires at < |xs| && x in xs && x != xs[at]
    ensures x in G.Without(xs, at)
  {
    var i :| 0 <= i < |xs| && xs[i] == x;
    assert G.Without(xs, at)[if i < at then i else i - 1] == x;
  }

  lemma ExecutedKeeps(link: Link, at: nat, id: OrderId)
    requires BookOk(link.engine.book) && at < |link.commands| && KeptBy(link, id)
    ensures var out := Step(link.engine, link.commands[at]);
            KeptBy(Link(G.Without(link.commands, at), out.state, link.events + out.events), id)
  {
    hide BookOk, NotResting, Step, Named;
    var cmd := link.commands[at];
    StepKeepsOrNames(link.engine, cmd, id);
    NamedConcat(link.events, Step(link.engine, cmd).events, id);
    if Carried(link.commands, id) && !(cmd.New? && cmd.no.orderId == id) {
      var other :| other in link.commands && other.New? && other.no.orderId == id;
      WithoutKeeps(link.commands, at, other);
    }
  }

  lemma ExecutedKeepsUnderWay(s: System, y: SymbolId, at: nat, id: OrderId)
    requires BooksOk(s) && Possible(s, Execute(y, at)) && UnderWay(s, id)
    ensures UnderWay(Next(s, Execute(y, at)), id)
  {
    hide KeptBy, BookOk, Step;
    var s' := Next(s, Execute(y, at));
    var z :| z in s.links && KeptBy(s.links[z], id);
    if z == y {
      ExecutedKeeps(s.links[y], at, id);
    }
    assert z in s'.links && KeptBy(s'.links[z], id);
  }

  /** Commands may have joined; nothing was taken off a link. */
  predicate LinksGrow(s: System, s': System) {
    forall y :: y in s.links ==>
      && y in s'.links
      && s.links[y].commands <= s'.links[y].commands
      && s.links[y].engine == s'.links[y].engine
      && s.links[y].events == s'.links[y].events
  }

  lemma GrownKeepsUnderWay(s: System, s': System, id: OrderId)
    requires UnderWay(s, id) && LinksGrow(s, s')
    ensures UnderWay(s', id)
  {
    hide NotResting, Named;
    var y :| y in s.links && KeptBy(s.links[y], id);
    if cmd :| cmd in s.links[y].commands && cmd.New? && cmd.no.orderId == id {
      assert cmd in s'.links[y].commands;
    }
    assert KeptBy(s'.links[y], id);
  }

  lemma SentIsUnderWay(s: System, y: SymbolId, no: NewOrder)
    requires y in s.links
    ensures UnderWay(Routed(s, y, New(no)), no.orderId)
  {
    var s' := Routed(s, y, New(no));
    assert s'.links[y].commands[|s.links[y].commands|] in s'.links[y].commands;
    assert y in s'.links && KeptBy(s'.links[y], no.orderId);
  }

  /** Handing over an event that does not name the order. */
  lemma OtherEventKeepsUnderWay(s: System, y: SymbolId, at: nat, id: OrderId)
    requires Possible(s, Deliver(y, at)) && UnderWay(s, id) && !Names(s.links[y].events[at], id)
    ensures UnderWay(Delivered(s, y, at), id)
  {
    hide NotResting, Carried, Names, Handled;
    var s' := Delivered(s, y, at);
    var z :| z in s.links && KeptBy(s.links[z], id);
    if z == y {
      if ev :| ev in s.links[y].events && Names(ev, id) {
        WithoutKeeps(s.links[y].events, at, ev);
      }
    }
    assert z in s'.links && KeptBy(s'.links[z], id);
  }

  /** The event ends every entry it names, except that an acknowledgement leaves an active one. */
  lemma HandledEnds(g: G.Gateway, ev: Event, id: OrderId)
    ensures id in Handled(g, ev).pending ==> id in g.pending
    ensures Names(ev, id) ==> (id in Handled(g, ev).pending <==> ev.Ack? && IsActive(g, id))
  {
  }

  lemma DeliveredSupports(s: System, y: SymbolId, at: nat)
    requires BooksOk(s) && Possible(s, Deliver(y, at)) && AllSupported(s)
    ensures AllSupported(Delivered(s, y, at)) <==> !Strands(s, Deliver(y, at))
  {
    hide BooksOk, UnderWay, Handled, IsActive;
    var ev, s' := s.links[y].events[at], Delivered(s, y, at);
    if !Strands(s, Deliver(y, at)) {
      forall id | id in s'.gateway.pending ensures UnderWay(s', id) {
        HandledEnds(s.gateway, ev, id);
        if !Names(ev, id) {
          OtherEventKeepsUnderWay(s, y, at, id);
        }
      }
    } else {
      HandledEnds(s.gateway, ev, ev.orderId);
    }
  }

  lemma NothingTakenOff(s: System, h: Happening)
    requires BooksOk(s) && Possible(s, h) && !h.Execute? && !h.Deliver?
    ensures LinksGrow(s, Next(s, h))
  {
    hide BooksOk, G.Apply, L.Notional, L.OrderViolation, Accepted, Step;
  }

  lemma TrackedSupports(s: System, flight: nat, conn: G.ConnId)
    requires BooksOk(s) && Possible(s, Send(flight, conn)) && AllSupported(s)
    ensures AllSupported(Next(s, Send(flight, conn)))
  {
    hide BooksOk, UnderWay, LinksGrow;
    var s' := Next(s, Send(flight, conn));
    var no := s.orders[s.gateway.inFlight[flight].orderId];
    NothingTakenOff(s, Send(flight, conn));
    forall id | id in s'.gateway.pending ensures UnderWay(s', id) {
      if id == no.orderId {
        SentIsUnderWay(Tracked(s, flight, conn), no.symbolId, no);
      } else {
        GrownKeepsUnderWay(s, s', id);
      }
    }
  }

  lemma UnsentSupports(s: System, flight: nat, conn: G.ConnId)
    requires BooksOk(s) && Possible(s, SendFails(flight, conn)) && AllSupported(s)
    ensures AllSupported(Next(s, SendFails(flight, conn))) <==> !Strands(s, SendFails(flight, conn))
  {
    hide BooksOk, KeptBy;
    var s' := Next(s, SendFails(flight, conn));
    assert s'.gateway.pending.Keys
        == s.gateway.pending.Keys + {s.orders[s.gateway.inFlight[flight].orderId].orderId};
  }

  lemma ExecutedSupports(s: System, y: SymbolId, at: nat)
    requires BooksOk(s) && Possible(s, Execute(y, at)) && AllSupported(s)
    ensures AllSupported(Next(s, Execute(y, at)))
  {
    hide UnderWay, Step, BookOk;
    var s' := Next(s, Execute(y, at));
    forall id | id in s'.gateway.pending ensures UnderWay(s', id) {
      ExecutedKeepsUnderWay(s, y, at, id);
    }
  }

  lemma OthersEnterNothing(g: G.Gateway, sec: G.Section)
    requires G.Enabled(g, sec) && !sec.TrackNew?
    ensures G.Apply(g, sec).pending.Keys <= g.pending.Keys
  {
  }

  lemma GrownSupports(s: System, h: Happening)
    requires BooksOk(s) && Possible(s, h) && AllSupported(s)
    requires !h.Send? && !h.SendFails? && !h.Execute? && !h.Deliver?
    ensures AllSupported(Next(s, h))
  {
    hide BooksOk, UnderWay, G.Apply, LinksGrow;
    var s' := Next(s, h);
    NothingTakenOff(s, h);
    match h {
      case Submit(no) => OthersEnterNothing(s.gateway, G.ReserveNew(no));
      case MarkCancel(id) => OthersEnterNothing(s.gateway, G.MarkCancel(id));
      case CancelUnroutable(id) => OthersEnterNothing(s.gateway, G.RestoreActive(id));
      case SendReplace(conn, r) => OthersEnterNothing(s.gateway, G.OnReplace(conn, r));
      case ReplaceFails(conn, r) =>
        OthersEnterNothing(s.gateway, G.OnReplace(conn, r));
        OthersEnterNothing(Adjusted(s, conn, r).gateway, G.RouteFailed(conn, L.ReplaceToken(r), false));
      case _ =>
    }
    forall id | id in s'.gateway.pending ensures UnderWay(s', id) {
      assert id in s.gateway.pending;
      GrownKeepsUnderWay(s, s', id);
    }
  }

  /** A happening takes the last trace of a pending order away exactly when it strands it. */
  lemma SupportKeptIffNoneStranded(s: System, h: Happening)
    requires BooksOk(s) && Possible(s, h) && AllSupported(s)
    ensures AllSupported(Next(s, h)) <==> !Strands(s, h)
  {
    hide BooksOk, AllSupported, UnderWay, IsActive;
    match h {
      case Send(flight, conn) => TrackedSupports(s, flight, conn);
      case SendFails(flight, conn) => UnsentSupports(s, flight, conn);
      case Execute(y, at) => ExecutedSupports(s, y, at);
      case Deliver(y, at) => DeliveredSupports(s, y, at);
      case _ => GrownSupports(s, h);
    }
  }

  // ----- runs -----

  predicate AlwaysSupported(s: System, hs: seq<Happening>)
    requires BooksOk(s) && AllPossible(s, hs)
    decreases |hs|
  {
    AllSupported(s) && (hs == [] || AlwaysSupported(Next(s, hs[0]), hs[1..]))
  }

  predicate NoneStrands(s: System, hs: seq<Happening>)
    requires BooksOk(s) && AllPossible(s, hs)
    decreases |hs|
  {
    hs == [] || (!Strands(s, hs[0]) && NoneStrands(Next(s, hs[0]), hs[1..]))
  }

  /** Over any possible run every reservation belongs to an order under way, up to the first happening
      that strands one. */
  lemma {:induction false} SupportedIffNoneStrands(s: System, hs: seq<Happening>)
    requires BooksOk(s) && AllPossible(s, hs) && AllSupported(s)
    ensures AlwaysSupported(s, hs) <==> NoneStrands(s, hs)
    decreases |hs|
  {
    hide BooksOk, AllSupported, Next, Strands, Possible;
    if hs != [] {
      SupportKeptIffNoneStranded(s, hs[0]);
      if !Strands(s, hs[0]) {
        SupportedIffNoneStrands(Next(s, hs[0]), hs[1..]);
      }
    }
  }

  /** Nothing is on the way in either direction. */
  predicate Idle(s: System) {
    forall y :: y in s.links ==> s.links[y].commands == [] && s.links[y].events == []
  }

  predicate Rests(s: System, id: OrderId) {
    exists y :: y in s.links && !NotResting(id, s.links[y].engine.book)
  }

  lemma IdleUnderWay(s: System, id: OrderId)
    requires Idle(s)
    ensures UnderWay(s, id) <==> Rests(s, id)
  {
    hide NotResting;
    if Rests(s, id) {
      var y :| y in s.links && !NotResting(id, s.links[y].engine.book);
      assert KeptBy(s.links[y], id);
    }
  }

  /** When nothing is on the way, every order has support exactly when every reservation belongs to an order at
      rest. */
  lemma IdleSupportedIffRests(s: System)
    requires Idle(s)
    ensures AllSupported(s) <==> forall id :: id in s.gateway.pending ==> Rests(s, id)
  {
    hide Idle, UnderWay, Rests;
    forall id ensures UnderWay(s, id) <==> Rests(s, id) {
      IdleUnderWay(s, id);
    }
  }

  lemma {:induction false} SupportedAfter(s: System, hs: seq<Happening>)
    requires BooksOk(s) && AllPossible(s, hs) && AlwaysSupported(s, hs)
    ensures AllSupported(After(s, hs))
    decreases |hs|
  {
    hide BooksOk, AllSupported, Next, Possible;
    if hs != [] {
      SupportedAfter(Next(s, hs[0]), hs[1..]);
    }
  }

  /** A run that strands nothing and leaves nothing on the way leaves reservations of resting orders only. */
  lemma IdlePendingRests(s: System, hs: seq<Happening>)
    requires BooksOk(s) && AllPossible(s, hs) && AllSupported(s) && NoneStrands(s, hs) && Idle(After(s, hs))
    ensures var s' := After(s, hs); forall id :: id in s'.gateway.pending ==> Rests(s', id)
  {
    hide BooksOk, AllSupported, AllPossible, NoneStrands, AlwaysSupported, Idle, Rests;
    SupportedIffNoneStrands(s, hs);
    SupportedAfter(s, hs);
    IdleSupportedIffRests(After(s, hs));
  }

  // ----- the way out -----

  /** A cancel for an order that does not rest is rejected under its id. */
  lemma DeadCancelIsRejected(st: EngineState, c: Cancel)
    requires BookOk(st.book) && NotResting(c.orderId, st.book)
    ensures var out := CancelStep(st, c);
            |out.events| == 1 && out.events[0].Reject? && Names(out.events[0], c.orderId)
  {
    hide BookOk, Lookup;
    if Lookup(st.book, c.orderId).Some? {
      Snapshots.LookupInBook(st.book, c.orderId);
    }
  }

  lemma NothingMore(s: System)
    requires BooksOk(s)
    ensures AllPossible(s, []) && After(s, []) == s
  {
  }

  lemma HappensFirst(s: System, h: Happening, rest: seq<Happening>)
    requires BooksOk(s) && Possible(s, h) && AllPossible(Next(s, h), rest)
    ensures AllPossible(s, [h] + rest) && After(s, [h] + rest) == After(Next(s, h), rest)
  {
    hide BooksOk, Possible, Next;
    assert ([h] + rest)[0] == h && ([h] + rest)[1..] == rest;
  }

  lemma ThreeHappen(s: System, x: Happening, y: Happening, z: Happening)
    requires BooksOk(s) && Possible(s, x) && Possible(Next(s, x), y) && Possible(Next(Next(s, x), y), z)
    ensures AllPossible(s, [x, y, z]) && After(s, [x, y, z]) == Next(Next(Next(s, x), y), z)
  {
    hide BooksOk, Possible, Next, AllPossible, After;
    var s1 := Next(s, x);
    var s2 := Next(s1, y);
    NothingMore(Next(s2, z));
    HappensFirst(s2, z, []);
    HappensFirst(s1, y, [z] + []);
    HappensFirst(s, x, [y] + ([z] + []));
    assert [x] + ([y] + ([z] + [])) == [x, y, z];
  }

  lemma BookAt(s: System, y: SymbolId)
    requires BooksOk(s) && y in s.links
    ensures BookOk(s.links[y].engine.book)
  {
  }

  lemma DeadCancelIsAnswered(s: System, c: Cancel)
    requires BooksOk(s) && c.symbolId in s.links
    ensures var y, link := c.symbolId, s.links[c.symbolId];
            var s1 := Next(s, RouteCancel(c));
            && Possible(s1, Execute(y, |link.commands|))
            && var out, s2 := CancelStep(link.engine, c), Next(s1, Execute(y, |link.commands|));
               && s2.gateway == s.gateway
               && y in s2.links
               && s2.links[y] == Link(link.commands, out.state, link.events + out.events)
  {
    hide CancelStep, BookOk;
    var link := s.links[c.symbolId];
    assert G.Without(link.commands + [CancelOrder(c)], |link.commands|) == link.commands;
  }

  /** A cancel of a stranded order, executed and answered, gives its reservation back. */
  lemma CancelFreesStranded(s: System, c: Cancel)
    requires BooksOk(s) && c.symbolId in s.links && NotResting(c.orderId, s.links[c.symbolId].engine.book)
    ensures var link := s.links[c.symbolId];
            var hs := [RouteCancel(c), Execute(c.symbolId, |link.commands|), Deliver(c.symbolId, |link.events|)];
            && AllPossible(s, hs)
            && After(s, hs).gateway == G.Settled(s.gateway, c.orderId)
            && c.symbolId in After(s, hs).links
            && After(s, hs).links[c.symbolId] == link.(engine := CancelStep(link.engine, c).state)
  {
    hide BooksOk, CancelStep, NotResting, G.Settled, Executed;
    var y := c.symbolId;
    BookAt(s, y);
    var link, out := s.links[y], CancelStep(s.links[y].engine, c);
    DeadCancelIsRejected(link.engine, c);
    DeadCancelIsAnswered(s, c);
    assert G.Without(link.events + out.events, |link.events|) == link.events;
    ThreeHappen(s, RouteCancel(c), Execute(y, |link.commands|), Deliver(y, |link.events|));
  }
}
