/** Buy orders that are replaced, any number of times: what the engine charges in all is within the reservations
    for the original order and for the replaces that the engine accepted. */
module ReplacedOrders {
  import opened Common
  import opened Finite
  import opened PriceTimeBook
  import opened Matching
  import opened EngineSpec
  import opened EngineRuns
  import opened TimePriority
  import opened IndexExact
  import opened ReservationCovers
  import GatewayLedger
  import P = PositionLimits
  import Snapshots

  // ----- one order under the id, on the bid side, and the index leads to it -----

  predicate SoleIn(l: seq<Resting>, id: OrderId) {
    P.Led(l, id) == Count(l, id) <= 1
  }

  predicate SoleBid(b: Book, id: OrderId) {
    SoleIn(b.bids, id) && Count(b.asks, id) == 0
  }

  lemma {:induction false} LedWithinCount(l: seq<Resting>, id: OrderId)
    ensures P.Led(l, id) <= Count(l, id)
  {
    if l != [] {
      LedWithinCount(l[1..], id);
    }
  }

  lemma EditKeepsSole(l: seq<Resting>, ed: Edit, id: OrderId)
    requires SoleIn(l, id) && (ed.id == id ==> Count(l, id) == 0)
    ensures SoleIn(Apply(ed, l), id) && Count(Apply(ed, l), id) <= Count(l, id)
  {
    hide Count, P.Led, Apply;
    P.EditLeds(l, ed, id);
    LedWithinCount(Apply(ed, l), id);
    match ed {
      case Unindex(gone) => UnindexCount(l, gone, id);
      case Remove(gone) => RemoveCount(l, gone, id);
    }
  }

  lemma FirstKeepsSole(r: Resting, r': Resting, t: seq<Resting>, id: OrderId)
    requires SoleIn([r] + t, id) && r'.indexed == r.indexed && r'.order.orderId == r.order.orderId
    ensures SoleIn(t, id) && (r.order.orderId == id ==> Count(t, id) == 0)
    ensures SoleIn([r'] + t, id) && Count([r'] + t, id) == Count([r] + t, id)
    ensures Count([r] + t, id) == Count(t, id) + if r.order.orderId == id then 1 else 0
  {
    assert ([r] + t)[1..] == t && ([r'] + t)[1..] == t;
    LedWithinCount(t, id);
  }

  lemma BookEditKeepsSole(b: Book, ed: Edit, id: OrderId)
    requires SoleBid(b, id) && (ed.id == id ==> CountIn(b, id) == 0)
    ensures SoleBid(b.Edited(ed), id) && CountIn(b.Edited(ed), id) <= CountIn(b, id)
  {
    hide Count, P.Led, Apply;
    LedWithinCount(b.asks, id);
    EditKeepsSole(b.bids, ed, id);
    EditKeepsSole(b.asks, ed, id);
  }

  lemma {:induction false} MatchKeepsSole(b: Book, taker: OrderId, side: Side, limit: Price, qty: Qty, id: OrderId)
    requires SoleBid(b, id)
    ensures SoleBid(Match(b, taker, side, limit, qty).1, id)
    ensures CountIn(Match(b, taker, side, limit, qty).1, id) <= CountIn(b, id)
    decreases |b.On(side.Opposite())|
  {
    hide Count, P.Led, Apply;
    var s := side.Opposite();
    var l := b.On(s);
    if qty > 0 && WouldCross(b, side, limit) {
      var o := l[0].order;
      var r' := l[0].(order := o.(qtyRem := o.qtyRem - qty));
      assert l == [l[0]] + l[1..];
      LedWithinCount(l, id);
      FirstKeepsSole(l[0], r', l[1..], id);
      if qty >= o.qtyRem {
        var rest := b.With(s, l[1..]);
        BookEditKeepsSole(rest, Unindex(o.orderId), id);
        MatchWholeMaker(b, taker, side, limit, qty);
        UnindexIs(o.orderId, l[1..]);
        MatchKeepsSole(rest.Edited(Unindex(o.orderId)), taker, side, limit, qty - o.qtyRem, id);
      } else {
        MatchPartOfMaker(b, taker, side, limit, qty);
      }
    }
  }

  lemma LedOfOne(r: Resting, id: OrderId)
    ensures P.Led([r], id) == if r.indexed && r.order.orderId == id then 1 else 0
  {
    SumByOne(r, P.OneLed(id));
  }

  lemma InsertKeepsSole(b: Book, o: Order, id: OrderId)
    requires SoleBid(b, id) && (o.orderId == id ==> o.side.Buy? && CountIn(b, id) == 0)
    ensures SoleBid(Insert(b, o), id)
  {
    hide Count, P.Led, Apply, Enqueue;
    var b1, r := b.Edited(Unindex(o.orderId)), Resting(o, true);
    BookEditKeepsSole(b, Unindex(o.orderId), id);
    EnqueueCount(o.side, b1.On(o.side), r, id);
    P.EnqueueLeds(o.side, b1.On(o.side), r, id);
    LedOfOne(r, id);
  }

  lemma NewKeepsSole(st: EngineState, no: NewOrder, id: OrderId)
    requires BookOk(st.book) && SoleBid(st.book, id)
    requires no.orderId == id ==> no.side.Buy? && CountIn(st.book, id) == 0
    ensures SoleBid(NewStep(st, no).state.book, id)
  {
    hide BookOk, SoleIn, Refusal, Insert, CountIn;
    if Refusal(st, no).None? {
      MatchKeepsSole(st.book, no.orderId, no.side, no.price, no.qty, id);
      InsertKeepsSole(MatchStep(st, no).state.book, OrderFrom(no, Remainder(st.book, no)), id);
    }
  }

  // ----- what the commands may charge -----

  function Cancelled(st: EngineState, r: Replace): EngineState {
    st.(book := CancelIn(st.book, r.orderId, r.accountId))
  }

  /** The engine takes the replace up and does not turn the replacing order away. */
  predicate Accepts(st: EngineState, r: Replace)
    requires BookOk(st.book)
  {
    && r.symbolId == st.symbolId
    && r.newQty > 0
    && Cancellable(st.book, r.orderId, r.accountId)
    && Refusal(Cancelled(st, r), Replacement(Lookup(st.book, r.orderId).value, r)).None?
  }

  /** The notional that a command adds to what the order may be charged. */
  function Adds(st: EngineState, cmd: Command, id: OrderId): int
    requires BookOk(st.book)
  {
    if cmd.ReplaceOrder? && cmd.replace.orderId == id && Accepts(st, cmd.replace)
    then GatewayLedger.ReplaceToken(cmd.replace).amount else 0
  }

  /** The same over a run: the notionals of the replaces that were accepted where they arrived. */
  function Added(st: EngineState, cmds: seq<Command>, id: OrderId): int
    requires BookOk(st.book)
    decreases |cmds|
  {
    if cmds == [] then 0 else Adds(st, cmds[0], id) + Added(Step(st, cmds[0]).state, cmds[1..], id)
  }

  /** No command brings in a new order under the id, and no replace of it asks for a negative price. */
  predicate OnlyReplaced(cmds: seq<Command>, id: OrderId) {
    forall i :: 0 <= i < |cmds| ==>
      && (cmds[i].New? ==> cmds[i].no.orderId != id)
      && (cmds[i].ReplaceOrder? && cmds[i].replace.orderId == id ==> cmds[i].replace.newPrice >= 0)
  }

  /** All orders under the id rest at this price, one at most, as a bid. */
  predicate RestsSole(b: Book, id: OrderId, price: Price) {
    SoleBid(b, id) && RestsAt(b, id, price) && price >= 0
  }

  /** Charged by these events, and the value of what rests afterwards, are within a budget. */
  predicate WithinBudget(evs: seq<Event>, b: Book, id: OrderId, price: Price, budget: int) {
    Charge(evs, id) + price * LiveQty(b, id) <= budget && RestsSole(b, id, price)
  }

  lemma CostsMore(price: Price, less: Qty, more: Qty)
    requires price >= 0 && less <= more
    ensures price * less <= price * more
  {
    assert price * (more - less) >= 0;
  }

  lemma SpendsWithin(price: Price, charge: int, filled: Qty, live: Qty, qty: Qty)
    requires price >= 0 && charge <= price * filled && filled + live <= qty
    ensures charge + price * live <= price * qty
  {
    Distribute(price, filled, live);
    CostsMore(price, filled + live, qty);
  }

  lemma WithinOrderIsWithinBudget(evs: seq<Event>, b: Book, id: OrderId, price: Price, qty: Qty)
    requires WithinOrder(evs, b, id, price, qty) && price >= 0 && SoleBid(b, id)
    ensures WithinBudget(evs, b, id, price, price * qty)
  {
    hide SoleBid, RestsAt, FillsWithin, FilledQty, LiveQty, Charge;
    SpendsWithin(price, Charge(evs, id), FilledQty(evs, id), LiveQty(b, id), qty);
  }

  lemma {:induction false} SoleRemoved(l: seq<Resting>, id: OrderId)
    requires SoleIn(l, id)
    ensures Count(Apply(Remove(id), l), id) == 0 && SoleIn(Apply(Remove(id), l), id)
  {
    P.EditLeds(l, Remove(id), id);
    if l != [] {
      LedWithinCount(l[1..], id);
      SoleRemoved(l[1..], id);
      SumByConcat(ApplyOne(Remove(id), l[0]), Apply(Remove(id), l[1..]), OneUnder(id));
      assert [l[0]][1..] == [];
    }
  }

  /** The index leads to the only order under the id, so a cancel leaves none. */
  lemma SoleCancelled(b: Book, id: OrderId, a: AccountId)
    requires SoleBid(b, id)
    ensures SoleBid(CancelIn(b, id, a), id)
    ensures Cancellable(b, id, a) ==> CountIn(CancelIn(b, id, a), id) == 0
  {
    hide Lookup;
    SoleRemoved(b.bids, id);
    LedWithinCount(b.asks, id);
    SoleRemoved(b.asks, id);
  }

  lemma CancelKeepsSole(b: Book, gone: OrderId, a: AccountId, id: OrderId)
    requires SoleBid(b, id)
    ensures SoleBid(CancelIn(b, gone, a), id)
  {
    hide Apply;
    if gone == id {
      SoleCancelled(b, id, a);
    } else {
      BookEditKeepsSole(b, Remove(gone), id);
    }
  }

  lemma OtherKeepsSole(st: EngineState, cmd: Command, id: OrderId)
    requires BookOk(st.book) && SoleBid(st.book, id) && EntersNone(cmd, {id})
    ensures SoleBid(Step(st, cmd).state.book, id)
  {
    hide BookOk, SoleBid, NewStep, Lookup, CountIn, Apply;
    match cmd {
      case New(no) => NewKeepsSole(st, no, id);
      case CancelOrder(c) => CancelKeepsSole(st.book, c.orderId, c.accountId, id);
      case ReplaceOrder(r) =>
        CancelKeepsSole(st.book, r.orderId, r.accountId, id);
        CancelKeepsOk(st.book, r.orderId, r.accountId);
        if Cancellable(st.book, r.orderId, r.accountId) {
          NewKeepsSole(Cancelled(st, r), Replacement(Lookup(st.book, r.orderId).value, r), id);
        }
      case _ =>
    }
  }

  /** A command that does not replace the order. */
  lemma OtherWithinBudget(st: EngineState, cmd: Command, id: OrderId, price: Price)
    requires BookOk(st.book) && RestsSole(st.book, id, price) && EntersNone(cmd, {id})
    ensures WithinBudget(Step(st, cmd).events, Step(st, cmd).state.book, id, price, price * LiveQty(st.book, id))
  {
    hide BookOk, SoleBid, Step, WithinBudget, LiveQty, RestsAt;
    StepAnother(st, cmd, id, price);
    OtherKeepsSole(st, cmd, id);
    WithinOrderIsWithinBudget(Step(st, cmd).events, Step(st, cmd).state.book, id, price, LiveQty(st.book, id));
  }

  lemma FreshHoldsNothing(b: Book, id: OrderId, price: Price)
    requires Fresh(b, id)
    ensures LiveQty(b, id) == 0 && RestsAt(b, id, price)
  {
    AbsentFromSide(b.bids, id);
    AbsentFromSide(b.asks, id);
  }

  /** What is found under the id is a bid. */
  lemma FoundIsBuy(b: Book, id: OrderId)
    requires BookOk(b) && SoleBid(b, id) && Lookup(b, id).Some?
    ensures Lookup(b, id).value.side.Buy?
  {
    hide Lookup;
    Snapshots.LookupInBook(b, id);
    AbsentFromSide(b.asks, id);
    BookOrdersOk(b, Buy);
  }

  /** A replace that is turned away after the old order was cancelled, or at once. */
  lemma RefusedReplaceWithinBudget(st: EngineState, r: Replace, price: Price)
    requires BookOk(st.book) && RestsSole(st.book, r.orderId, price) && !Accepts(st, r)
    ensures var out := ReplaceStep(st, r);
            WithinBudget(out.events, out.state.book, r.orderId, price, price * LiveQty(st.book, r.orderId))
  {
    hide SoleBid, Lookup, LiveQty, CountIn, RestsAt, BookOk, Refusal, CancelIn;
    NoFills(ReplaceStep(st, r).events, r.orderId);
    if r.symbolId == st.symbolId && r.newQty > 0 && Cancellable(st.book, r.orderId, r.accountId) {
      SoleCancelled(st.book, r.orderId, r.accountId);
      FreshHoldsNothing(CancelIn(st.book, r.orderId, r.accountId), r.orderId, price);
      LiveNonNeg(st.book, r.orderId);
    }
  }

  /** A replace that is accepted starts the order afresh. */
  lemma AcceptedReplaceWithinBudget(st: EngineState, r: Replace)
    requires BookOk(st.book) && SoleBid(st.book, r.orderId) && Accepts(st, r) && r.newPrice >= 0
    ensures var out := ReplaceStep(st, r);
            WithinBudget(out.events, out.state.book, r.orderId, r.newPrice, r.newPrice * r.newQty)
  {
    hide SoleBid, Lookup, LiveQty, CountIn, RestsAt, BookOk, Refusal, CancelIn, NewStep, WithinBudget;
    var no := Replacement(Lookup(st.book, r.orderId).value, r);
    SoleCancelled(st.book, r.orderId, r.accountId);
    FoundIsBuy(st.book, r.orderId);
    CancelKeepsOk(st.book, r.orderId, r.accountId);
    NewOwn(Cancelled(st, r), no);
    NewKeepsSole(Cancelled(st, r), no, r.orderId);
    var out := NewStep(Cancelled(st, r), no);
    WithinOrderIsWithinBudget(out.events, out.state.book, r.orderId, r.newPrice, r.newQty);
  }

  /** One command: what it charges, and the value of what rests then, at whatever price, are within the value of
      what rested and the replace's notional, if it is accepted. */
  lemma StepWithinBudget(st: EngineState, cmd: Command, id: OrderId, price: Price) returns (price': Price)
    requires BookOk(st.book) && RestsSole(st.book, id, price) && OnlyReplaced([cmd], id)
    ensures WithinBudget(Step(st, cmd).events, Step(st, cmd).state.book, id, price',
                         price * LiveQty(st.book, id) + Adds(st, cmd, id))
  {
    hide BookOk, SoleBid, LiveQty, RestsAt, Accepts, ReplaceStep, NewStep, CancelStep;
    assert [cmd][0] == cmd;
    price' := price;
    if cmd.ReplaceOrder? && cmd.replace.orderId == id {
      if Accepts(st, cmd.replace) {
        price' := cmd.replace.newPrice;
        AcceptedReplaceWithinBudget(st, cmd.replace);
        LiveNonNeg(st.book, id);
      } else {
        RefusedReplaceWithinBudget(st, cmd.replace, price);
      }
    } else {
      OtherWithinBudget(st, cmd, id, price);
    }
  }

  lemma PriceOfSole(b: Book, id: OrderId, price: Price)
    requires RestsSole(b, id, price)
    ensures price >= 0
  {
  }

  lemma {:induction false} RunWithinBudget(st: EngineState, cmds: seq<Command>, id: OrderId, price: Price)
    requires BookOk(st.book) && RestsSole(st.book, id, price) && OnlyReplaced(cmds, id)
    ensures Charge(Run(st, cmds).events, id) <= price * LiveQty(st.book, id) + Added(st, cmds, id)
    decreases |cmds|
  {
    hide BookOk, RestsSole, LiveQty, Step, Adds;
    if cmds == [] {
      LiveNonNeg(st.book, id);
      PriceOfSole(st.book, id, price);
      assert 0 <= price * LiveQty(st.book, id);
    } else {
      var first := Step(st, cmds[0]);
      var price' := StepWithinBudget(st, cmds[0], id, price);
      RunWithinBudget(first.state, cmds[1..], id, price');
      EventsConcat(first.events, Run(first.state, cmds[1..]).events, id);
    }
  }

  lemma FreshIsSole(b: Book, id: OrderId)
    requires Fresh(b, id)
    ensures SoleBid(b, id) && CountIn(b, id) == 0
  {
    LedWithinCount(b.bids, id);
  }

  /** However often a fresh buy order is replaced, and whatever others do, the engine charges it in all at most its
      own notional and those of the replaces that the engine accepts. */
  lemma ReplacementsAreCovered(st: EngineState, no: NewOrder, cmds: seq<Command>)
    requires BookOk(st.book) && Fresh(st.book, no.orderId) && no.side.Buy? && no.price >= 0
    requires OnlyReplaced(cmds, no.orderId)
    ensures var r := Run(st, [New(no)] + cmds);
            Charge(r.events, no.orderId)
            <= (if no.qty > 0 then GatewayLedger.OrderToken(no).amount else 0)
             + Added(Step(st, New(no)).state, cmds, no.orderId)
  {
    hide BookOk, Fresh, LiveQty, NewStep, WithinOrder, Added;
    var id, first := no.orderId, Step(st, New(no));
    var qty := if no.qty > 0 then no.qty else 0;
    assert ([New(no)] + cmds)[1..] == cmds;
    NewOwn(st, no);
    FreshIsSole(st.book, id);
    NewKeepsSole(st, no, id);
    WithinOrderIsWithinBudget(first.events, first.state.book, id, no.price, qty);
    RunWithinBudget(first.state, cmds, id, no.price);
    EventsConcat(first.events, Run(first.state, cmds).events, id);
  }
}
