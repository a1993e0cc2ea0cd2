/** Gateway and engine together: what the engine charges a buy order never exceeds what the gateway
    reserved for it. */
module ReservationCovers {
  import opened Common
  import opened Finite
  import opened PriceTimeBook
  import opened Matching
  import opened EngineSpec
  import opened EngineRuns
  import opened TimePriority
  import opened IndexExact
  import EngineAccounts
  import GatewayLedger

  // ----- what the events charge an order -----

  function PartOf(f: Fill, id: OrderId): Qty {
    (if f.takerOrderId == id then f.qty else 0) + (if f.makerOrderId == id then f.qty else 0)
  }

  function QtyIn(id: OrderId): Event -> Qty {
    (ev: Event) => if ev.Filled? then PartOf(ev.fill, id) else 0
  }

  function ChargeIn(id: OrderId): Event -> int {
    (ev: Event) => if ev.Filled? then ev.fill.price * PartOf(ev.fill, id) else 0
  }

  /** Quantity the events fill for the order, as taker and as maker. */
  function FilledQty(evs: seq<Event>, id: OrderId): Qty {
    SumBy(evs, QtyIn(id))
  }

  /** Price times quantity over the same fills. */
  function Charge(evs: seq<Event>, id: OrderId): int {
    SumBy(evs, ChargeIn(id))
  }

  lemma EventsConcat(a: seq<Event>, b: seq<Event>, id: OrderId)
    ensures FilledQty(a + b, id) == FilledQty(a, id) + FilledQty(b, id)
    ensures Charge(a + b, id) == Charge(a, id) + Charge(b, id)
  {
    SumByConcat(a, b, QtyIn(id));
    SumByConcat(a, b, ChargeIn(id));
  }

  // ----- what rests of an order -----

  function QtyUnder(id: OrderId): Order -> Qty {
    (o: Order) => if o.orderId == id then o.qtyRem else 0
  }

  function QtyOf(os: seq<Order>, id: OrderId): Qty {
    SumBy(os, QtyUnder(id))
  }

  function LiveQty(b: Book, id: OrderId): Qty {
    QtyOf(Orders(b.bids), id) + QtyOf(Orders(b.asks), id)
  }

  /** All orders with this id rest at this price. */
  predicate AllAt(os: seq<Order>, id: OrderId, price: Price) {
    forall o :: o in os && o.orderId == id ==> o.price == price
  }

  predicate RestsAt(b: Book, id: OrderId, price: Price) {
    AllAt(Orders(b.bids), id, price) && AllAt(Orders(b.asks), id, price)
  }

  // ----- matching, seen from one order -----

  function MadeUnder(id: OrderId): MatchFill -> Qty {
    (f: MatchFill) => if f.makerOrderId == id then f.qty else 0
  }

  function PaidUnder(id: OrderId): MatchFill -> int {
    (f: MatchFill) => if f.makerOrderId == id then f.price * f.qty else 0
  }

  function Paid(f: MatchFill): int {
    f.price * f.qty
  }

  function MadeQty(fs: seq<MatchFill>, id: OrderId): Qty {
    SumBy(fs, MadeUnder(id))
  }

  function MadeCharge(fs: seq<MatchFill>, id: OrderId): int {
    SumBy(fs, PaidUnder(id))
  }

  function TakenCharge(fs: seq<MatchFill>): int {
    SumBy(fs, Paid)
  }

  lemma Distribute(p: int, x: int, y: int)
    ensures p * (x + y) == p * x + p * y
  {
  }

  /** As maker, an order trades at its own price and its resting quantity falls by what it traded. */
  lemma {:induction false} MakerPays(s: Side, os: seq<Order>, taker: OrderId, limit: Price, qty: Qty, id: OrderId,
          price: Price)
    requires AllAt(os, id, price)
    ensures var (fs, rest) := Greedy(s, os, taker, limit, qty);
            && QtyOf(rest, id) == QtyOf(os, id) - MadeQty(fs, id)
            && MadeCharge(fs, id) == price * MadeQty(fs, id)
            && (forall i :: 0 <= i < |fs| && fs[i].makerOrderId == id ==> fs[i].price == price)
            && AllAt(rest, id, price)
  {
    if qty > 0 && os != [] && Reaches(s, limit, os[0].price) {
      var t := Min(qty, os[0].qtyRem);
      var f := MatchFill(os[0].orderId, os[0].accountId, taker, os[0].price, t);
      if qty < os[0].qtyRem {
        assert os[0] in os;
        SumByOne(f, MadeUnder(id));
        SumByOne(f, PaidUnder(id));
        var cut := os[0].(qtyRem := os[0].qtyRem - t);
        SumByFirst(cut, os[1..], QtyUnder(id));
        assert forall o :: o in [cut] + os[1..] ==> o == cut || o in os;
      } else {
        MakerPays(s, os[1..], taker, limit, qty - t, id, price);
        var (fs, rest) := Greedy(s, os[1..], taker, limit, qty - t);
        SumByFirst(f, fs, MadeUnder(id));
        SumByFirst(f, fs, PaidUnder(id));
        assert os[0] in os;
        if os[0].orderId == id {
          Distribute(price, t, MadeQty(fs, id));
        }
      }
    }
  }

  /** As taker, a buyer pays at most its limit for every lot. */
  lemma {:induction false} TakerPaysAtMostLimit(os: seq<Order>, taker: OrderId, limit: Price, qty: Qty)
    requires forall i :: 0 <= i < |os| ==> os[i].qtyRem > 0
    ensures var fs := Greedy(Sell, os, taker, limit, qty).0;
            && TakenCharge(fs) <= limit * FillTotal(fs)
            && 0 <= FillTotal(fs)
            && forall i :: 0 <= i < |fs| ==> fs[i].price <= limit
  {
    if qty > 0 && os != [] && Reaches(Sell, limit, os[0].price) {
      var t := Min(qty, os[0].qtyRem);
      var f := MatchFill(os[0].orderId, os[0].accountId, taker, os[0].price, t);
      assert os[0].price * t <= limit * t;
      if qty < os[0].qtyRem {
        SumByOne(f, Paid);
        SumByOne(f, QtyFilled);
      } else {
        TakerPaysAtMostLimit(os[1..], taker, limit, qty - t);
        var fs := Greedy(Sell, os[1..], taker, limit, qty - t).0;
        SumByFirst(f, fs, Paid);
        SumByFirst(f, fs, QtyFilled);
        Distribute(limit, t, FillTotal(fs));
      }
    }
  }

  lemma {:induction false} NobodyMakes(fs: seq<MatchFill>, id: OrderId)
    requires forall i :: 0 <= i < |fs| ==> fs[i].makerOrderId != id
    ensures MadeQty(fs, id) == 0 && MadeCharge(fs, id) == 0
  {
    if fs != [] {
      NobodyMakes(fs[1..], id);
    }
  }

  /** The fill events of one order, read back as charges. */
  lemma {:induction false} FillCharges(serverSeq: nat, symbolId: SymbolId, no: NewOrder, fs: seq<MatchFill>,
          id: OrderId)
    requires forall i :: 0 <= i < |fs| ==> fs[i].takerOrderId == no.orderId
    ensures var evs := FillEvents(serverSeq, symbolId, no, fs);
            && FilledQty(evs, id) == (if no.orderId == id then FillTotal(fs) else 0) + MadeQty(fs, id)
            && Charge(evs, id) == (if no.orderId == id then TakenCharge(fs) else 0) + MadeCharge(fs, id)
    decreases |fs|
  {
    var evs := FillEvents(serverSeq, symbolId, no, fs);
    if fs != [] {
      assert evs[1..] == FillEvents(serverSeq + 1, symbolId, no, fs[1..]);
      FillCharges(serverSeq + 1, symbolId, no, fs[1..], id);
      Distribute(fs[0].price,
                 if no.orderId == id then fs[0].qty else 0,
                 if fs[0].makerOrderId == id then fs[0].qty else 0);
    }
  }

  lemma {:induction false} Parties(s: Side, os: seq<Order>, taker: OrderId, limit: Price, qty: Qty, id: OrderId)
    requires forall o :: o in os ==> o.qtyRem > 0
    ensures var fs := Greedy(s, os, taker, limit, qty).0;
            && (forall i :: 0 <= i < |fs| ==> fs[i].takerOrderId == taker)
            && ((forall o :: o in os ==> o.orderId != id) ==> forall i :: 0 <= i < |fs| ==> fs[i].makerOrderId != id)
            && MadeQty(fs, id) >= 0
  {
    if qty > 0 && os != [] && Reaches(s, limit, os[0].price) {
      Parties(s, os[1..], taker, limit, qty - os[0].qtyRem, id);
      var f := MatchFill(os[0].orderId, os[0].accountId, taker, os[0].price, Min(qty, os[0].qtyRem));
      var fs := Greedy(s, os[1..], taker, limit, qty - os[0].qtyRem).0;
      assert os[0] in os;
      assert [f][1..] == [] && ([f] + fs)[1..] == fs;
    }
  }

  lemma {:induction false} QtyNonNeg(os: seq<Order>, id: OrderId)
    requires forall i :: 0 <= i < |os| ==> os[i].qtyRem > 0
    ensures QtyOf(os, id) >= 0
  {
    if os != [] {
      QtyNonNeg(os[1..], id);
    }
  }

  lemma FirstQty(r: Resting, l: seq<Resting>, id: OrderId, price: Price)
    ensures QtyOf(Orders([r] + l), id) == (if r.order.orderId == id then r.order.qtyRem else 0) + QtyOf(Orders(l), id)
    ensures AllAt(Orders([r] + l), id, price)
            <==> (r.order.orderId == id ==> r.order.price == price) && AllAt(Orders(l), id, price)
  {
    assert Orders([r] + l) == [r.order] + Orders(l);
    assert ([r.order] + Orders(l))[1..] == Orders(l);
    assert ([r.order] + Orders(l))[0] == r.order;
  }

  lemma {:induction false} EnqueueQty(s: Side, l: seq<Resting>, r: Resting, id: OrderId, price: Price)
    requires AllAt(Orders(l), id, price) && (r.order.orderId == id ==> r.order.price == price)
    ensures QtyOf(Orders(Enqueue(s, l, r)), id)
            == QtyOf(Orders(l), id) + (if r.order.orderId == id then r.order.qtyRem else 0)
    ensures AllAt(Orders(Enqueue(s, l, r)), id, price)
  {
    hide AllAt;
    if l == [] || Rank(s, l[0].order.price) > Rank(s, r.order.price) {
      FirstQty(r, l, id, price);
      assert [r] + l == Enqueue(s, l, r);
    } else {
      assert l == [l[0]] + l[1..];
      FirstQty(l[0], l[1..], id, price);
      EnqueueQty(s, l[1..], r, id, price);
      FirstQty(l[0], Enqueue(s, l[1..], r), id, price);
    }
  }

  /** A new order adds its own quantity to its side and disturbs nobody else's. */
  lemma InsertQty(b: Book, o: Order, id: OrderId, price: Price)
    requires RestsAt(b, id, price) && (o.orderId == id ==> o.price == price)
    ensures LiveQty(Insert(b, o), id) == LiveQty(b, id) + (if o.orderId == id then o.qtyRem else 0)
    ensures RestsAt(Insert(b, o), id, price)
  {
    OrdersUnindex(o.orderId, b.bids);
    OrdersUnindex(o.orderId, b.asks);
    EnqueueQty(o.side, b.Edited(Unindex(o.orderId)).On(o.side), Resting(o, true), id, price);
  }

  lemma {:induction false} RemoveQty(l: seq<Resting>, gone: OrderId, id: OrderId, price: Price)
    requires forall i :: 0 <= i < |l| ==> l[i].order.qtyRem > 0
    requires AllAt(Orders(l), id, price)
    ensures QtyOf(Orders(Apply(Remove(gone), l)), id) <= QtyOf(Orders(l), id)
    ensures AllAt(Orders(Apply(Remove(gone), l)), id, price)
  {
    if l != [] {
      var t, t' := l[1..], Apply(Remove(gone), l[1..]);
      assert Orders(l) == [l[0].order] + Orders(t);
      assert Orders(l)[0] in Orders(l);
      RemoveQty(t, gone, id, price);
      SumByConcat([l[0].order], Orders(t), QtyUnder(id));
      var kept := ApplyOne(Remove(gone), l[0]);
      assert Orders(kept + t') == Orders(kept) + Orders(t');
      assert Orders(kept) == [] || Orders(kept) == [l[0].order];
      SumByConcat(Orders(kept), Orders(t'), QtyUnder(id));
      QtyNonNeg([l[0].order], id);
    }
  }

  lemma CancelQty(b: Book, gone: OrderId, a: AccountId, id: OrderId, price: Price)
    requires BookOk(b) && RestsAt(b, id, price)
    ensures LiveQty(CancelIn(b, gone, a), id) <= LiveQty(b, id) && RestsAt(CancelIn(b, gone, a), id, price)
  {
    assert ListOk(Buy, b.bids) && ListOk(Sell, b.asks);
    RemoveQty(b.bids, gone, id, price);
    RemoveQty(b.asks, gone, id, price);
  }

  // ----- one step, seen from one order -----

  /** Every fill trades something, and no fill of the order is beyond its price. */
  predicate FillsWithin(evs: seq<Event>, id: OrderId, price: Price) {
    forall i :: 0 <= i < |evs| && evs[i].Filled? ==>
      evs[i].fill.qty > 0 && (PartOf(evs[i].fill, id) != 0 ==> evs[i].fill.price <= price)
  }

  /** What is filled and still rests is within the quantity, and what was paid is within the price. */
  predicate WithinOrder(evs: seq<Event>, b: Book, id: OrderId, price: Price, qty: Qty) {
    && FillsWithin(evs, id, price)
    && Charge(evs, id) <= price * FilledQty(evs, id)
    && 0 <= FilledQty(evs, id)
    && FilledQty(evs, id) + LiveQty(b, id) <= qty
    && RestsAt(b, id, price)
  }

  lemma NoFills(evs: seq<Event>, id: OrderId)
    requires forall i :: 0 <= i < |evs| ==> !evs[i].Filled?
    ensures FilledQty(evs, id) == 0 && Charge(evs, id) == 0
  {
    if evs != [] {
      NoFills(evs[1..], id);
    }
  }

  /** Matching some other order: this one can only be a maker. */
  lemma MatchAnother(st: EngineState, no: NewOrder, id: OrderId, price: Price)
    requires BookOk(st.book) && RestsAt(st.book, id, price) && no.orderId != id
    ensures var m := MatchStep(st, no); WithinOrder(m.events, m.state.book, id, price, LiveQty(st.book, id))
  {
    var s := no.side.Opposite();
    var os := Orders(st.book.On(s));
    MatchIsGreedy(st.book, no.orderId, no.side, no.price, no.qty);
    BookOrdersOk(st.book, s);
    MakerPays(s, os, no.orderId, no.price, no.qty, id, price);
    Parties(s, os, no.orderId, no.price, no.qty, id);
    FillCharges(st.serverSeq, st.symbolId, no, FillsFor(st.book, no), id);
  }

  /** Placing some other order: this one is filled and rests within what rested before. */
  lemma PlaceAnother(st: EngineState, no: NewOrder, id: OrderId, price: Price)
    requires BookOk(st.book) && RestsAt(st.book, id, price) && no.orderId != id
    ensures var p := PlaceStep(st, no); WithinOrder(p.events, p.state.book, id, price, LiveQty(st.book, id))
  {
    MatchAnother(st, no, id, price);
    InsertQty(MatchStep(st, no).state.book, OrderFrom(no, Remainder(st.book, no)), id, price);
  }

  lemma AckAdds(st: EngineState, events: seq<Event>, clientSeq: nat, orderId: OrderId, id: OrderId)
    ensures FilledQty(Acknowledged(st, events, clientSeq, orderId).events, id) == FilledQty(events, id)
    ensures Charge(Acknowledged(st, events, clientSeq, orderId).events, id) == Charge(events, id)
  {
    var tail := [TopEvent(st.serverSeq, st.symbolId, Top(st.book.bids), Top(st.book.asks)),
                 Ack(st.serverSeq + 1, clientSeq, orderId)];
    NoFills(tail, id);
    EventsConcat(events, tail, id);
  }

  lemma NewAnother(st: EngineState, no: NewOrder, id: OrderId, price: Price)
    requires BookOk(st.book) && RestsAt(st.book, id, price) && no.orderId != id
    ensures var r := NewStep(st, no); WithinOrder(r.events, r.state.book, id, price, LiveQty(st.book, id))
  {
    if Refusal(st, no).Some? {
      NoFills(NewStep(st, no).events, id);
    } else {
      var p := PlaceStep(st, no);
      PlaceAnother(st, no, id, price);
      AckAdds(p.state, p.events, no.clientSeq, no.orderId, id);
    }
  }

  lemma StepAnother(st: EngineState, cmd: Command, id: OrderId, price: Price)
    requires BookOk(st.book) && RestsAt(st.book, id, price) && EntersNone(cmd, {id})
    ensures var r := Step(st, cmd); WithinOrder(r.events, r.state.book, id, price, LiveQty(st.book, id))
  {
    match cmd {
      case New(no) => NewAnother(st, no, id, price);
      case CancelOrder(c) =>
        CancelQty(st.book, c.orderId, c.accountId, id, price);
        NoFills(Step(st, cmd).events, id);
      case ReplaceOrder(r) =>
        if r.symbolId == st.symbolId && r.newQty > 0 && Cancellable(st.book, r.orderId, r.accountId) {
          CancelKeepsOk(st.book, r.orderId, r.accountId);
          CancelQty(st.book, r.orderId, r.accountId, id, price);
          NewAnother(st.(book := CancelIn(st.book, r.orderId, r.accountId)),
                     Replacement(Lookup(st.book, r.orderId).value, r), id, price);
        } else {
          NoFills(Step(st, cmd).events, id);
        }
      case _ => NoFills(Step(st, cmd).events, id);
    }
  }

  lemma WithinChains(e1: seq<Event>, e2: seq<Event>, b1: Book, b2: Book, id: OrderId, price: Price, qty: Qty)
    requires WithinOrder(e1, b1, id, price, qty) && WithinOrder(e2, b2, id, price, LiveQty(b1, id))
    ensures WithinOrder(e1 + e2, b2, id, price, qty)
  {
    EventsConcat(e1, e2, id);
    Distribute(price, FilledQty(e1, id), FilledQty(e2, id));
  }

  lemma {:induction false} RunAnother(st: EngineState, cmds: seq<Command>, id: OrderId, price: Price)
    requires BookOk(st.book) && RestsAt(st.book, id, price)
    requires forall i :: 0 <= i < |cmds| ==> EntersNone(cmds[i], {id})
    ensures var r := Run(st, cmds); WithinOrder(r.events, r.state.book, id, price, LiveQty(st.book, id))
    decreases |cmds|
  {
    if cmds != [] {
      var first := Step(st, cmds[0]);
      StepAnother(st, cmds[0], id, price);
      RunAnother(first.state, cmds[1..], id, price);
      WithinChains(first.events, Run(first.state, cmds[1..]).events, first.state.book,
                   Run(first.state, cmds[1..]).state.book, id, price, LiveQty(st.book, id));
    }
  }

  // ----- the order's own entry -----

  lemma {:induction false} AbsentFromSide(l: seq<Resting>, id: OrderId)
    requires Count(l, id) == 0
    ensures forall o :: o in Orders(l) ==> o.orderId != id
    ensures QtyOf(Orders(l), id) == 0
  {
    if l != [] {
      AbsentFromSide(l[1..], id);
      assert Orders(l)[1..] == Orders(l[1..]);
      assert Orders(l) == [l[0].order] + Orders(l[1..]);
    }
  }

  /** No live order carries the id. */
  predicate Fresh(b: Book, id: OrderId) {
    CountIn(b, id) == 0
  }

  /** A fresh order that is matched is filled for all but its remainder and is not yet on the book. */
  lemma MatchOwnQty(st: EngineState, no: NewOrder)
    requires BookOk(st.book) && Fresh(st.book, no.orderId)
    ensures var m := MatchStep(st, no);
            && FilledQty(m.events, no.orderId) == no.qty - Remainder(st.book, no)
            && Charge(m.events, no.orderId) == TakenCharge(FillsFor(st.book, no))
            && LiveQty(m.state.book, no.orderId) == 0
            && RestsAt(m.state.book, no.orderId, no.price)
  {
    var id, s := no.orderId, no.side.Opposite();
    var os := Orders(st.book.On(s));
    MatchIsGreedy(st.book, id, no.side, no.price, no.qty);
    BookOrdersOk(st.book, s);
    AbsentFromSide(st.book.bids, id);
    AbsentFromSide(st.book.asks, id);
    Parties(s, os, id, no.price, no.qty, id);
    NobodyMakes(FillsFor(st.book, no), id);
    FillCharges(st.serverSeq, st.symbolId, no, FillsFor(st.book, no), id);
    MakerPays(s, os, id, no.price, no.qty, id, no.price);
  }

  /** A fresh buy order that is matched pays at most its limit for what it takes. */
  lemma MatchOwn(st: EngineState, no: NewOrder)
    requires BookOk(st.book) && Fresh(st.book, no.orderId) && no.side.Buy?
    ensures var m := MatchStep(st, no);
            && FillsWithin(m.events, no.orderId, no.price)
            && Charge(m.events, no.orderId) <= no.price * FilledQty(m.events, no.orderId)
            && 0 <= FilledQty(m.events, no.orderId)
  {
    hide BookOk, Fresh, Match, Greedy, Charge, FilledQty, LiveQty, RestsAt, TakenCharge, FillTotal;
    var os := Orders(st.book.asks);
    MatchOwnQty(st, no);
    MatchIsGreedy(st.book, no.orderId, Buy, no.price, no.qty);
    BookOrdersOk(st.book, Sell);
    TakerPaysAtMostLimit(os, no.orderId, no.price, no.qty);
  }

  lemma InsertLeavesOtherSide(b: Book, o: Order)
    ensures WouldCross(Insert(b, o), o.side, o.price) == WouldCross(b, o.side, o.price)
  {
    UnindexIs(o.orderId, b.On(o.side.Opposite()));
  }

  /** Of an accepted order under a fresh id, every lot is filled, rests, or is discarded because the order
      is immediate-or-cancel; and lots rest or are discarded only when nothing left would trade with them. */
  lemma OrderIsConserved(st: EngineState, no: NewOrder)
    requires BookOk(st.book) && Fresh(st.book, no.orderId) && Refusal(st, no).None?
    ensures var r := NewStep(st, no);
            var left := no.qty - FilledQty(r.events, no.orderId);
            && 0 <= left <= no.qty
            && LiveQty(r.state.book, no.orderId) == (if no.tif.Gtc? then left else 0)
            && (left > 0 ==> !WouldCross(r.state.book, no.side, no.price))
  {
    var p, b := PlaceStep(st, no), MatchStep(st, no).state.book;
    MatchOwnQty(st, no);
    MatchIsMaximal(st.book, no.orderId, no.side, no.price, no.qty);
    FillTotalNonNeg(FillsFor(st.book, no));
    var o := OrderFrom(no, Remainder(st.book, no));
    InsertQty(b, o, no.orderId, no.price);
    InsertLeavesOtherSide(b, o);
    AckAdds(p.state, p.events, no.clientSeq, no.orderId, no.orderId);
  }

  lemma PlaceOwn(st: EngineState, no: NewOrder)
    requires BookOk(st.book) && Fresh(st.book, no.orderId) && no.side.Buy? && no.qty > 0
    ensures var p := PlaceStep(st, no); WithinOrder(p.events, p.state.book, no.orderId, no.price, no.qty)
  {
    MatchOwn(st, no);
    MatchOwnQty(st, no);
    MatchIsMaximal(st.book, no.orderId, no.side, no.price, no.qty);
    InsertQty(MatchStep(st, no).state.book, OrderFrom(no, Remainder(st.book, no)), no.orderId, no.price);
  }

  lemma RefusedOwn(st: EngineState, no: NewOrder)
    requires BookOk(st.book) && Fresh(st.book, no.orderId) && Refusal(st, no).Some?
    ensures var r := NewStep(st, no);
            WithinOrder(r.events, r.state.book, no.orderId, no.price, if no.qty > 0 then no.qty else 0)
  {
    hide BookOk;
    AbsentFromSide(st.book.bids, no.orderId);
    AbsentFromSide(st.book.asks, no.orderId);
    NoFills(NewStep(st, no).events, no.orderId);
  }

  lemma NewOwn(st: EngineState, no: NewOrder)
    requires BookOk(st.book) && Fresh(st.book, no.orderId) && no.side.Buy?
    ensures var r := NewStep(st, no);
            WithinOrder(r.events, r.state.book, no.orderId, no.price, if no.qty > 0 then no.qty else 0)
  {
    hide BookOk, Fresh, PlaceStep, Charge, FilledQty, RestsAt, LiveQty;
    if Refusal(st, no).Some? {
      RefusedOwn(st, no);
    } else {
      var p := PlaceStep(st, no);
      PlaceOwn(st, no);
      AckAdds(p.state, p.events, no.clientSeq, no.orderId, no.orderId);
    }
  }

  // ----- the theorem -----

  /** The run starts with a buy order under a fresh id, which no later command reuses or replaces. */
  predicate OneBuyOrder(st: EngineState, no: NewOrder, cmds: seq<Command>) {
    && BookOk(st.book)
    && Fresh(st.book, no.orderId)
    && no.side.Buy?
    && forall i :: 0 <= i < |cmds| ==> EntersNone(cmds[i], {no.orderId})
  }

  /** Everything the run charges the order is within what the gateway reserved for it. */
  predicate Covered(st: EngineState, no: NewOrder, cmds: seq<Command>)
    requires BookOk(st.book)
  {
    Charge(Run(st, [New(no)] + cmds).events, no.orderId) <= GatewayLedger.OrderToken(no).amount
  }

  /** Over the whole life of the order, first as taker and then as maker, it pays at most its limit
      for every lot it gets, and gets at most its quantity. */
  lemma LifeOfOrder(st: EngineState, no: NewOrder, cmds: seq<Command>)
    requires OneBuyOrder(st, no, cmds)
    ensures var r := Run(st, [New(no)] + cmds);
            WithinOrder(r.events, r.state.book, no.orderId, no.price, if no.qty > 0 then no.qty else 0)
  {
    var first := Step(st, New(no));
    assert ([New(no)] + cmds)[1..] == cmds;
    NewOwn(st, no);
    RunAnother(first.state, cmds, no.orderId, no.price);
    var rest := Run(first.state, cmds);
    WithinChains(first.events, rest.events, first.state.book, rest.state.book, no.orderId, no.price,
                 if no.qty > 0 then no.qty else 0);
  }

  /** Charged so far, plus what reconciliation would reserve for the part that still rests. */
  predicate SpentPlusResting(evs: seq<Event>, b: Book, no: NewOrder) {
    && 0 <= no.price * LiveQty(b, no.orderId)
    && Charge(evs, no.orderId) + no.price * LiveQty(b, no.orderId) <= GatewayLedger.OrderToken(no).amount
  }

  lemma LiveNonNeg(b: Book, id: OrderId)
    requires BookOk(b)
    ensures LiveQty(b, id) >= 0
  {
    assert ListOk(Buy, b.bids) && ListOk(Sell, b.asks);
    QtyNonNeg(Orders(b.bids), id);
    QtyNonNeg(Orders(b.asks), id);
  }

  lemma BoundByNotional(price: Price, qty: Qty, filled: Qty)
    requires price * qty >= 0 && 0 <= filled <= (if qty > 0 then qty else 0)
    ensures 0 <= price * filled <= price * qty
  {
    if qty > 0 {
      assert price >= 0;
      assert price * (qty - filled) >= 0;
    }
  }

  lemma WithinIsCovered(evs: seq<Event>, b: Book, no: NewOrder)
    requires BookOk(b) && no.side.Buy? && GatewayLedger.Notional(no) >= 0
    requires WithinOrder(evs, b, no.orderId, no.price, if no.qty > 0 then no.qty else 0)
    ensures SpentPlusResting(evs, b, no)
  {
    var filled, live := FilledQty(evs, no.orderId), LiveQty(b, no.orderId);
    LiveNonNeg(b, no.orderId);
    BoundByNotional(no.price, no.qty, filled + live);
    BoundByNotional(no.price, no.qty, live);
    Distribute(no.price, filled, live);
  }

  /** At every point of its life, what the order has been charged and what it could still be charged are
      together within the original reservation. */
  lemma SpentPlusRestingIsCovered(st: EngineState, no: NewOrder, cmds: seq<Command>)
    requires OneBuyOrder(st, no, cmds) && GatewayLedger.Notional(no) >= 0
    ensures var r := Run(st, [New(no)] + cmds); SpentPlusResting(r.events, r.state.book, no)
  {
    LifeOfOrder(st, no, cmds);
    var r := Run(st, [New(no)] + cmds);
    WithinIsCovered(r.events, r.state.book, no);
  }

  lemma ReservationCovers(st: EngineState, no: NewOrder, cmds: seq<Command>)
    requires OneBuyOrder(st, no, cmds) && GatewayLedger.Notional(no) >= 0
    ensures Covered(st, no, cmds)
  {
    SpentPlusRestingIsCovered(st, no, cmds);
  }

  /** The guard on the reservation's sign is exact: an order with negative notional reserves a negative
      amount, and an engine that finds nothing to match charges it nothing. */
  lemma CoverageIsExact(no: NewOrder)
    requires no.side.Buy?
    ensures (forall st, cmds :: OneBuyOrder(st, no, cmds) ==> Covered(st, no, cmds))
            <==> GatewayLedger.Notional(no) >= 0
  {
    if GatewayLedger.Notional(no) >= 0 {
      forall st, cmds | OneBuyOrder(st, no, cmds) ensures Covered(st, no, cmds) {
        ReservationCovers(st, no, cmds);
      }
    } else {
      var st := EngineState(no.symbolId + 1, EMPTY_BOOK, EngineAccounts.Accounts(map[], map[], DEFAULT_LIMITS), 1);
      assert OneBuyOrder(st, no, []);
      assert [New(no)] + [] == [New(no)];
      assert Run(st, [New(no)]).events == Step(st, New(no)).events + [];
      NoFills(Run(st, [New(no)]).events, no.orderId);
      assert !Covered(st, no, []);
    }
  }

  lemma {:induction false} FilledNonNeg(evs: seq<Event>, id: OrderId, price: Price)
    requires FillsWithin(evs, id, price)
    ensures 0 <= FilledQty(evs, id)
  {
    if evs != [] {
      FilledNonNeg(evs[1..], id, price);
    }
  }

  lemma {:induction false} PartsWithin(evs: seq<Event>, id: OrderId, price: Price, i: nat)
    requires FillsWithin(evs, id, price) && i < |evs| && evs[i].Filled?
    ensures PartOf(evs[i].fill, id) <= FilledQty(evs, id)
    ensures 0 <= FilledQty(evs, id)
    decreases |evs|
  {
    FilledNonNeg(evs[1..], id, price);
    if i > 0 {
      PartsWithin(evs[1..], id, price, i - 1);
    }
  }

  lemma FillBound(price: Price, qty: Qty, p: Price, q: Qty)
    requires price * qty >= 0 && p <= price && 0 < q <= qty
    ensures p * q <= price * qty
  {
    assert price >= 0;
    assert p * q <= price * q;
    assert price * (qty - q) >= 0;
  }

  lemma WithinIsFunded(evs: seq<Event>, b: Book, no: NewOrder, i: nat)
    requires BookOk(b) && no.side.Buy? && GatewayLedger.Notional(no) >= 0
    requires WithinOrder(evs, b, no.orderId, no.price, if no.qty > 0 then no.qty else 0)
    requires i < |evs| && evs[i].Filled? && PartOf(evs[i].fill, no.orderId) != 0
    ensures evs[i].fill.price * evs[i].fill.qty <= GatewayLedger.OrderToken(no).amount
  {
    LiveNonNeg(b, no.orderId);
    PartsWithin(evs, no.orderId, no.price, i);
    FillBound(no.price, no.qty, evs[i].fill.price, evs[i].fill.qty);
  }

  /** Each fill that the engine reports for the order costs at most the whole reservation: what the
      gateway's ledger needs when the first fill ends the reservation. */
  lemma FillsAreFunded(st: EngineState, no: NewOrder, cmds: seq<Command>, i: nat)
    requires OneBuyOrder(st, no, cmds) && GatewayLedger.Notional(no) >= 0
    requires var evs := Run(st, [New(no)] + cmds).events;
             i < |evs| && evs[i].Filled? && PartOf(evs[i].fill, no.orderId) != 0
    ensures var f := Run(st, [New(no)] + cmds).events[i].fill;
            f.price * f.qty <= GatewayLedger.OrderToken(no).amount
  {
    LifeOfOrder(st, no, cmds);
    var r := Run(st, [New(no)] + cmds);
    WithinIsFunded(r.events, r.state.book, no, i);
  }
}
