/** What top-of-book events show: the best price of each side after the command, and all that rests there. */
module MarketData {
  import opened Common
  import opened Finite
  import opened PriceTimeBook
  import opened Matching
  import opened EngineSpec
  import opened EngineRuns

  function LotsAt(price: Price): Order -> Qty {
    (o: Order) => if o.price == price then o.qtyRem else 0
  }

  predicate AtLeast(os: seq<Order>, price: Price) {
    forall o :: o in os ==> o.price <= price
  }

  predicate AtMost(os: seq<Order>, price: Price) {
    forall o :: o in os ==> o.price >= price
  }

  predicate Quoted(os: seq<Order>, price: Price) {
    exists o :: o in os && o.price == price
  }

  /** The price and quantity are blank without orders, and otherwise those of the best price. */
  predicate ShowsBids(os: seq<Order>, px: Option<Price>, qty: Option<Qty>) {
    if os == [] then px.None? && qty.None?
    else px.Some? && Quoted(os, px.value) && AtLeast(os, px.value) && qty == Some(SumBy(os, LotsAt(px.value)))
  }

  predicate ShowsAsks(os: seq<Order>, px: Option<Price>, qty: Option<Qty>) {
    if os == [] then px.None? && qty.None?
    else px.Some? && Quoted(os, px.value) && AtMost(os, px.value) && qty == Some(SumBy(os, LotsAt(px.value)))
  }

  /** The event shows the best bid and the best ask of this engine. */
  predicate Shows(ev: Event, st: EngineState) {
    ev.BookTop? ==>
      && ev.symbolId == st.symbolId
      && ShowsBids(Orders(st.book.bids), ev.bidPx, ev.bidQty)
      && ShowsAsks(Orders(st.book.asks), ev.askPx, ev.askQty)
  }

  predicate AllShow(evs: seq<Event>, st: EngineState) {
    forall ev :: ev in evs ==> Shows(ev, st)
  }

  lemma {:induction false} DepthIsLots(l: seq<Resting>, price: Price)
    ensures DepthAt(l, price) == SumBy(Orders(l), LotsAt(price))
  {
    if l != [] {
      DepthIsLots(l[1..], price);
      assert Orders(l)[1..] == Orders(l[1..]);
    }
  }

  lemma TopShows(b: Book)
    requires BookOk(b)
    ensures ShowsBids(Orders(b.bids), PriceOf(Top(b.bids)), QtyAt(Top(b.bids)))
    ensures ShowsAsks(Orders(b.asks), PriceOf(Top(b.asks)), QtyAt(Top(b.asks)))
  {
    BookOrdersOk(b, Buy);
    BookOrdersOk(b, Sell);
    if b.bids != [] {
      assert Orders(b.bids)[0] in Orders(b.bids);
      DepthIsLots(b.bids, b.bids[0].order.price);
    }
    if b.asks != [] {
      assert Orders(b.asks)[0] in Orders(b.asks);
      DepthIsLots(b.asks, b.asks[0].order.price);
    }
  }

  lemma AcknowledgedShows(st: EngineState, events: seq<Event>, clientSeq: nat, id: OrderId)
    requires BookOk(st.book) && AllShow(events, st)
    ensures var out := Acknowledged(st, events, clientSeq, id); AllShow(out.events, out.state)
  {
    hide BookOk, Top, ShowsBids, ShowsAsks;
    TopShows(st.book);
  }

  lemma NewShows(st: EngineState, no: NewOrder)
    requires BookOk(st.book)
    ensures AllShow(NewStep(st, no).events, NewStep(st, no).state)
  {
    hide BookOk, Refusal, Insert, Top, ShowsBids, ShowsAsks, Acknowledged;
    if Refusal(st, no).None? {
      AcknowledgedShows(PlaceStep(st, no).state, PlaceStep(st, no).events, no.clientSeq, no.orderId);
    }
  }

  /** Every top-of-book event shows the book as it is after the command: for each side nothing if nothing rests there,
      and otherwise the best price and all lots at it. */
  lemma TopOfBookIsShown(st: EngineState, cmd: Command)
    requires BookOk(st.book)
    ensures AllShow(Step(st, cmd).events, Step(st, cmd).state)
  {
    hide BookOk, NewStep, ShowsBids, ShowsAsks, Lookup, CancelIn, Acknowledged;
    match cmd {
      case New(no) => NewShows(st, no);
      case CancelOrder(c) =>
        CancelKeepsOk(st.book, c.orderId, c.accountId);
        AcknowledgedShows(st.(book := CancelIn(st.book, c.orderId, c.accountId)), [], c.clientSeq, c.orderId);
      case ReplaceOrder(r) =>
        if r.symbolId == st.symbolId && r.newQty > 0 && Cancellable(st.book, r.orderId, r.accountId) {
          CancelKeepsOk(st.book, r.orderId, r.accountId);
          NewShows(st.(book := CancelIn(st.book, r.orderId, r.accountId)),
                   Replacement(Lookup(st.book, r.orderId).value, r));
        }
      case _ =>
    }
  }

  // ----- runs -----

  predicate ShowsUncrossed(evs: seq<Event>) {
    forall ev :: ev in evs && ev.BookTop? && ev.bidPx.Some? && ev.askPx.Some? ==> ev.bidPx.value < ev.askPx.value
  }

  lemma UncrossedShows(evs: seq<Event>, st: EngineState)
    requires BookOk(st.book) && Uncrossed(st.book) && AllShow(evs, st)
    ensures ShowsUncrossed(evs)
  {
    var b := st.book;
    BookOrdersOk(b, Buy);
    BookOrdersOk(b, Sell);
    forall ev | ev in evs && ev.BookTop? && ev.bidPx.Some? && ev.askPx.Some? ensures ev.bidPx.value < ev.askPx.value {
      assert Shows(ev, st);
      var x :| x in Orders(b.bids) && x.price == ev.bidPx.value;
      var y :| y in Orders(b.asks) && y.price == ev.askPx.value;
      assert b.bids[0].order == Orders(b.bids)[0] && b.asks[0].order == Orders(b.asks)[0];
    }
  }

  /** Over any run from an uncrossed book, every best bid that is shown is below the best ask shown with it. */
  lemma {:induction false} ShownBooksAreUncrossed(st: EngineState, cmds: seq<Command>)
    requires BookOk(st.book) && Uncrossed(st.book)
    ensures ShowsUncrossed(Run(st, cmds).events)
    decreases |cmds|
  {
    hide BookOk, Uncrossed, Step, AllShow;
    if cmds != [] {
      var out := Step(st, cmds[0]);
      TopOfBookIsShown(st, cmds[0]);
      StepStaysUncrossed(st, cmds[0]);
      UncrossedShows(out.events, out.state);
      ShownBooksAreUncrossed(out.state, cmds[1..]);
    }
  }
}
