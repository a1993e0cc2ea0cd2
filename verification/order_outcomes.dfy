/** What becomes of a command, in terms of the book and the ledger it meets: why it is refused, whom it trades with,
    what it leaves on the book and how it is answered. */
module OrderOutcomes {
  import opened Common
  import opened Finite
  import opened PriceTimeBook
  import opened Matching
  import opened EngineAccounts
  import opened EngineSpec
  import opened EngineRuns
  import opened RunLedger
  import P = PositionLimits
  import IndexExact
  import Snapshots

  // ----- answers -----

  /** A single reject for this reason. */
  predicate Rejects(evs: seq<Event>, clientSeq: nat, id: OrderId, reason: RejectReason) {
    && |evs| == 1
    && evs[0].Reject?
    && evs[0].clientSeq == clientSeq
    && evs[0].rejected == Some(id)
    && evs[0].reason == reason
  }

  /** Fills, the top of the book, and an acknowledgement. */
  predicate Acknowledges(evs: seq<Event>, clientSeq: nat, id: OrderId) {
    var n := |evs| - 2;
    && n >= 0
    && (forall i :: 0 <= i < n ==> evs[i].Filled?)
    && evs[n].BookTop?
    && evs[n + 1].Ack?
    && evs[n + 1].clientSeq == clientSeq
    && evs[n + 1].orderId == id
  }

  predicate Untouched(st: EngineState, st': EngineState) {
    st'.book == st.book && st'.accounts == st.accounts && st'.symbolId == st.symbolId
  }

  // ----- why a new order is refused -----

  predicate Malformed(st: EngineState, no: NewOrder) {
    no.symbolId != st.symbolId || no.qty <= 0
  }

  /** Too large, or filling all of it, at whatever price, would take the account out of its limits. */
  predicate OverLimits(st: EngineState, no: NewOrder)
    requires no.qty > 0
  {
    var pos := PositionOf(st.accounts.positions, no.accountId);
    !Fits(LimitsOf(st.accounts, no.accountId), no.qty, FilledPosition(pos, no.side, no.price, no.qty).net)
  }

  /** Lots on the other side within the price. */
  function InReach(b: Book, side: Side, price: Price): Qty {
    DepthWithin(side.Opposite(), price, Orders(b.On(side.Opposite())))
  }

  lemma CrossesIffInReach(b: Book, side: Side, price: Price)
    requires BookOk(b)
    ensures WouldCross(b, side, price) <==> InReach(b, side, price) > 0
  {
    var s := side.Opposite();
    var os := Orders(b.On(s));
    BookOrdersOk(b, s);
    if WouldCross(b, side, price) {
      assert os[0].qtyRem > 0;
      DepthNonNeg(s, price, os[1..]);
    } else {
      DepthBeyondLimit(s, price, os);
    }
  }

  lemma WithinIffNotOver(st: EngineState, no: NewOrder)
    requires no.qty > 0
    ensures WithinLimits(st.accounts, no.accountId, no.side, no.qty) <==> !OverLimits(st, no)
  {
    hide TruncDiv;
  }

  /** A new order is refused for exactly one of three reasons, checked in this order, and then changes nothing: it is
      malformed, it does not fit the account's limits, or it is post-only and something is in its reach. Otherwise
      it is acknowledged. */
  lemma NewOutcome(st: EngineState, no: NewOrder)
    requires BookOk(st.book)
    ensures var evs := Step(st, New(no)).events;
            var postOnlyTakes := no.postOnly && InReach(st.book, no.side, no.price) > 0;
            && (Rejects(evs, no.clientSeq, no.orderId, Invalid) <==> Malformed(st, no))
            && (Rejects(evs, no.clientSeq, no.orderId, Risk) <==> !Malformed(st, no) && OverLimits(st, no))
            && (Rejects(evs, no.clientSeq, no.orderId, PostOnlyWouldCross)
                <==> (!Malformed(st, no) && !OverLimits(st, no) && postOnlyTakes))
            && (Acknowledges(evs, no.clientSeq, no.orderId)
                <==> (!Malformed(st, no) && !OverLimits(st, no) && !postOnlyTakes))
    ensures !Acknowledges(Step(st, New(no)).events, no.clientSeq, no.orderId) ==>
              Untouched(st, Step(st, New(no)).state)
  {
    hide BookOk, WithinLimits, OverLimits, WouldCross, InReach, Top, Insert;
    CrossesIffInReach(st.book, no.side, no.price);
    if no.qty > 0 {
      WithinIffNotOver(st, no);
    }
    if Refusal(st, no).None? {
      var evs := Step(st, New(no)).events;
      assert evs[..|evs| - 2] == FillEvents(st.serverSeq, st.symbolId, no, FillsFor(st.book, no));
      assert forall i :: 0 <= i < |evs| - 2 ==> evs[i] == evs[..|evs| - 2][i];
    }
  }

  /** An order that closes part or all of a position within its limits, and is of allowed size, is never refused for
      risk. */
  lemma ClosingIsNeverRisky(st: EngineState, no: NewOrder)
    requires BookOk(st.book) && no.qty > 0
    requires var limits := LimitsOf(st.accounts, no.accountId);
             var net := PositionOf(st.accounts.positions, no.accountId).net;
             && no.qty <= limits.maxOrderSize
             && limits.maxLong >= 0
             && limits.maxShort >= 0
             && Fits(limits, no.qty, net)
             && (if no.side.Buy? then net <= -no.qty else net >= no.qty)
    ensures !Rejects(Step(st, New(no)).events, no.clientSeq, no.orderId, Risk)
  {
    hide BookOk, TruncDiv, Step, Rejects;
    NewOutcome(st, no);
  }

  // ----- limits -----

  /** The limits last set for the account, or those before. */
  function LastLimits(cmds: seq<Command>, a: AccountId, before: RiskLimits): RiskLimits {
    if cmds == [] then before
    else
      var cmd := cmds[0];
      LastLimits(cmds[1..], a, if cmd.SetLimits? && cmd.accountId == a then cmd.limits else before)
  }

  lemma StepSetsLimits(st: EngineState, cmd: Command, a: AccountId)
    requires BookOk(st.book)
    ensures LimitsOf(Step(st, cmd).state.accounts, a)
         == if cmd.SetLimits? && cmd.accountId == a then cmd.limits else LimitsOf(st.accounts, a)
  {
    hide BookOk, Insert, Match, Lookup, CancelIn, Refusal, ApplyTrades;
  }

  /** After any run an account's limits are those that were last set for it, whatever else happened. */
  lemma {:induction false} LimitsAreLastSet(st: EngineState, cmds: seq<Command>, a: AccountId)
    requires BookOk(st.book)
    ensures LimitsOf(Run(st, cmds).state.accounts, a) == LastLimits(cmds, a, LimitsOf(st.accounts, a))
    decreases |cmds|
  {
    hide BookOk, LimitsOf, Step;
    if cmds != [] {
      StepSetsLimits(st, cmds[0], a);
      LimitsAreLastSet(Step(st, cmds[0]).state, cmds[1..], a);
    }
  }

  /** A fresh engine allows ten thousand lots either way and a thousand at a time. */
  lemma FreshLimits(a: AccountId)
    ensures LimitsOf(STARTED.accounts, a) == RiskLimits(10_000, 10_000, 1_000)
  {
  }

  // ----- whom an order trades with -----

  /** The price is one that the order accepts. */
  predicate Accepts(no: NewOrder, price: Price) {
    if no.side.Buy? then price <= no.price else price >= no.price
  }

  /** The fill is between the new order and this resting one, at the resting one's price. */
  predicate Between(st: EngineState, no: NewOrder, o: Order, f: Fill) {
    && o in Orders(st.book.On(no.side.Opposite()))
    && f.makerOrderId == o.orderId
    && f.price == o.price
    && Accepts(no, f.price)
    && 0 < f.qty <= o.qtyRem
    && f.takerOrderId == no.orderId
    && f.clientSeq == no.clientSeq
    && f.symbolId == st.symbolId
  }

  /** The trade in the ledger is the fill that is reported, booked to the accounts of both orders. */
  predicate BookedAs(no: NewOrder, o: Order, f: Fill, t: Trade) {
    t == Trade(no.accountId, o.accountId, no.side, f.price, f.qty)
  }

  ghost predicate IsBooked(st: EngineState, no: NewOrder, f: Fill, t: Trade) {
    exists o :: Between(st, no, o, f) && BookedAs(no, o, f, t)
  }

  lemma MakerOf(st: EngineState, no: NewOrder, i: nat) returns (o: Order)
    requires BookOk(st.book) && i < |FillsFor(st.book, no)|
    ensures var f := FillsFor(st.book, no)[i];
            && Between(st, no, o, FillEvent(st.serverSeq + i, st.symbolId, no, f).fill)
            && f.makerAccountId == o.accountId
  {
    var s := no.side.Opposite();
    var os, fills := Orders(st.book.On(s)), FillsFor(st.book, no);
    MatchObeysRule(st.book, no.orderId, no.side, no.price, no.qty);
    BookOrdersOk(st.book, s);
    assert RuleAt(s, no.price, no.qty, no.orderId, os, fills, i);
    o := os[i];
  }

  lemma AcceptedEvents(st: EngineState, no: NewOrder)
    requires BookOk(st.book) && Refusal(st, no).None?
    ensures var evs, ts, fills := Step(st, New(no)).events, StepTrades(st, New(no)), FillsFor(st.book, no);
            && |evs| == |fills| + 2
            && |ts| == |fills|
            && !evs[|fills|].Filled?
            && !evs[|fills| + 1].Filled?
            && forall i :: 0 <= i < |fills| ==>
                 && evs[i] == FillEvent(st.serverSeq + i, st.symbolId, no, fills[i])
                 && ts[i] == Trade(no.accountId, fills[i].makerAccountId, no.side, fills[i].price, fills[i].qty)
  {
    hide BookOk, Top, Insert, FillsFor, Refusal;
    var evs, fills := Step(st, New(no)).events, FillsFor(st.book, no);
    assert evs[..|fills|] == FillEvents(st.serverSeq, st.symbolId, no, fills);
    assert forall i :: 0 <= i < |fills| ==> evs[i] == evs[..|fills|][i];
  }

  lemma RefusedTradesNothing(st: EngineState, no: NewOrder)
    requires BookOk(st.book) && Refusal(st, no).Some?
    ensures var evs := Step(st, New(no)).events; |evs| == 1 && !evs[0].Filled? && StepTrades(st, New(no)) == []
  {
    hide BookOk, Refusal;
  }

  /** Every fill of a new order is between it and an order that rests on the other side, at that order's price, and
      is booked to the accounts of the two orders, in the order of the events. */
  lemma FillsAreBooked(st: EngineState, no: NewOrder)
    requires BookOk(st.book)
    ensures var evs, ts := Step(st, New(no)).events, StepTrades(st, New(no));
            && |ts| <= |evs|
            && (forall i :: 0 <= i < |evs| ==> (evs[i].Filled? <==> i < |ts|))
            && (forall i :: 0 <= i < |ts| ==> IsBooked(st, no, evs[i].fill, ts[i]))
  {
    hide BookOk, Between, FillsFor, Step, StepTrades, Refusal;
    var evs, ts := Step(st, New(no)).events, StepTrades(st, New(no));
    if Refusal(st, no).None? {
      AcceptedEvents(st, no);
      forall i | 0 <= i < |ts|
        ensures IsBooked(st, no, evs[i].fill, ts[i])
      {
        var o := MakerOf(st, no, i);
        assert Between(st, no, o, evs[i].fill) && BookedAs(no, o, evs[i].fill, ts[i]);
      }
    } else {
      RefusedTradesNothing(st, no);
    }
  }

  // ----- a post-only order never takes -----

  predicate NoFill(evs: seq<Event>) {
    forall ev :: ev in evs ==> !ev.Filled?
  }

  lemma NothingInReach(st: EngineState, no: NewOrder)
    requires BookOk(st.book) && InReach(st.book, no.side, no.price) <= 0
    ensures StepTrades(st, New(no)) == []
  {
    hide BookOk, InReach;
    CrossesIffInReach(st.book, no.side, no.price);
  }

  lemma PostOnlyNeverTakes(st: EngineState, no: NewOrder)
    requires BookOk(st.book) && no.postOnly
    ensures NoFill(Step(st, New(no)).events)
  {
    hide BookOk, Step, OverLimits, InReach, Malformed;
    NewOutcome(st, no);
    var evs := Step(st, New(no)).events;
    if Acknowledges(evs, no.clientSeq, no.orderId) {
      FillsAreBooked(st, no);
      NothingInReach(st, no);
    }
  }

  predicate AllPostOnly(l: seq<Resting>, id: OrderId) {
    forall o :: o in Orders(l) && o.orderId == id ==> o.postOnly
  }

  /** Every resting order under the id is post-only. */
  predicate RestsPostOnly(b: Book, id: OrderId) {
    AllPostOnly(b.bids, id) && AllPostOnly(b.asks, id)
  }

  lemma AllPostOnlyIff(l: seq<Resting>, id: OrderId)
    ensures AllPostOnly(l, id) <==> forall r :: r in l && r.order.orderId == id ==> r.order.postOnly
  {
    forall r | r in l ensures r.order in Orders(l) {
      var i :| 0 <= i < |l| && l[i] == r;
      assert Orders(l)[i] == r.order;
    }
    forall o | o in Orders(l) ensures exists r :: r in l && r.order == o {
      var i :| 0 <= i < |l| && Orders(l)[i] == o;
      assert l[i] in l;
    }
  }

  lemma {:induction false} GreedyKeepsPostOnly(s: Side, os: seq<Order>, taker: OrderId, limit: Price, qty: Qty,
                                               id: OrderId)
    requires forall o :: o in os && o.orderId == id ==> o.postOnly
    ensures forall o :: o in Greedy(s, os, taker, limit, qty).1 && o.orderId == id ==> o.postOnly
  {
    if qty > 0 && os != [] && Reaches(s, limit, os[0].price) {
      assert os[0] in os;
      if qty >= os[0].qtyRem {
        GreedyKeepsPostOnly(s, os[1..], taker, limit, qty - os[0].qtyRem, id);
      }
    }
  }

  lemma MatchKeepsPostOnly(b: Book, taker: OrderId, side: Side, limit: Price, qty: Qty, id: OrderId)
    requires BookOk(b) && RestsPostOnly(b, id)
    ensures RestsPostOnly(Match(b, taker, side, limit, qty).1, id)
  {
    hide BookOk, Match;
    MatchIsGreedy(b, taker, side, limit, qty);
    GreedyKeepsPostOnly(side.Opposite(), Orders(b.On(side.Opposite())), taker, limit, qty, id);
  }

  lemma AllPostOnlyUnindex(l: seq<Resting>, gone: OrderId, id: OrderId)
    ensures AllPostOnly(Apply(Unindex(gone), l), id) <==> AllPostOnly(l, id)
  {
    OrdersUnindex(gone, l);
  }

  lemma InsertKeepsPostOnly(b: Book, o: Order, id: OrderId)
    requires RestsPostOnly(b, id) && (o.orderId == id ==> o.postOnly)
    ensures RestsPostOnly(Insert(b, o), id)
  {
    hide Apply, Enqueue, AllPostOnly;
    var b1 := b.Edited(Unindex(o.orderId));
    AllPostOnlyUnindex(b.bids, o.orderId, id);
    AllPostOnlyUnindex(b.asks, o.orderId, id);
    AllPostOnlyIff(b1.On(o.side), id);
    AllPostOnlyIff(Enqueue(o.side, b1.On(o.side), Resting(o, true)), id);
    IndexExact.EnqueueCount(o.side, b1.On(o.side), Resting(o, true), id);
  }

  lemma CancelKeepsPostOnly(b: Book, gone: OrderId, a: AccountId, id: OrderId)
    requires RestsPostOnly(b, id)
    ensures RestsPostOnly(CancelIn(b, gone, a), id)
  {
    hide Apply, AllPostOnly;
    AllPostOnlyIff(b.bids, id);
    AllPostOnlyIff(b.asks, id);
    IndexExact.RemoveCount(b.bids, gone, id);
    IndexExact.RemoveCount(b.asks, gone, id);
    AllPostOnlyIff(Apply(Remove(gone), b.bids), id);
    AllPostOnlyIff(Apply(Remove(gone), b.asks), id);
  }

  lemma NewKeepsPostOnly(st: EngineState, no: NewOrder, id: OrderId)
    requires BookOk(st.book) && RestsPostOnly(st.book, id) && (no.orderId == id ==> no.postOnly)
    ensures RestsPostOnly(NewStep(st, no).state.book, id)
  {
    hide BookOk, RestsPostOnly, Refusal, Insert;
    if Refusal(st, no).None? {
      MatchKeepsPostOnly(st.book, no.orderId, no.side, no.price, no.qty, id);
      InsertKeepsPostOnly(MatchStep(st, no).state.book, OrderFrom(no, Remainder(st.book, no)), id);
    }
  }

  /** No fill among the events has the order as its taker. */
  predicate NeverTaker(evs: seq<Event>, id: OrderId) {
    forall ev :: ev in evs && ev.Filled? ==> ev.fill.takerOrderId != id
  }

  lemma TakerIs(st: EngineState, no: NewOrder)
    requires BookOk(st.book)
    ensures forall ev :: ev in NewStep(st, no).events && ev.Filled? ==> ev.fill.takerOrderId == no.orderId
  {
    hide BookOk, NewStep, StepTrades;
    FillsAreBooked(st, no);
  }

  lemma NewNeverTaker(st: EngineState, no: NewOrder, id: OrderId)
    requires BookOk(st.book) && (no.orderId == id ==> no.postOnly)
    ensures NeverTaker(NewStep(st, no).events, id)
  {
    hide BookOk, NewStep, Between, StepTrades;
    if no.orderId == id {
      PostOnlyNeverTakes(st, no);
    } else {
      FillsAreBooked(st, no);
      TakerIs(st, no);
    }
  }

  lemma FoundIsPostOnly(b: Book, id: OrderId)
    requires RestsPostOnly(b, id) && Lookup(b, id).Some?
    ensures Lookup(b, id).value.postOnly
  {
    hide Lookup;
    Snapshots.LookupInBook(b, id);
  }

  /** New orders under the id are all post-only. */
  predicate EntersPostOnly(cmd: Command, id: OrderId) {
    cmd.New? && cmd.no.orderId == id ==> cmd.no.postOnly
  }

  lemma StepNeverTaker(st: EngineState, cmd: Command, id: OrderId)
    requires BookOk(st.book) && RestsPostOnly(st.book, id) && EntersPostOnly(cmd, id)
    ensures NeverTaker(Step(st, cmd).events, id) && RestsPostOnly(Step(st, cmd).state.book, id)
  {
    hide BookOk, RestsPostOnly, NewStep, Lookup, CancelIn;
    match cmd {
      case New(no) =>
        NewNeverTaker(st, no, id);
        NewKeepsPostOnly(st, no, id);
      case CancelOrder(c) => CancelKeepsPostOnly(st.book, c.orderId, c.accountId, id);
      case ReplaceOrder(r) =>
        if Cancellable(st.book, r.orderId, r.accountId) {
          var st1 := st.(book := CancelIn(st.book, r.orderId, r.accountId));
          var no := Replacement(Lookup(st.book, r.orderId).value, r);
          CancelKeepsOk(st.book, r.orderId, r.accountId);
          CancelKeepsPostOnly(st.book, r.orderId, r.accountId, id);
          if r.orderId == id {
            FoundIsPostOnly(st.book, id);
          }
          NewNeverTaker(st1, no, id);
          NewKeepsPostOnly(st1, no, id);
        }
      case _ =>
    }
  }

  /** Over any run, replaces included, no fill has a post-only order as its taker. */
  lemma {:induction false} PostOnlyNeverTakesInRun(st: EngineState, cmds: seq<Command>, id: OrderId)
    requires BookOk(st.book) && RestsPostOnly(st.book, id)
    requires forall i :: 0 <= i < |cmds| ==> EntersPostOnly(cmds[i], id)
    ensures NeverTaker(Run(st, cmds).events, id)
    decreases |cmds|
  {
    hide BookOk, RestsPostOnly, Step, EntersPostOnly;
    if cmds != [] {
      StepNeverTaker(st, cmds[0], id);
      PostOnlyNeverTakesInRun(Step(st, cmds[0]).state, cmds[1..], id);
    }
  }

  // ----- what an order leaves on the book -----

  predicate Unled(b: Book, id: OrderId) {
    P.Led(b.bids, id) == 0 && P.Led(b.asks, id) == 0
  }

  lemma {:induction false} LedIffFound(l: seq<Resting>, id: OrderId)
    ensures P.Led(l, id) > 0 <==> LookupIn(l, id).Some?
  {
    if l != [] {
      LedIffFound(l[1..], id);
    }
  }

  lemma LedConcat(x: seq<Resting>, y: seq<Resting>, id: OrderId)
    ensures P.Led(x + y, id) == P.Led(x, id) + P.Led(y, id)
  {
    SumByConcat(x, y, P.OneLed(id));
  }

  lemma UnledIffNotFound(b: Book, id: OrderId)
    ensures Unled(b, id) <==> Lookup(b, id).None?
  {
    LedConcat(b.bids, b.asks, id);
    LedIffFound(b.bids + b.asks, id);
  }

  lemma FirstUnled(r: Resting, r': Resting, t: seq<Resting>, id: OrderId)
    requires P.Led([r] + t, id) == 0 && r'.indexed == r.indexed && r'.order.orderId == r.order.orderId
    ensures P.Led(t, id) == 0 && P.Led([r'] + t, id) == 0
  {
    assert ([r] + t)[1..] == t && ([r'] + t)[1..] == t;
  }

  lemma {:induction false} MatchKeepsUnled(b: Book, taker: OrderId, side: Side, limit: Price, qty: Qty, id: OrderId)
    requires Unled(b, id)
    ensures Unled(Match(b, taker, side, limit, qty).1, id)
    decreases |b.On(side.Opposite())|
  {
    hide P.Led, Apply;
    var s := side.Opposite();
    var l := b.On(s);
    if qty > 0 && WouldCross(b, side, limit) {
      var o := l[0].order;
      var r' := l[0].(order := o.(qtyRem := o.qtyRem - qty));
      assert l == [l[0]] + l[1..];
      FirstUnled(l[0], r', l[1..], id);
      if qty >= o.qtyRem {
        var rest := b.With(s, l[1..]);
        P.EditLeds(rest.bids, Unindex(o.orderId), id);
        P.EditLeds(rest.asks, Unindex(o.orderId), id);
        MatchWholeMaker(b, taker, side, limit, qty);
        UnindexIs(o.orderId, l[1..]);
        MatchKeepsUnled(rest.Edited(Unindex(o.orderId)), taker, side, limit, qty - o.qtyRem, id);
      } else {
        MatchPartOfMaker(b, taker, side, limit, qty);
      }
    }
  }

  lemma LedOfOne(r: Resting)
    requires r.indexed
    ensures P.Led([r], r.order.orderId) == 1
  {
    SumByOne(r, P.OneLed(r.order.orderId));
  }

  /** An inserted order is the one that its id leads to. */
  lemma InsertedIsFound(b: Book, o: Order)
    ensures Lookup(Insert(b, o), o.orderId) == Some(o)
  {
    hide Apply, Enqueue, LookupIn, P.Led;
    var b1, r := b.Edited(Unindex(o.orderId)), Resting(o, true);
    var b2 := Insert(b, o);
    P.EditLeds(b.bids, Unindex(o.orderId), o.orderId);
    P.EditLeds(b.asks, Unindex(o.orderId), o.orderId);
    P.EnqueueLeds(o.side, b1.On(o.side), r, o.orderId);
    LedOfOne(r);
    IndexExact.EnqueueCount(o.side, b1.On(o.side), r, o.orderId);
    LedConcat(b2.bids, b2.asks, o.orderId);
    P.LedToOne(b2.bids + b2.asks, o.orderId);
  }

  function LotsFilled(ev: Event): Qty {
    if ev.Filled? then ev.fill.qty else 0
  }

  /** Lots that the events fill. */
  function Taken(evs: seq<Event>): Qty {
    SumBy(evs, LotsFilled)
  }

  lemma {:induction false} TakenOfFills(serverSeq: nat, symbolId: SymbolId, no: NewOrder, fills: seq<MatchFill>)
    ensures Taken(FillEvents(serverSeq, symbolId, no, fills)) == FillTotal(fills)
    decreases |fills|
  {
    if fills != [] {
      assert FillEvents(serverSeq, symbolId, no, fills)[1..] == FillEvents(serverSeq + 1, symbolId, no, fills[1..]);
      TakenOfFills(serverSeq + 1, symbolId, no, fills[1..]);
    }
  }

  lemma {:induction false} NothingTaken(evs: seq<Event>)
    requires forall i :: 0 <= i < |evs| ==> !evs[i].Filled?
    ensures Taken(evs) == 0
  {
    if evs != [] {
      NothingTaken(evs[1..]);
    }
  }

  lemma AcceptedTakes(st: EngineState, no: NewOrder)
    requires BookOk(st.book) && Refusal(st, no).None?
    ensures Taken(Step(st, New(no)).events) == no.qty - Remainder(st.book, no)
  {
    hide BookOk, Top, Insert, Refusal, FillsFor;
    var evs, fills := Step(st, New(no)).events, FillsFor(st.book, no);
    var reported := FillEvents(st.serverSeq, st.symbolId, no, fills);
    assert evs == reported + evs[|fills|..];
    assert evs[|fills|..][2..] == [] && !evs[|fills|..][0].Filled? && !evs[|fills|..][1].Filled?;
    TakenOfFills(st.serverSeq, st.symbolId, no, fills);
    SumByConcat(reported, evs[|fills|..], LotsFilled);
    NothingTaken(evs[|fills|..]);
  }

  /** What is left of an order under its own terms. */
  function Rest(no: NewOrder, left: Qty): Order {
    Order(no.orderId, no.accountId, no.symbolId, no.side, no.price, left, no.tif, no.postOnly)
  }

  /** What an acknowledged order leaves: if lots are left and it is good till cancelled, its id leads to exactly these
      lots under its own terms; otherwise its id leads nowhere, if it led nowhere before. */
  lemma AcceptedRests(st: EngineState, no: NewOrder)
    requires BookOk(st.book)
    requires Acknowledges(Step(st, New(no)).events, no.clientSeq, no.orderId)
    ensures var left := no.qty - Taken(Step(st, New(no)).events);
            var found := Lookup(Step(st, New(no)).state.book, no.orderId);
            && 0 <= left
            && (left > 0 && no.tif.Gtc? ==> found == Some(Rest(no, left)))
            && ((left == 0 || no.tif.Ioc?) && Lookup(st.book, no.orderId).None? ==> found.None?)
  {
    hide BookOk, WithinLimits, WouldCross, Insert, LookupIn, Taken, Match, Top;
    assert Refusal(st, no).None?;
    AcceptedTakes(st, no);
    var b := MatchStep(st, no).state.book;
    MatchIsMaximal(st.book, no.orderId, no.side, no.price, no.qty);
    InsertedIsFound(b, OrderFrom(no, Remainder(st.book, no)));
    if Lookup(st.book, no.orderId).None? {
      UnledIffNotFound(st.book, no.orderId);
      MatchKeepsUnled(st.book, no.orderId, no.side, no.price, no.qty, no.orderId);
      UnledIffNotFound(b, no.orderId);
    }
  }

  // ----- replaces -----

  /** The id leads to an order of this account. */
  predicate Owns(b: Book, id: OrderId, a: AccountId) {
    Lookup(b, id).Some? && Lookup(b, id).value.accountId == a
  }

  predicate ReplaceMalformed(st: EngineState, r: Replace) {
    r.symbolId != st.symbolId || r.newQty <= 0
  }

  /** The engine without the order that is replaced. */
  function WithoutOld(st: EngineState, r: Replace): EngineState {
    st.(book := st.book.Edited(Remove(r.orderId)))
  }

  /** The old order under its new terms: the rest it keeps. */
  function NewTerms(was: Order, r: Replace): NewOrder {
    NewOrder(r.clientSeq, r.orderId, was.accountId, r.symbolId, was.side, r.newPrice, r.newQty, was.tif, was.postOnly)
  }

  /** A replace of an order that is there does what the old order under its new terms does on the book without it. */
  lemma ReplaceIsNewTerms(st: EngineState, r: Replace)
    requires BookOk(st.book) && !ReplaceMalformed(st, r) && Owns(st.book, r.orderId, r.accountId)
    ensures BookOk(WithoutOld(st, r).book)
    ensures Step(st, ReplaceOrder(r)) == Step(WithoutOld(st, r), New(NewTerms(Lookup(st.book, r.orderId).value, r)))
  {
    hide BookOk, NewStep, Lookup;
    CancelKeepsOk(st.book, r.orderId, r.accountId);
  }

  /** A replace is turned away at once if it is malformed or the order is not there, and then changes nothing. Otherwise
      the old order goes, and the outcome is that of the new terms. */
  lemma ReplaceOutcome(st: EngineState, r: Replace)
    requires BookOk(st.book)
    ensures var out := Step(st, ReplaceOrder(r));
            && (Rejects(out.events, r.clientSeq, r.orderId, Invalid) <==> ReplaceMalformed(st, r))
            && (Rejects(out.events, r.clientSeq, r.orderId, NotFound)
                <==> (!ReplaceMalformed(st, r) && !Owns(st.book, r.orderId, r.accountId)))
            && (ReplaceMalformed(st, r) || !Owns(st.book, r.orderId, r.accountId) ==> Untouched(st, out.state))
    ensures var evs := Step(st, ReplaceOrder(r)).events;
            !ReplaceMalformed(st, r) && Owns(st.book, r.orderId, r.accountId) ==>
              var st1, no := WithoutOld(st, r), NewTerms(Lookup(st.book, r.orderId).value, r);
              var postOnlyTakes := no.postOnly && InReach(st1.book, no.side, no.price) > 0;
              && (Rejects(evs, r.clientSeq, r.orderId, Risk) <==> OverLimits(st, no))
              && (Rejects(evs, r.clientSeq, r.orderId, PostOnlyWouldCross) <==> !OverLimits(st, no) && postOnlyTakes)
              && (Acknowledges(evs, r.clientSeq, r.orderId) <==> !OverLimits(st, no) && !postOnlyTakes)
              && (!Acknowledges(evs, r.clientSeq, r.orderId) ==> Untouched(st1, Step(st, ReplaceOrder(r)).state))
  {
    hide BookOk, NewStep, Lookup, InReach, TruncDiv;
    if !ReplaceMalformed(st, r) && Owns(st.book, r.orderId, r.accountId) {
      ReplaceIsNewTerms(st, r);
      NewOutcome(WithoutOld(st, r), NewTerms(Lookup(st.book, r.orderId).value, r));
    }
  }

  lemma RejectFillsNothing(evs: seq<Event>, clientSeq: nat, id: OrderId)
    requires Rejects(evs, clientSeq, id, Invalid) || Rejects(evs, clientSeq, id, NotFound)
    ensures NoFill(evs)
  {
  }

  /** Replacing a post-only order never takes, whatever its new price. */
  lemma ReplacedPostOnlyNeverTakes(st: EngineState, r: Replace)
    requires BookOk(st.book)
    requires Lookup(st.book, r.orderId).Some? && Lookup(st.book, r.orderId).value.postOnly
    ensures NoFill(Step(st, ReplaceOrder(r)).events)
  {
    hide BookOk, NewStep, Lookup, NoFill, ReplaceMalformed, Step;
    if !ReplaceMalformed(st, r) && Owns(st.book, r.orderId, r.accountId) {
      ReplaceIsNewTerms(st, r);
      PostOnlyNeverTakes(WithoutOld(st, r), NewTerms(Lookup(st.book, r.orderId).value, r));
    } else {
      ReplaceOutcome(st, r);
      RejectFillsNothing(Step(st, ReplaceOrder(r)).events, r.clientSeq, r.orderId);
    }
  }

  lemma RemovedIsNotFound(b: Book, id: OrderId)
    ensures Lookup(b.Edited(Remove(id)), id).None?
  {
    P.EditLeds(b.bids, Remove(id), id);
    P.EditLeds(b.asks, Remove(id), id);
    UnledIffNotFound(b.Edited(Remove(id)), id);
  }

  /** What an acknowledged replace leaves under the id: the old account, side, time in force and flag, the new price,
      and the new quantity less what was filled; or nothing, if nothing is left or the order does not rest. */
  lemma ReplacementKeepsTerms(st: EngineState, r: Replace)
    requires BookOk(st.book)
    requires Acknowledges(Step(st, ReplaceOrder(r)).events, r.clientSeq, r.orderId)
    ensures Owns(st.book, r.orderId, r.accountId)
    ensures var was, left := Lookup(st.book, r.orderId).value, r.newQty - Taken(Step(st, ReplaceOrder(r)).events);
            && 0 <= left
            && Lookup(Step(st, ReplaceOrder(r)).state.book, r.orderId)
               == if left > 0 && was.tif.Gtc?
                  then Some(Order(r.orderId, was.accountId, r.symbolId, was.side, r.newPrice, left,
                                  was.tif, was.postOnly))
                  else None
  {
    hide BookOk, Lookup, Step, Taken, InReach, OverLimits;
    ReplaceOutcome(st, r);
    var no := NewTerms(Lookup(st.book, r.orderId).value, r);
    ReplaceIsNewTerms(st, r);
    AcceptedRests(WithoutOld(st, r), no);
    RemovedIsNotFound(st.book, r.orderId);
  }

  // ----- cancels -----

  lemma {:induction false} EditKeepsFound(ed: Edit, l: seq<Resting>, id: OrderId)
    requires ed.id != id
    ensures LookupIn(Apply(ed, l), id) == LookupIn(l, id)
  {
    if l != [] {
      EditKeepsFound(ed, l[1..], id);
      var h, t := ApplyOne(ed, l[0]), Apply(ed, l[1..]);
      assert |h| <= 1 && (h == [] ==> h + t == t) && (|h| == 1 ==> (h + t)[0] == h[0] && (h + t)[1..] == t);
    }
  }

  lemma RemoveKeepsFound(b: Book, gone: OrderId, id: OrderId)
    requires gone != id
    ensures Lookup(b.Edited(Remove(gone)), id) == Lookup(b, id)
  {
    ApplyConcat(Remove(gone), b.bids, b.asks);
    EditKeepsFound(Remove(gone), b.bids + b.asks, id);
  }

  /** A cancel is malformed if it names another symbol, finds nothing if the id does not lead to an order of the
      account, and changes nothing then. Otherwise it is acknowledged, its id leads nowhere any more, and every other id
      leads where it led. */
  lemma CancelOutcome(st: EngineState, c: Cancel, other: OrderId)
    requires BookOk(st.book) && other != c.orderId
    ensures var out := Step(st, CancelOrder(c));
            var owns := Owns(st.book, c.orderId, c.accountId);
            && (Rejects(out.events, c.clientSeq, c.orderId, Invalid) <==> c.symbolId != st.symbolId)
            && (Rejects(out.events, c.clientSeq, c.orderId, NotFound) <==> c.symbolId == st.symbolId && !owns)
            && (Acknowledges(out.events, c.clientSeq, c.orderId) <==> c.symbolId == st.symbolId && owns)
            && |out.events| <= 2
            && out.state.accounts == st.accounts
            && if c.symbolId == st.symbolId && owns
               then Lookup(out.state.book, c.orderId).None? && Lookup(out.state.book, other) == Lookup(st.book, other)
               else Untouched(st, out.state)
  {
    hide BookOk, Lookup, Apply, Top;
    RemovedIsNotFound(st.book, c.orderId);
    RemoveKeepsFound(st.book, c.orderId, other);
  }

  // ----- limits and authentication -----

  /** Setting limits is acknowledged under no order id and moves neither book nor positions; authentication, which the
      gateway keeps to itself, is not answered and changes nothing. */
  lemma SettingsAreAnswered(st: EngineState, cmd: Command)
    requires BookOk(st.book) && (cmd.SetLimits? || cmd.Authenticate?)
    ensures var out := Step(st, cmd);
            && out.state.book == st.book
            && out.state.accounts.positions == st.accounts.positions
            && (cmd.SetLimits? ==>
                  && |out.events| == 1
                  && out.events[0].Ack?
                  && out.events[0].clientSeq == cmd.clientSeq
                  && out.events[0].orderId == 0)
            && (cmd.Authenticate? ==> out.events == [] && out.state == st)
  {
  }

  // ----- queries -----

  /** After any run the answer to a query is the account's position, which accounts for every leg of its own trades
      since the start, and the limits last set for it; asking changes nothing. */
  lemma QueryTellsLedger(st: EngineState, cmds: seq<Command>, clientSeq: nat, a: AccountId, y: SymbolId)
    requires BookOk(st.book)
    ensures var legs := LegsOf(RunTrades(st, cmds), a);
            var out := Step(Run(st, cmds).state, QueryAccount(clientSeq, a, y));
            && |out.events| == 1
            && out.events[0].AccountState?
            && out.events[0].clientSeq == clientSeq
            && out.events[0].accountId == a
            && out.events[0].symbolId == y
            && out.events[0].position.net == PositionOf(st.accounts.positions, a).net + SignedSum(legs)
            && AddsUp(PositionOf(st.accounts.positions, a), legs, out.events[0].position)
            && out.events[0].limits == LastLimits(cmds, a, LimitsOf(st.accounts, a))
            && Untouched(Run(st, cmds).state, out.state)
  {
    hide BookOk, Run, RunTrades, LimitsOf, LegsOf, SignedSum;
    ProfitAddsUp(st, cmds, a);
    LimitsAreLastSet(st, cmds, a);
  }

  /** What a replace books is what its new terms book. */
  lemma ReplaceBooksNewTerms(st: EngineState, r: Replace)
    requires BookOk(st.book) && !ReplaceMalformed(st, r) && Owns(st.book, r.orderId, r.accountId)
    ensures BookOk(WithoutOld(st, r).book)
    ensures StepTrades(st, ReplaceOrder(r))
         == StepTrades(WithoutOld(st, r), New(NewTerms(Lookup(st.book, r.orderId).value, r)))
  {
    hide BookOk, NewTrades, Lookup;
    CancelKeepsOk(st.book, r.orderId, r.accountId);
  }
}
