/** Position limits over runs: the risk check looks at one order at a time and not at those that already
    rest, so others can fill an account past its limit, and this says exactly when. */
module PositionLimits {
  import opened Common
  import opened Finite
  import opened PriceTimeBook
  import opened Matching
  import opened EngineAccounts
  import opened EngineSpec
  import opened EngineRuns
  import opened RunLedger

  function QtyFor(a: AccountId): Order -> Qty {
    (o: Order) => if o.accountId == a then o.qtyRem else 0
  }

  /** Quantity that an account has resting. */
  function HeldBy(os: seq<Order>, a: AccountId): Qty {
    SumBy(os, QtyFor(a))
  }

  function RestingQty(b: Book, s: Side, a: AccountId): Qty {
    HeldBy(Orders(b.On(s)), a)
  }

  function NetOf(st: EngineState, a: AccountId): Qty {
    PositionOf(st.accounts.positions, a).net
  }

  /** The position is within the account's limits. */
  predicate Within(st: EngineState, a: AccountId) {
    -LimitsOf(st.accounts, a).maxShort <= NetOf(st, a) <= LimitsOf(st.accounts, a).maxLong
  }

  /** The position would be within the limits if all that rests on either side were filled. */
  predicate CoversResting(st: EngineState, a: AccountId) {
    && NetOf(st, a) + RestingQty(st.book, Buy, a) <= LimitsOf(st.accounts, a).maxLong
    && NetOf(st, a) - RestingQty(st.book, Sell, a) >= -LimitsOf(st.accounts, a).maxShort
  }

  predicate ByAnother(cmd: Command, a: AccountId) {
    match cmd
    case New(no) => no.accountId != a
    case CancelOrder(c) => c.accountId != a
    case ReplaceOrder(r) => r.accountId != a
    case SetLimits(_, b, _, _) => b != a
    case _ => true
  }

  predicate AllByOthers(cmds: seq<Command>, a: AccountId) {
    forall i :: 0 <= i < |cmds| ==> ByAnother(cmds[i], a)
  }

  // ----- every id leads to one order at most -----

  function OneLed(id: OrderId): Resting -> int {
    (r: Resting) => if r.indexed && r.order.orderId == id then 1 else 0
  }

  function Led(l: seq<Resting>, id: OrderId): nat {
    SumByNonNeg(l, OneLed(id));
    SumBy(l, OneLed(id))
  }

  /** What an index is: it leads from an id to one order. */
  ghost predicate OneEach(b: Book) {
    forall id :: Led(b.bids, id) + Led(b.asks, id) <= 1
  }

  lemma {:induction false} EditLeds(l: seq<Resting>, ed: Edit, id: OrderId)
    ensures Led(Apply(ed, l), id) == if id == ed.id then 0 else Led(l, id)
  {
    if l != [] {
      EditLeds(l[1..], ed, id);
      SumByConcat(ApplyOne(ed, l[0]), Apply(ed, l[1..]), OneLed(id));
    }
  }

  lemma {:induction false} EnqueueLeds(s: Side, l: seq<Resting>, r: Resting, id: OrderId)
    ensures Led(Enqueue(s, l, r), id) == Led(l, id) + Led([r], id)
  {
    if l == [] || Rank(s, l[0].order.price) > Rank(s, r.order.price) {
      SumByConcat([r], l, OneLed(id));
    } else {
      EnqueueLeds(s, l[1..], r, id);
      SumByConcat([l[0]], Enqueue(s, l[1..], r), OneLed(id));
      assert l == [l[0]] + l[1..];
      SumByConcat([l[0]], l[1..], OneLed(id));
    }
  }

  lemma InsertOneEach(b: Book, o: Order)
    requires OneEach(b)
    ensures OneEach(Insert(b, o))
  {
    forall id ensures Led(Insert(b, o).bids, id) + Led(Insert(b, o).asks, id) <= 1 {
      assert Led(b.bids, id) + Led(b.asks, id) <= 1;
      EditLeds(b.bids, Unindex(o.orderId), id);
      EditLeds(b.asks, Unindex(o.orderId), id);
      EnqueueLeds(o.side, b.Edited(Unindex(o.orderId)).On(o.side), Resting(o, true), id);
      SumByOne(Resting(o, true), OneLed(id));
    }
  }

  lemma EditOneEach(b: Book, ed: Edit)
    requires OneEach(b)
    ensures OneEach(b.Edited(ed))
  {
    forall id ensures Led(b.Edited(ed).bids, id) + Led(b.Edited(ed).asks, id) <= 1 {
      assert Led(b.bids, id) + Led(b.asks, id) <= 1;
      EditLeds(b.bids, ed, id);
      EditLeds(b.asks, ed, id);
    }
  }

  lemma FirstOneEach(b: Book, s: Side, first: seq<Resting>)
    requires OneEach(b) && b.On(s) != []
    requires first == [] || (|first| == 1 && first[0].indexed == b.On(s)[0].indexed
                             && first[0].order.orderId == b.On(s)[0].order.orderId)
    ensures OneEach(b.With(s, first + b.On(s)[1..]))
  {
    var l := b.On(s);
    forall id ensures Led(first + l[1..], id) <= Led(l, id) {
      SumByConcat(first, l[1..], OneLed(id));
    }
    forall id ensures var b' := b.With(s, first + l[1..]); Led(b'.bids, id) + Led(b'.asks, id) <= 1 {
      assert Led(b.bids, id) + Led(b.asks, id) <= 1;
      assert Led(first + l[1..], id) <= Led(l, id);
    }
  }

  lemma {:induction false} MatchOneEach(b: Book, taker: OrderId, side: Side, limit: Price, qty: Qty)
    requires OneEach(b)
    ensures OneEach(Match(b, taker, side, limit, qty).1)
    decreases |b.On(side.Opposite())|
  {
    hide OneEach, Apply;
    var s := side.Opposite();
    var l := b.On(s);
    if qty > 0 && WouldCross(b, side, limit) {
      var o := l[0].order;
      if qty >= o.qtyRem {
        FirstOneEach(b, s, []);
        assert [] + l[1..] == l[1..];
        EditOneEach(b.With(s, l[1..]), Unindex(o.orderId));
        MatchWholeMaker(b, taker, side, limit, qty);
        UnindexIs(o.orderId, l[1..]);
        MatchOneEach(b.With(s, l[1..]).Edited(Unindex(o.orderId)), taker, side, limit, qty - o.qtyRem);
      } else {
        var o' := o.(qtyRem := o.qtyRem - qty);
        FirstOneEach(b, s, [l[0].(order := o')]);
        MatchPartOfMaker(b, taker, side, limit, qty);
      }
    }
  }

  lemma NewOneEach(st: EngineState, no: NewOrder)
    requires BookOk(st.book) && OneEach(st.book)
    ensures OneEach(NewStep(st, no).state.book)
  {
    hide OneEach, BookOk, Refusal, Insert;
    if Refusal(st, no).None? {
      MatchOneEach(st.book, no.orderId, no.side, no.price, no.qty);
      InsertOneEach(MatchStep(st, no).state.book, OrderFrom(no, Remainder(st.book, no)));
    }
  }

  lemma StepOneEach(st: EngineState, cmd: Command)
    requires BookOk(st.book) && OneEach(st.book)
    ensures OneEach(Step(st, cmd).state.book)
  {
    hide OneEach, BookOk, NewStep, Lookup;
    match cmd {
      case New(no) => NewOneEach(st, no);
      case CancelOrder(c) => EditOneEach(st.book, Remove(c.orderId));
      case ReplaceOrder(r) =>
        EditOneEach(st.book, Remove(r.orderId));
        CancelKeepsOk(st.book, r.orderId, r.accountId);
        if Cancellable(st.book, r.orderId, r.accountId) {
          NewOneEach(st.(book := CancelIn(st.book, r.orderId, r.accountId)),
                     Replacement(Lookup(st.book, r.orderId).value, r));
        }
      case _ =>
    }
  }

  lemma {:induction false} RunOneEach(st: EngineState, cmds: seq<Command>)
    requires BookOk(st.book) && OneEach(st.book)
    ensures OneEach(Run(st, cmds).state.book)
    decreases |cmds|
  {
    if cmds != [] {
      StepOneEach(st, cmds[0]);
      RunOneEach(Step(st, cmds[0]).state, cmds[1..]);
    }
  }

  // ----- what others do to an account -----

  lemma HeldFirst(r: Resting, l: seq<Resting>, a: AccountId)
    ensures HeldBy(Orders([r] + l), a) == (if r.order.accountId == a then r.order.qtyRem else 0) + HeldBy(Orders(l), a)
  {
    assert Orders([r] + l)[1..] == Orders(l);
  }

  lemma {:induction false} HeldNonNeg(os: seq<Order>, a: AccountId)
    requires forall i :: 0 <= i < |os| ==> os[i].qtyRem > 0
    ensures HeldBy(os, a) >= 0
  {
    if os != [] {
      HeldNonNeg(os[1..], a);
    }
  }

  /** Quantity the fills take from an account's resting orders. */
  function MadeFor(a: AccountId): MatchFill -> Qty {
    (f: MatchFill) => if f.makerAccountId == a then f.qty else 0
  }

  function MadeBy(fs: seq<MatchFill>, a: AccountId): Qty {
    SumBy(fs, MadeFor(a))
  }

  lemma {:induction false} GreedyTakes(s: Side, os: seq<Order>, taker: OrderId, limit: Price, qty: Qty, a: AccountId)
    requires forall i :: 0 <= i < |os| ==> os[i].qtyRem > 0
    ensures var (fs, rest) := Greedy(s, os, taker, limit, qty);
            HeldBy(rest, a) == HeldBy(os, a) - MadeBy(fs, a) && MadeBy(fs, a) >= 0
  {
    if qty > 0 && os != [] && Reaches(s, limit, os[0].price) {
      var f := MatchFill(os[0].orderId, os[0].accountId, taker, os[0].price, Min(qty, os[0].qtyRem));
      if qty < os[0].qtyRem {
        SumByOne(f, MadeFor(a));
        SumByFirst(os[0].(qtyRem := os[0].qtyRem - qty), os[1..], QtyFor(a));
      } else {
        GreedyTakes(s, os[1..], taker, limit, qty - os[0].qtyRem, a);
        SumByFirst(f, Greedy(s, os[1..], taker, limit, qty - os[0].qtyRem).0, MadeFor(a));
      }
    }
  }

  /** As maker only, an account moves by what its resting orders trade. */
  lemma {:induction false} MakerMoves(no: NewOrder, fs: seq<MatchFill>, a: AccountId)
    requires AllPositive(fs) && a != no.accountId
    ensures SignedSum(LegsOf(TradesOf(no, fs), a)) == Signed(no.side.Opposite(), MadeBy(fs, a))
    decreases |fs|
  {
    if fs != [] {
      var init := fs[..|fs| - 1];
      MakerMoves(no, init, a);
      var ts := TradesOf(no, fs);
      assert ts[..|ts| - 1] == TradesOf(no, init);
      SumByConcat(LegsOf(TradesOf(no, init), a), LegsIn(ts[|ts| - 1], a), LotsOf);
      SignedSumOfTrade(ts[|ts| - 1], a);
      assert fs == init + [fs[|fs| - 1]];
      SumByConcat(init, [fs[|fs| - 1]], MadeFor(a));
      SumByOne(fs[|fs| - 1], MadeFor(a));
    }
  }

  /** What leaves an account's resting orders has moved its position: buys up, sells down. */
  predicate Drifted(st: EngineState, st': EngineState, a: AccountId) {
    && LimitsOf(st'.accounts, a) == LimitsOf(st.accounts, a)
    && RestingQty(st'.book, Buy, a) <= RestingQty(st.book, Buy, a)
    && RestingQty(st'.book, Sell, a) <= RestingQty(st.book, Sell, a)
    && NetOf(st', a) == NetOf(st, a) + (RestingQty(st.book, Buy, a) - RestingQty(st'.book, Buy, a))
                                     - (RestingQty(st.book, Sell, a) - RestingQty(st'.book, Sell, a))
  }

  lemma MatchDrifts(st: EngineState, no: NewOrder, a: AccountId)
    requires BookOk(st.book) && no.accountId != a
    ensures Drifted(st, MatchStep(st, no).state, a)
  {
    hide HeldBy, MadeBy, LegsOf, SignedSum, AfterLegs, ApplyTrades;
    var s := no.side.Opposite();
    var fs := FillsFor(st.book, no);
    MatchIsGreedy(st.book, no.orderId, no.side, no.price, no.qty);
    BookOrdersOk(st.book, s);
    GreedyTakes(s, Orders(st.book.On(s)), no.orderId, no.price, no.qty, a);
    MakerMoves(no, fs, a);
    PositionFromLegs(st.accounts.positions, TradesOf(no, fs), a);
    LegsAddUp(PositionOf(st.accounts.positions, a), LegsOf(TradesOf(no, fs), a));
  }

  lemma {:induction false} EnqueueHeld(s: Side, l: seq<Resting>, r: Resting, a: AccountId)
    requires r.order.accountId != a
    ensures HeldBy(Orders(Enqueue(s, l, r)), a) == HeldBy(Orders(l), a)
  {
    if l == [] || Rank(s, l[0].order.price) > Rank(s, r.order.price) {
      HeldFirst(r, l, a);
    } else {
      EnqueueHeld(s, l[1..], r, a);
      assert l == [l[0]] + l[1..];
      HeldFirst(l[0], l[1..], a);
      HeldFirst(l[0], Enqueue(s, l[1..], r), a);
    }
  }

  lemma InsertHeld(b: Book, o: Order, a: AccountId, s: Side)
    requires o.accountId != a
    ensures RestingQty(Insert(b, o), s, a) == RestingQty(b, s, a)
  {
    OrdersUnindex(o.orderId, b.On(s));
    EnqueueHeld(o.side, b.Edited(Unindex(o.orderId)).On(o.side), Resting(o, true), a);
  }

  /** The orders that an id leads to are not the account's. */
  predicate NotTheirs(l: seq<Resting>, id: OrderId, a: AccountId) {
    forall r :: r in l && r.indexed && r.order.orderId == id ==> r.order.accountId != a
  }

  lemma {:induction false} RemoveHeld(l: seq<Resting>, id: OrderId, a: AccountId)
    requires NotTheirs(l, id, a)
    ensures HeldBy(Orders(Apply(Remove(id), l)), a) == HeldBy(Orders(l), a)
  {
    if l != [] {
      assert l == [l[0]] + l[1..];
      RemoveHeld(l[1..], id, a);
      HeldFirst(l[0], l[1..], a);
      var rest := Apply(Remove(id), l[1..]);
      if ApplyOne(Remove(id), l[0]) == [] {
        assert Apply(Remove(id), l) == rest;
        assert l[0] in l;
      } else {
        assert Apply(Remove(id), l) == [l[0]] + rest;
        HeldFirst(l[0], rest, a);
      }
    }
  }

  lemma {:induction false} LedToOne(l: seq<Resting>, id: OrderId)
    requires Led(l, id) <= 1
    ensures forall r :: r in l && r.indexed && r.order.orderId == id ==> LookupIn(l, id) == Some(r.order)
    ensures Led(l, id) == 0 ==> forall r :: r in l && r.indexed ==> r.order.orderId != id
  {
    if l != [] {
      LedToOne(l[1..], id);
      assert l == [l[0]] + l[1..];
    }
  }

  lemma CancelHeld(b: Book, id: OrderId, c: AccountId, a: AccountId, s: Side)
    requires OneEach(b) && c != a
    ensures RestingQty(CancelIn(b, id, c), s, a) == RestingQty(b, s, a)
  {
    if Cancellable(b, id, c) {
      assert Led(b.bids, id) + Led(b.asks, id) <= 1;
      SumByConcat(b.bids, b.asks, OneLed(id));
      LedToOne(b.bids + b.asks, id);
      assert forall r :: r in b.On(s) ==> r in b.bids + b.asks;
      RemoveHeld(b.On(s), id, a);
    }
  }

  lemma NewDrifts(st: EngineState, no: NewOrder, a: AccountId)
    requires BookOk(st.book) && no.accountId != a
    ensures Drifted(st, NewStep(st, no).state, a)
  {
    hide BookOk, Refusal, Insert, MatchStep, RestingQty;
    if Refusal(st, no).None? {
      var matched := MatchStep(st, no).state;
      MatchDrifts(st, no, a);
      InsertHeld(matched.book, OrderFrom(no, Remainder(st.book, no)), a, Buy);
      InsertHeld(matched.book, OrderFrom(no, Remainder(st.book, no)), a, Sell);
    }
  }

  lemma StepDrifts(st: EngineState, cmd: Command, a: AccountId)
    requires BookOk(st.book) && OneEach(st.book) && ByAnother(cmd, a)
    ensures Drifted(st, Step(st, cmd).state, a)
  {
    hide BookOk, OneEach, NewStep, Lookup, CancelIn, RestingQty;
    match cmd {
      case New(no) => NewDrifts(st, no, a);
      case CancelOrder(c) =>
        CancelHeld(st.book, c.orderId, c.accountId, a, Buy);
        CancelHeld(st.book, c.orderId, c.accountId, a, Sell);
      case ReplaceOrder(r) =>
        CancelHeld(st.book, r.orderId, r.accountId, a, Buy);
        CancelHeld(st.book, r.orderId, r.accountId, a, Sell);
        CancelKeepsOk(st.book, r.orderId, r.accountId);
        if Cancellable(st.book, r.orderId, r.accountId) {
          NewDrifts(st.(book := CancelIn(st.book, r.orderId, r.accountId)),
                    Replacement(Lookup(st.book, r.orderId).value, r), a);
        }
      case _ =>
    }
  }

  /** Over any run of others' commands, an account's position moves by exactly what leaves its resting orders. */
  lemma {:induction false} RunDrifts(st: EngineState, cmds: seq<Command>, a: AccountId)
    requires BookOk(st.book) && OneEach(st.book) && AllByOthers(cmds, a)
    ensures Drifted(st, Run(st, cmds).state, a)
    decreases |cmds|
  {
    if cmds != [] {
      StepDrifts(st, cmds[0], a);
      StepOneEach(st, cmds[0]);
      RunDrifts(Step(st, cmds[0]).state, cmds[1..], a);
    }
  }

  lemma RestingNonNeg(b: Book, s: Side, a: AccountId)
    requires BookOk(b)
    ensures RestingQty(b, s, a) >= 0
  {
    assert ListOk(s, b.On(s));
    HeldNonNeg(Orders(b.On(s)), a);
  }

  // ----- the worst that can happen -----

  /** The order that takes everything resting on a side. */
  function Sweeper(st: EngineState, s: Side, b: AccountId): NewOrder
    requires st.book.On(s) != []
  {
    var os := Orders(st.book.On(s));
    NewOrder(0, 0, b, st.symbolId, s.Opposite(), os[|os| - 1].price, Total(os), Ioc, false)
  }

  /** Limits that let it through. */
  function WideLimits(st: EngineState, s: Side, b: AccountId): RiskLimits {
    var room := Total(Orders(st.book.On(s))) + Abs(NetOf(st, b));
    RiskLimits(room, room, room)
  }

  function Sweep(st: EngineState, s: Side, b: AccountId): seq<Command> {
    if st.book.On(s) == [] then []
    else [SetLimits(0, b, st.symbolId, WideLimits(st, s, b)), New(Sweeper(st, s, b))]
  }

  lemma {:induction false} AllWithin(s: Side, limit: Price, os: seq<Order>)
    requires forall i :: 0 <= i < |os| ==> Reaches(s, limit, os[i].price)
    ensures DepthWithin(s, limit, os) == Total(os)
  {
    if os != [] {
      AllWithin(s, limit, os[1..]);
    }
  }

  lemma {:induction false} NothingLeft(os: seq<Order>)
    requires forall i :: 0 <= i < |os| ==> os[i].qtyRem > 0
    ensures Total(os) >= 0 && (Total(os) == 0 <==> os == [])
  {
    if os != [] {
      NothingLeft(os[1..]);
    }
  }

  /** Matched at the worst price for the whole depth, a side is empty. */
  lemma SweepEmpties(b: Book, s: Side, no: NewOrder)
    requires BookOk(b) && b.On(s) != []
    requires var os := Orders(b.On(s)); no.side == s.Opposite() && no.price == os[|os| - 1].price && no.qty == Total(os)
    ensures no.qty > 0 && FillTotal(FillsFor(b, no)) == no.qty
    ensures Orders(Match(b, no.orderId, no.side, no.price, no.qty).1.On(s)) == []
  {
    var os := Orders(b.On(s));
    BookOrdersOk(b, s);
    NothingLeft(os);
    AllWithin(s, no.price, os);
    MatchIsMaximal(b, no.orderId, no.side, no.price, no.qty);
    MatchIsGreedy(b, no.orderId, no.side, no.price, no.qty);
    BookOrdersOk(Match(b, no.orderId, no.side, no.price, no.qty).1, s);
    NothingLeft(Orders(Match(b, no.orderId, no.side, no.price, no.qty).1.On(s)));
  }

  /** The engine after the limits have been widened. */
  function Widened(st: EngineState, s: Side, b: AccountId): EngineState
    requires BookOk(st.book)
  {
    Step(st, SetLimits(0, b, st.symbolId, WideLimits(st, s, b))).state
  }

  lemma SweeperIsAccepted(st: EngineState, s: Side, b: AccountId)
    requires BookOk(st.book) && st.book.On(s) != []
    ensures Refusal(Widened(st, s, b), Sweeper(st, s, b)).None?
    ensures Widened(st, s, b).book == st.book
  {
    BookOrdersOk(st.book, s);
    NothingLeft(Orders(st.book.On(s)));
  }

  lemma HeldNone(a: AccountId)
    ensures HeldBy([], a) == 0
  {
  }

  lemma SweptSides(st: EngineState, s: Side, b: AccountId, a: AccountId)
    requires BookOk(st.book) && st.book.On(s) != []
    ensures var after := NewStep(Widened(st, s, b), Sweeper(st, s, b)).state.book;
            RestingQty(after, s, a) == 0 && RestingQty(after, s.Opposite(), a) == RestingQty(st.book, s.Opposite(), a)
  {
    hide BookOk, Refusal, Match, Widened, HeldBy;
    var no := Sweeper(st, s, b);
    SweeperIsAccepted(st, s, b);
    SweepEmpties(st.book, s, no);
    MatchIsGreedy(st.book, no.orderId, no.side, no.price, no.qty);
    assert HeldBy([], a) == 0 by {
      HeldNone(a);
    }
  }

  lemma TwoCommands(st: EngineState, x: Command, y: Command)
    requires BookOk(st.book)
    ensures Run(st, [x, y]).state == Step(Step(st, x).state, y).state
  {
    assert [x, y][1..] == [y];
    RunOne(Step(st, x).state, y);
  }

  /** Another account can empty a side, whatever rests there. */
  lemma SweepRuns(st: EngineState, s: Side, a: AccountId)
    requires BookOk(st.book)
    ensures var cmds := Sweep(st, s, a + 1);
            && AllByOthers(cmds, a)
            && RestingQty(Run(st, cmds).state.book, s, a) == 0
            && RestingQty(Run(st, cmds).state.book, s.Opposite(), a) == RestingQty(st.book, s.Opposite(), a)
  {
    if st.book.On(s) == [] {
      HeldNone(a);
    } else {
      var cmds := Sweep(st, s, a + 1);
      SweptSides(st, s, a + 1, a);
      TwoCommands(st, cmds[0], cmds[1]);
    }
  }

  // ----- the theorem -----

  /** Whatever others do, the account stays within its limits. */
  ghost predicate AlwaysWithin(st: EngineState, a: AccountId)
    requires BookOk(st.book)
  {
    forall cmds :: AllByOthers(cmds, a) ==> Within(Run(st, cmds).state, a)
  }

  /** Over all runs of others' commands an account stays within its limits exactly when its position would
      be within them with all its resting buys filled, and with all its resting sells filled. */
  lemma OthersKeepWithinIff(st: EngineState, a: AccountId)
    requires BookOk(st.book) && OneEach(st.book)
    ensures AlwaysWithin(st, a) <==> CoversResting(st, a)
  {
    hide Run, OneEach, BookOk, RestingQty, Sweep;
    RestingNonNeg(st.book, Buy, a);
    RestingNonNeg(st.book, Sell, a);
    if CoversResting(st, a) {
      forall cmds | AllByOthers(cmds, a) ensures Within(Run(st, cmds).state, a) {
        RunDrifts(st, cmds, a);
        RestingNonNeg(Run(st, cmds).state.book, Buy, a);
        RestingNonNeg(Run(st, cmds).state.book, Sell, a);
      }
    }
    if AlwaysWithin(st, a) {
      SweepRuns(st, Buy, a);
      RunDrifts(st, Sweep(st, Buy, a + 1), a);
      assert Within(Run(st, Sweep(st, Buy, a + 1)).state, a);
      SweepRuns(st, Sell, a);
      RunDrifts(st, Sweep(st, Sell, a + 1), a);
      assert Within(Run(st, Sweep(st, Sell, a + 1)).state, a);
    }
  }

  // ----- an account past its limit -----

  /** An order that does not cross rests whole, and nothing else happens. */
  lemma NewRests(st: EngineState, no: NewOrder)
    requires BookOk(st.book) && Refusal(st, no).None? && no.tif.Gtc? && !WouldCross(st.book, no.side, no.price)
    ensures NewStep(st, no).state == st.(book := Insert(st.book, OrderFrom(no, no.qty)), serverSeq := st.serverSeq + 2)
  {
    hide BookOk, PlaceStep, Insert, WouldCross;
    NothingToMatch(st, no);
  }

  lemma InsertSecond(first: Order, o: Order)
    requires first.side == o.side && first.price == o.price && first.orderId != o.orderId
    ensures Insert(Alone(first), o) == EMPTY_BOOK.With(o.side, [Resting(first, true), Resting(o, true)])
  {
    var r, r' := Resting(first, true), Resting(o, true);
    assert [r][1..] == [] && [r] + [] == [r] && [r'] + [] == [r'] && [r] + [r'] == [r, r'];
    assert Apply(Unindex(o.orderId), [r]) == [r];
    assert Enqueue(o.side, [], r') == [r'];
  }

  /** Account 1 may hold ten lots either way, and rests two buy orders of ten. */
  function TwoBuys(): seq<Command> {
    [SetLimits(0, 1, 1, RiskLimits(10, 10, 10)),
     New(NewOrder(1, 1, 1, 1, Buy, 100, 10, Gtc, false)),
     New(NewOrder(2, 2, 1, 1, Buy, 100, 10, Gtc, false))]
  }

  lemma StartedOneEach()
    ensures OneEach(EMPTY_BOOK)
  {
  }

  /** A fresh engine that has been told one account's limits. */
  function Limited(a: AccountId, limits: RiskLimits): EngineState {
    Step(STARTED, SetLimits(0, a, 1, limits)).state
  }

  lemma LimitedAccepts(a: AccountId, limits: RiskLimits, b: Book, no: NewOrder)
    requires no.accountId == a && no.symbolId == 1 && no.side.Buy? && !no.postOnly
    requires 0 < no.qty <= limits.maxOrderSize && no.qty <= limits.maxLong && 0 <= limits.maxShort
    ensures Refusal(Limited(a, limits).(book := b), no).None?
  {
  }

  lemma SameRefusal(st: EngineState, st': EngineState, no: NewOrder)
    requires st'.symbolId == st.symbolId && st'.book == st.book && st'.accounts == st.accounts
    ensures Refusal(st', no) == Refusal(st, no)
  {
  }

  lemma NoBidsNoCross(first: Order, no: NewOrder)
    requires first.side == no.side
    ensures !WouldCross(Alone(first), no.side, no.price)
  {
  }

  lemma TwoHeld(x: Order, y: Order)
    requires x.accountId == y.accountId && x.side.Buy?
    ensures var b := EMPTY_BOOK.With(x.side, [Resting(x, true), Resting(y, true)]);
            RestingQty(b, Buy, x.accountId) == x.qtyRem + y.qtyRem && RestingQty(b, Sell, x.accountId) == 0
  {
    var r, r' := Resting(x, true), Resting(y, true);
    assert [r, r'] == [r] + [r'] && [r'] == [r'] + [];
    HeldFirst(r, [r'], x.accountId);
    HeldFirst(r', [], x.accountId);
  }

  lemma ThreeCommands(st: EngineState, x: Command, y: Command, z: Command)
    requires BookOk(st.book)
    ensures Run(st, [x, y, z]).state == Step(Step(Step(st, x).state, y).state, z).state
  {
    assert [x, y, z][1..] == [y, z];
    TwoCommands(Step(st, x).state, y, z);
  }

  lemma TwoBuysRest()
    ensures var st := Run(STARTED, TwoBuys()).state;
            && RestingQty(st.book, Buy, 1) == 20 && RestingQty(st.book, Sell, 1) == 0
            && NetOf(st, 1) == 0 && LimitsOf(st.accounts, 1) == RiskLimits(10, 10, 10) && OneEach(st.book)
  {
    hide Run, OneEach, NewStep, Insert, HeldBy, PlaceStep, WouldCross;
    var x, y := TwoBuys()[1].no, TwoBuys()[2].no;
    var first, second := OrderFrom(x, 10), OrderFrom(y, 10);
    var st1 := Limited(1, RiskLimits(10, 10, 10));
    LimitedAccepts(1, RiskLimits(10, 10, 10), EMPTY_BOOK, x);
    FirstOrderRests(st1, x);
    LimitedAccepts(1, RiskLimits(10, 10, 10), Alone(first), y);
    var st2 := NewStep(st1, x).state;
    SameRefusal(st1.(book := Alone(first)), st2, y);
    NoBidsNoCross(first, y);
    NewRests(st2, y);
    InsertSecond(first, second);
    TwoHeld(first, second);
    ThreeCommands(STARTED, TwoBuys()[0], TwoBuys()[1], TwoBuys()[2]);
    StartedOneEach();
    RunOneEach(STARTED, TwoBuys());
  }

  /** Two resting buys, each within the limit, and then another account's sale: the position is past the limit. */
  lemma RestingOrdersPassLimit() returns (others: seq<Command>)
    ensures AllByOthers(others, 1)
    ensures Within(Run(STARTED, TwoBuys()).state, 1)
    ensures NetOf(Run(STARTED, TwoBuys() + others).state, 1) == 20
    ensures !Within(Run(STARTED, TwoBuys() + others).state, 1)
  {
    hide Run, OneEach, RestingQty, Sweep, TwoBuys, Step;
    TwoBuysRest();
    var st := Run(STARTED, TwoBuys()).state;
    others := Sweep(st, Buy, 2);
    SweepRuns(st, Buy, 1);
    RunDrifts(st, others, 1);
    RunConcat(STARTED, TwoBuys(), others);
  }
}
