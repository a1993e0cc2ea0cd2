/** When the order-id index holds exactly the live orders: the engine does not check that a new id is
    fresh, so this is a property of the ids it is given. */
module IndexExact {
  import opened Common
  import opened Finite
  import opened PriceTimeBook
  import opened EngineSpec
  import opened EngineRuns

  function OneUnder(id: OrderId): Resting -> int {
    (r: Resting) => if r.order.orderId == id then 1 else 0
  }

  function Count(l: seq<Resting>, id: OrderId): nat {
    SumByNonNeg(l, OneUnder(id));
    SumBy(l, OneUnder(id))
  }

  function CountIn(b: Book, id: OrderId): nat {
    Count(b.bids, id) + Count(b.asks, id)
  }

  predicate Flagged(l: seq<Resting>) {
    forall r :: r in l ==> r.indexed
  }

  /** Live ids are distinct and each leads to its order. */
  ghost predicate Exact(b: Book) {
    && Flagged(b.bids)
    && Flagged(b.asks)
    && forall id :: CountIn(b, id) <= 1
  }

  lemma {:induction false} CountZero(l: seq<Resting>, id: OrderId)
    ensures Count(l, id) == 0 <==> forall r :: r in l ==> r.order.orderId != id
  {
    if l != [] {
      CountZero(l[1..], id);
      assert l == [l[0]] + l[1..];
    }
  }

  /** Unindexing an id that no entry carries changes nothing. */
  lemma {:induction false} UnindexAbsent(l: seq<Resting>, id: OrderId)
    requires Count(l, id) == 0
    ensures Apply(Unindex(id), l) == l
  {
    if l != [] {
      UnindexAbsent(l[1..], id);
      assert l == [l[0]] + l[1..];
    }
  }

  lemma {:induction false} UnindexCount(l: seq<Resting>, gone: OrderId, id: OrderId)
    ensures Count(Apply(Unindex(gone), l), id) == Count(l, id)
  {
    if l != [] {
      UnindexCount(l[1..], gone, id);
      var h, t := ApplyOne(Unindex(gone), l[0]), Apply(Unindex(gone), l[1..]);
      assert (h + t)[0] == h[0] && (h + t)[1..] == t;
    }
  }

  lemma {:induction false} RemoveCount(l: seq<Resting>, gone: OrderId, id: OrderId)
    ensures Count(Apply(Remove(gone), l), id) <= Count(l, id)
    ensures forall r :: r in Apply(Remove(gone), l) ==> r in l
  {
    if l != [] {
      RemoveCount(l[1..], gone, id);
      var h, t := ApplyOne(Remove(gone), l[0]), Apply(Remove(gone), l[1..]);
      assert h == [] || h == [l[0]];
      SumByConcat(h, t, OneUnder(id));
      assert [l[0]][1..] == [];
    }
  }

  lemma {:induction false} EnqueueCount(s: Side, l: seq<Resting>, r: Resting, id: OrderId)
    ensures Count(Enqueue(s, l, r), id) == Count(l, id) + (if r.order.orderId == id then 1 else 0)
    ensures forall x :: x in Enqueue(s, l, r) <==> x == r || x in l
  {
    if l == [] || Rank(s, l[0].order.price) > Rank(s, r.order.price) {
      assert ([r] + l)[1..] == l;
    } else {
      EnqueueCount(s, l[1..], r, id);
      assert l == [l[0]] + l[1..];
      assert ([l[0]] + Enqueue(s, l[1..], r))[1..] == Enqueue(s, l[1..], r);
    }
  }

  lemma InsertCounts(b: Book, o: Order, id: OrderId)
    ensures CountIn(Insert(b, o), id) == CountIn(b, id) + (if o.orderId == id then 1 else 0)
  {
    UnindexCount(b.bids, o.orderId, id);
    UnindexCount(b.asks, o.orderId, id);
    EnqueueCount(o.side, b.Edited(Unindex(o.orderId)).On(o.side), Resting(o, true), id);
  }

  /** An insertion keeps the index exact exactly when the id is not live. */
  lemma InsertExactIffFresh(b: Book, o: Order)
    requires Exact(b)
    ensures Exact(Insert(b, o)) <==> CountIn(b, o.orderId) == 0
  {
    forall id ensures CountIn(Insert(b, o), id) == CountIn(b, id) + (if o.orderId == id then 1 else 0) {
      InsertCounts(b, o, id);
    }
    if CountIn(b, o.orderId) == 0 {
      UnindexAbsent(b.bids, o.orderId);
      UnindexAbsent(b.asks, o.orderId);
      EnqueueCount(o.side, b.On(o.side), Resting(o, true), o.orderId);
    }
  }

  /** Two orders under one id: both rest, but only the second can be looked up, cancelled or replaced. */
  lemma DuplicateIdHidesOrder() returns (first: Order, second: Order)
    ensures first != second && first.orderId == second.orderId
    ensures var b := Insert(Insert(EMPTY_BOOK, first), second);
            && CountIn(b, first.orderId) == 2
            && Lookup(b, first.orderId) == Some(second)
            && !Exact(b)
  {
    first := Order(7, 3, 1, Buy, 100, 5, Gtc, false);
    second := first.(accountId := 4);
    var b1 := Insert(EMPTY_BOOK, first);
    InsertCounts(EMPTY_BOOK, first, 7);
    InsertCounts(b1, second, 7);
    assert b1 == Book([Resting(first, true)], []);
    var l := [Resting(first, false), Resting(second, true)];
    assert Insert(b1, second) == Book(l, []);
    assert l + [] == l && l[1..] == [Resting(second, true)];
  }

  lemma EditKeepsExact(b: Book, id: OrderId)
    requires Exact(b)
    ensures Exact(b.Edited(Remove(id)))
    ensures forall x :: CountIn(b.Edited(Remove(id)), x) <= CountIn(b, x)
  {
    forall x ensures CountIn(b.Edited(Remove(id)), x) <= CountIn(b, x) {
      RemoveCount(b.bids, id, x);
      RemoveCount(b.asks, id, x);
    }
    RemoveCount(b.bids, id, id);
    RemoveCount(b.asks, id, id);
  }

  lemma DropFirstCount(b: Book, s: Side, id: OrderId)
    requires b.On(s) != []
    ensures CountIn(b, id) == CountIn(b.With(s, b.On(s)[1..]), id) + (if b.On(s)[0].order.orderId == id then 1 else 0)
  {
  }

  /** A used-up first order takes its id with it, so there is nothing left to unindex. */
  lemma DropFirstExact(b: Book, s: Side)
    requires Exact(b) && b.On(s) != []
    ensures var rest := b.With(s, b.On(s)[1..]);
            && Exact(rest)
            && rest.Edited(Unindex(b.On(s)[0].order.orderId)) == rest
            && forall x :: CountIn(rest, x) <= CountIn(b, x)
  {
    hide Count, Apply;
    var rest := b.With(s, b.On(s)[1..]);
    var id := b.On(s)[0].order.orderId;
    forall x ensures CountIn(rest, x) + (if x == id then 1 else 0) == CountIn(b, x) {
      DropFirstCount(b, s, x);
    }
    assert CountIn(b, id) <= 1;
    UnindexAbsent(rest.bids, id);
    UnindexAbsent(rest.asks, id);
  }

  lemma CutFirstCount(b: Book, s: Side, r: Resting, id: OrderId)
    requires b.On(s) != [] && r.order.orderId == b.On(s)[0].order.orderId
    ensures CountIn(b.With(s, [r] + b.On(s)[1..]), id) == CountIn(b, id)
  {
    assert ([r] + b.On(s)[1..])[1..] == b.On(s)[1..];
  }

  lemma CutFirstExact(b: Book, s: Side, qtyRem: Qty)
    requires Exact(b) && b.On(s) != []
    ensures var l := b.On(s);
            var b' := b.With(s, [l[0].(order := l[0].order.(qtyRem := qtyRem))] + l[1..]);
            Exact(b') && forall x :: CountIn(b', x) == CountIn(b, x)
  {
    hide Count;
    var l := b.On(s);
    var r := l[0].(order := l[0].order.(qtyRem := qtyRem));
    forall x ensures CountIn(b.With(s, [r] + l[1..]), x) == CountIn(b, x) {
      CutFirstCount(b, s, r, x);
    }
    assert l[0] in l;
  }

  /** Matching forgets exactly the ids it uses up. */
  lemma {:induction false} MatchKeepsExact(b: Book, taker: OrderId, side: Side, limit: Price, qty: Qty)
    requires Exact(b)
    ensures Exact(Match(b, taker, side, limit, qty).1)
    ensures forall x :: CountIn(Match(b, taker, side, limit, qty).1, x) <= CountIn(b, x)
    decreases |b.On(side.Opposite())|
  {
    hide Exact, Apply, CountIn;
    var s := side.Opposite();
    var l := b.On(s);
    if qty > 0 && WouldCross(b, side, limit) {
      var r := l[0];
      if qty >= r.order.qtyRem {
        var rest := b.With(s, l[1..]);
        DropFirstExact(b, s);
        MatchKeepsExact(rest, taker, side, limit, qty - r.order.qtyRem);
        MatchWholeMaker(b, taker, side, limit, qty);
      } else {
        CutFirstExact(b, s, r.order.qtyRem - qty);
        MatchPartOfMaker(b, taker, side, limit, qty);
      }
    }
  }

  lemma {:induction false} FindsFlagged(l: seq<Resting>, id: OrderId)
    requires Flagged(l)
    ensures LookupIn(l, id).Some? <==> exists r :: r in l && r.order.orderId == id
  {
    if l != [] {
      FindsFlagged(l[1..], id);
      assert l == [l[0]] + l[1..];
    }
  }

  /** In an exact book a lookup finds precisely the live ids. */
  lemma ExactLookup(b: Book, id: OrderId)
    requires Exact(b)
    ensures Lookup(b, id).Some? <==> CountIn(b, id) == 1
  {
    var l := b.bids + b.asks;
    SumByConcat(b.bids, b.asks, OneUnder(id));
    CountZero(l, id);
    FindsFlagged(l, id);
  }

  // ----- runs -----

  /** The command brings in no id that is live when it arrives; a replace re-enters the id it has just removed. */
  predicate FreshCommand(st: EngineState, cmd: Command) {
    cmd.New? ==> CountIn(st.book, cmd.no.orderId) == 0
  }

  predicate FreshRun(st: EngineState, cmds: seq<Command>)
    requires BookOk(st.book)
    decreases |cmds|
  {
    cmds == [] || (FreshCommand(st, cmds[0]) && FreshRun(Step(st, cmds[0]).state, cmds[1..]))
  }

  lemma PlaceKeepsExact(st: EngineState, no: NewOrder)
    requires BookOk(st.book) && Exact(st.book) && CountIn(st.book, no.orderId) == 0
    ensures Exact(PlaceStep(st, no).state.book)
  {
    MatchKeepsExact(st.book, no.orderId, no.side, no.price, no.qty);
    InsertExactIffFresh(MatchStep(st, no).state.book, OrderFrom(no, Remainder(st.book, no)));
  }

  lemma NewKeepsExact(st: EngineState, no: NewOrder)
    requires BookOk(st.book) && Exact(st.book) && CountIn(st.book, no.orderId) == 0
    ensures Exact(NewStep(st, no).state.book)
  {
    if Refusal(st, no).None? {
      PlaceKeepsExact(st, no);
    }
  }

  lemma {:induction false} CancelRemoves(l: seq<Resting>, id: OrderId)
    requires Flagged(l)
    ensures Count(Apply(Remove(id), l), id) == 0
  {
    if l != [] {
      assert l == [l[0]] + l[1..];
      CancelRemoves(l[1..], id);
      SumByConcat(ApplyOne(Remove(id), l[0]), Apply(Remove(id), l[1..]), OneUnder(id));
    }
  }

  lemma StepKeepsExact(st: EngineState, cmd: Command)
    requires BookOk(st.book) && Exact(st.book) && FreshCommand(st, cmd)
    ensures Exact(Step(st, cmd).state.book)
  {
    match cmd {
      case New(no) => NewKeepsExact(st, no);
      case CancelOrder(c) => EditKeepsExact(st.book, c.orderId);
      case ReplaceOrder(r) =>
        if r.symbolId == st.symbolId && r.newQty > 0 && Cancellable(st.book, r.orderId, r.accountId) {
          EditKeepsExact(st.book, r.orderId);
          CancelKeepsOk(st.book, r.orderId, r.accountId);
          CancelRemoves(st.book.bids, r.orderId);
          CancelRemoves(st.book.asks, r.orderId);
          NewKeepsExact(st.(book := CancelIn(st.book, r.orderId, r.accountId)),
                        Replacement(Lookup(st.book, r.orderId).value, r));
        }
      case _ =>
    }
  }

  /** With fresh ids the index is exact after every run: any live order can be looked up, cancelled and replaced. */
  lemma {:induction false} IndexIsExact(st: EngineState, cmds: seq<Command>, id: OrderId)
    requires BookOk(st.book) && Exact(st.book) && FreshRun(st, cmds)
    ensures var b := Run(st, cmds).state.book;
            Exact(b) && (Lookup(b, id).Some? <==> CountIn(b, id) == 1)
    decreases |cmds|
  {
    if cmds == [] {
      ExactLookup(st.book, id);
    } else {
      StepKeepsExact(st, cmds[0]);
      IndexIsExact(Step(st, cmds[0]).state, cmds[1..], id);
    }
  }

  // ----- exactly when -----

  /** If the order comes to rest, then under an id that is not live at that moment: refused orders, orders
      that are filled and immediate-or-cancel orders do no harm. */
  predicate RestsFresh(st: EngineState, no: NewOrder)
    requires BookOk(st.book)
  {
    Refusal(st, no).None? && no.tif.Gtc? && Remainder(st.book, no) > 0 ==>
      CountIn(MatchStep(st, no).state.book, no.orderId) == 0
  }

  predicate CommandRestsFresh(st: EngineState, cmd: Command)
    requires BookOk(st.book)
  {
    cmd.New? ==> RestsFresh(st, cmd.no)
  }

  lemma NewExactIff(st: EngineState, no: NewOrder)
    requires BookOk(st.book) && Exact(st.book)
    ensures Exact(NewStep(st, no).state.book) <==> RestsFresh(st, no)
  {
    hide Exact, CountIn, BookOk, Refusal, Insert;
    if Refusal(st, no).None? {
      MatchKeepsExact(st.book, no.orderId, no.side, no.price, no.qty);
      InsertExactIffFresh(MatchStep(st, no).state.book, OrderFrom(no, Remainder(st.book, no)));
    }
  }

  lemma StepExactIff(st: EngineState, cmd: Command)
    requires BookOk(st.book) && Exact(st.book)
    ensures Exact(Step(st, cmd).state.book) <==> CommandRestsFresh(st, cmd)
  {
    hide Exact, BookOk, NewStep, RestsFresh;
    match cmd {
      case New(no) => NewExactIff(st, no);
      case _ => StepKeepsExact(st, cmd);
    }
  }

  predicate AllRestFresh(st: EngineState, cmds: seq<Command>)
    requires BookOk(st.book)
    decreases |cmds|
  {
    cmds == [] || (CommandRestsFresh(st, cmds[0]) && AllRestFresh(Step(st, cmds[0]).state, cmds[1..]))
  }

  /** The index is exact after every command of the run. */
  ghost predicate AlwaysExact(st: EngineState, cmds: seq<Command>)
    requires BookOk(st.book)
    decreases |cmds|
  {
    Exact(st.book) && (cmds == [] || AlwaysExact(Step(st, cmds[0]).state, cmds[1..]))
  }

  lemma NotAlwaysExact(st: EngineState, cmds: seq<Command>)
    requires BookOk(st.book) && !Exact(st.book)
    ensures !AlwaysExact(st, cmds)
  {
  }

  /** The index stays exact throughout a run exactly when every new order that comes to rest does so under an
      id that is not live then. Replaces never do harm. */
  lemma {:induction false} AlwaysExactIff(st: EngineState, cmds: seq<Command>)
    requires BookOk(st.book) && Exact(st.book)
    ensures AlwaysExact(st, cmds) <==> AllRestFresh(st, cmds)
    decreases |cmds|
  {
    if cmds != [] {
      hide Exact, BookOk, Step, CommandRestsFresh;
      var next := Step(st, cmds[0]).state;
      StepExactIff(st, cmds[0]);
      if Exact(next.book) {
        AlwaysExactIff(next, cmds[1..]);
      } else {
        NotAlwaysExact(next, cmds[1..]);
      }
    }
  }
}
