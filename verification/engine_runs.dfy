/** Whole runs of the engine: the book is never crossed, and recovery replays what was executed. */
module EngineRuns {
  import opened Common
  import opened PriceTimeBook
  import opened Matching
  import EngineAccounts
  import opened EngineSpec

  /** The state after a list of commands and all events on the way. */
  function Run(st: EngineState, cmds: seq<Command>): (r: Outcome)
    requires BookOk(st.book)
    ensures BookOk(r.state.book)
    decreases |cmds|
  {
    if cmds == [] then Outcome(st, [])
    else
      var first := Step(st, cmds[0]);
      var rest := Run(first.state, cmds[1..]);
      Outcome(rest.state, first.events + rest.events)
  }

  function ReplayRun(st: EngineState, cmds: seq<Command>): (r: EngineState)
    requires BookOk(st.book)
    ensures BookOk(r.book)
    decreases |cmds|
  {
    if cmds == [] then st else ReplayRun(ReplayStep(st, cmds[0]), cmds[1..])
  }

  lemma {:induction false} RunConcat(st: EngineState, a: seq<Command>, b: seq<Command>)
    requires BookOk(st.book)
    ensures Run(st, a + b).state == Run(Run(st, a).state, b).state
    ensures ReplayRun(st, a + b) == ReplayRun(ReplayRun(st, a), b)
    decreases |a|
  {
    if a == [] {
      assert a + b == b;
    } else {
      assert (a + b)[1..] == a[1..] + b;
      RunConcat(Step(st, a[0]).state, a[1..], b);
      RunConcat(ReplayStep(st, a[0]), a[1..], b);
    }
  }

  // ----- the book is never crossed -----

  function PricesOf(os: seq<Order>): set<Price> {
    set o | o in os :: o.price
  }

  function Prices(l: seq<Resting>): set<Price> {
    PricesOf(Orders(l))
  }

  lemma PricesConcat(a: seq<Order>, b: seq<Order>)
    ensures PricesOf(a + b) == PricesOf(a) + PricesOf(b)
  {
    assert forall o :: o in a + b <==> o in a || o in b;
  }

  lemma SidePricesConcat(a: seq<Resting>, b: seq<Resting>)
    ensures Prices(a + b) == Prices(a) + Prices(b)
  {
    OrdersConcat(a, b);
    PricesConcat(Orders(a), Orders(b));
  }

  /** Every bid is below every ask: what an uncrossed book in price order amounts to. */
  predicate Separated(b: Book) {
    forall p, q :: p in Prices(b.bids) && q in Prices(b.asks) ==> p < q
  }

  lemma HeadIsBest(s: Side, l: seq<Resting>)
    requires ListOk(s, l) && l != []
    ensures l[0].order.price in Prices(l)
    ensures forall p :: p in Prices(l) ==> Rank(s, l[0].order.price) <= Rank(s, p)
  {
    assert Orders(l)[0] in Orders(l);
    forall o | o in Orders(l) ensures Rank(s, l[0].order.price) <= Rank(s, o.price) {
      var i :| 0 <= i < |Orders(l)| && Orders(l)[i] == o;
      assert l[i].order == o;
    }
  }

  lemma SeparatedIffUncrossed(b: Book)
    requires BookOk(b)
    ensures Separated(b) <==> Uncrossed(b)
  {
    if b.bids != [] && b.asks != [] {
      HeadIsBest(Buy, b.bids);
      HeadIsBest(Sell, b.asks);
    }
  }

  lemma {:induction false} GreedyPrices(s: Side, os: seq<Order>, taker: OrderId, limit: Price, qty: Qty)
    ensures PricesOf(Greedy(s, os, taker, limit, qty).1) <= PricesOf(os)
  {
    if qty > 0 && os != [] && Reaches(s, limit, os[0].price) {
      if qty < os[0].qtyRem {
        var o := os[0].(qtyRem := os[0].qtyRem - qty);
        assert forall x :: x in [o] + os[1..] ==> x == o || x in os;
      } else {
        GreedyPrices(s, os[1..], taker, limit, qty - os[0].qtyRem);
      }
    }
  }

  lemma MatchStaysSeparated(b: Book, taker: OrderId, side: Side, limit: Price, qty: Qty)
    requires BookOk(b) && Separated(b)
    ensures Separated(Match(b, taker, side, limit, qty).1)
  {
    MatchIsGreedy(b, taker, side, limit, qty);
    GreedyPrices(side.Opposite(), Orders(b.On(side.Opposite())), taker, limit, qty);
    var b' := Match(b, taker, side, limit, qty).1;
    assert Prices(b'.On(side)) == Prices(b.On(side));
    assert Prices(b'.On(side.Opposite())) <= Prices(b.On(side.Opposite()));
    assert Prices(b'.bids) <= Prices(b.bids) && Prices(b'.asks) <= Prices(b.asks);
  }

  lemma {:induction false} EditPrices(ed: Edit, l: seq<Resting>)
    ensures Prices(Apply(ed, l)) <= Prices(l)
  {
    if l != [] {
      EditPrices(ed, l[1..]);
      assert l == [l[0]] + l[1..];
      SidePricesConcat([l[0]], l[1..]);
      SidePricesConcat(ApplyOne(ed, l[0]), Apply(ed, l[1..]));
      assert Prices(ApplyOne(ed, l[0])) <= Prices([l[0]]) by {
        assert Orders([l[0]]) == [l[0].order];
        assert Orders(ApplyOne(ed, l[0])) == [l[0].order] || Orders(ApplyOne(ed, l[0])) == [];
      }
    }
  }

  lemma EditStaysSeparated(b: Book, ed: Edit)
    requires Separated(b)
    ensures Separated(b.Edited(ed))
  {
    EditPrices(ed, b.bids);
    EditPrices(ed, b.asks);
  }

  lemma {:induction false} EnqueuePrices(s: Side, l: seq<Resting>, r: Resting)
    ensures Prices(Enqueue(s, l, r)) == Prices(l) + {r.order.price}
  {
    if l == [] || Rank(s, l[0].order.price) > Rank(s, r.order.price) {
      SidePricesConcat([r], l);
      assert Orders([r]) == [r.order];
    } else {
      EnqueuePrices(s, l[1..], r);
      assert l == [l[0]] + l[1..];
      SidePricesConcat([l[0]], l[1..]);
      SidePricesConcat([l[0]], Enqueue(s, l[1..], r));
    }
  }

  /** An order whose price reaches nothing on the other side may rest there. */
  lemma InsertStaysSeparated(b: Book, o: Order)
    requires BookOk(b) && Separated(b) && !WouldCross(b, o.side, o.price)
    ensures Separated(Insert(b, o))
  {
    EditStaysSeparated(b, Unindex(o.orderId));
    EnqueuePrices(o.side, b.Edited(Unindex(o.orderId)).On(o.side), Resting(o, true));
    var opp := b.On(o.side.Opposite());
    EditPrices(Unindex(o.orderId), opp);
    if opp != [] {
      HeadIsBest(o.side.Opposite(), opp);
    }
  }

  lemma PlaceStaysUncrossed(st: EngineState, no: NewOrder)
    requires BookOk(st.book) && Uncrossed(st.book) && no.qty > 0
    ensures Uncrossed(PlaceStep(st, no).state.book)
  {
    var b' := MatchStep(st, no).state.book;
    SeparatedIffUncrossed(st.book);
    MatchStaysSeparated(st.book, no.orderId, no.side, no.price, no.qty);
    if Remainder(st.book, no) > 0 && no.tif.Gtc? {
      MatchIsMaximal(st.book, no.orderId, no.side, no.price, no.qty);
      InsertStaysSeparated(b', OrderFrom(no, Remainder(st.book, no)));
    }
    SeparatedIffUncrossed(PlaceStep(st, no).state.book);
  }

  lemma NewStaysUncrossed(st: EngineState, no: NewOrder)
    requires BookOk(st.book) && Uncrossed(st.book)
    ensures Uncrossed(NewStep(st, no).state.book)
  {
    if Refusal(st, no).None? {
      PlaceStaysUncrossed(st, no);
    }
  }

  lemma CancelStaysUncrossed(b: Book, id: OrderId, a: AccountId)
    requires BookOk(b) && Uncrossed(b)
    ensures Uncrossed(CancelIn(b, id, a))
  {
    SeparatedIffUncrossed(b);
    EditStaysSeparated(b, Remove(id));
    CancelKeepsOk(b, id, a);
    SeparatedIffUncrossed(CancelIn(b, id, a));
  }

  lemma StepStaysUncrossed(st: EngineState, cmd: Command)
    requires BookOk(st.book) && Uncrossed(st.book)
    ensures Uncrossed(Step(st, cmd).state.book)
  {
    hide BookOk, Uncrossed, NewStep, Lookup, CancelIn;
    match cmd {
      case New(no) => NewStaysUncrossed(st, no);
      case CancelOrder(c) => CancelStaysUncrossed(st.book, c.orderId, c.accountId);
      case ReplaceOrder(r) =>
        CancelStaysUncrossed(st.book, r.orderId, r.accountId);
        CancelKeepsOk(st.book, r.orderId, r.accountId);
        if Cancellable(st.book, r.orderId, r.accountId) {
          NewStaysUncrossed(st.(book := CancelIn(st.book, r.orderId, r.accountId)),
                            Replacement(Lookup(st.book, r.orderId).value, r));
        }
      case _ =>
    }
  }

  /** After every command of every run the best bid is below the best ask. */
  lemma {:induction false} NeverCrossed(st: EngineState, cmds: seq<Command>)
    requires BookOk(st.book) && Uncrossed(st.book)
    ensures Uncrossed(Run(st, cmds).state.book)
    ensures var b := Run(st, cmds).state.book;
            Top(b.bids).Some? && Top(b.asks).Some? ==> Top(b.bids).value.price < Top(b.asks).value.price
    decreases |cmds|
  {
    if cmds != [] {
      StepStaysUncrossed(st, cmds[0]);
      NeverCrossed(Step(st, cmds[0]).state, cmds[1..]);
    }
  }

  // ----- replay -----

  /** Equal but for the next event number, which replay does not keep. */
  predicate SameEngine(a: EngineState, b: EngineState) {
    a.symbolId == b.symbolId && a.book == b.book && a.accounts == b.accounts
  }

  lemma NewIgnoresSeq(a: EngineState, b: EngineState, no: NewOrder)
    requires BookOk(a.book) && SameEngine(a, b)
    ensures SameEngine(NewStep(a, no).state, NewStep(b, no).state)
  {
    if Refusal(a, no).None? {
      assert SameEngine(MatchStep(a, no).state, MatchStep(b, no).state);
    }
  }

  /** What the engine does never depends on the event number. */
  lemma StepIgnoresSeq(a: EngineState, b: EngineState, cmd: Command)
    requires BookOk(a.book) && SameEngine(a, b)
    ensures SameEngine(Step(a, cmd).state, Step(b, cmd).state)
    ensures SameEngine(ReplayStep(a, cmd), ReplayStep(b, cmd))
  {
    match cmd {
      case New(no) => NewIgnoresSeq(a, b, no);
      case ReplaceOrder(r) =>
        if Cancellable(a.book, r.orderId, r.accountId) {
          CancelKeepsOk(a.book, r.orderId, r.accountId);
          var book := CancelIn(a.book, r.orderId, r.accountId);
          NewIgnoresSeq(a.(book := book), b.(book := book), Replacement(Lookup(a.book, r.orderId).value, r));
        }
      case _ =>
    }
  }

  /** The commands on which replay and live execution agree: all but a cancel that names another
      symbol yet hits a live order of its sender. */
  predicate ReplayAgrees(st: EngineState, cmd: Command) {
    (cmd.CancelOrder? && cmd.cancel.symbolId != st.symbolId) ==>
      !Cancellable(st.book, cmd.cancel.orderId, cmd.cancel.accountId)
  }

  lemma {:induction false} RemoveShrinks(l: seq<Resting>, id: OrderId)
    ensures LookupIn(l, id).Some? <==> Apply(Remove(id), l) != l
    ensures LookupIn(l, id).Some? ==> |Apply(Remove(id), l)| < |l|
  {
    if l != [] {
      RemoveShrinks(l[1..], id);
      assert l == [l[0]] + l[1..];
    }
  }

  /** A cancel that goes through always changes the book. */
  lemma CancelChangesBook(b: Book, id: OrderId, a: AccountId)
    ensures CancelIn(b, id, a) == b <==> !Cancellable(b, id, a)
  {
    RemoveShrinks(b.bids + b.asks, id);
    ApplyConcat(Remove(id), b.bids, b.asks);
    RemoveShrinks(b.bids, id);
    RemoveShrinks(b.asks, id);
  }

  lemma ReplayStepExact(st: EngineState, cmd: Command)
    requires BookOk(st.book)
    ensures SameEngine(ReplayStep(st, cmd), Step(st, cmd).state) <==> ReplayAgrees(st, cmd)
  {
    if cmd.CancelOrder? {
      CancelChangesBook(st.book, cmd.cancel.orderId, cmd.cancel.accountId);
    }
  }

  predicate InStep(st: EngineState, cmds: seq<Command>)
    requires BookOk(st.book)
  {
    SameEngine(ReplayRun(st, cmds), Run(st, cmds).state)
  }

  predicate AgreesAt(st: EngineState, cmds: seq<Command>, n: nat)
    requires BookOk(st.book) && n < |cmds|
  {
    ReplayAgrees(Run(st, cmds[..n]).state, cmds[n])
  }

  lemma RunOne(st: EngineState, cmd: Command)
    requires BookOk(st.book)
    ensures Run(st, [cmd]).state == Step(st, cmd).state
    ensures ReplayRun(st, [cmd]) == ReplayStep(st, cmd)
  {
    assert [cmd][1..] == [];
  }

  lemma {:induction false} LastStep(st: EngineState, cmds: seq<Command>)
    requires BookOk(st.book) && cmds != []
    ensures Run(st, cmds).state == Step(Run(st, cmds[..|cmds| - 1]).state, cmds[|cmds| - 1]).state
    ensures ReplayRun(st, cmds) == ReplayStep(ReplayRun(st, cmds[..|cmds| - 1]), cmds[|cmds| - 1])
  {
    var last := cmds[|cmds| - 1];
    assert cmds == cmds[..|cmds| - 1] + [last];
    RunConcat(st, cmds[..|cmds| - 1], [last]);
    RunOne(Run(st, cmds[..|cmds| - 1]).state, last);
    RunOne(ReplayRun(st, cmds[..|cmds| - 1]), last);
  }

  lemma InStepExtends(st: EngineState, cmds: seq<Command>, n: nat)
    requires BookOk(st.book) && n < |cmds| && InStep(st, cmds[..n])
    ensures InStep(st, cmds[..n + 1]) <==> AgreesAt(st, cmds, n)
  {
    var live, replayed := Run(st, cmds[..n]).state, ReplayRun(st, cmds[..n]);
    assert cmds[..n + 1][..n] == cmds[..n];
    LastStep(st, cmds[..n + 1]);
    StepIgnoresSeq(replayed, live, cmds[n]);
    ReplayStepExact(live, cmds[n]);
  }

  lemma InStepAtStart(st: EngineState, cmds: seq<Command>)
    requires BookOk(st.book)
    ensures InStep(st, cmds[..0])
  {
  }

  lemma {:induction false} InStepWhileAgreeing(st: EngineState, cmds: seq<Command>, n: nat)
    requires BookOk(st.book) && n <= |cmds|
    requires forall m: nat :: m < n ==> AgreesAt(st, cmds, m)
    ensures InStep(st, cmds[..n])
  {
    hide BookOk, InStep, AgreesAt;
    if n == 0 {
      InStepAtStart(st, cmds);
    } else {
      InStepWhileAgreeing(st, cmds, n - 1);
      InStepExtends(st, cmds, n - 1);
    }
  }

  /** Replay stays with live execution after every prefix of a run exactly when it agrees on every command. */
  lemma ReplayExact(st: EngineState, cmds: seq<Command>)
    requires BookOk(st.book)
    ensures (forall n: nat :: n <= |cmds| ==> InStep(st, cmds[..n]))
       <==> (forall n: nat :: n < |cmds| ==> AgreesAt(st, cmds, n))
  {
    if forall n: nat :: n < |cmds| ==> AgreesAt(st, cmds, n) {
      forall n: nat | n <= |cmds| ensures InStep(st, cmds[..n]) {
        InStepWhileAgreeing(st, cmds, n);
      }
    }
    if forall n: nat :: n <= |cmds| ==> InStep(st, cmds[..n]) {
      forall n: nat | n < |cmds| ensures AgreesAt(st, cmds, n) {
        assert InStep(st, cmds[..n]) && InStep(st, cmds[..n + 1]);
        InStepExtends(st, cmds, n);
      }
    }
  }

  lemma {:induction false} SymbolIsFixed(st: EngineState, cmds: seq<Command>)
    requires BookOk(st.book)
    ensures Run(st, cmds).state.symbolId == st.symbolId
    decreases |cmds|
  {
    if cmds != [] {
      SymbolIsFixed(Step(st, cmds[0]).state, cmds[1..]);
    }
  }

  /** Recovery from the journal reproduces the live book and ledger if every cancel names the engine's symbol. */
  lemma {:induction false} ReplayReproduces(st: EngineState, cmds: seq<Command>)
    requires BookOk(st.book)
    requires forall n :: 0 <= n < |cmds| && cmds[n].CancelOrder? ==> cmds[n].cancel.symbolId == st.symbolId
    ensures SameEngine(ReplayRun(st, cmds), Run(st, cmds).state)
  {
    forall n: nat | n < |cmds| ensures AgreesAt(st, cmds, n) {
      SymbolIsFixed(st, cmds[..n]);
    }
    InStepWhileAgreeing(st, cmds, |cmds|);
    assert cmds[..|cmds|] == cmds;
  }

  // ----- rejected replaces -----

  /** The only event is a reject. */
  predicate JustRejected(evs: seq<Event>) {
    |evs| == 1 && evs[0].Reject?
  }

  lemma RejectedNewIsRefused(st: EngineState, no: NewOrder)
    requires BookOk(st.book)
    ensures JustRejected(NewStep(st, no).events) <==> Refusal(st, no).Some?
    ensures Refusal(st, no).Some? ==> NewStep(st, no).state.book == st.book
  {
    hide BookOk, PlaceStep, Refusal, Top;
    if Refusal(st, no).None? {
      var placed := PlaceStep(st, no);
      assert |NewStep(st, no).events| == |placed.events| + 2;
    }
  }

  /** A replace is not atomic: a reject leaves the book as it was exactly when it was raised before the old
      order was cancelled. A reject by the risk or post-only check comes after that. */
  lemma RejectedReplaceKeepsBookIff(st: EngineState, r: Replace)
    requires BookOk(st.book) && JustRejected(Step(st, ReplaceOrder(r)).events)
    ensures Step(st, ReplaceOrder(r)).state.book == st.book
       <==> r.symbolId != st.symbolId || r.newQty <= 0 || !Cancellable(st.book, r.orderId, r.accountId)
  {
    hide NewStep, BookOk, CancelIn;
    CancelChangesBook(st.book, r.orderId, r.accountId);
    if r.symbolId == st.symbolId && r.newQty > 0 && Cancellable(st.book, r.orderId, r.accountId) {
      CancelKeepsOk(st.book, r.orderId, r.accountId);
      RejectedNewIsRefused(st.(book := CancelIn(st.book, r.orderId, r.accountId)),
                           Replacement(Lookup(st.book, r.orderId).value, r));
    }
  }

  /** An engine that has just started. */
  const STARTED := EngineState(1, EMPTY_BOOK, EngineAccounts.Accounts(map[], map[], DEFAULT_LIMITS), 1)

  lemma StepIsNew(st: EngineState, no: NewOrder)
    requires BookOk(st.book)
    ensures Step(st, New(no)) == NewStep(st, no)
  {
  }

  lemma LargeIsRisky(st: EngineState, no: NewOrder)
    requires BookOk(st.book) && no.symbolId == st.symbolId
    requires no.qty > EngineAccounts.LimitsOf(st.accounts, no.accountId).maxOrderSize > 0
    ensures NewStep(st, no) == Rejected(st, no.clientSeq, no.orderId, Risk)
  {
  }

  /** A replace beyond the size limit: the old order is cancelled and the new one is turned away. */
  lemma ReplaceIsRisky(st: EngineState, r: Replace, o: Order)
    requires BookOk(st.book) && Lookup(st.book, r.orderId) == Some(o) && o.accountId == r.accountId
    requires r.symbolId == st.symbolId
    requires r.newQty > EngineAccounts.LimitsOf(st.accounts, r.accountId).maxOrderSize > 0
    ensures var after := Step(st, ReplaceOrder(r));
            && after.state.book == CancelIn(st.book, r.orderId, r.accountId)
            && |after.events| == 1 && after.events[0].Reject? && after.events[0].reason == Risk
  {
    hide BookOk, CancelIn, Lookup, NewStep;
    CancelKeepsOk(st.book, r.orderId, r.accountId);
    LargeIsRisky(st.(book := CancelIn(st.book, r.orderId, r.accountId)), Replacement(o, r));
  }

  lemma StartedAccepts(no: NewOrder)
    requires no.symbolId == 1 && 0 < no.qty <= 1000
    ensures Refusal(STARTED, no).None?
  {
  }

  /** The only order on the book. */
  function Alone(o: Order): Book {
    EMPTY_BOOK.With(o.side, [Resting(o, true)])
  }

  lemma FirstOrderRests(st: EngineState, no: NewOrder)
    requires st.book == EMPTY_BOOK && Refusal(st, no).None? && no.tif.Gtc?
    ensures NewStep(st, no).state == st.(book := Alone(OrderFrom(no, no.qty)), serverSeq := st.serverSeq + 2)
  {
    NothingToMatch(st, no);
    assert [Resting(OrderFrom(no, no.qty), true)] + [] == [Resting(OrderFrom(no, no.qty), true)];
  }

  lemma OnlyOrder(o: Order)
    ensures Lookup(Alone(o), o.orderId) == Some(o)
    ensures CancelIn(Alone(o), o.orderId, o.accountId) == EMPTY_BOOK
    ensures Lookup(EMPTY_BOOK, o.orderId).None?
  {
    var l := [Resting(o, true)];
    assert l + [] == l && [] + l == l && l[1..] == [];
  }

  /** After one order, a replace that is too large for the risk check is rejected, and the order is gone. */
  lemma RejectedReplaceCanCancel() returns (no: NewOrder, r: Replace)
    ensures var st := Run(STARTED, [New(no)]).state;
            var after := Step(st, ReplaceOrder(r));
            && Lookup(st.book, no.orderId).Some?
            && r.orderId == no.orderId
            && |after.events| == 1 && after.events[0].Reject? && after.events[0].reason == Risk
            && Lookup(after.state.book, no.orderId).None?
  {
    no := NewOrder(0, 7, 3, 1, Buy, 100, 5, Gtc, false);
    r := Replace(0, 7, 3, 1, 100, 2000);
    hide Run, NewStep, Step, Lookup, Refusal, Alone, BookOk;
    RunOne(STARTED, New(no));
    StepIsNew(STARTED, no);
    StartedAccepts(no);
    FirstOrderRests(STARTED, no);
    OnlyOrder(OrderFrom(no, 5));
    ReplaceIsRisky(Run(STARTED, [New(no)]).state, r, OrderFrom(no, 5));
  }

  /** A cancel for another symbol is rejected live but takes an order off the replayed book. */
  lemma ReplayCanDiverge() returns (no: NewOrder, cmd: Command)
    ensures var st := Run(STARTED, [New(no)]).state;
            cmd.CancelOrder? && cmd.cancel.symbolId != st.symbolId
              && !SameEngine(ReplayStep(st, cmd), Step(st, cmd).state)
  {
    hide Run, NewStep, Step, ReplayStep, Lookup, Refusal, Alone, SameEngine;
    no := NewOrder(0, 7, 3, 1, Buy, 100, 5, Gtc, false);
    cmd := CancelOrder(Cancel(0, 7, 3, 2));
    RunOne(STARTED, New(no));
    StepIsNew(STARTED, no);
    StartedAccepts(no);
    FirstOrderRests(STARTED, no);
    OnlyOrder(OrderFrom(no, 5));
    ReplayStepExact(Run(STARTED, [New(no)]).state, cmd);
  }

  // ----- event numbers -----

  function SeqOf(ev: Event): nat {
    match ev
    case Ack(s, _, _) => s
    case Reject(s, _, _, _) => s
    case Filled(f) => f.serverSeq
    case BookTop(s, _, _, _, _, _) => s
    case AccountState(s, _, _, _, _, _) => s
    case AuthSuccess(_) => 0
    case AuthFailure(_) => 0
  }

  predicate Numbered(first: nat, evs: seq<Event>, next: nat) {
    next == first + |evs| && forall i :: 0 <= i < |evs| ==> SeqOf(evs[i]) == first + i
  }

  lemma PlaceNumbers(st: EngineState, no: NewOrder)
    requires BookOk(st.book)
    ensures Numbered(st.serverSeq, PlaceStep(st, no).events, PlaceStep(st, no).state.serverSeq)
  {
    hide BookOk, Match, Insert, ApplyTrades;
    assert Numbered(st.serverSeq, MatchStep(st, no).events, MatchStep(st, no).state.serverSeq);
  }

  lemma NewNumbers(st: EngineState, no: NewOrder)
    requires BookOk(st.book)
    ensures Numbered(st.serverSeq, NewStep(st, no).events, NewStep(st, no).state.serverSeq)
  {
    hide BookOk, PlaceStep, WouldCross, Top;
    PlaceNumbers(st, no);
  }

  lemma StepNumbers(st: EngineState, cmd: Command)
    requires BookOk(st.book)
    ensures Numbered(st.serverSeq, Step(st, cmd).events, Step(st, cmd).state.serverSeq)
  {
    match cmd {
      case New(no) => NewNumbers(st, no);
      case ReplaceOrder(r) =>
        if Cancellable(st.book, r.orderId, r.accountId) {
          CancelKeepsOk(st.book, r.orderId, r.accountId);
          NewNumbers(st.(book := CancelIn(st.book, r.orderId, r.accountId)),
                     Replacement(Lookup(st.book, r.orderId).value, r));
        }
      case _ =>
    }
  }

  /** The events of a run carry consecutive numbers: none is skipped and none is used twice. */
  lemma {:induction false} RunNumbers(st: EngineState, cmds: seq<Command>)
    requires BookOk(st.book)
    ensures Numbered(st.serverSeq, Run(st, cmds).events, Run(st, cmds).state.serverSeq)
    decreases |cmds|
  {
    if cmds != [] {
      StepNumbers(st, cmds[0]);
      RunNumbers(Step(st, cmds[0]).state, cmds[1..]);
    }
  }
}
