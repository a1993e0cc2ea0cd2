/** Time priority over whole runs: orders never overtake each other, and newcomers join at the back. */
module TimePriority {
  import opened Common
  import opened PriceTimeBook
  import opened Matching
  import opened EngineSpec
  import opened EngineRuns

  /** What identifies an order in the queue: everything but its quantity, which fills reduce. */
  datatype Tag = Tag(orderId: OrderId, accountId: AccountId, price: Price)

  function TagOf(o: Order): Tag {
    Tag(o.orderId, o.accountId, o.price)
  }

  /** The queue of those orders that carry one of the given ids, best price first, then oldest first. */
  function Queue(os: seq<Order>, ids: set<OrderId>): seq<Tag> {
    if os == [] then []
    else (if os[0].orderId in ids then [TagOf(os[0])] else []) + Queue(os[1..], ids)
  }

  /** `a` is `b` with some elements left out. */
  predicate Subsequence<T(==)>(a: seq<T>, b: seq<T>) {
    if a == [] then true
    else if b == [] then false
    else (a[0] == b[0] && Subsequence(a[1..], b[1..])) || Subsequence(a, b[1..])
  }

  lemma {:induction false} SubsequenceSelf<T>(a: seq<T>)
    ensures Subsequence(a, a)
  {
    if a != [] {
      SubsequenceSelf(a[1..]);
    }
  }

  lemma {:induction false} SubsequenceTail<T>(a: seq<T>, b: seq<T>)
    requires Subsequence(a, b) && a != []
    ensures Subsequence(a[1..], b)
    decreases |b|
  {
    if !(a[0] == b[0] && Subsequence(a[1..], b[1..])) {
      SubsequenceTail(a, b[1..]);
    }
    if a[1..] != [] && a[0] == b[0] && Subsequence(a[1..], b[1..]) {
      assert Subsequence(a[1..], b);
    }
  }

  lemma {:induction false} SubsequenceTrans<T>(a: seq<T>, b: seq<T>, c: seq<T>)
    requires Subsequence(a, b) && Subsequence(b, c)
    ensures Subsequence(a, c)
    decreases |c|
  {
    if a != [] {
      if Subsequence(b, c[1..]) {
        SubsequenceTrans(a, b, c[1..]);
      } else if a[0] == b[0] && Subsequence(a[1..], b[1..]) {
        SubsequenceTrans(a[1..], b[1..], c[1..]);
      } else {
        SubsequenceTrans(a, b[1..], c[1..]);
      }
    }
  }

  /** Matching takes orders from the front only. */
  lemma {:induction false} GreedyKeepsOrder(s: Side, os: seq<Order>, taker: OrderId, limit: Price, qty: Qty,
          ids: set<OrderId>)
    ensures Subsequence(Queue(Greedy(s, os, taker, limit, qty).1, ids), Queue(os, ids))
  {
    SubsequenceSelf(Queue(os, ids));
    if qty > 0 && os != [] && Reaches(s, limit, os[0].price) {
      if qty < os[0].qtyRem {
        var o := os[0].(qtyRem := os[0].qtyRem - qty);
        assert ([o] + os[1..])[1..] == os[1..];
        assert Queue([o] + os[1..], ids) == Queue(os, ids);
      } else {
        GreedyKeepsOrder(s, os[1..], taker, limit, qty - os[0].qtyRem, ids);
        var rest := Greedy(s, os[1..], taker, limit, qty - os[0].qtyRem).1;
        if os[0].orderId in ids {
          assert Queue(os, ids)[1..] == Queue(os[1..], ids);
        } else {
          assert Queue(os, ids) == Queue(os[1..], ids);
        }
      }
    }
  }

  /** The queue of one side of the book. */
  function SideQueue(b: Book, s: Side, ids: set<OrderId>): seq<Tag> {
    Queue(Orders(b.On(s)), ids)
  }

  function TagIn(r: Resting, ids: set<OrderId>): seq<Tag> {
    if r.order.orderId in ids then [TagOf(r.order)] else []
  }

  lemma FirstInQueue(r: Resting, l: seq<Resting>, ids: set<OrderId>)
    ensures Queue(Orders([r] + l), ids)
         == TagIn(r, ids) + Queue(Orders(l), ids)
  {
    assert Orders([r] + l)[1..] == Orders(l);
  }

  lemma SubsequenceAfter<T>(a: seq<T>, b: seq<T>, first: seq<T>)
    requires Subsequence(a, b) && |first| <= 1
    ensures Subsequence(a, first + b)
  {
    if first == [] {
      assert first + b == b;
    } else {
      assert (first + b)[1..] == b;
    }
  }

  lemma SubsequenceWith<T>(a: seq<T>, b: seq<T>, first: seq<T>)
    requires Subsequence(a, b) && |first| <= 1
    ensures Subsequence(first + a, first + b)
  {
    if first == [] {
      assert first + a == a && first + b == b;
    } else {
      assert (first + a)[1..] == a && (first + b)[1..] == b;
    }
  }

  lemma {:induction false} RemoveKeepsOrder(l: seq<Resting>, id: OrderId, ids: set<OrderId>)
    ensures Subsequence(Queue(Orders(Apply(Remove(id), l)), ids), Queue(Orders(l), ids))
  {
    hide Queue, Orders;
    if l == [] {
      SubsequenceSelf(Queue(Orders(l), ids));
    } else {
      var rest := Apply(Remove(id), l[1..]);
      RemoveKeepsOrder(l[1..], id, ids);
      assert l == [l[0]] + l[1..];
      FirstInQueue(l[0], l[1..], ids);
      if ApplyOne(Remove(id), l[0]) == [] {
        assert Apply(Remove(id), l) == rest;
        SubsequenceAfter(Queue(Orders(rest), ids), Queue(Orders(l[1..]), ids), TagIn(l[0], ids));
      } else {
        assert Apply(Remove(id), l) == [l[0]] + rest;
        FirstInQueue(l[0], rest, ids);
        SubsequenceWith(Queue(Orders(rest), ids), Queue(Orders(l[1..]), ids), TagIn(l[0], ids));
      }
    }
  }

  lemma {:induction false} EnqueueKeepsQueue(s: Side, l: seq<Resting>, r: Resting, ids: set<OrderId>)
    requires r.order.orderId !in ids
    ensures Queue(Orders(Enqueue(s, l, r)), ids) == Queue(Orders(l), ids)
  {
    if l == [] || Rank(s, l[0].order.price) > Rank(s, r.order.price) {
      assert Orders([r] + l)[1..] == Orders(l);
    } else {
      EnqueueKeepsQueue(s, l[1..], r, ids);
      assert Orders(l)[1..] == Orders(l[1..]);
      assert Orders(Enqueue(s, l, r))[1..] == Orders(Enqueue(s, l[1..], r));
    }
  }

  /** A new order joins behind every order that is at least as well priced and ahead of the rest. */
  lemma {:induction false} JoinsAtTheBack(s: Side, l: seq<Resting>, r: Resting) returns (k: nat)
    requires ListOk(s, l)
    ensures k <= |l| && Enqueue(s, l, r) == l[..k] + [r] + l[k..]
    ensures forall i :: 0 <= i < |l| ==> (i < k <==> Rank(s, l[i].order.price) <= Rank(s, r.order.price))
  {
    hide Enqueue;
    k := 0;
    while k < |l| && Rank(s, l[k].order.price) <= Rank(s, r.order.price)
      invariant k <= |l|
      invariant forall i :: 0 <= i < k ==> Rank(s, l[i].order.price) <= Rank(s, r.order.price)
    {
      k := k + 1;
    }
    assert forall i :: k <= i < |l| ==> Rank(s, l[k].order.price) <= Rank(s, l[i].order.price);
    assert l == l[..k] + l[k..];
    EnqueueSplit(s, l[..k], l[k..], r);
  }

  // ----- commands -----

  /** The command does not bring an order with one of these ids into the book. */
  predicate EntersNone(cmd: Command, ids: set<OrderId>) {
    match cmd
    case New(no) => no.orderId !in ids
    case ReplaceOrder(r) => r.orderId !in ids
    case _ => true
  }

  lemma InsertKeepsQueue(b: Book, o: Order, s: Side, ids: set<OrderId>)
    requires o.orderId !in ids
    ensures SideQueue(Insert(b, o), s, ids) == SideQueue(b, s, ids)
  {
    OrdersUnindex(o.orderId, b.On(s));
    EnqueueKeepsQueue(o.side, b.Edited(Unindex(o.orderId)).On(o.side), Resting(o, true), ids);
  }

  lemma PlaceKeepsOrder(st: EngineState, no: NewOrder, s: Side, ids: set<OrderId>)
    requires BookOk(st.book) && no.orderId !in ids
    ensures Subsequence(SideQueue(PlaceStep(st, no).state.book, s, ids), SideQueue(st.book, s, ids))
  {
    var matched := MatchStep(st, no).state.book;
    MatchIsGreedy(st.book, no.orderId, no.side, no.price, no.qty);
    SubsequenceSelf(SideQueue(st.book, s, ids));
    if s != no.side {
      GreedyKeepsOrder(s, Orders(st.book.On(s)), no.orderId, no.price, no.qty, ids);
    }
    assert Subsequence(SideQueue(matched, s, ids), SideQueue(st.book, s, ids));
    InsertKeepsQueue(matched, OrderFrom(no, Remainder(st.book, no)), s, ids);
  }

  lemma CancelKeepsOrder(b: Book, id: OrderId, a: AccountId, s: Side, ids: set<OrderId>)
    ensures Subsequence(SideQueue(CancelIn(b, id, a), s, ids), SideQueue(b, s, ids))
  {
    SubsequenceSelf(SideQueue(b, s, ids));
    RemoveKeepsOrder(b.On(s), id, ids);
  }

  lemma NewKeepsOrder(st: EngineState, no: NewOrder, s: Side, ids: set<OrderId>)
    requires BookOk(st.book) && no.orderId !in ids
    ensures Subsequence(SideQueue(NewStep(st, no).state.book, s, ids), SideQueue(st.book, s, ids))
  {
    SubsequenceSelf(SideQueue(st.book, s, ids));
    if Refusal(st, no).None? {
      PlaceKeepsOrder(st, no, s, ids);
    }
  }

  lemma StepKeepsOrder(st: EngineState, cmd: Command, s: Side, ids: set<OrderId>)
    requires BookOk(st.book) && EntersNone(cmd, ids)
    ensures Subsequence(SideQueue(Step(st, cmd).state.book, s, ids), SideQueue(st.book, s, ids))
  {
    SubsequenceSelf(SideQueue(st.book, s, ids));
    match cmd {
      case New(no) => NewKeepsOrder(st, no, s, ids);
      case CancelOrder(c) => CancelKeepsOrder(st.book, c.orderId, c.accountId, s, ids);
      case ReplaceOrder(r) =>
        if r.symbolId == st.symbolId && r.newQty > 0 && Cancellable(st.book, r.orderId, r.accountId) {
          var book := CancelIn(st.book, r.orderId, r.accountId);
          CancelKeepsOk(st.book, r.orderId, r.accountId);
          CancelKeepsOrder(st.book, r.orderId, r.accountId, s, ids);
          NewKeepsOrder(st.(book := book), Replacement(Lookup(st.book, r.orderId).value, r), s, ids);
          SubsequenceTrans(SideQueue(Step(st, cmd).state.book, s, ids), SideQueue(book, s, ids),
                           SideQueue(st.book, s, ids));
        }
      case _ =>
    }
  }

  /** Over any run that does not re-enter the given ids, the orders that carry them and still rest keep
      their relative order on each side: they leave the queue but never overtake. */
  lemma {:induction false} TimePriorityIsStable(st: EngineState, cmds: seq<Command>, s: Side, ids: set<OrderId>)
    requires BookOk(st.book)
    requires forall i :: 0 <= i < |cmds| ==> EntersNone(cmds[i], ids)
    ensures Subsequence(SideQueue(Run(st, cmds).state.book, s, ids), SideQueue(st.book, s, ids))
    decreases |cmds|
  {
    if cmds == [] {
      SubsequenceSelf(SideQueue(st.book, s, ids));
    } else {
      var next := Step(st, cmds[0]).state;
      StepKeepsOrder(st, cmds[0], s, ids);
      TimePriorityIsStable(next, cmds[1..], s, ids);
      SubsequenceTrans(SideQueue(Run(next, cmds[1..]).state.book, s, ids), SideQueue(next.book, s, ids),
                       SideQueue(st.book, s, ids));
    }
  }
}
