/** The simple book: two lists of live orders in price-time order, and greedy matching on them. */
module PriceTimeBook {
  import opened Common
  import opened Finite

  /** A live order, and whether the order-id index leads to it. An order loses its index entry
      when a later order with the same id is inserted, or when such an order is used up. */
  datatype Resting = Resting(order: Order, indexed: bool)

  /** What an index or slab update does to every entry of both lists. */
  datatype Edit = Unindex(id: OrderId) | Remove(id: OrderId)

  function ApplyOne(ed: Edit, r: Resting): seq<Resting> {
    if r.order.orderId != ed.id then [r]
    else if ed.Unindex? then [r.(indexed := false)]
    else if r.indexed then []
    else [r]
  }

  function Apply(ed: Edit, l: seq<Resting>): (r: seq<Resting>)
    ensures |r| <= |l|
  {
    if l == [] then [] else ApplyOne(ed, l[0]) + Apply(ed, l[1..])
  }

  datatype Book = Book(bids: seq<Resting>, asks: seq<Resting>) {
    function On(s: Side): seq<Resting> {
      if s.Buy? then bids else asks
    }

    function With(s: Side, l: seq<Resting>): Book {
      if s.Buy? then Book(l, asks) else Book(bids, l)
    }

    function Edited(ed: Edit): Book {
      Book(Apply(ed, bids), Apply(ed, asks))
    }
  }

  const EMPTY_BOOK := Book([], [])

  datatype MatchFill = MatchFill(
    makerOrderId: OrderId,
    makerAccountId: AccountId,
    takerOrderId: OrderId,
    price: Price,
    qty: Qty)

  /** Orders of side `s` are served in ascending rank: asks from the lowest price, bids from the highest. */
  function Rank(s: Side, price: Price): int {
    if s.Buy? then -price else price
  }

  /** A taker with price `limit` may trade with a resting order of side `s` at `price`. */
  predicate Reaches(s: Side, limit: Price, price: Price) {
    Rank(s, price) <= Rank(s, limit)
  }

  // ----- operations on the simple book -----

  /** Joins the list behind every order that is at least as well priced. */
  function Enqueue(s: Side, l: seq<Resting>, r: Resting): seq<Resting> {
    if l == [] || Rank(s, l[0].order.price) > Rank(s, r.order.price) then [r] + l
    else [l[0]] + Enqueue(s, l[1..], r)
  }

  function Insert(b: Book, o: Order): Book {
    var b' := b.Edited(Unindex(o.orderId));
    b'.With(o.side, Enqueue(o.side, b'.On(o.side), Resting(o, true)))
  }

  function LookupIn(l: seq<Resting>, id: OrderId): Option<Order> {
    if l == [] then None
    else if l[0].indexed && l[0].order.orderId == id then Some(l[0].order)
    else LookupIn(l[1..], id)
  }

  function Lookup(b: Book, id: OrderId): Option<Order> {
    LookupIn(b.bids + b.asks, id)
  }

  predicate Cancellable(b: Book, id: OrderId, account: AccountId) {
    Lookup(b, id).Some? && Lookup(b, id).value.accountId == account
  }

  function CancelIn(b: Book, id: OrderId, account: AccountId): Book {
    if Cancellable(b, id, account) then b.Edited(Remove(id)) else b
  }

  function QtyPriced(price: Price): Resting -> Qty {
    (r: Resting) => if r.order.price == price then r.order.qtyRem else 0
  }

  /** Quantity resting at one price. */
  function DepthAt(l: seq<Resting>, price: Price): Qty {
    SumBy(l, QtyPriced(price))
  }

  function Top(l: seq<Resting>): Option<Quote> {
    if l == [] then None else Some(Quote(l[0].order.price, DepthAt(l, l[0].order.price)))
  }

  predicate WouldCross(b: Book, side: Side, price: Price) {
    var l := b.On(side.Opposite());
    l != [] && Reaches(side.Opposite(), price, l[0].order.price)
  }

  /** One taker against the book, one maker at a time, with the index kept in step. */
  function Match(b: Book, taker: OrderId, side: Side, limit: Price, qty: Qty): (r: (seq<MatchFill>, Book))
    decreases |b.On(side.Opposite())|
  {
    var s := side.Opposite();
    var l := b.On(s);
    if qty <= 0 || !WouldCross(b, side, limit) then ([], b)
    else
      var maker := l[0].order;
      var t := Min(qty, maker.qtyRem);
      var f := MatchFill(maker.orderId, maker.accountId, taker, maker.price, t);
      if t < maker.qtyRem then
        ([f], b.With(s, [l[0].(order := maker.(qtyRem := maker.qtyRem - t))] + l[1..]))
      else
        var (fs, b') := Match(b.With(s, l[1..]).Edited(Unindex(maker.orderId)), taker, side, limit, qty - t);
        ([f] + fs, b')
  }

  // ----- what every reachable book looks like -----

  predicate Sorted(s: Side, l: seq<Resting>) {
    forall i, j :: 0 <= i < j < |l| ==> Rank(s, l[i].order.price) <= Rank(s, l[j].order.price)
  }

  predicate ListOk(s: Side, l: seq<Resting>) {
    && Sorted(s, l)
    && forall i :: 0 <= i < |l| ==> l[i].order.side == s && l[i].order.qtyRem > 0
  }

  predicate BookOk(b: Book) {
    ListOk(Buy, b.bids) && ListOk(Sell, b.asks)
  }

  predicate Uncrossed(b: Book) {
    b.bids == [] || b.asks == [] || b.bids[0].order.price < b.asks[0].order.price
  }

  // ----- lists and edits -----

  lemma {:induction false} ApplyConcat(ed: Edit, a: seq<Resting>, b: seq<Resting>)
    ensures Apply(ed, a + b) == Apply(ed, a) + Apply(ed, b)
  {
    if a == [] {
      assert a + b == b;
    } else {
      assert (a + b)[1..] == a[1..] + b;
      ApplyConcat(ed, a[1..], b);
    }
  }

  /** Unindexing touches nothing but the flag of the orders with that id. */
  lemma {:induction false} UnindexIs(id: OrderId, l: seq<Resting>)
    ensures |Apply(Unindex(id), l)| == |l|
    ensures forall i :: 0 <= i < |l| ==>
              Apply(Unindex(id), l)[i] == l[i].(indexed := l[i].indexed && l[i].order.orderId != id)
  {
    if l != [] {
      UnindexIs(id, l[1..]);
      assert Apply(Unindex(id), l) == ApplyOne(Unindex(id), l[0]) + Apply(Unindex(id), l[1..]);
    }
  }

  /** A list keeps its shape when entries are dropped or unindexed. */
  lemma {:induction false} ApplyKeepsOk(s: Side, ed: Edit, l: seq<Resting>)
    requires ListOk(s, l)
    ensures ListOk(s, Apply(ed, l))
    ensures forall i :: 0 <= i < |Apply(ed, l)| ==> exists j :: 0 <= j < |l| && Apply(ed, l)[i].order == l[j].order
  {
    if l != [] {
      var tl := l[1..];
      assert ListOk(s, tl);
      ApplyKeepsOk(s, ed, tl);
      var h, t := ApplyOne(ed, l[0]), Apply(ed, tl);
      assert |h| <= 1 && (|h| == 1 ==> h[0].order == l[0].order);
      forall i | 0 <= i < |h + t|
        ensures exists j :: 0 <= j < |l| && (h + t)[i].order == l[j].order
      {
        if i < |h| {
          assert (h + t)[i].order == l[0].order;
        } else {
          var j :| 0 <= j < |tl| && t[i - |h|].order == tl[j].order;
          assert tl[j] == l[j + 1];
        }
      }
    }
  }

  lemma {:induction false} EnqueueSplit(s: Side, a: seq<Resting>, b: seq<Resting>, r: Resting)
    requires forall i :: 0 <= i < |a| ==> Rank(s, a[i].order.price) <= Rank(s, r.order.price)
    requires forall i :: 0 <= i < |b| ==> Rank(s, b[i].order.price) > Rank(s, r.order.price)
    ensures Enqueue(s, a + b, r) == a + [r] + b
  {
    if a == [] {
      assert a + b == b && a + [r] + b == [r] + b;
    } else {
      assert (a + b)[1..] == a[1..] + b;
      EnqueueSplit(s, a[1..], b, r);
      assert a + [r] + b == [a[0]] + (a[1..] + [r] + b);
    }
  }

  // ----- one step of matching -----

  lemma MatchWholeMaker(b: Book, taker: OrderId, side: Side, limit: Price, qty: Qty)
    requires WouldCross(b, side, limit) && 0 < qty && b.On(side.Opposite())[0].order.qtyRem <= qty
    ensures var s := side.Opposite();
            var o := b.On(s)[0].order;
            var (fs, b') := Match(b.With(s, b.On(s)[1..]).Edited(Unindex(o.orderId)), taker, side, limit,
                                  qty - o.qtyRem);
            Match(b, taker, side, limit, qty)
            == ([MatchFill(o.orderId, o.accountId, taker, o.price, o.qtyRem)] + fs, b')
  {
  }

  lemma MatchPartOfMaker(b: Book, taker: OrderId, side: Side, limit: Price, qty: Qty)
    requires WouldCross(b, side, limit) && 0 < qty < b.On(side.Opposite())[0].order.qtyRem
    ensures var s := side.Opposite();
            var r := b.On(s)[0];
            var b' := b.With(s, [r.(order := r.order.(qtyRem := r.order.qtyRem - qty))] + b.On(s)[1..]);
            && Match(b, taker, side, limit, qty)
               == ([MatchFill(r.order.orderId, r.order.accountId, taker, r.order.price, qty)] + [], b')
            && Match(b', taker, side, limit, 0) == ([], b')
  {
    var r := b.On(side.Opposite())[0];
    var f := MatchFill(r.order.orderId, r.order.accountId, taker, r.order.price, qty);
    assert [f] + [] == [f];
  }
}
