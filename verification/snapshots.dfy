/** Snapshots of the book: what walking the slab in key order keeps of the price-time lists. */
module Snapshots {
  import opened Common
  import opened PriceTimeBook
  import opened Matching
  import opened BookRepresentation
  import opened BookRefinement
  import opened IndexExact
  import EngineSpec
  import Finite

  // ----- the walk and the rebuild -----

  const EMPTY_REPR := Repr(map[], map[], map[], map[])

  /** Keys of live orders, in ascending order. */
  function KeyWalk(orders: Slab): (ks: seq<Key>)
    ensures forall k :: k in ks <==> IsLive(k, orders)
    decreases |orders|
  {
    if orders == map[] then []
    else
      var k := Finite.Least(orders.Keys);
      (if orders[k].qtyRem > 0 then [k] else []) + KeyWalk(orders - {k})
  }

  predicate AllIn(ks: seq<Key>, orders: Slab) {
    forall i :: 0 <= i < |ks| ==> ks[i] in orders
  }

  function OrdersAt(ks: seq<Key>, orders: Slab): (os: seq<Order>)
    requires AllIn(ks, orders)
    ensures |os| == |ks|
    ensures forall i :: 0 <= i < |ks| ==> os[i] == orders[ks[i]]
  {
    seq(|ks|, i requires 0 <= i < |ks| => orders[ks[i]])
  }

  /** What a snapshot holds: the live orders in slab order. */
  function LiveOrders(orders: Slab): seq<Order>
    decreases |orders|
  {
    if orders == map[] then []
    else
      var k := Finite.Least(orders.Keys);
      (if orders[k].qtyRem > 0 then [orders[k]] else []) + LiveOrders(orders - {k})
  }

  /** Restoring inserts the orders one by one into an empty book. */
  function InsertAll(b: Book, os: seq<Order>): Book
    decreases |os|
  {
    if os == [] then b else InsertAll(Insert(b, os[0]), os[1..])
  }

  /** The representation after inserting the orders one by one under the given keys. */
  function Rebuilt(keys: seq<Key>, os: seq<Order>): Repr
    requires |keys| == |os|
  {
    if os == [] then EMPTY_REPR
    else Inserted(Rebuilt(keys[..|os| - 1], os[..|os| - 1]), keys[|os| - 1], os[|os| - 1])
  }

  lemma EmptyIsEmpty()
    ensures Valid(EMPTY_REPR) && Abstract(EMPTY_REPR) == EMPTY_BOOK
  {
  }

  predicate AllLive(os: seq<Order>) {
    forall i :: 0 <= i < |os| ==> os[i].qtyRem > 0
  }

  predicate Ascending(ks: seq<Key>) {
    forall i, j :: 0 <= i < j < |ks| ==> ks[i] < ks[j]
  }

  lemma {:induction false} WalkAscends(orders: Slab)
    ensures Ascending(KeyWalk(orders))
    decreases |orders|
  {
    if orders != map[] {
      var k := Finite.Least(orders.Keys);
      var tail := KeyWalk(orders - {k});
      WalkAscends(orders - {k});
      forall i | 0 <= i < |tail| ensures k < tail[i] {
        assert tail[i] in tail;
      }
    }
  }

  lemma WalkIsIn(orders: Slab)
    ensures AllIn(KeyWalk(orders), orders)
  {
    assert forall i :: 0 <= i < |KeyWalk(orders)| ==> KeyWalk(orders)[i] in KeyWalk(orders);
  }

  lemma {:induction false} LiveOrdersIs(orders: Slab)
    ensures AllIn(KeyWalk(orders), orders) && LiveOrders(orders) == OrdersAt(KeyWalk(orders), orders)
    decreases |orders|
  {
    WalkIsIn(orders);
    if orders != map[] {
      var k := Finite.Least(orders.Keys);
      var rest := orders - {k};
      LiveOrdersIs(rest);
      WalkIsIn(rest);
      assert OrdersAt(KeyWalk(rest), orders) == OrdersAt(KeyWalk(rest), rest);
    }
  }

  lemma WalkIs(orders: Slab)
    ensures Ascending(KeyWalk(orders))
    ensures AllIn(KeyWalk(orders), orders) && LiveOrders(orders) == OrdersAt(KeyWalk(orders), orders)
  {
    WalkAscends(orders);
    LiveOrdersIs(orders);
  }

  /** The walk, one slab entry at a time. */
  lemma WalkStep(live: seq<Order>, rest: Slab)
    requires rest != map[]
    ensures var k := Finite.Least(rest.Keys);
            live + LiveOrders(rest)
            == (if rest[k].qtyRem > 0 then live + [rest[k]] else live) + LiveOrders(rest - {k})
  {
    var k := Finite.Least(rest.Keys);
    Assoc3(live, [rest[k]], LiveOrders(rest - {k}));
  }

  // ----- price classes -----

  /** The orders of one side at one price, in list order. */
  function At(os: seq<Order>, s: Side, p: Price): seq<Order> {
    if os == [] then []
    else (if os[0].side == s && os[0].price == p then [os[0]] else []) + At(os[1..], s, p)
  }

  lemma {:induction false} AtConcat(a: seq<Order>, b: seq<Order>, s: Side, p: Price)
    ensures At(a + b, s, p) == At(a, s, p) + At(b, s, p)
  {
    if a == [] {
      assert a + b == b;
    } else {
      assert (a + b)[1..] == a[1..] + b;
      AtConcat(a[1..], b, s, p);
    }
  }

  lemma {:induction false} AtNone(os: seq<Order>, s: Side, p: Price)
    requires forall i :: 0 <= i < |os| ==> !(os[i].side == s && os[i].price == p)
    ensures At(os, s, p) == []
  {
    if os != [] {
      AtNone(os[1..], s, p);
    }
  }

  lemma {:induction false} AtEvery(os: seq<Order>, s: Side, p: Price)
    requires forall i :: 0 <= i < |os| ==> os[i].side == s && os[i].price == p
    ensures At(os, s, p) == os
  {
    if os != [] {
      AtEvery(os[1..], s, p);
    }
  }

  /** A new order goes to the back of its price class and touches no other. */
  lemma {:induction false} EnqueueAt(l: seq<Resting>, r: Resting, s: Side, p: Price)
    requires ListOk(s, l) && r.order.side == s
    ensures At(Orders(Enqueue(s, l, r)), s, p)
         == At(Orders(l), s, p) + (if r.order.price == p then [r.order] else [])
  {
    if l == [] || Rank(s, l[0].order.price) > Rank(s, r.order.price) {
      assert Orders([r] + l)[1..] == Orders(l);
      if r.order.price == p {
        AtNone(Orders(l), s, p);
      }
    } else {
      var t := l[1..];
      assert ListOk(s, t);
      EnqueueAt(t, r, s, p);
      assert Orders(l)[1..] == Orders(t);
      assert Orders(Enqueue(s, l, r))[1..] == Orders(Enqueue(s, t, r));
    }
  }

  lemma AtSingle(o: Order, s: Side, p: Price)
    ensures At([o], s, p) == if o.side == s && o.price == p then [o] else []
  {
    assert At([o][1..], s, p) == [];
  }

  lemma InsertAt(b: Book, o: Order, s: Side, p: Price)
    requires BookOk(b) && o.qtyRem > 0
    ensures At(Orders(Insert(b, o).On(s)), s, p) == At(Orders(b.On(s)), s, p) + At([o], s, p)
  {
    var l := Apply(Unindex(o.orderId), b.On(s));
    AtSingle(o, s, p);
    assert At(Orders(l), s, p) == At(Orders(b.On(s)), s, p) by {
      OrdersUnindex(o.orderId, b.On(s));
    }
    if o.side == s {
      assert ListOk(s, l) by {
        ApplyKeepsOk(s, Unindex(o.orderId), b.On(s));
      }
      EnqueueAt(l, Resting(o, true), s, p);
      assert Insert(b, o).On(s) == Enqueue(s, l, Resting(o, true));
    } else {
      assert Insert(b, o).On(s) == l;
    }
  }

  /** A rebuilt book lists each price class in the order of the snapshot. */
  lemma {:induction false} InsertAllAt(b: Book, os: seq<Order>, s: Side, p: Price)
    requires BookOk(b) && AllLive(os)
    ensures BookOk(InsertAll(b, os))
    ensures At(Orders(InsertAll(b, os).On(s)), s, p) == At(Orders(b.On(s)), s, p) + At(os, s, p)
    decreases |os|
  {
    if os != [] {
      InsertAt(b, os[0], s, p);
      EngineSpec.InsertKeepsOk(b, os[0]);
      InsertAllAt(Insert(b, os[0]), os[1..], s, p);
      assert os == [os[0]] + os[1..];
      AtConcat([os[0]], os[1..], s, p);
    }
  }

  /** All orders belong to the side and are sorted by price. */
  predicate SideSorted(s: Side, os: seq<Order>) {
    && (forall i, j :: 0 <= i < j < |os| ==> Rank(s, os[i].price) <= Rank(s, os[j].price))
    && forall i :: 0 <= i < |os| ==> os[i].side == s
  }

  lemma {:induction false} AtMember(os: seq<Order>, s: Side, p: Price)
    ensures At(os, s, p) != [] <==> exists i :: 0 <= i < |os| && os[i].side == s && os[i].price == p
    ensures forall i :: 0 <= i < |os| && os[i].side == s && os[i].price == p ==> os[i] in At(os, s, p)
    ensures forall o :: o in At(os, s, p) ==> o in os
  {
    if os != [] {
      AtMember(os[1..], s, p);
      if At(os[1..], s, p) != [] {
        var i :| 0 <= i < |os[1..]| && os[1..][i].side == s && os[1..][i].price == p;
        assert os[i + 1].side == s && os[i + 1].price == p;
      }
    }
  }

  /** A sorted list whose class at some price is not empty starts at least as well as that price. */
  lemma HeadWithin(s: Side, os: seq<Order>, p: Price)
    requires SideSorted(s, os) && At(os, s, p) != []
    ensures os != [] && Rank(s, os[0].price) <= Rank(s, p)
  {
    AtMember(os, s, p);
    var i :| 0 <= i < |os| && os[i].side == s && os[i].price == p;
  }

  lemma SameHead(s: Side, a: seq<Order>, b: seq<Order>)
    requires SideSorted(s, a) && SideSorted(s, b) && a != []
    requires forall p :: At(a, s, p) == At(b, s, p)
    ensures b != [] && a[0] == b[0]
  {
    var p := a[0].price;
    assert At(a, s, p)[0] == a[0];
    assert At(a, s, p) == At(b, s, p);
    HeadWithin(s, b, p);
    var q := b[0].price;
    assert At(b, s, q)[0] == b[0];
    assert At(a, s, q) == At(b, s, q);
    HeadWithin(s, a, q);
  }

  /** Sorted lists are determined by their price classes. */
  lemma {:induction false} SortedByClasses(s: Side, a: seq<Order>, b: seq<Order>)
    requires SideSorted(s, a) && SideSorted(s, b)
    requires forall p :: At(a, s, p) == At(b, s, p)
    ensures a == b
    decreases |a|
  {
    if a == [] {
      if b != [] {
        SameHead(s, b, a);
      }
    } else {
      SameHead(s, a, b);
      forall p ensures At(a[1..], s, p) == At(b[1..], s, p) {
        assert At(a, s, p) == At(b, s, p);
        var h := if a[0].price == p then [a[0]] else [];
        assert At(a, s, p) == h + At(a[1..], s, p) && At(b, s, p) == h + At(b[1..], s, p);
        assert (h + At(a[1..], s, p))[|h|..] == At(a[1..], s, p);
        assert (h + At(b[1..], s, p))[|h|..] == At(b[1..], s, p);
      }
      SortedByClasses(s, a[1..], b[1..]);
    }
  }

  // ----- price classes as keys -----

  function LiveKeys(q: seq<Key>, orders: Slab): (r: seq<Key>)
    ensures forall k :: k in r <==> k in q && IsLive(k, orders)
  {
    if q == [] then [] else (if IsLive(q[0], orders) then [q[0]] else []) + LiveKeys(q[1..], orders)
  }

  function KeysAt(ks: seq<Key>, s: Side, p: Price, orders: Slab): (r: seq<Key>)
    ensures forall k :: k in r <==> k in ks && Placed(k, s, p, orders)
  {
    if ks == [] then [] else (if Placed(ks[0], s, p, orders) then [ks[0]] else []) + KeysAt(ks[1..], s, p, orders)
  }

  lemma {:induction false} WalkClass(ks: seq<Key>, s: Side, p: Price, orders: Slab)
    requires AllIn(ks, orders)
    ensures AllIn(KeysAt(ks, s, p, orders), orders)
    ensures At(OrdersAt(ks, orders), s, p) == OrdersAt(KeysAt(ks, s, p, orders), orders)
  {
    if ks != [] {
      WalkClass(ks[1..], s, p, orders);
      assert OrdersAt(ks, orders)[1..] == OrdersAt(ks[1..], orders);
    }
  }

  lemma {:induction false} LiveIsOrdersAt(q: seq<Key>, orders: Slab, index: Index)
    ensures AllIn(LiveKeys(q, orders), orders)
    ensures Orders(Live(q, orders, index)) == OrdersAt(LiveKeys(q, orders), orders)
  {
    if q != [] {
      LiveIsOrdersAt(q[1..], orders, index);
    }
  }

  lemma MiddleClass(a: seq<Resting>, b: seq<Resting>, c: seq<Resting>, s: Side, p: Price)
    requires forall i :: 0 <= i < |a| ==> a[i].order.price != p
    requires forall i :: 0 <= i < |b| ==> b[i].order.side == s && b[i].order.price == p
    requires forall i :: 0 <= i < |c| ==> c[i].order.price != p
    ensures At(Orders(a + b + c), s, p) == Orders(b)
  {
    assert At(Orders(a + b + c), s, p) == At(Orders(a + b), s, p) + At(Orders(c), s, p) by {
      OrdersConcat(a + b, c);
      AtConcat(Orders(a + b), Orders(c), s, p);
    }
    assert At(Orders(a + b), s, p) == At(Orders(a), s, p) + At(Orders(b), s, p) by {
      OrdersConcat(a, b);
      AtConcat(Orders(a), Orders(b), s, p);
    }
    AtNone(Orders(a), s, p);
    AtNone(Orders(c), s, p);
    AtEvery(Orders(b), s, p);
  }

  /** A price class of the simple list is the level's queue without its tombstones. */
  lemma {:induction false} QueueClass(st: Repr, s: Side, p: Price)
    requires Valid(st)
    ensures var ks := LiveKeys(QueueAt(st.On(s), p), st.orders);
            AllIn(ks, st.orders) && At(Orders(Abstract(st).On(s)), s, p) == OrdersAt(ks, st.orders)
  {
    var q := QueueAt(st.On(s), p);
    LiveIsOrdersAt(q, st.orders, st.index);
    LivePlaced(s, p, q, st.orders, st.index) by {
      assert p in st.On(s) ==> LevelOk(s, p, st.On(s)[p], st.orders);
    }
    SidePartOk(s, st.On(s), st.On(s) - {p}, st.orders);
    var better, worse := Cut(s, st.On(s), st.On(s), p, st.orders, st.index);
    MiddleClass(better, Live(q, st.orders, st.index), worse, s, p);
  }

  lemma {:induction false} LiveKeysDistinct(q: seq<Key>, orders: Slab)
    requires Distinct(q)
    ensures Distinct(LiveKeys(q, orders))
  {
    if q != [] {
      LiveKeysDistinct(q[1..], orders);
      var r := LiveKeys(q[1..], orders);
      forall i | 0 <= i < |r| ensures q[0] != r[i] {
        assert r[i] in q[1..];
      }
    }
  }

  lemma {:induction false} KeysAtAscending(ks: seq<Key>, s: Side, p: Price, orders: Slab)
    requires Ascending(ks)
    ensures Ascending(KeysAt(ks, s, p, orders))
  {
    if ks != [] {
      KeysAtAscending(ks[1..], s, p, orders);
      var r := KeysAt(ks[1..], s, p, orders);
      forall i | 0 <= i < |r| ensures ks[0] < r[i] {
        assert r[i] in ks[1..];
      }
    }
  }

  /** An ascending sequence is determined by its members. */
  lemma {:induction false} AscendingUnique(a: seq<Key>, b: seq<Key>)
    requires Ascending(a) && Ascending(b)
    requires forall k :: k in a <==> k in b
    ensures a == b
  {
    if a == [] {
      assert forall i :: 0 <= i < |b| ==> b[i] in a;
    } else {
      assert a[0] in b && b != [];
      assert b[0] in a;
      assert a[0] == b[0];
      forall k ensures k in a[1..] <==> k in b[1..] {
        assert k in a[1..] <==> k in a && k != a[0];
        assert k in b[1..] <==> k in b && k != b[0];
      }
      AscendingUnique(a[1..], b[1..]);
    }
  }

  // ----- exact books: keys and orders correspond one to one -----

  lemma LiveIsIndexed(st: Repr, k: Key)
    requires Valid(st) && Exact(Abstract(st)) && IsLive(k, st.orders)
    ensures Indexed(st.orders[k].orderId, k, st.index)
  {
    var o := st.orders[k];
    SideMembers(o.side, st.On(o.side), st.orders, st.index);
    assert k in st.On(o.side)[o.price].queue;
    assert Entry(k, st.orders, st.index)[0] in Abstract(st).On(o.side);
  }

  /** In an exact book two live slab entries never carry the same id. */
  lemma LiveIdsDistinct(st: Repr, j: Key, k: Key)
    requires Valid(st) && Exact(Abstract(st)) && IsLive(j, st.orders) && IsLive(k, st.orders)
    requires st.orders[j].orderId == st.orders[k].orderId
    ensures j == k
  {
    LiveIsIndexed(st, j);
    LiveIsIndexed(st, k);
  }

  lemma SameOrdersSameKeys(st: Repr, a: seq<Key>, b: seq<Key>)
    requires Valid(st) && Exact(Abstract(st))
    requires forall k :: k in a ==> IsLive(k, st.orders)
    requires forall k :: k in b ==> IsLive(k, st.orders)
    ensures AllIn(a, st.orders) && AllIn(b, st.orders)
    ensures OrdersAt(a, st.orders) == OrdersAt(b, st.orders) ==> a == b
  {
    assert forall i :: 0 <= i < |a| ==> a[i] in a;
    assert forall i :: 0 <= i < |b| ==> b[i] in b;
    if OrdersAt(a, st.orders) == OrdersAt(b, st.orders) {
      forall i | 0 <= i < |a| ensures a[i] == b[i] {
        assert OrdersAt(a, st.orders)[i] == OrdersAt(b, st.orders)[i];
        LiveIdsDistinct(st, a[i], b[i]);
      }
    }
  }

  lemma SameMembers(st: Repr, s: Side, p: Price)
    requires Valid(st)
    ensures forall k ::
              k in KeysAt(KeyWalk(st.orders), s, p, st.orders) <==> k in LiveKeys(QueueAt(st.On(s), p), st.orders)
  {
    WalkIs(st.orders);
    forall k
      ensures IsLive(k, st.orders) && Placed(k, s, p, st.orders)
         <==> k in QueueAt(st.On(s), p) && IsLive(k, st.orders)
    {
      if p in st.On(s) {
        assert LevelOk(s, p, st.On(s)[p], st.orders);
      }
    }
  }

  /** One price class survives a snapshot in order exactly when its live keys ascend. */
  lemma {:induction false} ClassSurvivesIffAscending(st: Repr, s: Side, p: Price)
    requires Valid(st) && Exact(Abstract(st))
    ensures At(LiveOrders(st.orders), s, p) == At(Orders(Abstract(st).On(s)), s, p)
       <==> Ascending(LiveKeys(QueueAt(st.On(s), p), st.orders))
  {
    var walked := KeysAt(KeyWalk(st.orders), s, p, st.orders);
    var queued := LiveKeys(QueueAt(st.On(s), p), st.orders);
    WalkIs(st.orders);
    WalkClass(KeyWalk(st.orders), s, p, st.orders);
    KeysAtAscending(KeyWalk(st.orders), s, p, st.orders);
    QueueClass(st, s, p);
    SameMembers(st, s, p);
    SameOrdersSameKeys(st, walked, queued);
    if Ascending(queued) {
      AscendingUnique(walked, queued);
    }
  }

  // ----- the round trip -----

  /** The book that restoring a snapshot of `st` gives. */
  function Restored(st: Repr): Book {
    InsertAll(EMPTY_BOOK, LiveOrders(st.orders))
  }

  lemma {:induction false} InsertAllExact(b: Book, os: seq<Order>)
    requires Exact(b)
    requires forall i :: 0 <= i < |os| ==> CountIn(b, os[i].orderId) == 0
    requires forall i, j :: 0 <= i < j < |os| ==> os[i].orderId != os[j].orderId
    ensures Exact(InsertAll(b, os))
    decreases |os|
  {
    if os != [] {
      InsertExactIffFresh(b, os[0]);
      forall i | 0 <= i < |os[1..]| ensures CountIn(Insert(b, os[0]), os[1..][i].orderId) == 0 {
        assert os[1..][i] == os[i + 1];
        InsertCounts(b, os[0], os[i + 1].orderId);
      }
      InsertAllExact(Insert(b, os[0]), os[1..]);
    }
  }

  lemma RestoredOk(st: Repr)
    ensures AllLive(LiveOrders(st.orders)) && BookOk(Restored(st))
  {
    var ks := KeyWalk(st.orders);
    WalkIs(st.orders);
    assert forall i :: 0 <= i < |ks| ==> ks[i] in ks;
    InsertAllAt(EMPTY_BOOK, LiveOrders(st.orders), Buy, 0);
  }

  lemma RestoredExact(st: Repr)
    requires Valid(st) && Exact(Abstract(st))
    ensures Exact(Restored(st))
  {
    var ks := KeyWalk(st.orders);
    WalkIs(st.orders);
    assert forall i :: 0 <= i < |ks| ==> ks[i] in ks;
    forall i, j | 0 <= i < j < |ks| ensures st.orders[ks[i]].orderId != st.orders[ks[j]].orderId {
      if st.orders[ks[i]].orderId == st.orders[ks[j]].orderId {
        LiveIdsDistinct(st, ks[i], ks[j]);
      }
    }
    InsertAllExact(EMPTY_BOOK, LiveOrders(st.orders));
  }

  lemma RestoredClass(st: Repr, s: Side, p: Price)
    ensures At(Orders(Restored(st).On(s)), s, p) == At(LiveOrders(st.orders), s, p)
  {
    RestoredOk(st);
    InsertAllAt(EMPTY_BOOK, LiveOrders(st.orders), s, p);
    assert At(Orders(EMPTY_BOOK.On(s)), s, p) == [];
  }

  lemma OkIsSorted(b: Book, s: Side)
    requires BookOk(b)
    ensures SideSorted(s, Orders(b.On(s)))
  {
    assert ListOk(s, b.On(s));
  }

  lemma FlaggedSame(a: seq<Resting>, b: seq<Resting>)
    requires Flagged(a) && Flagged(b) && Orders(a) == Orders(b)
    ensures a == b
  {
    forall i | 0 <= i < |a| ensures a[i] == b[i] {
      assert Orders(a)[i] == Orders(b)[i];
      assert a[i] in a && b[i] in b;
    }
  }

  /** Slab order agrees with queue order at every price. */
  ghost predicate AllAscending(st: Repr) {
    forall s, p :: Ascending(LiveKeys(QueueAt(st.On(s), p), st.orders))
  }

  lemma RestoredSide(st: Repr, s: Side)
    requires Valid(st) && Exact(Abstract(st))
    requires forall p :: Ascending(LiveKeys(QueueAt(st.On(s), p), st.orders))
    ensures Restored(st).On(s) == Abstract(st).On(s)
  {
    RestoredOk(st);
    RestoredExact(st);
    AbstractOk(st);
    forall p ensures At(Orders(Restored(st).On(s)), s, p) == At(Orders(Abstract(st).On(s)), s, p) {
      RestoredClass(st, s, p);
      ClassSurvivesIffAscending(st, s, p);
    }
    OkIsSorted(Restored(st), s);
    OkIsSorted(Abstract(st), s);
    SortedByClasses(s, Orders(Restored(st).On(s)), Orders(Abstract(st).On(s)));
    FlaggedSame(Restored(st).On(s), Abstract(st).On(s));
  }

  /** A snapshot of a book with distinct live ids restores the very same price-time lists exactly when
      slab order agrees with queue order at every price; otherwise time priority is lost somewhere. */
  lemma RoundTripIffAscending(st: Repr)
    requires Valid(st) && Exact(Abstract(st))
    ensures Restored(st) == Abstract(st) <==> AllAscending(st)
  {
    if AllAscending(st) {
      RestoredSide(st, Buy);
      RestoredSide(st, Sell);
    }
    if Restored(st) == Abstract(st) {
      forall s, p ensures Ascending(LiveKeys(QueueAt(st.On(s), p), st.orders)) {
        RestoredClass(st, s, p);
        ClassSurvivesIffAscending(st, s, p);
      }
    }
  }

  // ----- what always survives -----

  lemma MemberAt(ks: seq<Key>, orders: Slab, o: Order)
    requires AllIn(ks, orders)
    ensures o in OrdersAt(ks, orders) <==> exists k :: k in ks && orders[k] == o
  {
    if k :| k in ks && orders[k] == o {
      var i :| 0 <= i < |ks| && ks[i] == k;
      assert OrdersAt(ks, orders)[i] == o;
    }
    if o in OrdersAt(ks, orders) {
      var i :| 0 <= i < |ks| && OrdersAt(ks, orders)[i] == o;
      assert ks[i] in ks && orders[ks[i]] == o;
    }
  }

  lemma ClassMembers(st: Repr, s: Side, p: Price, o: Order)
    requires Valid(st)
    ensures o in At(Orders(Restored(st).On(s)), s, p) <==> o in At(Orders(Abstract(st).On(s)), s, p)
  {
    var walked := KeysAt(KeyWalk(st.orders), s, p, st.orders);
    var queued := LiveKeys(QueueAt(st.On(s), p), st.orders);
    RestoredClass(st, s, p);
    WalkIs(st.orders);
    WalkClass(KeyWalk(st.orders), s, p, st.orders);
    QueueClass(st, s, p);
    SameMembers(st, s, p);
    MemberAt(walked, st.orders, o);
    MemberAt(queued, st.orders, o);
  }

  lemma InClass(b: Book, s: Side, o: Order)
    requires BookOk(b)
    ensures o in Orders(b.On(s)) <==> o in At(Orders(b.On(s)), s, o.price)
  {
    var os := Orders(b.On(s));
    OkIsSorted(b, s);
    AtMember(os, s, o.price);
    if o in os {
      var i :| 0 <= i < |os| && os[i] == o;
      assert os[i] in At(os, s, o.price);
    }
  }

  /** Whatever the key order and however ids repeat, the restored book holds exactly the same live orders on each
      side. */
  lemma SameLiveOrders(st: Repr, s: Side, o: Order)
    requires Valid(st)
    ensures o in Orders(Restored(st).On(s)) <==> o in Orders(Abstract(st).On(s))
  {
    RestoredOk(st);
    AbstractOk(st);
    ClassMembers(st, s, o.price, o);
    InClass(Restored(st), s, o);
    InClass(Abstract(st), s, o);
  }

  function QtyAt(orders: Slab): Key -> int {
    k => if k in orders then orders[k].qtyRem else 0
  }

  lemma {:induction false} TotalOfKeys(ks: seq<Key>, orders: Slab)
    requires AllIn(ks, orders)
    ensures Total(OrdersAt(ks, orders)) == Finite.SumBy(ks, QtyAt(orders))
  {
    if ks != [] {
      TotalOfKeys(ks[1..], orders);
      assert OrdersAt(ks, orders)[1..] == OrdersAt(ks[1..], orders);
    }
  }

  /** The keys of a class are distinct, whatever ids their orders have. */
  lemma SameClassTotal(st: Repr, s: Side, p: Price)
    requires Valid(st)
    ensures Total(At(Orders(Restored(st).On(s)), s, p)) == Total(At(Orders(Abstract(st).On(s)), s, p))
  {
    var walked := KeysAt(KeyWalk(st.orders), s, p, st.orders);
    var queued := LiveKeys(QueueAt(st.On(s), p), st.orders);
    RestoredClass(st, s, p);
    WalkIs(st.orders);
    WalkClass(KeyWalk(st.orders), s, p, st.orders);
    KeysAtAscending(KeyWalk(st.orders), s, p, st.orders);
    QueueClass(st, s, p);
    LiveKeysDistinct(QueueAt(st.On(s), p), st.orders) by {
      assert p in st.On(s) ==> LevelOk(s, p, st.On(s)[p], st.orders);
    }
    SameMembers(st, s, p);
    TotalOfKeys(walked, st.orders);
    TotalOfKeys(queued, st.orders);
    Finite.SameSum(walked, queued, QtyAt(st.orders));
  }

  lemma {:induction false} DepthIsClassTotal(l: seq<Resting>, s: Side, p: Price)
    requires forall i :: 0 <= i < |l| ==> l[i].order.side == s
    ensures DepthAt(l, p) == Total(At(Orders(l), s, p))
  {
    if l != [] {
      DepthIsClassTotal(l[1..], s, p);
      assert Orders(l)[1..] == Orders(l[1..]);
      var h := if l[0].order.price == p then [l[0].order] else [];
      assert At(Orders(l), s, p) == h + At(Orders(l[1..]), s, p);
      Finite.SumByConcat(h, At(Orders(l[1..]), s, p), QtyResting);
      assert [l[0].order][1..] == [];
    }
  }

  lemma SameDepth(st: Repr, s: Side, p: Price)
    requires Valid(st)
    ensures DepthAt(Restored(st).On(s), p) == DepthAt(Abstract(st).On(s), p)
  {
    RestoredOk(st);
    AbstractOk(st);
    assert ListOk(s, Restored(st).On(s)) && ListOk(s, Abstract(st).On(s));
    DepthIsClassTotal(Restored(st).On(s), s, p);
    DepthIsClassTotal(Abstract(st).On(s), s, p);
    SameClassTotal(st, s, p);
  }

  /** In a sorted list every order ranks at or behind the head. */
  lemma HeadFirst(b: Book, s: Side, o: Order)
    requires BookOk(b) && o in Orders(b.On(s))
    ensures b.On(s) != [] && Rank(s, b.On(s)[0].order.price) <= Rank(s, o.price)
  {
    var i :| 0 <= i < |Orders(b.On(s))| && Orders(b.On(s))[i] == o;
    assert ListOk(s, b.On(s));
  }

  lemma {:induction false} LookupMember(l: seq<Resting>, r: Resting)
    requires Flagged(l) && Count(l, r.order.orderId) <= 1 && r in l
    ensures LookupIn(l, r.order.orderId) == Some(r.order)
  {
    assert l == [l[0]] + l[1..];
    if l[0] != r {
      LookupMember(l[1..], r) by {
        assert forall x :: x in l[1..] ==> x in l;
      }
      CountZero(l[1..], r.order.orderId);
    }
  }

  lemma LookupFinds(b: Book, s: Side, o: Order)
    requires Exact(b) && o in Orders(b.On(s))
    ensures Lookup(b, o.orderId) == Some(o)
  {
    var i :| 0 <= i < |Orders(b.On(s))| && Orders(b.On(s))[i] == o;
    var r := b.On(s)[i];
    assert r in b.On(s);
    Finite.SumByConcat(b.bids, b.asks, OneUnder(o.orderId));
    assert CountIn(b, o.orderId) <= 1;
    LookupMember(b.bids + b.asks, r);
  }

  lemma LookupInBook(b: Book, id: OrderId)
    requires Lookup(b, id).Some?
    ensures var o := Lookup(b, id).value;
            o.orderId == id && (o in Orders(b.bids) || o in Orders(b.asks))
  {
    var l := b.bids + b.asks;
    LookupInIs(l, id);
    var i :| 0 <= i < |l| && l[i].indexed && l[i].order.orderId == id && l[i].order == LookupIn(l, id).value;
    assert Orders(l) == Orders(b.bids) + Orders(b.asks);
    assert Orders(l)[i] in Orders(l);
  }

  lemma LookupCarries(st: Repr, b: Book, b': Book, id: OrderId)
    requires Valid(st) && Exact(Abstract(st)) && Exact(b')
    requires (b == Restored(st) && b' == Abstract(st)) || (b == Abstract(st) && b' == Restored(st))
    requires Lookup(b, id).Some?
    ensures Lookup(b', id) == Lookup(b, id)
  {
    LookupInBook(b, id);
    var o := Lookup(b, id).value;
    SameLiveOrders(st, Buy, o);
    SameLiveOrders(st, Sell, o);
    LookupFinds(b', if o in Orders(b.bids) then Buy else Sell, o);
  }

  /** Whatever the key order, a restored book finds the same order under every id, if ids are distinct. */
  lemma LookupsSurvive(st: Repr, id: OrderId)
    requires Valid(st) && Exact(Abstract(st))
    ensures Lookup(Restored(st), id) == Lookup(Abstract(st), id)
  {
    RestoredExact(st);
    if Lookup(Restored(st), id).Some? {
      LookupCarries(st, Restored(st), Abstract(st), id);
    } else if Lookup(Abstract(st), id).Some? {
      LookupCarries(st, Abstract(st), Restored(st), id);
    }
  }

  lemma HeadCarries(st: Repr, b: Book, b': Book, s: Side)
    requires Valid(st) && BookOk(b')
    requires (b == Restored(st) && b' == Abstract(st)) || (b == Abstract(st) && b' == Restored(st))
    requires b.On(s) != []
    ensures b'.On(s) != [] && Rank(s, b'.On(s)[0].order.price) <= Rank(s, b.On(s)[0].order.price)
  {
    var o := b.On(s)[0].order;
    assert Orders(b.On(s))[0] in Orders(b.On(s));
    SameLiveOrders(st, s, o);
    HeadFirst(b', s, o);
  }

  lemma SameTop(st: Repr, s: Side)
    requires Valid(st)
    ensures Top(Restored(st).On(s)) == Top(Abstract(st).On(s))
  {
    RestoredOk(st);
    AbstractOk(st);
    var a, b := Restored(st), Abstract(st);
    if a.On(s) != [] {
      HeadCarries(st, a, b, s);
      HeadCarries(st, b, a, s);
      SameDepth(st, s, b.On(s)[0].order.price);
    } else if b.On(s) != [] {
      HeadCarries(st, b, a, s);
    }
  }

  /** Whatever the key order and however ids repeat, a restored book quotes the same best prices and quantities and
      has the same depth at every price. */
  lemma MarketSurvives(st: Repr, s: Side, p: Price)
    requires Valid(st)
    ensures DepthAt(Restored(st).On(s), p) == DepthAt(Abstract(st).On(s), p)
    ensures Top(Restored(st).On(s)) == Top(Abstract(st).On(s))
  {
    SameDepth(st, s, p);
    SameTop(st, s);
  }

  /** Two orders at one price, the first of which is filled by a taker before a third takes its slab key. */
  function ReusedKey(first: Order, second: Order, third: Order): Repr
    requires first.side.Sell? && first.price == 100 && second.side.Sell? && second.price == 100 && first.qtyRem == 5
  {
    Inserted(Traded(Inserted(Inserted(EMPTY_REPR, 0, first), 1, second), Sell, 100, 0, 5), 0, third)
  }

  lemma ReusedKeyIs(first: Order, second: Order, third: Order)
    requires first == Order(1, 1, 1, Sell, 100, 5, Gtc, false)
    requires second == first.(orderId := 2) && third == first.(orderId := 3)
    ensures ReusedKey(first, second, third)
         == Repr(map[], map[100 := Level([1, 0], 10)], map[0 := third, 1 := second], map[3 := 0, 2 := 1])
  {
    assert [] + [0] == [0] && [0] + [1] == [0, 1] && [1] + [0] == [1, 0];
    var st := Inserted(Inserted(EMPTY_REPR, 0, first), 1, second);
    assert st == Repr(map[], map[100 := Level([0, 1], 10)], map[0 := first, 1 := second], map[1 := 0, 2 := 1]);
    var st' := Traded(st, Sell, 100, 0, 5);
    assert [0, 1][1..] == [1];
    assert st' == Repr(map[], map[100 := Level([1], 5)], map[1 := second], map[2 := 1]);
  }

  lemma TwoAreExact(a: Order, b: Order)
    requires a.orderId != b.orderId
    ensures Exact(Book([], [Resting(a, true), Resting(b, true)]))
  {
    var l := [Resting(a, true), Resting(b, true)];
    assert l[1..] == [Resting(b, true)] && l[1..][1..] == [];
    forall id ensures CountIn(Book([], l), id) <= 1 {
      assert Count(l, id) == (if id == a.orderId then 1 else 0) + Count(l[1..], id);
      assert Count(l[1..], id) == (if id == b.orderId then 1 else 0) + Count([], id);
    }
  }

  lemma ReusedKeyOutOfOrder(st: Repr, second: Order, third: Order)
    requires second == Order(2, 1, 1, Sell, 100, 5, Gtc, false) && third == second.(orderId := 3)
    requires st == Repr(map[], map[100 := Level([1, 0], 10)], map[0 := third, 1 := second], map[3 := 0, 2 := 1])
    ensures Valid(st) && Exact(Abstract(st)) && Restored(st) != Abstract(st)
  {
    assert Valid(st) by {
      assert Sum([1, 0], st.orders) == 5 + Sum([0], st.orders) && Sum([0], st.orders) == 5 + Sum([], st.orders);
    }
    var q := [1, 0];
    assert q[1..] == [0] && [0][1..] == [];
    assert Live(q, st.orders, st.index) == [Resting(second, true)] + Live([0], st.orders, st.index);
    assert Live([0], st.orders, st.index) == [Resting(third, true)] + Live([], st.orders, st.index);
    assert st.asks - {100} == map[];
    assert Abstract(st) == Book([], [Resting(second, true), Resting(third, true)]);
    TwoAreExact(second, third);
    assert LiveKeys(q, st.orders) == [1] + LiveKeys([0], st.orders);
    assert LiveKeys([0], st.orders) == [0] + LiveKeys([], st.orders);
    assert LiveKeys(q, st.orders)[0] == 1 && LiveKeys(q, st.orders)[1] == 0;
    assert !Ascending(LiveKeys(QueueAt(st.On(Sell), 100), st.orders));
    RoundTripIffAscending(st);
  }

  /** Slab keys are reused: the third order is older than the second in the snapshot but younger in the queue. */
  lemma KeyReuseLosesPriority() returns (first: Order, second: Order, third: Order)
    ensures first.side.Sell? && first.price == 100 && second.side.Sell? && second.price == 100 && first.qtyRem == 5
    ensures var st := ReusedKey(first, second, third);
            Valid(st) && Exact(Abstract(st)) && Restored(st) != Abstract(st)
  {
    first := Order(1, 1, 1, Sell, 100, 5, Gtc, false);
    second, third := first.(orderId := 2), first.(orderId := 3);
    ReusedKeyIs(first, second, third);
    var st := Repr(map[], map[100 := Level([1, 0], 10)], map[0 := third, 1 := second], map[3 := 0, 2 := 1]);
    ReusedKeyOutOfOrder(st, second, third);
  }
}
