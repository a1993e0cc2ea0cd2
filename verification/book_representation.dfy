/** The fast book as a value: price levels holding FIFO queues of slab keys, a slab that keeps
    cancelled orders as tombstones, and an order-id index; and the simple book it stands for. */
module BookRepresentation {
  import opened Common
  import opened Finite
  import opened PriceTimeBook

  type Key = nat
  datatype Level = Level(queue: seq<Key>, total: Qty)
  type Levels = map<Price, Level>
  type Slab = map<Key, Order>
  type Index = map<OrderId, Key>

  datatype Repr = Repr(bids: Levels, asks: Levels, orders: Slab, index: Index) {
    function On(s: Side): Levels {
      if s.Buy? then bids else asks
    }

    function With(s: Side, levels: Levels): Repr {
      if s.Buy? then this.(bids := levels) else this.(asks := levels)
    }
  }

  lemma Pick<T>(xs: set<T>) returns (x: T)
    requires xs != {}
    ensures x in xs
  {
    x :| x in xs;
  }

  lemma {:induction false} FindBest(s: Side, prices: set<Price>) returns (best: Price)
    requires prices != {}
    ensures best in prices && forall p :: p in prices ==> Rank(s, best) <= Rank(s, p)
    decreases |prices|
  {
    best := Pick(prices);
    var rest := prices - {best};
    assert prices == rest + {best};
    if rest != {} {
      var y := FindBest(s, rest);
      if Rank(s, y) < Rank(s, best) {
        best := y;
      }
    }
  }

  lemma BestExists(s: Side, prices: set<Price>)
    requires prices != {}
    ensures exists best :: best in prices && forall p :: p in prices ==> Rank(s, best) <= Rank(s, p)
  {
    var best := FindBest(s, prices);
  }

  /** The first price to be served: the highest bid, the lowest ask. */
  function Best(s: Side, prices: set<Price>): (best: Price)
    requires prices != {}
    ensures best in prices
    ensures forall p :: p in prices ==> Rank(s, best) <= Rank(s, p)
  {
    BestExists(s, prices);
    var best :| best in prices && forall p :: p in prices ==> Rank(s, best) <= Rank(s, p);
    best
  }

  // ----- the abstraction -----

  predicate IsLive(k: Key, orders: Slab) {
    k in orders && orders[k].qtyRem > 0
  }

  predicate Indexed(id: OrderId, k: Key, index: Index) {
    id in index && index[id] == k
  }

  /** The entry that one queued key contributes: none when it is a tombstone. */
  function Entry(k: Key, orders: Slab, index: Index): seq<Resting> {
    if IsLive(k, orders) then [Resting(orders[k], Indexed(orders[k].orderId, k, index))] else []
  }

  function Live(q: seq<Key>, orders: Slab, index: Index): seq<Resting> {
    if q == [] then [] else Entry(q[0], orders, index) + Live(q[1..], orders, index)
  }

  /** The live orders of one side: level after level from the best price, first in first out within a level. */
  function SideList(s: Side, levels: Levels, orders: Slab, index: Index): seq<Resting>
    decreases |levels|
  {
    if levels == map[] then []
    else
      var p := Best(s, levels.Keys);
      Live(levels[p].queue, orders, index) + SideList(s, levels - {p}, orders, index)
  }

  function Abstract(st: Repr): Book {
    Book(SideList(Buy, st.bids, st.orders, st.index), SideList(Sell, st.asks, st.orders, st.index))
  }

  // ----- the representation invariant -----

  function Sum(q: seq<Key>, orders: Slab): Qty {
    if q == [] then 0 else (if q[0] in orders then orders[q[0]].qtyRem else 0) + Sum(q[1..], orders)
  }

  predicate Distinct(q: seq<Key>) {
    forall i, j :: 0 <= i < j < |q| ==> q[i] != q[j]
  }

  predicate Placed(k: Key, s: Side, p: Price, orders: Slab) {
    k in orders && orders[k].side == s && orders[k].price == p
  }

  predicate LevelOk(s: Side, p: Price, lvl: Level, orders: Slab) {
    && Distinct(lvl.queue)
    && (forall k :: k in lvl.queue ==> Placed(k, s, p, orders))
    && lvl.total == Sum(lvl.queue, orders)
    && lvl.total > 0
  }

  predicate SideOk(s: Side, levels: Levels, orders: Slab) {
    forall p :: p in levels ==> LevelOk(s, p, levels[p], orders)
  }

  /** A slab entry never has negative quantity, and sits in a queue while it is live. */
  predicate SlabOk(st: Repr) {
    forall k :: k in st.orders ==>
      && st.orders[k].qtyRem >= 0
      && (st.orders[k].qtyRem > 0 ==>
            var o := st.orders[k];
            o.price in st.On(o.side) && k in st.On(o.side)[o.price].queue)
  }

  predicate IndexOk(st: Repr) {
    forall id :: id in st.index ==> IsLive(st.index[id], st.orders) && st.orders[st.index[id]].orderId == id
  }

  predicate Valid(st: Repr) {
    && SideOk(Buy, st.bids, st.orders)
    && SideOk(Sell, st.asks, st.orders)
    && SlabOk(st)
    && IndexOk(st)
  }

  // ----- the three updates, as the code performs them -----

  function Lowered(levels: Levels, p: Price, lvl: Level): Levels {
    if lvl.total <= 0 then levels - {p} else levels[p := lvl]
  }

  function Inserted(st: Repr, key: Key, o: Order): Repr {
    var levels := st.On(o.side);
    var lvl := if o.price in levels then levels[o.price] else Level([], 0);
    st.(orders := st.orders[key := o], index := st.index[o.orderId := key])
      .With(o.side, levels[o.price := Level(lvl.queue + [key], lvl.total + o.qtyRem)])
  }

  function Cancelled(st: Repr, key: Key): Repr
    requires key in st.orders
    requires st.orders[key].price in st.On(st.orders[key].side)
  {
    var o := st.orders[key];
    var levels := st.On(o.side);
    var lvl := levels[o.price];
    st.(orders := st.orders[key := o.(qtyRem := 0)], index := st.index - {o.orderId})
      .With(o.side, Lowered(levels, o.price, lvl.(total := lvl.total - o.qtyRem)))
  }

  /** The maker at position `i` of the level trades `t` lots; everything queued before it is dropped. */
  function Traded(st: Repr, s: Side, p: Price, i: nat, t: Qty): Repr
    requires p in st.On(s) && i < |st.On(s)[p].queue| && st.On(s)[p].queue[i] in st.orders
  {
    var levels := st.On(s);
    var lvl := levels[p];
    var k := lvl.queue[i];
    var o := st.orders[k];
    var done := t == o.qtyRem;
    var queue := if done then lvl.queue[i + 1..] else lvl.queue[i..];
    st.(orders := if done then st.orders - {k} else st.orders[k := o.(qtyRem := o.qtyRem - t)],
        index := if done then st.index - {o.orderId} else st.index)
      .With(s, Lowered(levels, p, Level(queue, lvl.total - t)))
  }

  // ----- queues -----

  lemma Assoc3<T>(a: seq<T>, b: seq<T>, c: seq<T>)
    ensures a + (b + c) == (a + b) + c
  {
  }

  lemma {:induction false} LiveConcat(a: seq<Key>, b: seq<Key>, orders: Slab, index: Index)
    ensures Live(a + b, orders, index) == Live(a, orders, index) + Live(b, orders, index)
  {
    if a == [] {
      assert a + b == b;
    } else {
      assert (a + b)[1..] == a[1..] + b;
      LiveConcat(a[1..], b, orders, index);
      Assoc3(Entry(a[0], orders, index), Live(a[1..], orders, index), Live(b, orders, index));
    }
  }

  lemma {:induction false} SumConcat(a: seq<Key>, b: seq<Key>, orders: Slab)
    ensures Sum(a + b, orders) == Sum(a, orders) + Sum(b, orders)
  {
    if a == [] {
      assert a + b == b;
    } else {
      assert (a + b)[1..] == a[1..] + b;
      SumConcat(a[1..], b, orders);
    }
  }

  /** A queue of tombstones contributes nothing, and only such a queue has total 0. */
  lemma {:induction false} LiveEmptyIffSumZero(q: seq<Key>, orders: Slab, index: Index)
    requires forall k :: k in q ==> k in orders && orders[k].qtyRem >= 0
    ensures Sum(q, orders) >= 0
    ensures Sum(q, orders) == 0 <==> Live(q, orders, index) == []
    ensures Sum(q, orders) == 0 <==> forall k :: k in q ==> !IsLive(k, orders)
  {
    if q != [] {
      LiveEmptyIffSumZero(q[1..], orders, index);
    }
  }

  lemma {:induction false} LiveEdit(q: seq<Key>, orders: Slab, index: Index, orders': Slab, index': Index, ed: Edit)
    requires forall k :: k in q ==> Entry(k, orders', index') == Apply(ed, Entry(k, orders, index))
    ensures Live(q, orders', index') == Apply(ed, Live(q, orders, index))
  {
    if q != [] {
      LiveEdit(q[1..], orders, index, orders', index', ed);
      ApplyConcat(ed, Entry(q[0], orders, index), Live(q[1..], orders, index));
    }
  }

  lemma {:induction false} SameEntries(q: seq<Key>, orders: Slab, index: Index, orders': Slab, index': Index)
    requires forall k :: k in q ==> Entry(k, orders', index') == Entry(k, orders, index)
    ensures Live(q, orders', index') == Live(q, orders, index)
  {
    if q != [] {
      SameEntries(q[1..], orders, index, orders', index');
    }
  }

  lemma {:induction false} SumAgrees(q: seq<Key>, orders: Slab, orders': Slab)
    requires forall k :: k in q ==> k in orders && k in orders' && orders[k].qtyRem == orders'[k].qtyRem
    ensures Sum(q, orders) == Sum(q, orders')
  {
    if q != [] {
      SumAgrees(q[1..], orders, orders');
    }
  }

  /** Changing one key's quantity changes the sum by the difference. */
  lemma {:induction false} SumChange(q: seq<Key>, k: Key, orders: Slab, orders': Slab)
    requires Distinct(q) && k in q && k in orders && k in orders'
    requires forall j :: j in q ==> j in orders && (j != k ==> j in orders' && orders[j].qtyRem == orders'[j].qtyRem)
    ensures Sum(q, orders') == Sum(q, orders) - orders[k].qtyRem + orders'[k].qtyRem
  {
    var tl := q[1..];
    assert Distinct(tl);
    if q[0] == k {
      forall j | j in tl ensures j != k {
        var n :| 0 <= n < |tl| && tl[n] == j;
        assert q[n + 1] == j;
      }
      SumAgrees(tl, orders, orders');
    } else {
      SumChange(tl, k, orders, orders');
    }
  }

  // ----- sides -----

  lemma {:induction false} SideEdit(s: Side, levels: Levels, orders: Slab, index: Index,
                                    orders': Slab, index': Index, ed: Edit)
    requires forall p, k :: p in levels && k in levels[p].queue ==>
               Entry(k, orders', index') == Apply(ed, Entry(k, orders, index))
    ensures SideList(s, levels, orders', index') == Apply(ed, SideList(s, levels, orders, index))
    decreases |levels|
  {
    if levels != map[] {
      var p := Best(s, levels.Keys);
      LiveEdit(levels[p].queue, orders, index, orders', index', ed);
      SideEdit(s, levels - {p}, orders, index, orders', index', ed);
      ApplyConcat(ed, Live(levels[p].queue, orders, index), SideList(s, levels - {p}, orders, index));
    }
  }

  lemma {:induction false} SideSame(s: Side, levels: Levels, orders: Slab, index: Index, orders': Slab, index': Index)
    requires forall p, k :: p in levels && k in levels[p].queue ==>
               Entry(k, orders', index') == Entry(k, orders, index)
    ensures SideList(s, levels, orders', index') == SideList(s, levels, orders, index)
    decreases |levels|
  {
    if levels != map[] {
      var p := Best(s, levels.Keys);
      SameEntries(levels[p].queue, orders, index, orders', index');
      SideSame(s, levels - {p}, orders, index, orders', index');
    }
  }

  function Better(s: Side, levels: Levels, p: Price): Levels {
    map q | q in levels && Rank(s, q) < Rank(s, p) :: levels[q]
  }

  function Worse(s: Side, levels: Levels, p: Price): Levels {
    map q | q in levels && Rank(s, q) > Rank(s, p) :: levels[q]
  }

  function QueueAt(levels: Levels, p: Price): seq<Key> {
    if p in levels then levels[p].queue else []
  }

  lemma BestFirst(s: Side, levels: Levels, b: Price, orders: Slab, index: Index)
    requires b in levels && forall p :: p in levels ==> Rank(s, b) <= Rank(s, p)
    ensures SideList(s, levels, orders, index)
         == Live(levels[b].queue, orders, index) + SideList(s, levels - {b}, orders, index)
  {
    assert Best(s, levels.Keys) == b;
  }

  lemma NoLevels(s: Side, orders: Slab, index: Index)
    ensures SideList(s, map[], orders, index) == []
  {
  }

  /** The cut when nothing is priced better. */
  lemma SideFrom(s: Side, levels: Levels, p: Price, orders: Slab, index: Index)
    requires levels == map[] || Rank(s, p) <= Rank(s, Best(s, levels.Keys))
    ensures SideList(s, levels, orders, index)
         == SideList(s, Better(s, levels, p), orders, index)
          + Live(QueueAt(levels, p), orders, index)
          + SideList(s, Worse(s, levels, p), orders, index)
  {
    hide SideList;
    assert Better(s, levels, p) == map[];
    NoLevels(s, orders, index);
    if p in levels {
      assert Worse(s, levels, p) == levels - {p};
      BestFirst(s, levels, p, orders, index);
    } else {
      assert Worse(s, levels, p) == levels;
    }
  }

  lemma WithoutBest(s: Side, levels: Levels, p: Price, b: Price)
    requires levels != map[] && b == Best(s, levels.Keys) && Rank(s, b) < Rank(s, p)
    ensures b in Better(s, levels, p) && Better(s, levels, p)[b] == levels[b]
    ensures Better(s, levels - {b}, p) == Better(s, levels, p) - {b}
    ensures Worse(s, levels - {b}, p) == Worse(s, levels, p)
    ensures QueueAt(levels - {b}, p) == QueueAt(levels, p)
  {
  }

  lemma Assoc<T>(a: seq<T>, b: seq<T>, c: seq<T>, d: seq<T>)
    ensures a + (b + c + d) == (a + b) + c + d
  {
  }

  lemma {:induction false} SideSplitStep(s: Side, levels: Levels, p: Price, b: Price, orders: Slab, index: Index)
    requires levels != map[] && b == Best(s, levels.Keys) && Rank(s, b) < Rank(s, p)
    ensures SideList(s, levels, orders, index)
         == SideList(s, Better(s, levels, p), orders, index)
          + Live(QueueAt(levels, p), orders, index)
          + SideList(s, Worse(s, levels, p), orders, index)
    decreases |levels|, 0
  {
    WithoutBest(s, levels, p, b);
    SideSplit(s, levels - {b}, p, orders, index);
    BestFirst(s, Better(s, levels, p), b, orders, index);
    Assoc(Live(levels[b].queue, orders, index), SideList(s, Better(s, levels, p) - {b}, orders, index),
          Live(QueueAt(levels, p), orders, index), SideList(s, Worse(s, levels, p), orders, index));
  }

  /** The list of a side, cut at any price. */
  lemma {:induction false} SideSplit(s: Side, levels: Levels, p: Price, orders: Slab, index: Index)
    ensures SideList(s, levels, orders, index)
         == SideList(s, Better(s, levels, p), orders, index)
          + Live(QueueAt(levels, p), orders, index)
          + SideList(s, Worse(s, levels, p), orders, index)
    decreases |levels|, 1
  {
    if levels != map[] && Rank(s, Best(s, levels.Keys)) < Rank(s, p) {
      SideSplitStep(s, levels, p, Best(s, levels.Keys), orders, index);
    } else {
      SideFrom(s, levels, p, orders, index);
    }
  }

  lemma {:induction false} LiveMembers(q: seq<Key>, orders: Slab, index: Index)
    ensures forall r :: r in Live(q, orders, index) ==> exists k :: k in q && Entry(k, orders, index) == [r]
    ensures forall k :: k in q && IsLive(k, orders) ==> Entry(k, orders, index)[0] in Live(q, orders, index)
  {
    if q != [] {
      LiveMembers(q[1..], orders, index);
    }
  }

  /** Every entry of a side's list is a live queued key, and every such key has its entry. */
  lemma {:induction false} SideMembers(s: Side, levels: Levels, orders: Slab, index: Index)
    ensures forall r :: r in SideList(s, levels, orders, index) ==>
              exists p, k :: p in levels && k in levels[p].queue && Entry(k, orders, index) == [r]
    ensures forall p, k :: p in levels && k in levels[p].queue && IsLive(k, orders) ==>
              Entry(k, orders, index)[0] in SideList(s, levels, orders, index)
    decreases |levels|
  {
    if levels != map[] {
      var b := Best(s, levels.Keys);
      var rest := levels - {b};
      LiveMembers(levels[b].queue, orders, index);
      SideMembers(s, rest, orders, index);
      forall r | r in SideList(s, levels, orders, index)
        ensures exists p, k :: p in levels && k in levels[p].queue && Entry(k, orders, index) == [r]
      {
        if r in SideList(s, rest, orders, index) {
          var p, k :| p in rest && k in rest[p].queue && Entry(k, orders, index) == [r];
          assert p in levels && k in levels[p].queue;
        }
      }
      forall p, k | p in levels && k in levels[p].queue && IsLive(k, orders)
        ensures Entry(k, orders, index)[0] in SideList(s, levels, orders, index)
      {
        if p != b {
          assert p in rest && k in rest[p].queue;
        }
      }
    }
  }

  lemma {:induction false} LivePlaced(s: Side, p: Price, q: seq<Key>, orders: Slab, index: Index)
    requires forall k :: k in q ==> Placed(k, s, p, orders)
    ensures forall i :: 0 <= i < |Live(q, orders, index)| ==>
              var o := Live(q, orders, index)[i].order; o.side == s && o.price == p && o.qtyRem > 0
  {
    if q != [] {
      LivePlaced(s, p, q[1..], orders, index);
      assert Placed(q[0], s, p, orders);
    }
  }

  /** The list of a side is in price order, and holds only prices that have a level. */
  lemma {:induction false} SideListOk(s: Side, levels: Levels, orders: Slab, index: Index)
    requires SideOk(s, levels, orders)
    ensures ListOk(s, SideList(s, levels, orders, index))
    ensures forall i :: 0 <= i < |SideList(s, levels, orders, index)| ==>
              SideList(s, levels, orders, index)[i].order.price in levels
    decreases |levels|
  {
    if levels != map[] {
      var p := Best(s, levels.Keys);
      LivePlaced(s, p, levels[p].queue, orders, index);
      SideListOk(s, levels - {p}, orders, index);
    }
  }

  /** The simple book a valid representation stands for is in price-time order. */
  lemma AbstractOk(st: Repr)
    requires Valid(st)
    ensures BookOk(Abstract(st))
  {
    SideListOk(Buy, st.bids, st.orders, st.index);
    SideListOk(Sell, st.asks, st.orders, st.index);
  }

  /** The list of a side starts with the first live order of the best level. */
  lemma {:induction false} HeadOfSide(st: Repr, s: Side)
    requires Valid(st)
    ensures Abstract(st).On(s) == [] <==> st.On(s) == map[]
    ensures st.On(s) != map[] ==> Abstract(st).On(s)[0].order.price == Best(s, st.On(s).Keys)
  {
    var levels := st.On(s);
    if levels != map[] {
      var p := Best(s, levels.Keys);
      assert LevelOk(s, p, levels[p], st.orders);
      LiveEmptyIffSumZero(levels[p].queue, st.orders, st.index);
      LivePlaced(s, p, levels[p].queue, st.orders, st.index);
    }
  }

  lemma {:induction false} DepthElsewhere(l: seq<Resting>, p: Price)
    requires forall i :: 0 <= i < |l| ==> l[i].order.price != p
    ensures DepthAt(l, p) == 0
  {
    if l != [] {
      DepthElsewhere(l[1..], p);
    }
  }

  lemma {:induction false} DepthOfQueue(s: Side, p: Price, q: seq<Key>, orders: Slab, index: Index)
    requires forall k :: k in q ==> Placed(k, s, p, orders) && orders[k].qtyRem >= 0
    ensures DepthAt(Live(q, orders, index), p) == Sum(q, orders)
  {
    if q != [] {
      DepthOfQueue(s, p, q[1..], orders, index);
      SumByConcat(Entry(q[0], orders, index), Live(q[1..], orders, index), QtyPriced(p));
    }
  }

  /** The cached total of a level is the depth of the simple list at its price. */
  lemma {:induction false} TopOfSide(st: Repr, s: Side)
    requires Valid(st)
    ensures Top(Abstract(st).On(s))
         == if st.On(s) == map[] then None
            else Some(Quote(Best(s, st.On(s).Keys), st.On(s)[Best(s, st.On(s).Keys)].total))
  {
    var levels := st.On(s);
    HeadOfSide(st, s);
    if levels != map[] {
      var p := Best(s, levels.Keys);
      var live, rest := Live(levels[p].queue, st.orders, st.index), SideList(s, levels - {p}, st.orders, st.index);
      assert LevelOk(s, p, levels[p], st.orders);
      DepthOfQueue(s, p, levels[p].queue, st.orders, st.index);
      SideListOk(s, levels - {p}, st.orders, st.index);
      DepthElsewhere(rest, p);
      SumByConcat(live, rest, QtyPriced(p));
    }
  }

  // ----- lookup -----

  lemma {:induction false} LookupInIs(l: seq<Resting>, id: OrderId)
    ensures LookupIn(l, id).Some? ==>
              exists i :: 0 <= i < |l| && l[i].indexed && l[i].order.orderId == id
                && l[i].order == LookupIn(l, id).value
    ensures LookupIn(l, id).None? ==> forall i :: 0 <= i < |l| ==> !(l[i].indexed && l[i].order.orderId == id)
  {
    if l != [] && !(l[0].indexed && l[0].order.orderId == id) {
      LookupInIs(l[1..], id);
      if LookupIn(l, id).Some? {
        var i :| 0 <= i < |l[1..]| && l[1..][i].indexed && l[1..][i].order.orderId == id
                 && l[1..][i].order == LookupIn(l[1..], id).value;
        assert l[i + 1] == l[1..][i];
      } else {
        forall i | 0 <= i < |l| ensures !(l[i].indexed && l[i].order.orderId == id) {
          assert i > 0 ==> l[i] == l[1..][i - 1];
        }
      }
    }
  }

  /** Index then slab finds exactly what the simple book's lookup finds. */
  lemma LookupRefines(st: Repr, id: OrderId)
    requires Valid(st)
    ensures Lookup(Abstract(st), id)
         == if id in st.index then Some(st.orders[st.index[id]]) else None
  {
    var b := Abstract(st);
    var l := b.bids + b.asks;
    LookupInIs(l, id);
    SideMembers(Buy, st.bids, st.orders, st.index);
    SideMembers(Sell, st.asks, st.orders, st.index);
    if id in st.index {
      var k := st.index[id];
      var o := st.orders[k];
      var r := Entry(k, st.orders, st.index)[0];
      assert k in st.On(o.side)[o.price].queue;
      assert r in b.On(o.side);
      assert r in l;
      assert r.indexed && r.order.orderId == id;
    }
    if Lookup(b, id).Some? {
      var i :| 0 <= i < |l| && l[i].indexed && l[i].order.orderId == id && l[i].order == Lookup(b, id).value;
      assert l[i] in b.bids || l[i] in b.asks;
    }
  }
}
