/** Each update of the fast book keeps the representation invariant and does to the simple book
    exactly what the simple operation does. */
module BookRefinement {
  import opened Common
  import opened PriceTimeBook
  import opened BookRepresentation

  // ----- frames -----

  lemma {:induction false} SideOkFrame(s: Side, levels: Levels, orders: Slab, orders': Slab)
    requires SideOk(s, levels, orders)
    requires forall p, k :: p in levels && k in levels[p].queue ==> k in orders' && orders'[k] == orders[k]
    ensures SideOk(s, levels, orders')
  {
    forall p | p in levels ensures LevelOk(s, p, levels[p], orders') {
      assert LevelOk(s, p, levels[p], orders);
      SumAgrees(levels[p].queue, orders, orders');
    }
  }

  /** A key queued at one price of one side is queued nowhere else. */
  lemma QueuedOnce(st: Repr, s: Side, p: Price, k: Key, s': Side, p': Price)
    requires Valid(st)
    requires p in st.On(s) && k in st.On(s)[p].queue
    requires p' in st.On(s') && k in st.On(s')[p'].queue
    ensures s == s' && p == p'
  {
    assert LevelOk(s, p, st.On(s)[p], st.orders);
    assert LevelOk(s', p', st.On(s')[p'], st.orders);
  }

  /** An order that is queued at one level leaves every other level alone. */
  lemma {:induction false} OtherLevelsOk(st: Repr, s: Side, p: Price, k: Key, orders': Slab)
    requires Valid(st)
    requires p in st.On(s) && k in st.On(s)[p].queue
    requires forall j :: j in st.orders && j != k ==> j in orders' && orders'[j] == st.orders[j]
    ensures SideOk(s, st.On(s) - {p}, orders')
    ensures SideOk(s.Opposite(), st.On(s.Opposite()), orders')
  {
    forall s', p', j | p' in st.On(s') && j in st.On(s')[p'].queue && (s' != s || p' != p)
      ensures j in st.orders && j != k
    {
      assert LevelOk(s', p', st.On(s')[p'], st.orders);
      if j == k {
        QueuedOnce(st, s, p, k, s', p');
      }
    }
    SideOkFrame(s, st.On(s) - {p}, st.orders, orders');
    SideOkFrame(s.Opposite(), st.On(s.Opposite()), st.orders, orders');
  }

  // ----- insertion -----

  /** Old queued keys keep their slab entries when a vacant key is filled. */
  lemma InsertKeeps(st: Repr, key: Key, o: Order, s: Side)
    requires Valid(st) && key !in st.orders
    ensures SideOk(s, st.On(s), st.orders[key := o])
    ensures forall p :: p in st.On(s) ==> key !in st.On(s)[p].queue
  {
    forall p, k | p in st.On(s) && k in st.On(s)[p].queue ensures k in st.orders && k != key {
      assert LevelOk(s, p, st.On(s)[p], st.orders);
    }
    SideOkFrame(s, st.On(s), st.orders, st.orders[key := o]);
  }

  lemma {:induction false} JoinLevel(s: Side, p: Price, lvl: Level, key: Key, orders: Slab)
    requires lvl == Level([], 0) || LevelOk(s, p, lvl, orders)
    requires key !in lvl.queue && Placed(key, s, p, orders) && orders[key].qtyRem > 0
    ensures LevelOk(s, p, Level(lvl.queue + [key], lvl.total + orders[key].qtyRem), orders)
  {
    SumConcat(lvl.queue, [key], orders);
    assert Sum([key], orders) == orders[key].qtyRem;
  }

  lemma SetLevelOk(s: Side, levels: Levels, p: Price, lvl: Level, orders: Slab)
    requires SideOk(s, levels - {p}, orders) && LevelOk(s, p, lvl, orders)
    ensures SideOk(s, levels[p := lvl], orders)
  {
    forall q | q in levels && q != p ensures LevelOk(s, q, levels[q], orders) {
      assert q in levels - {p};
    }
  }

  lemma InsertSideOk(st: Repr, key: Key, o: Order)
    requires Valid(st) && key !in st.orders && o.qtyRem > 0
    ensures SideOk(o.side, Inserted(st, key, o).On(o.side), st.orders[key := o])
  {
    var levels := st.On(o.side);
    var lvl := if o.price in levels then levels[o.price] else Level([], 0);
    InsertKeeps(st, key, o, o.side);
    JoinLevel(o.side, o.price, lvl, key, st.orders[key := o]);
    SetLevelOk(o.side, levels, o.price, Level(lvl.queue + [key], lvl.total + o.qtyRem), st.orders[key := o]);
  }

  lemma InsertSlabOk(st: Repr, key: Key, o: Order)
    requires SlabOk(st) && key !in st.orders && o.qtyRem > 0
    ensures SlabOk(Inserted(st, key, o))
  {
    var st' := Inserted(st, key, o);
    forall k | k in st'.orders && k != key && st'.orders[k].qtyRem > 0
      ensures var o' := st'.orders[k]; o'.price in st'.On(o'.side) && k in st'.On(o'.side)[o'.price].queue
    {
      var o' := st.orders[k];
      assert k in st.On(o'.side)[o'.price].queue;
    }
  }

  lemma {:induction false} InsertValid(st: Repr, key: Key, o: Order)
    requires Valid(st) && key !in st.orders && o.qtyRem > 0
    ensures Valid(Inserted(st, key, o))
  {
    hide SideOk, SlabOk, LevelOk;
    InsertSideOk(st, key, o);
    InsertKeeps(st, key, o, o.side.Opposite());
    InsertSlabOk(st, key, o);
  }

  /** The effect of an update on one entry whose own order it leaves alone. */
  lemma EditEntry(k: Key, orders: Slab, index: Index, orders': Slab, index': Index, ed: Edit)
    requires k in orders && k in orders' && orders'[k] == orders[k]
    requires forall id :: id != ed.id ==> (Indexed(id, k, index') <==> Indexed(id, k, index))
    requires !Indexed(ed.id, k, index')
    requires ed.Remove? ==> !Indexed(ed.id, k, index)
    ensures Entry(k, orders', index') == Apply(ed, Entry(k, orders, index))
  {
    if IsLive(k, orders) {
      var r := Entry(k, orders, index);
      assert r[1..] == [];
      assert Apply(ed, r) == ApplyOne(ed, r[0]) + Apply(ed, r[1..]);
    }
  }

  lemma {:induction false} InsertEdits(st: Repr, key: Key, o: Order, s: Side)
    requires Valid(st) && key !in st.orders
    ensures SideList(s, st.On(s), st.orders[key := o], st.index[o.orderId := key])
         == Apply(Unindex(o.orderId), SideList(s, st.On(s), st.orders, st.index))
  {
    var orders', index' := st.orders[key := o], st.index[o.orderId := key];
    forall p, k | p in st.On(s) && k in st.On(s)[p].queue
      ensures Entry(k, orders', index') == Apply(Unindex(o.orderId), Entry(k, st.orders, st.index))
    {
      assert LevelOk(s, p, st.On(s)[p], st.orders);
      EditEntry(k, st.orders, st.index, orders', index', Unindex(o.orderId));
    }
    SideEdit(s, st.On(s), st.orders, st.index, orders', index', Unindex(o.orderId));
  }

  lemma {:induction false} LiveJoin(q: seq<Key>, key: Key, orders: Slab, index: Index)
    requires IsLive(key, orders)
    ensures Live(q + [key], orders, index) == Live(q, orders, index) + Entry(key, orders, index)
  {
    LiveConcat(q, [key], orders, index);
    assert Live([key], orders, index) == Entry(key, orders, index) + Live([], orders, index);
  }

  lemma EnqueueBetween(s: Side, a: seq<Resting>, b: seq<Resting>, c: seq<Resting>, r: Resting)
    requires forall i :: 0 <= i < |a| ==> Rank(s, a[i].order.price) < Rank(s, r.order.price)
    requires forall i :: 0 <= i < |b| ==> b[i].order.price == r.order.price
    requires forall i :: 0 <= i < |c| ==> Rank(s, c[i].order.price) > Rank(s, r.order.price)
    ensures Enqueue(s, a + b + c, r) == a + (b + [r]) + c
  {
    EnqueueSplit(s, a + b, c, r);
    assert a + (b + [r]) + c == (a + b) + [r] + c;
  }

  lemma SidePartOk(s: Side, levels: Levels, part: Levels, orders: Slab)
    requires SideOk(s, levels, orders)
    requires forall q :: q in part ==> q in levels && part[q] == levels[q]
    ensures SideOk(s, part, orders)
  {
    forall q | q in part ensures LevelOk(s, q, part[q], orders) {
      assert LevelOk(s, q, levels[q], orders);
    }
  }

  lemma BetterRanks(s: Side, levels: Levels, p: Price, orders: Slab, index: Index)
    requires SideOk(s, levels - {p}, orders)
    ensures var l := SideList(s, Better(s, levels, p), orders, index);
            forall i :: 0 <= i < |l| ==> Rank(s, l[i].order.price) < Rank(s, p)
  {
    SidePartOk(s, levels - {p}, Better(s, levels, p), orders);
    SideListOk(s, Better(s, levels, p), orders, index);
  }

  lemma WorseRanks(s: Side, levels: Levels, p: Price, orders: Slab, index: Index)
    requires SideOk(s, levels - {p}, orders)
    ensures var l := SideList(s, Worse(s, levels, p), orders, index);
            forall i :: 0 <= i < |l| ==> Rank(s, l[i].order.price) > Rank(s, p)
  {
    SidePartOk(s, levels - {p}, Worse(s, levels, p), orders);
    SideListOk(s, Worse(s, levels, p), orders, index);
  }

  lemma CutMaps(s: Side, levels: Levels, levels': Levels, p: Price)
    requires levels' - {p} == levels - {p}
    ensures Better(s, levels', p) == Better(s, levels, p)
    ensures Worse(s, levels', p) == Worse(s, levels, p)
  {
    forall q | q != p
      ensures q in levels <==> q in levels'
      ensures q in levels ==> levels[q] == levels'[q]
    {
      assert q in levels <==> q in levels - {p};
      assert q in levels' <==> q in levels' - {p};
      if q in levels {
        assert levels[q] == (levels - {p})[q];
        assert levels'[q] == (levels' - {p})[q];
      }
    }
  }

  /** Two sides that differ in one level only have the same entries before it and after it. */
  lemma Cut(s: Side, levels: Levels, levels': Levels, p: Price, orders: Slab, index: Index)
    returns (better: seq<Resting>, worse: seq<Resting>)
    requires levels' - {p} == levels - {p}
    requires SideOk(s, levels - {p}, orders)
    ensures SideList(s, levels, orders, index) == better + Live(QueueAt(levels, p), orders, index) + worse
    ensures SideList(s, levels', orders, index) == better + Live(QueueAt(levels', p), orders, index) + worse
    ensures forall i :: 0 <= i < |better| ==> Rank(s, better[i].order.price) < Rank(s, p)
    ensures forall i :: 0 <= i < |worse| ==> Rank(s, worse[i].order.price) > Rank(s, p)
  {
    better := SideList(s, Better(s, levels, p), orders, index);
    worse := SideList(s, Worse(s, levels, p), orders, index);
    SideSplit(s, levels, p, orders, index);
    SideSplit(s, levels', p, orders, index);
    CutMaps(s, levels, levels', p);
    BetterRanks(s, levels, p, orders, index);
    WorseRanks(s, levels, p, orders, index);
  }

  /** The new key goes behind the last entry of its own price. */
  lemma {:induction false} InsertJoins(s: Side, levels: Levels, lvl: Level, key: Key, orders: Slab, index: Index)
    requires key in orders && orders[key].side == s && orders[key].qtyRem > 0
    requires SideOk(s, levels, orders) && Indexed(orders[key].orderId, key, index)
    requires lvl.queue == QueueAt(levels, orders[key].price) + [key]
    ensures SideList(s, levels[orders[key].price := lvl], orders, index)
            == Enqueue(s, SideList(s, levels, orders, index), Resting(orders[key], true))
  {
    var p := orders[key].price;
    var r := Resting(orders[key], true);
    var q := QueueAt(levels, p);
    assert levels[p := lvl] - {p} == levels - {p};
    SidePartOk(s, levels, levels - {p}, orders);
    var better, worse := Cut(s, levels, levels[p := lvl], p, orders, index);
    LiveJoin(q, key, orders, index);
    LivePlaced(s, p, q, orders, index) by {
      assert p in levels ==> LevelOk(s, p, levels[p], orders);
    }
    EnqueueBetween(s, better, Live(q, orders, index), worse, r);
  }

  /** The two lists of an updated representation: one level map replaced, slab and index changed. */
  lemma AbstractParts(st: Repr, s: Side, levels: Levels, orders: Slab, index: Index)
    ensures var b := Abstract(st.(orders := orders, index := index).With(s, levels));
            && b.On(s) == SideList(s, levels, orders, index)
            && b.On(s.Opposite()) == SideList(s.Opposite(), st.On(s.Opposite()), orders, index)
  {
  }

  lemma SameBook(b: Book, b': Book, s: Side)
    requires b.On(s) == b'.On(s) && b.On(s.Opposite()) == b'.On(s.Opposite())
    ensures b == b'
  {
  }

  lemma {:induction false} InsertAbstract(st: Repr, key: Key, o: Order)
    requires Valid(st) && key !in st.orders && o.qtyRem > 0
    ensures Abstract(Inserted(st, key, o)) == Insert(Abstract(st), o)
  {
    hide Valid, SideList, Live, Apply, Enqueue, SideOk;
    var lvl := if o.price in st.On(o.side) then st.On(o.side)[o.price] else Level([], 0);
    var lvl' := Level(lvl.queue + [key], lvl.total + o.qtyRem);
    InsertEdits(st, key, o, o.side);
    InsertEdits(st, key, o, o.side.Opposite());
    InsertKeeps(st, key, o, o.side);
    InsertJoins(o.side, st.On(o.side), lvl', key, st.orders[key := o], st.index[o.orderId := key]);
    AbstractParts(st, o.side, st.On(o.side)[o.price := lvl'], st.orders[key := o], st.index[o.orderId := key]);
    SameBook(Abstract(Inserted(st, key, o)), Insert(Abstract(st), o), o.side);
  }

  // ----- lowering one level: what cancellation and trading share -----

  /** A queue at price `p` of side `s` whose keys are placed there, with its cached total. */
  predicate QueueOk(s: Side, p: Price, lvl: Level, orders: Slab) {
    && Distinct(lvl.queue)
    && (forall k :: k in lvl.queue ==> Placed(k, s, p, orders) && orders[k].qtyRem >= 0)
    && lvl.total == Sum(lvl.queue, orders)
  }

  /** Only the order at `k` changes, and if it stays in the slab it stays in its place. */
  predicate ChangesOnly(k: Key, orders: Slab, orders': Slab) {
    && (forall j :: j in orders && j != k ==> j in orders' && orders'[j] == orders[j])
    && (forall j :: j in orders' ==> j in orders)
    && (k in orders' ==> orders'[k].side == orders[k].side && orders'[k].price == orders[k].price
                         && 0 <= orders'[k].qtyRem)
  }

  lemma LevelQueueOk(st: Repr, s: Side, p: Price)
    requires Valid(st) && p in st.On(s)
    ensures QueueOk(s, p, st.On(s)[p], st.orders) && st.On(s)[p].total > 0
  {
    assert LevelOk(s, p, st.On(s)[p], st.orders);
  }

  lemma LoweredSideOk(s: Side, levels: Levels, p: Price, lvl: Level, orders: Slab)
    requires SideOk(s, levels - {p}, orders) && QueueOk(s, p, lvl, orders)
    ensures SideOk(s, Lowered(levels, p, lvl), orders)
  {
    if lvl.total > 0 {
      SetLevelOk(s, levels, p, lvl, orders);
    }
  }

  lemma LoweredSlabOk(st: Repr, s: Side, p: Price, k: Key, orders': Slab, index': Index, lvl: Level)
    requires Valid(st) && p in st.On(s) && k in st.On(s)[p].queue
    requires ChangesOnly(k, st.orders, orders') && QueueOk(s, p, lvl, orders')
    requires forall j :: j in st.On(s)[p].queue && IsLive(j, orders') ==> j in lvl.queue
    ensures SlabOk(st.(orders := orders', index := index').With(s, Lowered(st.On(s), p, lvl)))
  {
    hide SideOk, Live, Sum, Distinct;
    var levels' := Lowered(st.On(s), p, lvl);
    LiveEmptyIffSumZero(lvl.queue, orders', index');
    assert Placed(k, s, p, st.orders) by {
      LevelQueueOk(st, s, p);
    }
    forall j | IsLive(j, orders')
      ensures var o := orders'[j];
              if o.side == s then o.price in levels' && j in levels'[o.price].queue
              else o.price in st.On(o.side) && j in st.On(o.side)[o.price].queue
    {
      var o := st.orders[j];
      if j == k {
        assert j in lvl.queue;
      } else {
        assert j in st.On(o.side)[o.price].queue;
      }
    }
  }

  lemma {:induction false} LowerValid(st: Repr, s: Side, p: Price, k: Key, orders': Slab, index': Index, lvl: Level)
    requires Valid(st) && p in st.On(s) && k in st.On(s)[p].queue
    requires ChangesOnly(k, st.orders, orders') && QueueOk(s, p, lvl, orders')
    requires forall j :: j in st.On(s)[p].queue && IsLive(j, orders') ==> j in lvl.queue
    requires forall id :: id in index' ==> IsLive(index'[id], orders') && orders'[index'[id]].orderId == id
    ensures Valid(st.(orders := orders', index := index').With(s, Lowered(st.On(s), p, lvl)))
  {
    OtherLevelsOk(st, s, p, k, orders');
    LoweredSideOk(s, st.On(s), p, lvl, orders');
    LoweredSlabOk(st, s, p, k, orders', index', lvl);
  }

  // ----- cancellation -----

  lemma LiveHasLevel(st: Repr, key: Key)
    requires Valid(st) && IsLive(key, st.orders)
    ensures var o := st.orders[key]; o.price in st.On(o.side) && key in st.On(o.side)[o.price].queue
  {
  }

  lemma {:induction false} CancelLevel(st: Repr, key: Key)
    requires Valid(st) && IsLive(key, st.orders)
    ensures var o := st.orders[key];
            var lvl := st.On(o.side)[o.price];
            key in lvl.queue
            && QueueOk(o.side, o.price, lvl.(total := lvl.total - o.qtyRem), st.orders[key := o.(qtyRem := 0)])
  {
    var o := st.orders[key];
    LevelQueueOk(st, o.side, o.price);
    SumChange(st.On(o.side)[o.price].queue, key, st.orders, st.orders[key := o.(qtyRem := 0)]);
  }

  lemma CancelIndexOk(st: Repr, key: Key)
    requires Valid(st) && IsLive(key, st.orders) && Indexed(st.orders[key].orderId, key, st.index)
    ensures var o := st.orders[key];
            var orders', index' := st.orders[key := o.(qtyRem := 0)], st.index - {o.orderId};
            forall id :: id in index' ==> IsLive(index'[id], orders') && orders'[index'[id]].orderId == id
  {
  }

  lemma {:induction false} CancelValid(st: Repr, key: Key)
    requires Valid(st) && IsLive(key, st.orders) && Indexed(st.orders[key].orderId, key, st.index)
    ensures Valid(Cancelled(st, key))
  {
    hide Valid, QueueOk, Lowered;
    var o := st.orders[key];
    LiveHasLevel(st, key);
    var lvl := st.On(o.side)[o.price];
    CancelLevel(st, key);
    CancelIndexOk(st, key);
    LowerValid(st, o.side, o.price, key, st.orders[key := o.(qtyRem := 0)], st.index - {o.orderId},
               lvl.(total := lvl.total - o.qtyRem));
  }

  lemma {:induction false} CancelEdits(st: Repr, key: Key, s: Side)
    requires Valid(st) && IsLive(key, st.orders) && Indexed(st.orders[key].orderId, key, st.index)
    ensures var o := st.orders[key];
            SideList(s, st.On(s), st.orders[key := o.(qtyRem := 0)], st.index - {o.orderId})
            == Apply(Remove(o.orderId), SideList(s, st.On(s), st.orders, st.index))
  {
    var o := st.orders[key];
    var orders', index', ed := st.orders[key := o.(qtyRem := 0)], st.index - {o.orderId}, Remove(o.orderId);
    forall p, k | p in st.On(s) && k in st.On(s)[p].queue
      ensures Entry(k, orders', index') == Apply(ed, Entry(k, st.orders, st.index))
    {
      assert LevelOk(s, p, st.On(s)[p], st.orders);
      if k != key {
        EditEntry(k, st.orders, st.index, orders', index', ed);
      } else {
        var r := Entry(k, st.orders, st.index);
        assert Apply(ed, r) == ApplyOne(ed, r[0]) + Apply(ed, r[1..]);
      }
    }
    SideEdit(s, st.On(s), st.orders, st.index, orders', index', ed);
  }

  /** Neither a level's cached total nor a dropped level of tombstones shows in the simple list. */
  lemma {:induction false} CancelHides(st: Repr, key: Key)
    requires Valid(st) && IsLive(key, st.orders)
    ensures var o := st.orders[key];
            var orders', index' := st.orders[key := o.(qtyRem := 0)], st.index - {o.orderId};
            var lvl := st.On(o.side)[o.price];
            SideList(o.side, Lowered(st.On(o.side), o.price, lvl.(total := lvl.total - o.qtyRem)), orders', index')
            == SideList(o.side, st.On(o.side), orders', index')
  {
    hide Valid, SideList, Sum, Distinct;
    var o := st.orders[key];
    LiveHasLevel(st, key);
    var orders', index' := st.orders[key := o.(qtyRem := 0)], st.index - {o.orderId};
    var levels, p := st.On(o.side), o.price;
    var lvl := levels[p].(total := levels[p].total - o.qtyRem);
    CancelLevel(st, key);
    LiveEmptyIffSumZero(lvl.queue, orders', index');
    OtherLevelsOk(st, o.side, p, key, orders');
    assert Lowered(levels, p, lvl) - {p} == levels - {p};
    var better, worse := Cut(o.side, levels, Lowered(levels, p, lvl), p, orders', index');
  }

  lemma {:induction false} CancelAbstract(st: Repr, key: Key)
    requires Valid(st) && IsLive(key, st.orders) && Indexed(st.orders[key].orderId, key, st.index)
    ensures Abstract(Cancelled(st, key)) == Abstract(st).Edited(Remove(st.orders[key].orderId))
  {
    hide Valid, SideList, Live, Apply, Lowered;
    var o := st.orders[key];
    LiveHasLevel(st, key);
    var lvl := st.On(o.side)[o.price];
    CancelEdits(st, key, o.side);
    CancelEdits(st, key, o.side.Opposite());
    CancelHides(st, key);
    AbstractParts(st, o.side, Lowered(st.On(o.side), o.price, lvl.(total := lvl.total - o.qtyRem)),
                  st.orders[key := o.(qtyRem := 0)], st.index - {o.orderId});
    SameBook(Abstract(Cancelled(st, key)), Abstract(st).Edited(Remove(o.orderId)), o.side);
  }

  // ----- trading -----

  /** The position of a live maker with nothing but tombstones before it. */
  predicate FirstLive(q: seq<Key>, i: nat, orders: Slab) {
    && i < |q|
    && IsLive(q[i], orders)
    && forall j :: 0 <= j < i ==> !IsLive(q[j], orders)
  }

  lemma {:induction false} DeadPrefix(q: seq<Key>, i: nat, orders: Slab, index: Index)
    requires FirstLive(q, i, orders)
    requires forall k :: k in q ==> k in orders && orders[k].qtyRem >= 0
    ensures Sum(q, orders) == orders[q[i]].qtyRem + Sum(q[i + 1..], orders)
    ensures Sum(q, orders) == Sum(q[i..], orders)
    ensures Live(q, orders, index) == Entry(q[i], orders, index) + Live(q[i + 1..], orders, index)
    decreases i
  {
    if i == 0 {
      assert q[0..] == q;
    } else {
      assert FirstLive(q[1..], i - 1, orders);
      DeadPrefix(q[1..], i - 1, orders, index);
      assert q[1..][i - 1 + 1..] == q[i + 1..];
      assert q[1..][i - 1..] == q[i..];
    }
  }

  lemma TailFacts(q: seq<Key>, i: nat) returns (tail: seq<Key>)
    requires Distinct(q) && i < |q|
    ensures tail == q[i + 1..] && Distinct(tail) && q[i] !in tail
    ensures forall k :: k in tail ==> k in q
    ensures q[i..] == [q[i]] + tail
  {
    tail := q[i + 1..];
    forall n | 0 <= n < |tail| ensures tail[n] in q && tail[n] != q[i] {
      assert tail[n] == q[i + 1 + n];
    }
  }

  /** A used-up maker leaves the queue behind it in order. */
  lemma TailQueueOk(s: Side, p: Price, tail: seq<Key>, k: Key, orders: Slab)
    requires k !in tail && Distinct(tail)
    requires forall j :: j in tail ==> Placed(j, s, p, orders) && orders[j].qtyRem >= 0
    ensures QueueOk(s, p, Level(tail, Sum(tail, orders)), orders - {k})
  {
    SumAgrees(tail, orders, orders - {k});
  }

  /** A maker that is not used up stays ahead of the queue behind it. */
  lemma HeadQueueOk(s: Side, p: Price, k: Key, tail: seq<Key>, orders: Slab, o: Order)
    requires k !in tail && Distinct(tail)
    requires forall j :: j in tail ==> Placed(j, s, p, orders) && orders[j].qtyRem >= 0
    requires o.side == s && o.price == p && o.qtyRem >= 0
    ensures QueueOk(s, p, Level([k] + tail, o.qtyRem + Sum(tail, orders)), orders[k := o])
  {
    SumAgrees(tail, orders, orders[k := o]);
    assert ([k] + tail)[1..] == tail;
  }

  /** Whatever is still live after the maker has gone is queued behind it. */
  lemma DeadBefore(q: seq<Key>, i: nat, orders: Slab)
    requires FirstLive(q, i, orders)
    ensures forall j :: j in q && j != q[i] && IsLive(j, orders) ==> j in q[i + 1..]
  {
    forall n | 0 <= n < |q| && q[n] != q[i] && IsLive(q[n], orders) ensures q[n] in q[i + 1..] {
      assert n > i;
      assert q[i + 1..][n - i - 1] == q[n];
    }
  }

  lemma TradeLevelDone(s: Side, p: Price, lvl: Level, orders: Slab, i: nat)
    requires QueueOk(s, p, lvl, orders) && FirstLive(lvl.queue, i, orders)
    ensures var k := lvl.queue[i];
            && QueueOk(s, p, Level(lvl.queue[i + 1..], lvl.total - orders[k].qtyRem), orders - {k})
            && (forall j :: j in lvl.queue && IsLive(j, orders - {k}) ==> j in lvl.queue[i + 1..])
  {
    hide Live, Sum, Distinct;
    var q, k := lvl.queue, lvl.queue[i];
    var tail := TailFacts(q, i);
    DeadPrefix(q, i, orders, map[]);
    TailQueueOk(s, p, tail, k, orders);
    DeadBefore(q, i, orders);
  }

  lemma TradeLevelPartly(s: Side, p: Price, lvl: Level, orders: Slab, i: nat, t: Qty)
    requires QueueOk(s, p, lvl, orders) && FirstLive(lvl.queue, i, orders)
    requires 0 < t < orders[lvl.queue[i]].qtyRem
    ensures var k := lvl.queue[i];
            var orders' := orders[k := orders[k].(qtyRem := orders[k].qtyRem - t)];
            && QueueOk(s, p, Level(lvl.queue[i..], lvl.total - t), orders')
            && (forall j :: j in lvl.queue && IsLive(j, orders') ==> j in lvl.queue[i..])
  {
    hide Live, Sum, Distinct;
    var q, k := lvl.queue, lvl.queue[i];
    var tail := TailFacts(q, i);
    DeadPrefix(q, i, orders, map[]);
    HeadQueueOk(s, p, k, tail, orders, orders[k].(qtyRem := orders[k].qtyRem - t));
    DeadBefore(q, i, orders);
  }

  /** The index stays right when the maker goes, and when it stays with fewer lots. */
  lemma TradeIndexOk(st: Repr, k: Key)
    requires Valid(st) && k in st.orders
    ensures forall id :: id in st.index && id != st.orders[k].orderId ==>
              var j := st.index[id]; j != k && IsLive(j, st.orders) && st.orders[j].orderId == id
    ensures forall id :: id in st.index ==> IsLive(st.index[id], st.orders) && st.orders[st.index[id]].orderId == id
  {
  }

  lemma {:induction false} TradeValidDone(st: Repr, s: Side, p: Price, i: nat)
    requires Valid(st) && p in st.On(s) && FirstLive(st.On(s)[p].queue, i, st.orders)
    ensures Valid(Traded(st, s, p, i, st.orders[st.On(s)[p].queue[i]].qtyRem))
  {
    hide Valid, QueueOk, Lowered;
    var lvl := st.On(s)[p];
    var k := lvl.queue[i];
    var o := st.orders[k];
    LevelQueueOk(st, s, p);
    TradeLevelDone(s, p, lvl, st.orders, i);
    TradeIndexOk(st, k);
    LowerValid(st, s, p, k, st.orders - {k}, st.index - {o.orderId}, Level(lvl.queue[i + 1..], lvl.total - o.qtyRem));
  }

  lemma {:induction false} TradeValidPartly(st: Repr, s: Side, p: Price, i: nat, t: Qty)
    requires Valid(st) && p in st.On(s) && FirstLive(st.On(s)[p].queue, i, st.orders)
    requires 0 < t < st.orders[st.On(s)[p].queue[i]].qtyRem
    ensures Valid(Traded(st, s, p, i, t))
  {
    hide Valid, QueueOk, Lowered;
    var lvl := st.On(s)[p];
    var k := lvl.queue[i];
    var o := st.orders[k];
    LevelQueueOk(st, s, p);
    TradeLevelPartly(s, p, lvl, st.orders, i, t);
    TradeIndexOk(st, k);
    LowerValid(st, s, p, k, st.orders[k := o.(qtyRem := o.qtyRem - t)], st.index, Level(lvl.queue[i..], lvl.total - t));
  }

  /** The entries other than the maker's: unindexed when the maker is used up, untouched otherwise. */
  lemma {:induction false} TradeEdits(st: Repr, s: Side, p: Price, i: nat, s': Side)
    requires Valid(st) && p in st.On(s) && FirstLive(st.On(s)[p].queue, i, st.orders)
    ensures var k := st.On(s)[p].queue[i];
            var id := st.orders[k].orderId;
            var levels := if s' == s then st.On(s) - {p} else st.On(s');
            SideList(s', levels, st.orders - {k}, st.index - {id})
            == Apply(Unindex(id), SideList(s', levels, st.orders, st.index))
  {
    var k := st.On(s)[p].queue[i];
    var ed := Unindex(st.orders[k].orderId);
    var levels := if s' == s then st.On(s) - {p} else st.On(s');
    forall p', j | p' in levels && j in levels[p'].queue
      ensures Entry(j, st.orders - {k}, st.index - {ed.id}) == Apply(ed, Entry(j, st.orders, st.index))
    {
      assert LevelOk(s', p', st.On(s')[p'], st.orders);
      if j == k {
        QueuedOnce(st, s, p, k, s', p');
      }
      EditEntry(j, st.orders, st.index, st.orders - {k}, st.index - {ed.id}, ed);
    }
    SideEdit(s', levels, st.orders, st.index, st.orders - {k}, st.index - {ed.id}, ed);
  }

  lemma {:induction false} TradeKeeps(st: Repr, s: Side, p: Price, i: nat, o': Order, s': Side)
    requires Valid(st) && p in st.On(s) && FirstLive(st.On(s)[p].queue, i, st.orders)
    ensures var k := st.On(s)[p].queue[i];
            var levels := if s' == s then st.On(s) - {p} else st.On(s');
            SideList(s', levels, st.orders[k := o'], st.index) == SideList(s', levels, st.orders, st.index)
  {
    var k := st.On(s)[p].queue[i];
    var levels := if s' == s then st.On(s) - {p} else st.On(s');
    forall p', j | p' in levels && j in levels[p'].queue ensures j in st.orders && j != k {
      assert LevelOk(s', p', st.On(s')[p'], st.orders);
      if j == k {
        QueuedOnce(st, s, p, k, s', p');
      }
    }
    SideSame(s', levels, st.orders, st.index, st.orders[k := o'], st.index);
  }

  /** The queue behind the maker, in the same two cases. */
  lemma {:induction false} QueueEdits(q: seq<Key>, k: Key, id: OrderId, orders: Slab, index: Index, o': Order)
    requires k !in q
    requires forall j :: j in q ==> j in orders
    ensures Live(q, orders - {k}, index - {id}) == Apply(Unindex(id), Live(q, orders, index))
    ensures Live(q, orders[k := o'], index) == Live(q, orders, index)
  {
    forall j | j in q
      ensures Entry(j, orders - {k}, index - {id}) == Apply(Unindex(id), Entry(j, orders, index))
    {
      assert j != k;
      EditEntry(j, orders, index, orders - {k}, index - {id}, Unindex(id));
    }
    LiveEdit(q, orders, index, orders - {k}, index - {id}, Unindex(id));
    SameEntries(q, orders, index, orders[k := o'], index);
  }

  /** The best level after it is lowered, whether or not it is dropped. */
  lemma {:induction false} LoweredBest(s: Side, levels: Levels, p: Price, lvl: Level, orders: Slab, index: Index)
    requires p in levels && forall p' :: p' in levels ==> Rank(s, p) <= Rank(s, p')
    requires QueueOk(s, p, lvl, orders)
    ensures SideList(s, Lowered(levels, p, lvl), orders, index)
         == Live(lvl.queue, orders, index) + SideList(s, levels - {p}, orders, index)
  {
    hide SideList, Sum, Distinct;
    LiveEmptyIffSumZero(lvl.queue, orders, index);
    if lvl.total > 0 {
      BestFirst(s, levels[p := lvl], p, orders, index);
      assert levels[p := lvl] - {p} == levels - {p};
    }
  }

  /** Everything on the maker's side that is served after it. */
  function Behind(st: Repr, s: Side, p: Price, i: nat, orders: Slab, index: Index): seq<Resting>
    requires p in st.On(s) && i < |st.On(s)[p].queue|
  {
    Live(st.On(s)[p].queue[i + 1..], orders, index) + SideList(s, st.On(s) - {p}, orders, index)
  }

  /** The simple list begins with the first live key of the best level. */
  lemma {:induction false} TradeHead(st: Repr, s: Side, p: Price, i: nat)
    requires Valid(st) && p in st.On(s) && FirstLive(st.On(s)[p].queue, i, st.orders)
    requires p == Best(s, st.On(s).Keys)
    ensures var q := st.On(s)[p].queue;
            Abstract(st).On(s)
            == [Resting(st.orders[q[i]], Indexed(st.orders[q[i]].orderId, q[i], st.index))]
             + Behind(st, s, p, i, st.orders, st.index)
  {
    hide Valid, SideList, Live, Sum, Distinct;
    var q := st.On(s)[p].queue;
    LevelQueueOk(st, s, p);
    DeadPrefix(q, i, st.orders, st.index);
    BestFirst(s, st.On(s), p, st.orders, st.index);
    Assoc3(Entry(q[i], st.orders, st.index), Live(q[i + 1..], st.orders, st.index),
           SideList(s, st.On(s) - {p}, st.orders, st.index));
  }

  lemma TailPlaced(st: Repr, s: Side, p: Price, i: nat)
    requires Valid(st) && p in st.On(s) && i < |st.On(s)[p].queue|
    ensures var q := st.On(s)[p].queue;
            q[i] !in q[i + 1..] && forall j :: j in q[i + 1..] ==> j in st.orders
  {
    var q := st.On(s)[p].queue;
    LevelQueueOk(st, s, p);
    forall j | j in q[i + 1..] ensures j in st.orders && j != q[i] {
      var n :| i < n < |q| && q[n] == j;
      assert q[n] in q;
    }
  }

  lemma {:induction false} BehindDone(st: Repr, s: Side, p: Price, i: nat)
    requires Valid(st) && p in st.On(s) && FirstLive(st.On(s)[p].queue, i, st.orders)
    ensures var k := st.On(s)[p].queue[i];
            var id := st.orders[k].orderId;
            Behind(st, s, p, i, st.orders - {k}, st.index - {id})
            == Apply(Unindex(id), Behind(st, s, p, i, st.orders, st.index))
  {
    var q := st.On(s)[p].queue;
    var id := st.orders[q[i]].orderId;
    TradeEdits(st, s, p, i, s);
    TailPlaced(st, s, p, i);
    QueueEdits(q[i + 1..], q[i], id, st.orders, st.index, st.orders[q[i]]);
    ApplyConcat(Unindex(id), Live(q[i + 1..], st.orders, st.index), SideList(s, st.On(s) - {p}, st.orders, st.index));
  }

  lemma {:induction false} BehindPartly(st: Repr, s: Side, p: Price, i: nat, o': Order)
    requires Valid(st) && p in st.On(s) && FirstLive(st.On(s)[p].queue, i, st.orders)
    ensures Behind(st, s, p, i, st.orders[st.On(s)[p].queue[i] := o'], st.index)
         == Behind(st, s, p, i, st.orders, st.index)
  {
    var q := st.On(s)[p].queue;
    TradeKeeps(st, s, p, i, o', s);
    TailPlaced(st, s, p, i);
    QueueEdits(q[i + 1..], q[i], o'.orderId, st.orders, st.index, o');
  }

  lemma TradeDoneSide(s: Side, levels: Levels, p: Price, i: nat, orders: Slab, index: Index)
    requires p in levels && QueueOk(s, p, levels[p], orders) && FirstLive(levels[p].queue, i, orders)
    requires p == Best(s, levels.Keys)
    ensures var lvl := levels[p];
            var k := lvl.queue[i];
            var orders', index' := orders - {k}, index - {orders[k].orderId};
            SideList(s, Lowered(levels, p, Level(lvl.queue[i + 1..], lvl.total - orders[k].qtyRem)), orders', index')
            == Live(lvl.queue[i + 1..], orders', index') + SideList(s, levels - {p}, orders', index')
  {
    var k := levels[p].queue[i];
    hide QueueOk, SideList, Live, Lowered, Sum;
    TradeLevelDone(s, p, levels[p], orders, i);
    LoweredBest(s, levels, p, Level(levels[p].queue[i + 1..], levels[p].total - orders[k].qtyRem),
                orders - {k}, index - {orders[k].orderId});
  }

  lemma LiveEntry(k: Key, o: Order, orders: Slab, index: Index)
    requires o.qtyRem > 0
    ensures Entry(k, orders[k := o], index) == [Resting(o, Indexed(o.orderId, k, index))]
  {
  }

  lemma LiveFrom(q: seq<Key>, i: nat, orders: Slab, index: Index)
    requires i < |q|
    ensures Live(q[i..], orders, index) == Entry(q[i], orders, index) + Live(q[i + 1..], orders, index)
  {
    assert q[i..][0] == q[i] && q[i..][1..] == q[i + 1..];
  }

  /** A queue from its first live key on, with whatever follows it. */
  lemma LiveFirst(q: seq<Key>, i: nat, o: Order, orders: Slab, index: Index, rest: seq<Resting>)
    requires i < |q| && o.qtyRem > 0
    ensures Live(q[i..], orders[q[i] := o], index) + rest
         == [Resting(o, Indexed(o.orderId, q[i], index))] + (Live(q[i + 1..], orders[q[i] := o], index) + rest)
  {
    hide Live, Entry, Indexed;
    LiveFrom(q, i, orders[q[i] := o], index);
    LiveEntry(q[i], o, orders, index);
    Assoc3([Resting(o, Indexed(o.orderId, q[i], index))], Live(q[i + 1..], orders[q[i] := o], index), rest);
  }

  lemma TradePartlySide(s: Side, levels: Levels, p: Price, i: nat, t: Qty, orders: Slab, index: Index)
    requires p in levels && QueueOk(s, p, levels[p], orders) && FirstLive(levels[p].queue, i, orders)
    requires p == Best(s, levels.Keys)
    requires 0 < t < orders[levels[p].queue[i]].qtyRem
    ensures var lvl := levels[p];
            var k := lvl.queue[i];
            var o' := orders[k].(qtyRem := orders[k].qtyRem - t);
            var orders' := orders[k := o'];
            SideList(s, Lowered(levels, p, Level(lvl.queue[i..], lvl.total - t)), orders', index)
            == [Resting(o', Indexed(o'.orderId, k, index))]
             + (Live(lvl.queue[i + 1..], orders', index) + SideList(s, levels - {p}, orders', index))
  {
    hide SideList, Live, Lowered, QueueOk, Indexed;
    var lvl := levels[p];
    var k := lvl.queue[i];
    var o' := orders[k].(qtyRem := orders[k].qtyRem - t);
    TradeLevelPartly(s, p, lvl, orders, i, t);
    LoweredBest(s, levels, p, Level(lvl.queue[i..], lvl.total - t), orders[k := o'], index);
    LiveFirst(lvl.queue, i, o', orders, index, SideList(s, levels - {p}, orders[k := o'], index));
  }

  lemma {:induction false} TradeDoneAbstract(st: Repr, s: Side, p: Price, i: nat)
    requires Valid(st) && p in st.On(s) && FirstLive(st.On(s)[p].queue, i, st.orders)
    requires p == Best(s, st.On(s).Keys)
    ensures var o := st.orders[st.On(s)[p].queue[i]];
            var l := Abstract(st).On(s);
            && l != [] && l[0].order == o
            && Abstract(Traded(st, s, p, i, o.qtyRem)) == Abstract(st).With(s, l[1..]).Edited(Unindex(o.orderId))
  {
    hide Valid, SideList, Live, Apply;
    var lvl := st.On(s)[p];
    var k := lvl.queue[i];
    var o := st.orders[k];
    TradeHead(st, s, p, i);
    BehindDone(st, s, p, i);
    LevelQueueOk(st, s, p);
    TradeDoneSide(s, st.On(s), p, i, st.orders, st.index);
    TradeEdits(st, s, p, i, s.Opposite());
    AbstractParts(st, s, Lowered(st.On(s), p, Level(lvl.queue[i + 1..], lvl.total - o.qtyRem)),
                  st.orders - {k}, st.index - {o.orderId});
    var b := Abstract(st);
    assert b.On(s)[1..] == Behind(st, s, p, i, st.orders, st.index);
    SameBook(Abstract(Traded(st, s, p, i, o.qtyRem)), b.With(s, b.On(s)[1..]).Edited(Unindex(o.orderId)), s);
  }

  lemma {:induction false} TradePartlyAbstract(st: Repr, s: Side, p: Price, i: nat, t: Qty)
    requires Valid(st) && p in st.On(s) && FirstLive(st.On(s)[p].queue, i, st.orders)
    requires p == Best(s, st.On(s).Keys)
    requires 0 < t < st.orders[st.On(s)[p].queue[i]].qtyRem
    ensures var o := st.orders[st.On(s)[p].queue[i]];
            var l := Abstract(st).On(s);
            && l != [] && l[0].order == o
            && Abstract(Traded(st, s, p, i, t))
               == Abstract(st).With(s, [l[0].(order := o.(qtyRem := o.qtyRem - t))] + l[1..])
  {
    hide Valid, SideList, Live, Apply;
    var lvl := st.On(s)[p];
    var k := lvl.queue[i];
    var o' := st.orders[k].(qtyRem := st.orders[k].qtyRem - t);
    TradeHead(st, s, p, i);
    BehindPartly(st, s, p, i, o');
    LevelQueueOk(st, s, p);
    TradePartlySide(s, st.On(s), p, i, t, st.orders, st.index);
    TradeKeeps(st, s, p, i, o', s.Opposite());
    AbstractParts(st, s, Lowered(st.On(s), p, Level(lvl.queue[i..], lvl.total - t)), st.orders[k := o'], st.index);
    var b := Abstract(st);
    assert b.On(s)[1..] == Behind(st, s, p, i, st.orders, st.index);
    SameBook(Abstract(Traded(st, s, p, i, t)), b.With(s, [b.On(s)[0].(order := o')] + b.On(s)[1..]), s);
  }

  /** Matching `rem` lots on `b` starts with the fill `f` and goes on from `b1`. */
  ghost predicate TradedOne(b: Book, taker: OrderId, side: Side, limit: Price, rem: Qty, f: MatchFill, b1: Book) {
    var (fs, b') := Match(b1, taker, side, limit, rem - f.qty);
    Match(b, taker, side, limit, rem) == ([f] + fs, b')
  }

  /** One pass of the matching loop is one step of greedy matching on the simple book. */
  lemma {:induction false} TradeRefines(st: Repr, taker: OrderId, side: Side, limit: Price, qty: Qty, p: Price, i: nat)
    requires Valid(st) && qty > 0
    requires p in st.On(side.Opposite()) && p == Best(side.Opposite(), st.On(side.Opposite()).Keys)
    requires Reaches(side.Opposite(), limit, p)
    requires FirstLive(st.On(side.Opposite())[p].queue, i, st.orders)
    ensures var s := side.Opposite();
            var o := st.orders[st.On(s)[p].queue[i]];
            var t := Min(qty, o.qtyRem);
            var st' := Traded(st, s, p, i, t);
            && Valid(st')
            && TradedOne(Abstract(st), taker, side, limit, qty, MatchFill(o.orderId, o.accountId, taker, p, t),
                         Abstract(st'))
  {
    hide Valid, Match, Live, SideList, Apply, Enqueue, Sum, Distinct, LevelOk, Lowered;
    var s := side.Opposite();
    var o := st.orders[st.On(s)[p].queue[i]];
    assert o.price == p by {
      LevelQueueOk(st, s, p);
    }
    if qty >= o.qtyRem {
      TradeValidDone(st, s, p, i);
      TradeDoneAbstract(st, s, p, i);
      MatchWholeMaker(Abstract(st), taker, side, limit, qty);
    } else {
      TradeValidPartly(st, s, p, i, qty);
      TradePartlyAbstract(st, s, p, i, qty);
      MatchPartOfMaker(Abstract(st), taker, side, limit, qty);
    }
  }
}
