/** The order book the engine matches on. Its fields are updated in place; its contracts speak of
    the simple book of price-time ordered lists that the fields stand for. */
module OrderBooks {
  import opened Common
  import opened PriceTimeBook
  import opened BookRepresentation
  import opened BookRefinement
  import Finite
  import Listings
  import Snapshots

  /** The index holds exactly the ids that a lookup finds. */
  lemma IndexDomain(st: Repr)
    requires Valid(st)
    ensures forall id :: id in st.index ==>
              Lookup(Abstract(st), id) == Some(st.orders[st.index[id]]) && st.orders[st.index[id]].orderId == id
    ensures forall id :: Lookup(Abstract(st), id).Some? ==> id in st.index
  {
    forall id ensures Lookup(Abstract(st), id) == if id in st.index then Some(st.orders[st.index[id]]) else None {
      LookupRefines(st, id);
    }
  }

  /** The fills so far, followed by what is left to match, make up the whole match. */
  ghost predicate Matched(b0: Book, taker: OrderId, side: Side, limit: Price, qty: Qty,
                          fills: seq<MatchFill>, b: Book, rem: Qty)
  {
    var (fs, b') := Match(b, taker, side, limit, rem);
    Match(b0, taker, side, limit, qty) == (fills + fs, b')
  }

  lemma MatchedStart(b: Book, taker: OrderId, side: Side, limit: Price, qty: Qty)
    ensures Matched(b, taker, side, limit, qty, [], b, qty)
  {
    var (fs, b') := Match(b, taker, side, limit, qty);
    assert [] + fs == fs;
  }

  lemma SetThenDrop<K, V>(m: map<K, V>, k: K, v: V)
    ensures m[k := v] - {k} == m - {k}
  {
  }

  /** A trade, written as the sequence of updates that the loop performs. */
  lemma TradedParts(st: Repr, s: Side, p: Price, i: nat, t: Qty)
    requires p in st.On(s) && i < |st.On(s)[p].queue| && st.On(s)[p].queue[i] in st.orders
    ensures var lvl := st.On(s)[p];
            var k := lvl.queue[i];
            var o := st.orders[k];
            var cut := st.orders[k := o.(qtyRem := o.qtyRem - t)];
            var rest := if t == o.qtyRem then lvl.queue[i + 1..] else [k] + lvl.queue[i + 1..];
            var levels := st.On(s)[p := Level(rest, lvl.total - t)];
            Traded(st, s, p, i, t)
            == Repr(st.bids, st.asks,
                    if t == o.qtyRem then cut - {k} else cut,
                    if t == o.qtyRem then st.index - {o.orderId} else st.index)
                .With(s, if lvl.total - t <= 0 then levels - {p} else levels)
  {
    var lvl := st.On(s)[p];
    var k := lvl.queue[i];
    var o := st.orders[k];
    SetThenDrop(st.orders, k, o.(qtyRem := o.qtyRem - t));
    SetThenDrop(st.On(s), p,
                Level(if t == o.qtyRem then lvl.queue[i + 1..] else [k] + lvl.queue[i + 1..], lvl.total - t));
    assert lvl.queue[i..] == [k] + lvl.queue[i + 1..];
  }

  /** The opposite side is empty or out of reach exactly when the taker does not cross. */
  lemma WhenNothingCrosses(st: Repr, side: Side, limit: Price)
    requires Valid(st)
    ensures WouldCross(Abstract(st), side, limit)
       <==> (st.On(side.Opposite()) != map[]
             && Reaches(side.Opposite(), limit, Best(side.Opposite(), st.On(side.Opposite()).Keys)))
  {
    HeadOfSide(st, side.Opposite());
  }

  lemma MatchedStep(b0: Book, taker: OrderId, side: Side, limit: Price, qty: Qty,
                    fills: seq<MatchFill>, b: Book, rem: Qty, f: MatchFill, b1: Book)
    requires Matched(b0, taker, side, limit, qty, fills, b, rem)
    requires TradedOne(b, taker, side, limit, rem, f, b1)
    ensures Matched(b0, taker, side, limit, qty, fills + [f], b1, rem - f.qty)
  {
    var (fs, b') := Match(b1, taker, side, limit, rem - f.qty);
    assert fills + ([f] + fs) == fills + [f] + fs;
  }

  lemma MatchedEnd(b0: Book, taker: OrderId, side: Side, limit: Price, qty: Qty,
                   fills: seq<MatchFill>, b: Book, rem: Qty)
    requires Matched(b0, taker, side, limit, qty, fills, b, rem)
    requires rem <= 0 || !WouldCross(b, side, limit)
    ensures Match(b0, taker, side, limit, qty) == (fills, b)
  {
    assert fills + [] == fills;
  }

  lemma {:induction false} KeyBound(used: set<Key>) returns (n: Key)
    ensures forall k :: k in used ==> k < n
    decreases |used|
  {
    if used == {} {
      n := 0;
    } else {
      var x := Pick(used);
      var m := KeyBound(used - {x});
      n := if m <= x then x + 1 else m;
      forall k | k in used ensures k < n {
        assert k == x || k in used - {x};
      }
    }
  }

  lemma {:induction false} VacantKey(used: set<Key>)
    ensures exists k: Key :: k !in used
  {
    var n := KeyBound(used);
    assert n !in used;
  }

  class OrderBook {
    const symbolId: SymbolId
    var bids: Levels
    var asks: Levels
    var orders: Slab
    var index: Index

    ghost function State(): Repr
      reads this
    {
      Repr(bids, asks, orders, index)
    }

    ghost predicate Ok()
      reads this
    {
      Valid(State())
    }

    /** The simple book. */
    ghost function View(): Book
      reads this
    {
      Abstract(State())
    }

    constructor (symbolId: SymbolId)
      ensures Ok() && View() == EMPTY_BOOK
      ensures this.symbolId == symbolId
    {
      this.symbolId := symbolId;
      bids, asks, orders, index := map[], map[], map[], map[];
    }

    function Get(id: OrderId): (r: Option<Order>)
      requires Ok()
      reads this
      ensures r == Lookup(View(), id)
    {
      LookupRefines(State(), id);
      if id in index then Some(orders[index[id]]) else None
    }

    function BestBid(): (r: Option<Quote>)
      requires Ok()
      reads this
      ensures r == Top(View().bids)
    {
      TopOfSide(State(), Buy);
      if bids == map[] then None else Some(Quote(Best(Buy, bids.Keys), bids[Best(Buy, bids.Keys)].total))
    }

    function BestAsk(): (r: Option<Quote>)
      requires Ok()
      reads this
      ensures r == Top(View().asks)
    {
      TopOfSide(State(), Sell);
      if asks == map[] then None else Some(Quote(Best(Sell, asks.Keys), asks[Best(Sell, asks.Keys)].total))
    }

    predicate WouldTrade(side: Side, price: Price)
      requires Ok()
      reads this
      ensures WouldTrade(side, price) <==> WouldCross(View(), side, price)
    {
      match side
      case Buy => BestAsk().Some? && price >= BestAsk().value.price
      case Sell => BestBid().Some? && price <= BestBid().value.price
    }

    /** Under any vacant slab key. An order without quantity is stored all the same, but is not on the simple book. */
    method InsertResting(order: Order) returns (ghost vacant: Key)
      modifies this
      ensures vacant !in old(orders) && State() == Inserted(old(State()), vacant, order)
      ensures old(Ok()) && order.qtyRem > 0 ==> Ok() && View() == Insert(old(View()), order)
    {
      ghost var before := State();
      VacantKey(orders.Keys);
      var key :| key !in orders.Keys;
      orders := orders[key := order];
      index := index[order.orderId := key];
      match order.side {
        case Buy =>
          var lvl := if order.price in bids then bids[order.price] else Level([], 0);
          bids := bids[order.price := Level(lvl.queue + [key], lvl.total + order.qtyRem)];
        case Sell =>
          var lvl := if order.price in asks then asks[order.price] else Level([], 0);
          asks := asks[order.price := Level(lvl.queue + [key], lvl.total + order.qtyRem)];
      }
      vacant := key;
      assert State() == Inserted(before, key, order);
      if Valid(before) && order.qtyRem > 0 {
        InsertValid(before, key, order);
        InsertAbstract(before, key, order);
      }
    }

    /** Returns true if the order was found, owned and cancelled. The slab keeps it as a tombstone. */
    method Cancel(id: OrderId, account: AccountId) returns (ok: bool)
      requires Ok()
      modifies this
      ensures Ok() && View() == CancelIn(old(View()), id, account)
      ensures ok <==> Cancellable(old(View()), id, account)
    {
      ghost var before := State();
      LookupRefines(before, id);
      if id !in index {
        return false;
      }
      var key := index[id];
      var order := orders[key];
      if order.accountId != account {
        return false;
      }
      CancelValid(before, key);
      CancelAbstract(before, key);
      MarkDead(key);
      return true;
    }

    /** Leaves a tombstone in the slab and the queue, and drops the level when nothing live is left on it. */
    method MarkDead(key: Key)
      requires key in orders && orders[key].price in State().On(orders[key].side)
      modifies this
      ensures State() == Cancelled(old(State()), key)
    {
      var order := orders[key];
      index := index - {order.orderId};
      orders := orders[key := order.(qtyRem := 0)];
      match order.side {
        case Buy =>
          var lvl := bids[order.price].(total := bids[order.price].total - order.qtyRem);
          SetThenDrop(bids, order.price, lvl);
          bids := bids[order.price := lvl];
          if lvl.total <= 0 {
            bids := bids - {order.price};
          }
        case Sell =>
          var lvl := asks[order.price].(total := asks[order.price].total - order.qtyRem);
          SetThenDrop(asks, order.price, lvl);
          asks := asks[order.price := lvl];
          if lvl.total <= 0 {
            asks := asks - {order.price};
          }
      }
    }

    /** Matches a taker against the opposite side; the caller works out what remains of it. */
    method MatchTaker(taker: OrderId, side: Side, limit: Price, qty: Qty) returns (fills: seq<MatchFill>)
      requires Ok()
      modifies this
      ensures Ok()
      ensures (fills, View()) == Match(old(View()), taker, side, limit, qty)
    {
      match side {
        case Buy => fills := MatchAsks(taker, limit, qty);
        case Sell => fills := MatchBids(taker, limit, qty);
      }
    }

    method MatchAsks(taker: OrderId, limit: Price, qty: Qty) returns (fills: seq<MatchFill>)
      requires Ok()
      modifies this
      ensures Ok()
      ensures (fills, View()) == Match(old(View()), taker, Buy, limit, qty)
    {
      hide Valid, Abstract, Match, Matched, TradedOne;
      fills := [];
      var takerQty := qty;
      MatchedStart(View(), taker, Buy, limit, qty);
      while takerQty > 0
        invariant Ok()
        invariant Matched(old(View()), taker, Buy, limit, qty, fills, View(), takerQty)
        decreases takerQty
      {
        WhenNothingCrosses(State(), Buy, limit);
        if asks == map[] {
          break;
        }
        var px := Best(Sell, asks.Keys);
        if px > limit {
          break;
        }
        ghost var before := View();
        var fill := PassAsk(px, taker, limit, takerQty);
        MatchedStep(old(View()), taker, Buy, limit, qty, fills, before, takerQty, fill, View());
        takerQty := takerQty - fill.qty;
        fills := fills + [fill];
      }
      MatchedEnd(old(View()), taker, Buy, limit, qty, fills, View(), takerQty);
    }

    /** One pass of the loop is one step of greedy matching. */
    method PassAsk(px: Price, taker: OrderId, limit: Price, takerQty: Qty) returns (fill: MatchFill)
      requires Ok() && takerQty > 0
      requires asks != map[] && px == Best(Sell, asks.Keys) && Reaches(Sell, limit, px)
      modifies this
      ensures Ok() && 0 < fill.qty
      ensures TradedOne(old(View()), taker, Buy, limit, takerQty, fill, View())
    {
      hide Valid, Abstract, TradedOne;
      ghost var before := State();
      LevelQueueOk(before, Sell, px);
      ghost var i;
      fill, i := TradeAsk(px, taker, takerQty);
      TradeRefines(before, taker, Buy, limit, takerQty, px, i);
    }

    /** One pass of the loop: the first live order at the best price trades, and keeps the front of
        its queue unless it is used up. */
    method TradeAsk(px: Price, taker: OrderId, takerQty: Qty) returns (fill: MatchFill, ghost i: nat)
      requires takerQty > 0
      requires px in asks && QueueOk(Sell, px, asks[px], orders) && asks[px].total > 0
      modifies this
      ensures FirstLive(old(asks)[px].queue, i, old(orders))
      ensures var maker := old(orders)[old(asks)[px].queue[i]];
              fill == MatchFill(maker.orderId, maker.accountId, taker, px, Min(takerQty, maker.qtyRem))
      ensures State() == Traded(old(State()), Sell, px, i, fill.qty)
    {
      hide Live, Sum, Distinct, Traded;
      var lvl := asks[px];
      var makerKey, rest := PopLiveFront(orders, lvl.queue);
      assert makerKey.Some? by {
        LiveEmptyIffSumZero(lvl.queue, orders, index);
      }
      i := |lvl.queue| - |rest| - 1;
      var k := makerKey.value;
      var maker := orders[k];
      var trade := Min(takerQty, maker.qtyRem);
      TradedParts(State(), Sell, px, i, trade);
      fill := MatchFill(maker.orderId, maker.accountId, taker, px, trade);
      orders := orders[k := maker.(qtyRem := maker.qtyRem - trade)];
      if orders[k].qtyRem == 0 {
        index := index - {maker.orderId};
        orders := orders - {k};
      } else {
        rest := [k] + rest;
      }
      asks := asks[px := Level(rest, lvl.total - trade)];
      if lvl.total - trade <= 0 {
        asks := asks - {px};
      }
    }

    method MatchBids(taker: OrderId, limit: Price, qty: Qty) returns (fills: seq<MatchFill>)
      requires Ok()
      modifies this
      ensures Ok()
      ensures (fills, View()) == Match(old(View()), taker, Sell, limit, qty)
    {
      hide Valid, Abstract, Match, Matched, TradedOne;
      fills := [];
      var takerQty := qty;
      MatchedStart(View(), taker, Sell, limit, qty);
      while takerQty > 0
        invariant Ok()
        invariant Matched(old(View()), taker, Sell, limit, qty, fills, View(), takerQty)
        decreases takerQty
      {
        WhenNothingCrosses(State(), Sell, limit);
        if bids == map[] {
          break;
        }
        var px := Best(Buy, bids.Keys);
        if px < limit {
          break;
        }
        ghost var before := View();
        var fill := PassBid(px, taker, limit, takerQty);
        MatchedStep(old(View()), taker, Sell, limit, qty, fills, before, takerQty, fill, View());
        takerQty := takerQty - fill.qty;
        fills := fills + [fill];
      }
      MatchedEnd(old(View()), taker, Sell, limit, qty, fills, View(), takerQty);
    }

    /** One pass of the loop is one step of greedy matching. */
    method PassBid(px: Price, taker: OrderId, limit: Price, takerQty: Qty) returns (fill: MatchFill)
      requires Ok() && takerQty > 0
      requires bids != map[] && px == Best(Buy, bids.Keys) && Reaches(Buy, limit, px)
      modifies this
      ensures Ok() && 0 < fill.qty
      ensures TradedOne(old(View()), taker, Sell, limit, takerQty, fill, View())
    {
      hide Valid, Abstract, TradedOne;
      ghost var before := State();
      LevelQueueOk(before, Buy, px);
      ghost var i;
      fill, i := TradeBid(px, taker, takerQty);
      TradeRefines(before, taker, Sell, limit, takerQty, px, i);
    }

    /** One pass of the loop: the first live order at the best price trades, and keeps the front of
        its queue unless it is used up. */
    method TradeBid(px: Price, taker: OrderId, takerQty: Qty) returns (fill: MatchFill, ghost i: nat)
      requires takerQty > 0
      requires px in bids && QueueOk(Buy, px, bids[px], orders) && bids[px].total > 0
      modifies this
      ensures FirstLive(old(bids)[px].queue, i, old(orders))
      ensures var maker := old(orders)[old(bids)[px].queue[i]];
              fill == MatchFill(maker.orderId, maker.accountId, taker, px, Min(takerQty, maker.qtyRem))
      ensures State() == Traded(old(State()), Buy, px, i, fill.qty)
    {
      hide Live, Sum, Distinct, Traded;
      var lvl := bids[px];
      var makerKey, rest := PopLiveFront(orders, lvl.queue);
      assert makerKey.Some? by {
        LiveEmptyIffSumZero(lvl.queue, orders, index);
      }
      i := |lvl.queue| - |rest| - 1;
      var k := makerKey.value;
      var maker := orders[k];
      var trade := Min(takerQty, maker.qtyRem);
      TradedParts(State(), Buy, px, i, trade);
      fill := MatchFill(maker.orderId, maker.accountId, taker, px, trade);
      orders := orders[k := maker.(qtyRem := maker.qtyRem - trade)];
      if orders[k].qtyRem == 0 {
        index := index - {maker.orderId};
        orders := orders - {k};
      } else {
        rest := [k] + rest;
      }
      bids := bids[px := Level(rest, lvl.total - trade)];
      if lvl.total - trade <= 0 {
        bids := bids - {px};
      }
    }

    /** The live orders in slab order. */
    method SerializeSnapshot() returns (live: seq<Order>)
      requires Ok()
      ensures live == Snapshots.LiveOrders(orders)
      ensures Snapshots.AllLive(live)
    {
      live := [];
      var rest := orders;
      while rest != map[]
        invariant live + Snapshots.LiveOrders(rest) == Snapshots.LiveOrders(orders)
        invariant Snapshots.AllLive(live)
        decreases |rest|
      {
        var key := Finite.Least(rest.Keys);
        Snapshots.WalkStep(live, rest);
        if rest[key].qtyRem > 0 {
          live := live + [rest[key]];
        }
        rest := rest - {key};
      }
    }

    /** Clears the book and inserts the orders of a snapshot one by one. */
    method RestoreFromSnapshot(live: seq<Order>) returns (ghost keys: seq<Key>)
      modifies this
      ensures |keys| == |live| && Distinct(keys) && State() == Snapshots.Rebuilt(keys, live)
      ensures Snapshots.AllLive(live) ==> Ok() && View() == Snapshots.InsertAll(EMPTY_BOOK, live)
    {
      hide Valid, Abstract;
      bids, asks, orders, index := map[], map[], map[], map[];
      Snapshots.EmptyIsEmpty();
      keys := [];
      for i := 0 to |live|
        invariant |keys| == i && Distinct(keys) && State() == Snapshots.Rebuilt(keys, live[..i])
        invariant forall k :: k in keys ==> k in orders
        invariant Snapshots.AllLive(live) ==>
                    Ok() && Snapshots.InsertAll(View(), live[i..]) == Snapshots.InsertAll(EMPTY_BOOK, live)
      {
        var key := InsertResting(live[i]);
        assert live[i..][1..] == live[i + 1..];
        assert live[..i + 1] == live[..i] + [live[i]];
        keys := keys + [key];
        assert keys[..i] == keys[..|keys| - 1];
      }
      assert live[..|live|] == live;
    }

    /** Every indexed order, in no particular order, with the amount it should have reserved. */
    method GetAllOrderSnapshots() returns (snaps: seq<OrderSnapshot>)
      requires Ok()
      ensures Listings.Lists(snaps, View())
    {
      IndexDomain(State());
      snaps := ListOrders(orders, index, View());
      Listings.AllListed(snaps, index.Keys, View());
    }

    static method ListOrders(orders: Slab, index: Index, ghost b: Book) returns (snaps: seq<OrderSnapshot>)
      requires forall id :: id in index ==>
                 index[id] in orders && orders[index[id]].orderId == id && Lookup(b, id) == Some(orders[index[id]])
      ensures Listings.ListsIds(snaps, index.Keys, b)
    {
      snaps := [];
      var rest := index.Keys;
      while rest != {}
        invariant rest <= index.Keys
        invariant Listings.ListsIds(snaps, index.Keys - rest, b)
        decreases |rest|
      {
        var id :| id in rest;
        var order := orders[index[id]];
        var reservedAmount := if order.side == Buy then order.price * order.qtyRem else 0;
        Listings.ListOneMore(snaps, index.Keys - rest, b, id);
        snaps := snaps + [OrderSnapshot(id, order.accountId, order.symbolId, order.side, order.price, order.qtyRem,
                                        reservedAmount)];
        assert index.Keys - (rest - {id}) == (index.Keys - rest) + {id};
        rest := rest - {id};
      }
      assert index.Keys - rest == index.Keys;
    }

    /** Pops tombstones until it finds a live order; that order is off the queue too. */
    static method PopLiveFront(orders: Slab, queue: seq<Key>) returns (key: Option<Key>, rest: seq<Key>)
      ensures key.None? ==> rest == [] && forall k :: k in queue ==> !IsLive(k, orders)
      ensures key.Some? ==>
                |rest| < |queue|
                && var i := |queue| - |rest| - 1;
                   FirstLive(queue, i, orders) && key.value == queue[i] && rest == queue[i + 1..]
    {
      rest := queue;
      ghost var i := 0;
      while rest != []
        invariant i <= |queue| && rest == queue[i..]
        invariant forall j :: 0 <= j < i ==> !IsLive(queue[j], orders)
        decreases |rest|
      {
        var k := rest[0];
        rest := rest[1..];
        i := i + 1;
        var qtyRem := if k in orders then orders[k].qtyRem else 0;
        if qtyRem > 0 {
          return Some(k), rest;
        }
      }
      return None, [];
    }
  }
}
