/** An engine's answer to a query for all its orders, and what it says about reserved amounts. */
module Listings {
  import opened Common
  import opened Finite
  import opened PriceTimeBook
  import opened Matching
  import opened IndexExact
  import opened Snapshots

  function SnapshotOf(o: Order): OrderSnapshot {
    OrderSnapshot(o.orderId, o.accountId, o.symbolId, o.side, o.price, o.qtyRem,
                  if o.side.Buy? then o.price * o.qtyRem else 0)
  }

  /** One entry for every id the book can look up, in any order. */
  ghost predicate Lists(snaps: seq<OrderSnapshot>, b: Book) {
    && (forall i, j :: 0 <= i < j < |snaps| ==> snaps[i].orderId != snaps[j].orderId)
    && (forall i :: 0 <= i < |snaps| ==>
          Lookup(b, snaps[i].orderId).Some? && snaps[i] == SnapshotOf(Lookup(b, snaps[i].orderId).value))
    && (forall id :: Lookup(b, id).Some? ==> exists i :: 0 <= i < |snaps| && snaps[i].orderId == id)
  }

  /** Entries for exactly the ids of a set. */
  ghost predicate ListsIds(snaps: seq<OrderSnapshot>, ids: set<OrderId>, b: Book) {
    && (forall i, j :: 0 <= i < j < |snaps| ==> snaps[i].orderId != snaps[j].orderId)
    && (forall i :: 0 <= i < |snaps| ==>
          snaps[i].orderId in ids
          && Lookup(b, snaps[i].orderId).Some? && snaps[i] == SnapshotOf(Lookup(b, snaps[i].orderId).value))
    && (forall id :: id in ids ==> exists i :: 0 <= i < |snaps| && snaps[i].orderId == id)
  }

  lemma ListOneMore(snaps: seq<OrderSnapshot>, ids: set<OrderId>, b: Book, id: OrderId)
    requires ListsIds(snaps, ids, b) && id !in ids
    requires Lookup(b, id).Some? && Lookup(b, id).value.orderId == id
    ensures ListsIds(snaps + [SnapshotOf(Lookup(b, id).value)], ids + {id}, b)
  {
    var snaps' := snaps + [SnapshotOf(Lookup(b, id).value)];
    assert snaps'[|snaps|].orderId == id;
    forall x | x in ids ensures exists i :: 0 <= i < |snaps'| && snaps'[i].orderId == x {
      var i :| 0 <= i < |snaps| && snaps[i].orderId == x;
      assert snaps'[i].orderId == x;
    }
  }

  lemma AllListed(snaps: seq<OrderSnapshot>, ids: set<OrderId>, b: Book)
    requires ListsIds(snaps, ids, b) && forall id :: Lookup(b, id).Some? ==> id in ids
    ensures Lists(snaps, b)
  {
  }

  /** What one entry adds to an account's reservation. */
  function ShareOf(a: AccountId): OrderSnapshot -> int {
    (s: OrderSnapshot) => if s.accountId == a then s.reservedAmount else 0
  }

  function ReservedFor(snaps: seq<OrderSnapshot>, a: AccountId): int {
    SumBy(snaps, ShareOf(a))
  }

  function ValueFor(a: AccountId): Order -> int {
    (o: Order) => if o.accountId == a then o.price * o.qtyRem else 0
  }

  /** Price times remaining quantity over an account's orders. */
  function ValueOf(os: seq<Order>, a: AccountId): int {
    SumBy(os, ValueFor(a))
  }

  /** What an account would pay if all its resting buy orders were filled. */
  function Exposure(b: Book, a: AccountId): int {
    ValueOf(Orders(b.bids), a)
  }

  function SnapshotsOf(os: seq<Order>): (r: seq<OrderSnapshot>)
    ensures |r| == |os|
    ensures forall i :: 0 <= i < |os| ==> r[i] == SnapshotOf(os[i])
  {
    seq(|os|, i requires 0 <= i < |os| => SnapshotOf(os[i]))
  }

  lemma {:induction false} BuysReserveTheirValue(os: seq<Order>, a: AccountId)
    requires forall i :: 0 <= i < |os| ==> os[i].side.Buy?
    ensures SumBy(SnapshotsOf(os), ShareOf(a)) == ValueOf(os, a)
  {
    if os != [] {
      BuysReserveTheirValue(os[1..], a);
      assert SnapshotsOf(os)[1..] == SnapshotsOf(os[1..]);
    }
  }

  lemma {:induction false} SellsReserveNothing(os: seq<Order>, a: AccountId)
    requires forall i :: 0 <= i < |os| ==> os[i].side.Sell?
    ensures SumBy(SnapshotsOf(os), ShareOf(a)) == 0
  {
    if os != [] {
      SellsReserveNothing(os[1..], a);
      assert SnapshotsOf(os)[1..] == SnapshotsOf(os[1..]);
    }
  }

  lemma {:induction false} IdsDistinct(l: seq<Resting>)
    requires forall id :: Count(l, id) <= 1
    ensures forall i, j :: 0 <= i < j < |l| ==> l[i].order.orderId != l[j].order.orderId
  {
    if l != [] {
      forall id ensures Count(l[1..], id) <= 1 {
        assert Count(l, id) <= 1;
      }
      IdsDistinct(l[1..]);
      assert Count(l, l[0].order.orderId) <= 1;
      CountZero(l[1..], l[0].order.orderId);
      forall j | 0 < j < |l| ensures l[j].order.orderId != l[0].order.orderId {
        assert l[1..][j - 1] in l[1..];
      }
    }
  }

  lemma AllOrdersNoRepeats(b: Book)
    requires Exact(b)
    ensures NoRepeats(SnapshotsOf(Orders(b.bids + b.asks)))
  {
    forall id ensures Count(b.bids + b.asks, id) <= 1 {
      SumByConcat(b.bids, b.asks, OneUnder(id));
      assert CountIn(b, id) <= 1;
    }
    IdsDistinct(b.bids + b.asks);
  }

  lemma SnapshotMember(os: seq<Order>, o: Order)
    requires o in os
    ensures SnapshotOf(o) in SnapshotsOf(os)
  {
    var i :| 0 <= i < |os| && os[i] == o;
    assert SnapshotsOf(os)[i] == SnapshotOf(o);
  }

  lemma ListedIsLive(snaps: seq<OrderSnapshot>, b: Book, s: OrderSnapshot)
    requires Lists(snaps, b) && s in snaps
    ensures s in SnapshotsOf(Orders(b.bids + b.asks))
  {
    OrdersConcat(b.bids, b.asks);
    LookupInBook(b, s.orderId);
    SnapshotMember(Orders(b.bids + b.asks), Lookup(b, s.orderId).value);
  }

  lemma LiveIsListed(snaps: seq<OrderSnapshot>, b: Book, o: Order)
    requires Exact(b) && Lists(snaps, b) && o in Orders(b.bids + b.asks)
    ensures SnapshotOf(o) in snaps
  {
    OrdersConcat(b.bids, b.asks);
    if o in Orders(b.bids) {
      LookupFinds(b, Buy, o);
    } else {
      LookupFinds(b, Sell, o);
    }
    var j :| 0 <= j < |snaps| && snaps[j].orderId == o.orderId;
    assert snaps[j] == SnapshotOf(o);
  }

  lemma ListingMembers(snaps: seq<OrderSnapshot>, b: Book, s: OrderSnapshot)
    requires Exact(b) && Lists(snaps, b)
    ensures s in snaps <==> s in SnapshotsOf(Orders(b.bids + b.asks))
  {
    var all := Orders(b.bids + b.asks);
    if s in snaps {
      ListedIsLive(snaps, b, s);
    }
    if s in SnapshotsOf(all) {
      var i :| 0 <= i < |all| && SnapshotsOf(all)[i] == s;
      LiveIsListed(snaps, b, all[i]);
    }
  }

  /** The reserved amounts an engine reports for an account add up to its exposure on that engine's book. */
  lemma ListingIsExposure(snaps: seq<OrderSnapshot>, b: Book, a: AccountId)
    requires BookOk(b) && Exact(b) && Lists(snaps, b)
    ensures ReservedFor(snaps, a) == Exposure(b, a)
  {
    var bids, asks := SnapshotsOf(Orders(b.bids)), SnapshotsOf(Orders(b.asks));
    var all := SnapshotsOf(Orders(b.bids + b.asks));
    assert all == bids + asks;
    AllOrdersNoRepeats(b);
    forall s ensures s in snaps <==> s in all {
      ListingMembers(snaps, b, s);
    }
    SameSum(snaps, all, ShareOf(a));
    SumByConcat(bids, asks, ShareOf(a));
    assert ListOk(Buy, b.bids) && ListOk(Sell, b.asks);
    BuysReserveTheirValue(Orders(b.bids), a);
    SellsReserveNothing(Orders(b.asks), a);
  }

  // ----- what else an entry tells -----

  /** The entry shows the order as it rests. */
  predicate Shows(s: OrderSnapshot, o: Order) {
    && s.orderId == o.orderId
    && s.accountId == o.accountId
    && s.symbolId == o.symbolId
    && s.side == o.side
    && s.price == o.price
    && s.qtyRem == o.qtyRem
  }

  predicate IsShown(s: OrderSnapshot, os: seq<Order>) {
    exists o :: o in os && Shows(s, o)
  }

  /** Every entry shows a resting order in all its fields. */
  lemma EntryShowsOrder(snaps: seq<OrderSnapshot>, b: Book, s: OrderSnapshot)
    requires Lists(snaps, b) && s in snaps
    ensures IsShown(s, Orders(b.bids + b.asks))
  {
    OrdersConcat(b.bids, b.asks);
    LookupInBook(b, s.orderId);
    assert Shows(s, Lookup(b, s.orderId).value);
  }

  function LotsListed(side: Side, price: Price): OrderSnapshot -> Qty {
    (s: OrderSnapshot) => if s.side == side && s.price == price then s.qtyRem else 0
  }

  lemma {:induction false} SideLots(l: seq<Resting>, from: Side, side: Side, price: Price)
    requires forall i :: 0 <= i < |l| ==> l[i].order.side == from
    ensures SumBy(SnapshotsOf(Orders(l)), LotsListed(side, price)) == if side == from then DepthAt(l, price) else 0
  {
    if l != [] {
      SideLots(l[1..], from, side, price);
      assert SnapshotsOf(Orders(l))[1..] == SnapshotsOf(Orders(l[1..]));
    }
  }

  /** The lots an engine lists for a side and a price are the depth of its book there. */
  lemma ListingIsDepth(snaps: seq<OrderSnapshot>, b: Book, side: Side, price: Price)
    requires BookOk(b) && Exact(b) && Lists(snaps, b)
    ensures SumBy(snaps, LotsListed(side, price)) == DepthAt(b.On(side), price)
  {
    var bids, asks := SnapshotsOf(Orders(b.bids)), SnapshotsOf(Orders(b.asks));
    var all := SnapshotsOf(Orders(b.bids + b.asks));
    assert all == bids + asks;
    AllOrdersNoRepeats(b);
    forall s ensures s in snaps <==> s in all {
      ListingMembers(snaps, b, s);
    }
    SameSum(snaps, all, LotsListed(side, price));
    SumByConcat(bids, asks, LotsListed(side, price));
    assert ListOk(Buy, b.bids) && ListOk(Sell, b.asks);
    SideLots(b.bids, Buy, side, price);
    SideLots(b.asks, Sell, side, price);
  }
}
