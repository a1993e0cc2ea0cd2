/** What a restarted gateway rebuilds from the engines is within what it had reserved before. */
module ReservedExposure {
  import opened Common
  import opened Finite
  import opened PriceTimeBook
  import opened Matching
  import opened IndexExact
  import opened Listings
  import opened Reconciliation
  import opened EndToEnd
  import L = GatewayLedger

  function BooksOf(s: System, ys: seq<SymbolId>): (books: seq<Book>)
    requires forall y :: y in ys ==> y in s.links
    ensures |books| == |ys|
  {
    if ys == [] then [] else [s.links[ys[0]].engine.book] + BooksOf(s, ys[1..])
  }

  /** The ids of an account's orders, in list order. */
  function IdsOf(os: seq<Order>, a: AccountId): seq<OrderId> {
    if os == [] then [] else (if os[0].accountId == a then [os[0].orderId] else []) + IdsOf(os[1..], a)
  }

  /** The ids of an account's live buy orders on the given engines. */
  function LiveBuys(s: System, ys: seq<SymbolId>, a: AccountId): seq<OrderId>
    requires forall y :: y in ys ==> y in s.links
  {
    if ys == [] then [] else IdsOf(Orders(s.links[ys[0]].engine.book.bids), a) + LiveBuys(s, ys[1..], a)
  }

  function GrantOf(s: System): OrderId -> int {
    (id: OrderId) => if id in s.granted then s.granted[id] else 0
  }

  function OriginalOf(s: System): OrderId -> int {
    (id: OrderId) => if id in s.orders then L.Notional(s.orders[id]) else 0
  }

  predicate RestsOn(s: System, y: SymbolId, id: OrderId, a: AccountId)
    requires y in s.links
  {
    exists o :: o in Orders(s.links[y].engine.book.bids) && o.orderId == id && o.accountId == a
  }

  /** The account has a live buy order under this id on some engine. */
  predicate RestsAsBuy(s: System, id: OrderId, a: AccountId) {
    exists y :: y in s.links && RestsOn(s, y, id, a)
  }

  lemma {:induction false} IdsOfIs(os: seq<Order>, a: AccountId)
    ensures forall id :: id in IdsOf(os, a) <==> exists o :: o in os && o.orderId == id && o.accountId == a
  {
    if os != [] {
      IdsOfIs(os[1..], a);
      assert os == [os[0]] + os[1..];
    }
  }

  lemma {:induction false} ValueWithinGrants(s: System, y: SymbolId, os: seq<Order>, a: AccountId)
    requires AllBacked(s, y, os) && forall i :: 0 <= i < |os| ==> os[i].side.Buy?
    ensures ValueOf(os, a) <= SumBy(IdsOf(os, a), GrantOf(s))
  {
    if os != [] {
      ValueWithinGrants(s, y, os[1..], a);
      assert Backed(s, y, os[0]);
      SumByConcat(if os[0].accountId == a then [os[0].orderId] else [], IdsOf(os[1..], a), GrantOf(s));
      assert [os[0].orderId][1..] == [];
    }
  }

  lemma NoRepeatsConcat<T>(x: seq<T>, y: seq<T>)
    requires NoRepeats(x) && NoRepeats(y) && forall e :: e in x ==> e !in y
    ensures NoRepeats(x + y)
  {
    forall i, j | 0 <= i < j < |x + y| ensures (x + y)[i] != (x + y)[j] {
      if i < |x| <= j {
        assert x[i] in x && y[j - |x|] in y;
      }
    }
  }

  lemma {:induction false} IdsNoRepeats(l: seq<Resting>, a: AccountId)
    requires forall id :: Count(l, id) <= 1
    ensures NoRepeats(IdsOf(Orders(l), a))
  {
    if l != [] {
      forall id ensures Count(l[1..], id) <= 1 {
        assert Count(l, id) <= 1;
      }
      IdsNoRepeats(l[1..], a);
      assert Orders(l)[1..] == Orders(l[1..]);
      IdsOfIs(Orders(l[1..]), a);
      assert Count(l, l[0].order.orderId) <= 1;
      NotAmongIffNoCount(l[0].order.orderId, l[1..]);
      NoRepeatsConcat(if l[0].order.accountId == a then [l[0].order.orderId] else [], IdsOf(Orders(l[1..]), a));
    }
  }

  /** One engine's part. */
  lemma OnOneEngine(s: System, y: SymbolId, a: AccountId)
    requires Good(s) && y in s.links
    ensures var b := s.links[y].engine.book;
            var ids := IdsOf(Orders(b.bids), a);
            && Exposure(b, a) <= SumBy(ids, GrantOf(s))
            && NoRepeats(ids)
            && forall id :: id in ids ==> id in s.orders && s.orders[id].symbolId == y
  {
    var b := s.links[y].engine.book;
    assert LinkOk(s, y, s.links[y]);
    SideOrders(b, Buy);
    ValueWithinGrants(s, y, Orders(b.bids), a);
    forall id ensures Count(b.bids, id) <= 1 {
      assert CountIn(b, id) <= 1;
    }
    IdsNoRepeats(b.bids, a);
    IdsOfIs(Orders(b.bids), a);
    forall id | id in IdsOf(Orders(b.bids), a) ensures id in s.orders && s.orders[id].symbolId == y {
      var o :| o in Orders(b.bids) && o.orderId == id && o.accountId == a;
      assert Backed(s, y, o);
    }
  }

  lemma {:induction false} OnAllEngines(s: System, ys: seq<SymbolId>, a: AccountId)
    requires Good(s) && NoRepeats(ys) && forall y :: y in ys ==> y in s.links
    ensures TotalExposure(BooksOf(s, ys), a) <= SumBy(LiveBuys(s, ys, a), GrantOf(s))
    ensures NoRepeats(LiveBuys(s, ys, a))
    ensures forall id :: id in LiveBuys(s, ys, a) ==> id in s.orders && s.orders[id].symbolId in ys
  {
    hide Good, Exposure, Orders, IdsOf, GrantOf;
    if ys != [] {
      var here := IdsOf(Orders(s.links[ys[0]].engine.book.bids), a);
      OnOneEngine(s, ys[0], a);
      OnAllEngines(s, ys[1..], a);
      SumByConcat(here, LiveBuys(s, ys[1..], a), GrantOf(s));
      assert ys == [ys[0]] + ys[1..];
      NoRepeatsConcat(here, LiveBuys(s, ys[1..], a));
    }
  }

  lemma {:induction false} LiveBuysRest(s: System, ys: seq<SymbolId>, id: OrderId, a: AccountId)
    requires forall y :: y in ys ==> y in s.links
    ensures id in LiveBuys(s, ys, a) <==> exists y :: y in ys && RestsOn(s, y, id, a)
  {
    if ys != [] {
      LiveBuysRest(s, ys[1..], id, a);
      IdsOfIs(Orders(s.links[ys[0]].engine.book.bids), a);
      assert id in IdsOf(Orders(s.links[ys[0]].engine.book.bids), a) <==> RestsOn(s, ys[0], id, a);
      assert ys[0] in ys;
      if y :| y in ys && RestsOn(s, y, id, a) {
        assert y == ys[0] || y in ys[1..];
      }
    }
  }

  lemma {:induction false} SumByAgrees<T>(xs: seq<T>, f: T -> int, g: T -> int)
    requires forall x :: x in xs ==> f(x) == g(x)
    ensures SumBy(xs, f) == SumBy(xs, g)
  {
    if xs != [] {
      SumByAgrees(xs[1..], f, g);
    }
  }

  lemma OriginalUnlessReplaced(s: System, ids: seq<OrderId>)
    requires Good(s) && forall id :: id in ids ==> id in s.orders && id !in s.replaced
    ensures SumBy(ids, OriginalOf(s)) == SumBy(ids, GrantOf(s))
  {
    forall id | id in ids ensures OriginalOf(s)(id) == GrantOf(s)(id) {
      assert id in s.orders;
    }
    SumByAgrees(ids, OriginalOf(s), GrantOf(s));
  }

  /** In every state the system reaches, what reconciliation rebuilds for an account from the answers of all
      engines is at most the sum of what its live buy orders were last granted, and if none of these was replaced
      at most the sum of their original reservations. Each live buy order is counted once. */
  lemma RebuiltWithinReservations(s: System, ys: seq<SymbolId>, responses: seq<Response>, before: int, a: AccountId)
    requires Good(s) && NoRepeats(ys) && forall y :: y in ys <==> y in s.links
    requires Answered(responses, BooksOf(s, ys))
    requires before == 0 || Mentions(Joined(responses), a)
    ensures var ids := LiveBuys(s, ys, a);
            && NoRepeats(ids)
            && (forall id :: id in ids <==> RestsAsBuy(s, id, a))
            && Rebuilt(before, Joined(responses), a) <= SumBy(ids, GrantOf(s))
            && ((forall id :: id in ids ==> id !in s.replaced) ==>
                  Rebuilt(before, Joined(responses), a) <= SumBy(ids, OriginalOf(s)))
  {
    hide Good, Rebuilt, Answered, RestsOn, LiveBuys;
    OnAllEngines(s, ys, a);
    forall id ensures id in LiveBuys(s, ys, a) <==> RestsAsBuy(s, id, a) {
      LiveBuysRest(s, ys, id, a);
    }
    ReconciliationIsExposure(before, responses, BooksOf(s, ys), a);
    if forall id :: id in LiveBuys(s, ys, a) ==> id !in s.replaced {
      OriginalUnlessReplaced(s, LiveBuys(s, ys, a));
    }
  }
}
