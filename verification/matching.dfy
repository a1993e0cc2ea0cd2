/** What greedy matching means: who is filled, for how much, what is left, and that the two sides
    of the market are treated alike. */
module Matching {
  import opened Common
  import opened Finite
  import opened PriceTimeBook

  function Orders(l: seq<Resting>): (os: seq<Order>)
    ensures |os| == |l|
    ensures forall i :: 0 <= i < |l| ==> os[i] == l[i].order
  {
    seq(|l|, i requires 0 <= i < |l| => l[i].order)
  }

  lemma OrdersConcat(a: seq<Resting>, b: seq<Resting>)
    ensures Orders(a + b) == Orders(a) + Orders(b)
  {
  }

  function QtyResting(o: Order): Qty {
    o.qtyRem
  }

  function Total(os: seq<Order>): Qty {
    SumBy(os, QtyResting)
  }

  function QtyFilled(f: MatchFill): Qty {
    f.qty
  }

  function FillTotal(fs: seq<MatchFill>): Qty {
    SumBy(fs, QtyFilled)
  }

  function QtyWithin(s: Side, limit: Price): Order -> Qty {
    (o: Order) => if Reaches(s, limit, o.price) then o.qtyRem else 0
  }

  /** Quantity resting at or better than the taker's limit. */
  function DepthWithin(s: Side, limit: Price, os: seq<Order>): Qty {
    SumBy(os, QtyWithin(s, limit))
  }

  predicate OrdersOk(s: Side, os: seq<Order>) {
    && (forall i, j :: 0 <= i < j < |os| ==> Rank(s, os[i].price) <= Rank(s, os[j].price))
    && forall i :: 0 <= i < |os| ==> os[i].qtyRem > 0
  }

  /** Maker `i` is due what the better-placed makers leave of the taker, if its price is within the limit. */
  function Due(s: Side, limit: Price, qty: Qty, os: seq<Order>, i: nat): Qty
    requires i < |os|
  {
    if Reaches(s, limit, os[i].price) && qty > Total(os[..i]) then Min(os[i].qtyRem, qty - Total(os[..i])) else 0
  }

  /** Maker `i` is filled exactly when it is due something, for exactly that much, at its own price;
      and every filled maker but the last is used up. */
  predicate RuleAt(s: Side, limit: Price, qty: Qty, taker: OrderId, os: seq<Order>, fills: seq<MatchFill>, i: nat)
    requires i < |os|
  {
    && (i < |fills| <==> Due(s, limit, qty, os, i) > 0)
    && (i < |fills| ==>
          fills[i] == MatchFill(os[i].orderId, os[i].accountId, taker, os[i].price, Due(s, limit, qty, os, i)))
    && (i < |fills| - 1 ==> fills[i].qty == os[i].qtyRem)
  }

  /** The orders after the fills: used-up makers are gone, the last maker may keep a remainder at the front. */
  function Leftover(os: seq<Order>, fills: seq<MatchFill>): seq<Order>
    requires |fills| <= |os|
  {
    var n := |fills|;
    if n == 0 || fills[n - 1].qty == os[n - 1].qtyRem then os[n..]
    else [os[n - 1].(qtyRem := os[n - 1].qtyRem - fills[n - 1].qty)] + os[n..]
  }

  /** The price-time rule: the makers that are due something are a prefix of the list, each gets
      exactly what it is due, and all keep what they were not due. */
  ghost predicate PriceTimeRule(s: Side, limit: Price, qty: Qty, taker: OrderId,
                                os: seq<Order>, fills: seq<MatchFill>, rest: seq<Order>)
  {
    && |fills| <= |os|
    && (forall i: nat :: i < |os| ==> RuleAt(s, limit, qty, taker, os, fills, i))
    && rest == Leftover(os, fills)
  }

  lemma OrdersUnindex(id: OrderId, l: seq<Resting>)
    ensures Orders(Apply(Unindex(id), l)) == Orders(l)
  {
    UnindexIs(id, l);
  }

  lemma BookOrdersOk(b: Book, s: Side)
    requires BookOk(b)
    ensures OrdersOk(s, Orders(b.On(s)))
  {
    assert ListOk(s, b.On(s));
  }

  lemma TotalStep(os: seq<Order>, i: nat)
    requires 0 < i <= |os|
    ensures Total(os[..i]) == os[0].qtyRem + Total(os[1..][..i - 1])
  {
    assert os[..i][1..] == os[1..][..i - 1];
  }

  lemma {:induction false} TotalNonNeg(os: seq<Order>)
    requires forall i :: 0 <= i < |os| ==> os[i].qtyRem > 0
    ensures Total(os) >= 0
  {
    if os != [] {
      TotalNonNeg(os[1..]);
    }
  }

  // ----- greedy matching on plain orders -----

  /** Fill the first order, then the next, until the taker is done or the price is out of reach. */
  function Greedy(s: Side, os: seq<Order>, taker: OrderId, limit: Price, qty: Qty): (r: (seq<MatchFill>, seq<Order>)) {
    if qty <= 0 || os == [] || !Reaches(s, limit, os[0].price) then ([], os)
    else
      var t := Min(qty, os[0].qtyRem);
      var f := MatchFill(os[0].orderId, os[0].accountId, taker, os[0].price, t);
      if t < os[0].qtyRem then ([f], [os[0].(qtyRem := os[0].qtyRem - t)] + os[1..])
      else
        var (fs, rest) := Greedy(s, os[1..], taker, limit, qty - t);
        ([f] + fs, rest)
  }

  lemma CutFirstOk(b: Book, s: Side, r: Resting)
    requires BookOk(b) && b.On(s) != []
    requires r.order.side == s && r.order.price == b.On(s)[0].order.price && r.order.qtyRem > 0
    ensures BookOk(b.With(s, [r] + b.On(s)[1..]))
  {
    var l := b.On(s);
    assert ListOk(s, l) && ListOk(s, [r] + l[1..]);
  }

  lemma FirstOk(b: Book, s: Side)
    requires BookOk(b) && b.On(s) != []
    ensures b.On(s)[0].order.side == s && b.On(s)[0].order.qtyRem > 0
  {
    assert ListOk(s, b.On(s));
  }

  lemma CutIsGreedy(b: Book, taker: OrderId, side: Side, limit: Price, qty: Qty)
    requires BookOk(b) && WouldCross(b, side, limit) && 0 < qty < b.On(side.Opposite())[0].order.qtyRem
    ensures var s := side.Opposite();
            var (fills, b') := Match(b, taker, side, limit, qty);
            && Greedy(s, Orders(b.On(s)), taker, limit, qty) == (fills, Orders(b'.On(s)))
            && b'.On(side) == b.On(side)
            && BookOk(b')
  {
    var s := side.Opposite();
    var l := b.On(s);
    var os := Orders(l);
    hide BookOk, Match;
    var r := l[0].(order := os[0].(qtyRem := os[0].qtyRem - qty));
    MatchPartOfMaker(b, taker, side, limit, qty);
    assert [MatchFill(os[0].orderId, os[0].accountId, taker, os[0].price, qty)] + []
        == [MatchFill(os[0].orderId, os[0].accountId, taker, os[0].price, qty)];
    assert Orders([r] + l[1..]) == [r.order] + os[1..];
    FirstOk(b, s);
    CutFirstOk(b, s, r);
  }

  lemma DropFirstOk(b: Book, s: Side)
    requires BookOk(b) && b.On(s) != []
    ensures BookOk(b.With(s, b.On(s)[1..]).Edited(Unindex(b.On(s)[0].order.orderId)))
  {
    var ed := Unindex(b.On(s)[0].order.orderId);
    assert ListOk(s, b.On(s)[1..]);
    ApplyKeepsOk(s, ed, b.On(s)[1..]);
    ApplyKeepsOk(s.Opposite(), ed, b.On(s.Opposite()));
  }

  /** Matching on the book is greedy matching on the opposite list; only index flags change elsewhere. */
  lemma {:induction false} MatchIsGreedy(b: Book, taker: OrderId, side: Side, limit: Price, qty: Qty)
    requires BookOk(b)
    ensures var s := side.Opposite();
            var (fills, b') := Match(b, taker, side, limit, qty);
            && Greedy(s, Orders(b.On(s)), taker, limit, qty) == (fills, Orders(b'.On(s)))
            && Orders(b'.On(side)) == Orders(b.On(side))
            && BookOk(b')
    decreases |b.On(side.Opposite())|
  {
    hide Apply, BookOk;
    var s := side.Opposite();
    var l := b.On(s);
    var os := Orders(l);
    if qty > 0 && WouldCross(b, side, limit) {
      var maker := l[0].order;
      assert os[0] == maker && os[1..] == Orders(l[1..]);
      if qty >= maker.qtyRem {
        var next := b.With(s, l[1..]).Edited(Unindex(maker.orderId));
        OrdersUnindex(maker.orderId, l[1..]);
        OrdersUnindex(maker.orderId, b.On(side));
        DropFirstOk(b, s);
        MatchWholeMaker(b, taker, side, limit, qty);
        MatchIsGreedy(next, taker, side, limit, qty - maker.qtyRem);
      } else {
        CutIsGreedy(b, taker, side, limit, qty);
      }
    }
  }

  lemma RuleWhenNothingTrades(s: Side, limit: Price, qty: Qty, taker: OrderId, os: seq<Order>)
    requires OrdersOk(s, os)
    requires qty <= 0 || os == [] || !Reaches(s, limit, os[0].price)
    ensures PriceTimeRule(s, limit, qty, taker, os, [], os)
  {
    forall i: nat | i < |os| ensures RuleAt(s, limit, qty, taker, os, [], i) {
      TotalNonNeg(os[..i]);
    }
    assert os[0..] == os;
  }

  lemma RuleWhenFirstIsCut(s: Side, limit: Price, qty: Qty, taker: OrderId, os: seq<Order>)
    requires OrdersOk(s, os) && os != [] && Reaches(s, limit, os[0].price) && 0 < qty < os[0].qtyRem
    ensures PriceTimeRule(s, limit, qty, taker, os,
                          [MatchFill(os[0].orderId, os[0].accountId, taker, os[0].price, qty)],
                          [os[0].(qtyRem := os[0].qtyRem - qty)] + os[1..])
  {
    var f := MatchFill(os[0].orderId, os[0].accountId, taker, os[0].price, qty);
    forall i: nat | i < |os| ensures RuleAt(s, limit, qty, taker, os, [f], i) {
      if i > 0 {
        TotalStep(os, i);
        TotalNonNeg(os[1..][..i - 1]);
      }
    }
  }

  lemma DueStep(s: Side, limit: Price, qty: Qty, os: seq<Order>, i: nat)
    requires 0 < i < |os|
    ensures Due(s, limit, qty, os, i) == Due(s, limit, qty - os[0].qtyRem, os[1..], i - 1)
  {
    TotalStep(os, i);
  }

  lemma RuleShift(s: Side, limit: Price, qty: Qty, taker: OrderId, os: seq<Order>, f: MatchFill, fs: seq<MatchFill>,
          i: nat)
    requires 0 < i < |os|
    requires RuleAt(s, limit, qty - os[0].qtyRem, taker, os[1..], fs, i - 1)
    ensures RuleAt(s, limit, qty, taker, os, [f] + fs, i)
  {
    DueStep(s, limit, qty, os, i);
    assert os[1..][i - 1] == os[i];
    assert i - 1 < |fs| ==> ([f] + fs)[i] == fs[i - 1];
  }

  lemma LeftoverShift(os: seq<Order>, f: MatchFill, fs: seq<MatchFill>)
    requires os != [] && |fs| < |os| && f.qty == os[0].qtyRem
    ensures Leftover(os, [f] + fs) == Leftover(os[1..], fs)
  {
    var n := |fs|;
    assert os[1..][n..] == os[n + 1..];
    if n > 0 {
      assert ([f] + fs)[n] == fs[n - 1] && os[1..][n - 1] == os[n];
    }
  }

  /** The rule for the makers behind a used-up one gives the rule for all of them. */
  lemma RuleStep(s: Side, limit: Price, qty: Qty, taker: OrderId, os: seq<Order>, fs: seq<MatchFill>, rest: seq<Order>)
    requires OrdersOk(s, os) && os != [] && Reaches(s, limit, os[0].price) && qty >= os[0].qtyRem
    requires PriceTimeRule(s, limit, qty - os[0].qtyRem, taker, os[1..], fs, rest)
    ensures PriceTimeRule(s, limit, qty, taker, os,
                          [MatchFill(os[0].orderId, os[0].accountId, taker, os[0].price, os[0].qtyRem)] + fs, rest)
  {
    var f := MatchFill(os[0].orderId, os[0].accountId, taker, os[0].price, os[0].qtyRem);
    forall i: nat | i < |os| ensures RuleAt(s, limit, qty, taker, os, [f] + fs, i) {
      if i > 0 {
        assert RuleAt(s, limit, qty - os[0].qtyRem, taker, os[1..], fs, i - 1);
        RuleShift(s, limit, qty, taker, os, f, fs, i);
      }
    }
    LeftoverShift(os, f, fs);
  }

  lemma {:induction false} GreedyObeysRule(s: Side, os: seq<Order>, taker: OrderId, limit: Price, qty: Qty)
    requires OrdersOk(s, os)
    ensures var (fills, rest) := Greedy(s, os, taker, limit, qty);
            PriceTimeRule(s, limit, qty, taker, os, fills, rest)
  {
    if qty <= 0 || os == [] || !Reaches(s, limit, os[0].price) {
      RuleWhenNothingTrades(s, limit, qty, taker, os);
    } else if qty < os[0].qtyRem {
      RuleWhenFirstIsCut(s, limit, qty, taker, os);
    } else {
      GreedyObeysRule(s, os[1..], taker, limit, qty - os[0].qtyRem);
      var (fs, rest) := Greedy(s, os[1..], taker, limit, qty - os[0].qtyRem);
      RuleStep(s, limit, qty, taker, os, fs, rest);
    }
  }

  /** Matching obeys the price-time rule and leaves the taker's own side alone. */
  lemma MatchObeysRule(b: Book, taker: OrderId, side: Side, limit: Price, qty: Qty)
    requires BookOk(b)
    ensures var s := side.Opposite();
            var (fills, b') := Match(b, taker, side, limit, qty);
            && PriceTimeRule(s, limit, qty, taker, Orders(b.On(s)), fills, Orders(b'.On(s)))
            && Orders(b'.On(side)) == Orders(b.On(side))
  {
    MatchIsGreedy(b, taker, side, limit, qty);
    BookOrdersOk(b, side.Opposite());
    GreedyObeysRule(side.Opposite(), Orders(b.On(side.Opposite())), taker, limit, qty);
  }

  // ----- totals -----

  lemma {:induction false} DepthNonNeg(s: Side, limit: Price, os: seq<Order>)
    requires OrdersOk(s, os)
    ensures DepthWithin(s, limit, os) >= 0
  {
    if os != [] {
      DepthNonNeg(s, limit, os[1..]);
    }
  }

  lemma {:induction false} DepthBeyondLimit(s: Side, limit: Price, os: seq<Order>)
    requires OrdersOk(s, os)
    requires os != [] ==> !Reaches(s, limit, os[0].price)
    ensures DepthWithin(s, limit, os) == 0
  {
    if os != [] {
      DepthBeyondLimit(s, limit, os[1..]);
    }
  }

  lemma {:induction false} GreedyIsMaximal(s: Side, os: seq<Order>, taker: OrderId, limit: Price, qty: Qty)
    requires OrdersOk(s, os) && qty >= 0
    ensures var (fills, rest) := Greedy(s, os, taker, limit, qty);
            && FillTotal(fills) == Min(qty, DepthWithin(s, limit, os))
            && DepthWithin(s, limit, rest) == DepthWithin(s, limit, os) - FillTotal(fills)
            && Total(rest) == Total(os) - FillTotal(fills)
            && (FillTotal(fills) < qty ==> rest == [] || !Reaches(s, limit, rest[0].price))
  {
    DepthNonNeg(s, limit, os);
    if os != [] {
      if !Reaches(s, limit, os[0].price) {
        DepthBeyondLimit(s, limit, os);
      } else if qty > 0 {
        var f := MatchFill(os[0].orderId, os[0].accountId, taker, os[0].price, Min(qty, os[0].qtyRem));
        if qty >= os[0].qtyRem {
          GreedyIsMaximal(s, os[1..], taker, limit, qty - os[0].qtyRem);
          SumByFirst(f, Greedy(s, os[1..], taker, limit, qty - os[0].qtyRem).0, QtyFilled);
        } else {
          DepthNonNeg(s, limit, os[1..]);
          SumByOne(f, QtyFilled);
          SumByFirst(os[0].(qtyRem := os[0].qtyRem - qty), os[1..], QtyResting);
          SumByFirst(os[0].(qtyRem := os[0].qtyRem - qty), os[1..], QtyWithin(s, limit));
        }
      }
    }
  }

  /** Matching is maximal and conserves quantity. */
  lemma MatchIsMaximal(b: Book, taker: OrderId, side: Side, limit: Price, qty: Qty)
    requires BookOk(b) && qty >= 0
    ensures var s := side.Opposite();
            var (fills, b') := Match(b, taker, side, limit, qty);
            && FillTotal(fills) == Min(qty, DepthWithin(s, limit, Orders(b.On(s))))
            && DepthWithin(s, limit, Orders(b'.On(s))) == DepthWithin(s, limit, Orders(b.On(s))) - FillTotal(fills)
            && Total(Orders(b'.On(s))) == Total(Orders(b.On(s))) - FillTotal(fills)
            && (FillTotal(fills) < qty ==> !WouldCross(b', side, limit))
  {
    MatchIsGreedy(b, taker, side, limit, qty);
    BookOrdersOk(b, side.Opposite());
    GreedyIsMaximal(side.Opposite(), Orders(b.On(side.Opposite())), taker, limit, qty);
  }

  // ----- side symmetry -----

  function MirrorEntry(r: Resting): Resting {
    r.(order := r.order.(side := r.order.side.Opposite(), price := -r.order.price))
  }

  function MirrorList(l: seq<Resting>): (m: seq<Resting>)
    ensures |m| == |l|
    ensures forall i :: 0 <= i < |l| ==> m[i] == MirrorEntry(l[i])
  {
    seq(|l|, i requires 0 <= i < |l| => MirrorEntry(l[i]))
  }

  /** The same market with buying and selling exchanged and prices negated. */
  function Mirror(b: Book): Book {
    Book(MirrorList(b.asks), MirrorList(b.bids))
  }

  function MirrorFills(fs: seq<MatchFill>): (m: seq<MatchFill>)
    ensures |m| == |fs|
    ensures forall i :: 0 <= i < |fs| ==> m[i] == fs[i].(price := -fs[i].price)
  {
    seq(|fs|, i requires 0 <= i < |fs| => fs[i].(price := -fs[i].price))
  }

  lemma MirrorUnindex(id: OrderId, l: seq<Resting>)
    ensures MirrorList(Apply(Unindex(id), l)) == Apply(Unindex(id), MirrorList(l))
  {
    UnindexIs(id, l);
    UnindexIs(id, MirrorList(l));
  }

  lemma MirrorNext(b: Book, s: Side)
    requires b.On(s) != []
    ensures var id := b.On(s)[0].order.orderId;
            var m := Mirror(b);
            Mirror(b.With(s, b.On(s)[1..]).Edited(Unindex(id)))
            == m.With(s.Opposite(), m.On(s.Opposite())[1..]).Edited(Unindex(id))
  {
    var id := b.On(s)[0].order.orderId;
    assert MirrorList(b.On(s))[1..] == MirrorList(b.On(s)[1..]);
    MirrorUnindex(id, b.On(s)[1..]);
    MirrorUnindex(id, b.On(s.Opposite()));
  }

  lemma MirrorFillsCons(f: MatchFill, fs: seq<MatchFill>)
    ensures MirrorFills([f] + fs) == [f.(price := -f.price)] + MirrorFills(fs)
  {
  }

  lemma MirrorCrosses(b: Book, side: Side, limit: Price)
    ensures WouldCross(Mirror(b), side.Opposite(), -limit) == WouldCross(b, side, limit)
  {
    assert Mirror(b).On(side) == MirrorList(b.On(side.Opposite()));
  }

  lemma MirrorFirst(b: Book, s: Side)
    requires b.On(s) != []
    ensures Mirror(b).On(s.Opposite()) != [] && Mirror(b).On(s.Opposite())[0] == MirrorEntry(b.On(s)[0])
  {
  }

  lemma WholesAreAlike(b: Book, taker: OrderId, side: Side, limit: Price, qty: Qty)
    requires WouldCross(b, side, limit) && 0 < qty && b.On(side.Opposite())[0].order.qtyRem <= qty
    requires WouldCross(Mirror(b), side.Opposite(), -limit)
    requires var l := b.On(side.Opposite());
             var maker := l[0].order;
             var next := b.With(side.Opposite(), l[1..]).Edited(Unindex(maker.orderId));
             var (fs, b') := Match(next, taker, side, limit, qty - maker.qtyRem);
             Match(Mirror(next), taker, side.Opposite(), -limit, qty - maker.qtyRem) == (MirrorFills(fs), Mirror(b'))
    ensures var (fills, b') := Match(b, taker, side, limit, qty);
            Match(Mirror(b), taker, side.Opposite(), -limit, qty) == (MirrorFills(fills), Mirror(b'))
  {
    hide Apply, Match, Mirror, MirrorFills;
    var l := b.On(side.Opposite());
    var maker := l[0].order;
    var next := b.With(side.Opposite(), l[1..]).Edited(Unindex(maker.orderId));
    MirrorFirst(b, side.Opposite());
    MatchWholeMaker(b, taker, side, limit, qty);
    MatchWholeMaker(Mirror(b), taker, side.Opposite(), -limit, qty);
    MirrorNext(b, side.Opposite());
    MirrorFillsCons(MatchFill(maker.orderId, maker.accountId, taker, maker.price, maker.qtyRem),
                    Match(next, taker, side, limit, qty - maker.qtyRem).0);
  }

  lemma CutsAreAlike(b: Book, taker: OrderId, side: Side, limit: Price, qty: Qty)
    requires WouldCross(b, side, limit) && 0 < qty < b.On(side.Opposite())[0].order.qtyRem
    requires WouldCross(Mirror(b), side.Opposite(), -limit)
    ensures var (fills, b') := Match(b, taker, side, limit, qty);
            Match(Mirror(b), taker, side.Opposite(), -limit, qty) == (MirrorFills(fills), Mirror(b'))
  {
    var s := side.Opposite();
    var l := b.On(s);
    var maker := l[0].order;
    var f := MatchFill(maker.orderId, maker.accountId, taker, maker.price, qty);
    var r := l[0].(order := maker.(qtyRem := maker.qtyRem - qty));
    MatchPartOfMaker(b, taker, side, limit, qty);
    MatchPartOfMaker(Mirror(b), taker, s, -limit, qty);
    assert MirrorFills([f] + []) == [f.(price := -f.price)] + [];
    assert MirrorList([r] + l[1..]) == [MirrorEntry(r)] + MirrorList(l)[1..];
  }

  /** Matching a taker on one side is matching its mirror image on the other. */
  lemma {:induction false} SidesAreAlike(b: Book, taker: OrderId, side: Side, limit: Price, qty: Qty)
    ensures var (fills, b') := Match(b, taker, side, limit, qty);
            Match(Mirror(b), taker, side.Opposite(), -limit, qty) == (MirrorFills(fills), Mirror(b'))
    decreases |b.On(side.Opposite())|
  {
    hide Apply, Mirror, MirrorList;
    var l := b.On(side.Opposite());
    MirrorCrosses(b, side, limit);
    if qty > 0 && WouldCross(b, side, limit) {
      if qty >= l[0].order.qtyRem {
        var maker := l[0].order;
        var next := b.With(side.Opposite(), l[1..]).Edited(Unindex(maker.orderId));
        UnindexIs(maker.orderId, l[1..]);
        SidesAreAlike(next, taker, side, limit, qty - maker.qtyRem);
        WholesAreAlike(b, taker, side, limit, qty);
      } else {
        CutsAreAlike(b, taker, side, limit, qty);
      }
    }
  }
}
