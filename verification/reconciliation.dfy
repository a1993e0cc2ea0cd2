/** Rebuilding the gateway's reservations from the orders that the engines hold. */
module Reconciliation {
  import opened Common
  import opened Finite
  import opened PriceTimeBook
  import opened IndexExact
  import opened GatewayLedger
  import opened Listings

  /** What waiting for one engine's answer brings: its orders, some other event, which uses up the
      turn, or no more events in time. */
  datatype Response = AllOrders(orders: seq<OrderSnapshot>) | OtherEvent | ChannelClosed | TimedOut

  /** The query fails as a whole. */
  predicate Broken(responses: seq<Response>) {
    exists i :: 0 <= i < |responses| && (responses[i].ChannelClosed? || responses[i].TimedOut?)
  }

  function OrdersIn(r: Response): seq<OrderSnapshot> {
    if r.AllOrders? then r.orders else []
  }

  function Joined(responses: seq<Response>): seq<OrderSnapshot> {
    if responses == [] then [] else OrdersIn(responses[0]) + Joined(responses[1..])
  }

  predicate Mentions(orders: seq<OrderSnapshot>, a: AccountId) {
    exists i :: 0 <= i < |orders| && orders[i].accountId == a
  }

  /** The account's reserved amount after reconciliation: what the engines report for it, if they report
      anything, and otherwise what it was. */
  function Rebuilt(before: int, orders: seq<OrderSnapshot>, a: AccountId): int {
    if Mentions(orders, a) then ReservedFor(orders, a) else before
  }

  lemma JoinOneMore(joined: seq<OrderSnapshot>, responses: seq<Response>, i: nat)
    requires i < |responses|
    ensures joined + Joined(responses[i..]) == (joined + OrdersIn(responses[i])) + Joined(responses[i + 1..])
    ensures joined + [] == joined
  {
    assert responses[i..][1..] == responses[i + 1..];
  }

  lemma NothingJoined(joined: seq<OrderSnapshot>)
    ensures joined + Joined([]) == joined
  {
  }

  /** Sends a query to every engine, and then waits for as many responses. A query that cannot be sent ends
      it all, as does a missing answer. */
  method QueryAllEngines(sends: seq<bool>, responses: seq<Response>) returns (all: Option<seq<OrderSnapshot>>)
    requires |sends| == |responses|
    ensures all == if false in sends || Broken(responses) then None else Some(Joined(responses))
  {
    hide Joined;
    for i := 0 to |sends|
      invariant forall j :: 0 <= j < i ==> sends[j]
    {
      if !sends[i] {
        return None;
      }
    }
    var joined: seq<OrderSnapshot> := [];
    assert responses[0..] == responses && joined + Joined(responses) == Joined(responses);
    for i := 0 to |responses|
      invariant forall j :: 0 <= j < i ==> !responses[j].ChannelClosed? && !responses[j].TimedOut?
      invariant joined + Joined(responses[i..]) == Joined(responses)
    {
      JoinOneMore(joined, responses, i);
      match responses[i] {
        case AllOrders(orders) => joined := joined + orders;
        case OtherEvent =>
        case ChannelClosed => return None;
        case TimedOut => return None;
      }
    }
    assert responses[|responses|..] == [];
    NothingJoined(joined);
    return Some(joined);
  }

  lemma MentionsMore(orders: seq<OrderSnapshot>, o: OrderSnapshot, a: AccountId)
    ensures Mentions(orders + [o], a) <==> Mentions(orders, a) || o.accountId == a
  {
    if o.accountId == a {
      assert (orders + [o])[|orders|].accountId == a;
    }
    if Mentions(orders, a) {
      var i :| 0 <= i < |orders| && orders[i].accountId == a;
      assert (orders + [o])[i].accountId == a;
    }
  }

  method SumByAccount(orders: seq<OrderSnapshot>) returns (byAccount: map<AccountId, int>)
    ensures forall a :: a in byAccount <==> Mentions(orders, a)
    ensures forall a :: a in byAccount ==> byAccount[a] == ReservedFor(orders, a)
  {
    byAccount := map[];
    for i := 0 to |orders|
      invariant forall a :: a in byAccount <==> Mentions(orders[..i], a)
      invariant forall a :: (if a in byAccount then byAccount[a] else 0) == ReservedFor(orders[..i], a)
    {
      var o := orders[i];
      var sofar := if o.accountId in byAccount then byAccount[o.accountId] else 0;
      ghost var before := byAccount;
      byAccount := byAccount[o.accountId := sofar + o.reservedAmount];
      assert orders[..i + 1] == orders[..i] + [o];
      forall a
        ensures (if a in byAccount then byAccount[a] else 0) == ReservedFor(orders[..i + 1], a)
        ensures a in byAccount <==> Mentions(orders[..i + 1], a)
      {
        SumByConcat(orders[..i], [o], ShareOf(a));
        assert SumBy([o], ShareOf(a)) == ShareOf(a)(o) + SumBy([o][1..], ShareOf(a));
        MentionsMore(orders[..i], o, a);
      }
    }
    assert orders[..|orders|] == orders;
  }

  /** Sums the reserved amounts by account, then writes each sum to its account. */
  method RebuildReservations(ledger: AccountManager, sends: seq<bool>, responses: seq<Response>) returns (ok: bool)
    requires |sends| == |responses|
    modifies ledger
    ensures ok <==> false !in sends && !Broken(responses)
    ensures !ok ==> ledger.accounts == old(ledger.accounts)
    ensures ledger.accounts.Keys == old(ledger.accounts.Keys)
    ensures ok ==> forall a :: a in ledger.accounts ==>
              ledger.accounts[a] == old(ledger.accounts)[a].(
                reserved := Rebuilt(old(ledger.accounts)[a].reserved, Joined(responses), a))
  {
    hide Joined, Mentions, ReservedFor, Broken;
    var answer := QueryAllEngines(sends, responses);
    if answer.None? {
      return false;
    }
    var orders := answer.value;
    var byAccount := SumByAccount(orders);
    var rest := byAccount.Keys;
    while rest != {}
      invariant rest <= byAccount.Keys
      invariant ledger.accounts.Keys == old(ledger.accounts.Keys)
      invariant forall a :: a in ledger.accounts ==>
                  ledger.accounts[a] ==
                    if a in byAccount.Keys - rest then old(ledger.accounts)[a].(reserved := byAccount[a])
                    else old(ledger.accounts)[a]
      decreases |rest|
    {
      var a :| a in rest;
      ledger.SetTentativeReserved(a, byAccount[a]);
      rest := rest - {a};
    }
    return true;
  }

  // ----- what reconciliation amounts to -----

  /** Exposure of an account over all books. */
  function TotalExposure(books: seq<Book>, a: AccountId): int {
    if books == [] then 0 else Exposure(books[0], a) + TotalExposure(books[1..], a)
  }

  /** In every turn an engine answers with the orders of its book, or an unexpected event takes the turn and the
      engine is not heard. */
  ghost predicate HeardOrMissed(responses: seq<Response>, books: seq<Book>) {
    && |responses| == |books|
    && forall i :: 0 <= i < |books| ==>
         && (responses[i].AllOrders? || responses[i].OtherEvent?)
         && (responses[i].AllOrders? ==> BookOk(books[i]) && Exact(books[i]) && Lists(responses[i].orders, books[i]))
  }

  /** Exposure of an account on the engines that are not heard. */
  function MissedExposure(responses: seq<Response>, books: seq<Book>, a: AccountId): int
    requires |responses| == |books|
  {
    if books == [] then 0
    else (if responses[0].AllOrders? then 0 else Exposure(books[0], a)) + MissedExposure(responses[1..], books[1..], a)
  }

  /** Every engine is heard. */
  ghost predicate Answered(responses: seq<Response>, books: seq<Book>) {
    HeardOrMissed(responses, books) && OtherEvent !in responses
  }

  lemma {:induction false} JoinedIsHeard(responses: seq<Response>, books: seq<Book>, a: AccountId)
    requires HeardOrMissed(responses, books)
    ensures ReservedFor(Joined(responses), a) == TotalExposure(books, a) - MissedExposure(responses, books, a)
  {
    if books != [] {
      JoinedIsHeard(responses[1..], books[1..], a);
      if responses[0].AllOrders? {
        ListingIsExposure(responses[0].orders, books[0], a);
      }
      SumByConcat(OrdersIn(responses[0]), Joined(responses[1..]), ShareOf(a));
    }
  }

  lemma {:induction false} NothingMissed(responses: seq<Response>, books: seq<Book>, a: AccountId)
    requires Answered(responses, books)
    ensures MissedExposure(responses, books, a) == 0
  {
    if books != [] {
      assert responses[0] in responses;
      NothingMissed(responses[1..], books[1..], a);
    }
  }

  lemma {:induction false} NotMentioned(orders: seq<OrderSnapshot>, a: AccountId)
    requires !Mentions(orders, a)
    ensures ReservedFor(orders, a) == 0
  {
    if orders != [] {
      assert orders[0].accountId != a;
      assert forall i :: 0 <= i < |orders[1..]| ==> orders[1..][i] == orders[i + 1];
      NotMentioned(orders[1..], a);
    }
  }

  /** Reconciliation sets an account's reservation to its exposure over all engines, heard or not, exactly when
      the engines that were not heard hold nothing of it or, if no engine mentions it, when what they hold is what
      was reserved before. */
  lemma ReconciliationWithMissed(before: int, responses: seq<Response>, books: seq<Book>, a: AccountId)
    requires HeardOrMissed(responses, books)
    ensures Rebuilt(before, Joined(responses), a) == TotalExposure(books, a)
       <==> MissedExposure(responses, books, a) == if Mentions(Joined(responses), a) then 0 else before
  {
    JoinedIsHeard(responses, books, a);
    if !Mentions(Joined(responses), a) {
      NotMentioned(Joined(responses), a);
    }
  }

  /** When every engine is heard, that is so exactly when the account starts from zero or is mentioned: an account
      without live orders keeps what it had. */
  lemma ReconciliationIsExposure(before: int, responses: seq<Response>, books: seq<Book>, a: AccountId)
    requires Answered(responses, books)
    ensures Rebuilt(before, Joined(responses), a) == TotalExposure(books, a)
       <==> before == 0 || Mentions(Joined(responses), a)
  {
    NothingMissed(responses, books, a);
    ReconciliationWithMissed(before, responses, books, a);
  }
}
