/** The pending-order protocol: who holds which reservation, step by step, for any interleaving of
    client connections with the handler of engine responses. */
module GatewayProtocol {
  import opened Common
  import opened Finite
  import opened GatewayLedger

  type ConnId = nat

  datatype Operation = Active | CancelPending

  datatype Metadata = Metadata(token: Token, side: Side, operation: Operation, connId: ConnId)

  type Pending = map<OrderId, Metadata>

  /** A connection's own record of an order it sent. */
  datatype LocalKey = LocalKey(connId: ConnId, orderId: OrderId)

  /** `inFlight` holds the reservations that a connection has taken but not yet written to `pending`. */
  datatype Gateway = Gateway(ledger: Ledger, pending: Pending, locals: map<LocalKey, Side>, inFlight: seq<Token>)

  /** The atomic sections of the gateway. */
  datatype Section =
    | ReserveNew(order: NewOrder)
    | TrackNew(flight: nat, connId: ConnId, orderId: OrderId, side: Side)
    | MarkCancel(cancelled: OrderId)
    | RestoreActive(cancelled: OrderId)
    | OnReplace(replacing: ConnId, replace: Replace)
    | RouteFailed(sender: ConnId, unsent: Token, wasNew: bool)
    | OnFill(fill: Fill)
    | OnAck(acked: OrderId)
    | OnReject(rejected: OrderId)

  function SetOperation(pending: Pending, id: OrderId, op: Operation): Pending {
    if id in pending then pending[id := pending[id].(operation := op)] else pending
  }

  /** Cancels and rejects: the entry goes and its reservation is given back. */
  function Settled(g: Gateway, id: OrderId): Gateway {
    if id !in g.pending then g
    else
      var token := g.pending[id].token;
      g.(pending := g.pending - {id}, ledger := Reserved(g.ledger, token.accountId, -token.amount))
  }

  function ConsumedBy(l: Ledger, fill: Fill, md: Metadata): Ledger {
    Consumed(l, fill, md.token, md.side.Buy?)
  }

  /** Both entries are read before either is acted on; the first fill ends an order's reservation. */
  function AfterFill(g: Gateway, fill: Fill): Gateway {
    var l1 := if fill.makerOrderId in g.pending then ConsumedBy(g.ledger, fill, g.pending[fill.makerOrderId])
      else g.ledger;
    var l2 := if fill.takerOrderId in g.pending then ConsumedBy(l1, fill, g.pending[fill.takerOrderId]) else l1;
    g.(ledger := l2, pending := g.pending - {fill.makerOrderId, fill.takerOrderId})
  }

  /** The replaced order must be pending; only a connection that sent it writes the new entry. */
  function Replaced(g: Gateway, conn: ConnId, r: Replace): Gateway {
    if r.orderId !in g.pending || ReplaceViolation(g.ledger, g.pending[r.orderId].token, r).Some? then g
    else
      var held := g.pending[r.orderId].token;
      var l := Reserved(g.ledger, r.accountId, ReplaceToken(r).amount - held.amount);
      if LocalKey(conn, r.orderId) !in g.locals then g.(ledger := l)
      else
        var side := g.locals[LocalKey(conn, r.orderId)];
        g.(ledger := l, pending := g.pending[r.orderId := Metadata(ReplaceToken(r), side, Active, conn)])
  }

  /** A new order or a replace could not be routed: its reservation is given back, and the connection forgets a
      new order; the pending entry stays. */
  function Unrouted(g: Gateway, conn: ConnId, token: Token, wasNew: bool): Gateway {
    g.(ledger := Reserved(g.ledger, token.accountId, -token.amount),
       locals := if wasNew then g.locals - {LocalKey(conn, token.orderId)} else g.locals)
  }

  function Without<T>(xs: seq<T>, i: nat): seq<T>
    requires i < |xs|
  {
    xs[..i] + xs[i + 1..]
  }

  /** A section can run only if what it picks up is there. */
  predicate Enabled(g: Gateway, sec: Section) {
    sec.TrackNew? ==> sec.flight < |g.inFlight|
  }

  function Apply(g: Gateway, sec: Section): Gateway
    requires Enabled(g, sec)
  {
    match sec
    case ReserveNew(order) =>
      if OrderViolation(g.ledger, order).Some? then g
      else g.(ledger := Reserved(g.ledger, order.accountId, Notional(order)),
              inFlight := g.inFlight + [OrderToken(order)])
    case TrackNew(flight, conn, id, side) =>
      g.(pending := g.pending[id := Metadata(g.inFlight[flight], side, Active, conn)],
         locals := g.locals[LocalKey(conn, id) := side],
         inFlight := Without(g.inFlight, flight))
    case MarkCancel(id) => g.(pending := SetOperation(g.pending, id, CancelPending))
    case RestoreActive(id) => g.(pending := SetOperation(g.pending, id, Active))
    case OnReplace(conn, r) => Replaced(g, conn, r)
    case RouteFailed(conn, token, wasNew) => Unrouted(g, conn, token, wasNew)
    case OnFill(fill) => AfterFill(g, fill)
    case OnAck(id) =>
      if id in g.pending && g.pending[id].operation.CancelPending? then Settled(g, id) else g
    case OnReject(id) => Settled(g, id)
  }

  // ----- what an account's reservation consists of -----

  function Share(token: Token, a: AccountId): int {
    if token.accountId == a then token.amount else 0
  }

  function Shares(pending: Pending, a: AccountId): map<nat, int> {
    map id | id in pending :: Share(pending[id].token, a)
  }

  function ShareFor(a: AccountId): Token -> int {
    (token: Token) => Share(token, a)
  }

  function InFlight(tokens: seq<Token>, a: AccountId): int {
    SumBy(tokens, ShareFor(a))
  }

  function Outstanding(g: Gateway, a: AccountId): int {
    Sum(Shares(g.pending, a)) + InFlight(g.inFlight, a)
  }

  predicate BalancedAt(g: Gateway, a: AccountId) {
    a in g.ledger ==> g.ledger[a].reserved == Outstanding(g, a)
  }

  /** Every account's reserved amount is the sum of the reservations still held for its orders. */
  ghost predicate Balanced(g: Gateway) {
    forall a :: BalancedAt(g, a)
  }

  /** A reservation that somebody would miss. */
  predicate Matters(l: Ledger, token: Token) {
    token.amount != 0 && token.accountId in l
  }

  /** The sections that keep the books balanced: a new order does not displace a reservation, a fill
      does not name one pending order as both parties, a replace comes from the connection and the account that
      hold the order, and what cannot be routed had nothing reserved. */
  predicate Orderly(g: Gateway, sec: Section) {
    match sec
    case TrackNew(_, _, id, _) => id !in g.pending || !Matters(g.ledger, g.pending[id].token)
    case OnFill(fill) =>
      fill.makerOrderId != fill.takerOrderId
      || fill.makerOrderId !in g.pending
      || !Matters(g.ledger, g.pending[fill.makerOrderId].token)
    case OnReplace(conn, r) =>
      r.orderId !in g.pending
      || ReplaceViolation(g.ledger, g.pending[r.orderId].token, r).Some?
      || (var held := g.pending[r.orderId].token;
          if LocalKey(conn, r.orderId) in g.locals then held.accountId == r.accountId || held.amount == 0
          else ReplaceToken(r).amount == held.amount)
    case RouteFailed(_, token, _) => !Matters(g.ledger, token)
    case _ => true
  }

  // ----- bookkeeping lemmas -----

  lemma SharesUpdate(pending: Pending, id: OrderId, md: Metadata, a: AccountId)
    ensures Sum(Shares(pending[id := md], a))
         == Sum(Shares(pending, a)) - (if id in pending then Share(pending[id].token, a) else 0) + Share(md.token, a)
  {
    assert Shares(pending[id := md], a) == Shares(pending, a)[id := Share(md.token, a)];
    SumUpdate(Shares(pending, a), id, Share(md.token, a));
  }

  lemma SharesRemove(pending: Pending, id: OrderId, a: AccountId)
    ensures Sum(Shares(pending - {id}, a))
         == Sum(Shares(pending, a)) - (if id in pending then Share(pending[id].token, a) else 0)
  {
    if id in pending {
      assert Shares(pending - {id}, a) == Shares(pending, a) - {id};
      SumRemove(Shares(pending, a), id);
    } else {
      assert pending - {id} == pending;
    }
  }

  lemma InFlightWithout(tokens: seq<Token>, i: nat, a: AccountId)
    requires i < |tokens|
    ensures InFlight(Without(tokens, i), a) == InFlight(tokens, a) - Share(tokens[i], a)
  {
    SumByConcat(tokens[..i], tokens[i..], ShareFor(a));
    assert tokens[..i] + tokens[i..] == tokens;
    assert tokens[i..][1..] == tokens[i + 1..];
    SumByConcat(tokens[..i], tokens[i + 1..], ShareFor(a));
  }

  // ----- what each section does to reserved and outstanding amounts -----

  /** How far an account's reservation is from what is outstanding. */
  function Excess(g: Gateway, a: AccountId): int
    requires a in g.ledger
  {
    g.ledger[a].reserved - Outstanding(g, a)
  }

  /** By how much a section unbalances an account. */
  function Skew(g: Gateway, sec: Section, a: AccountId): int {
    match sec
    case TrackNew(_, _, id, _) => if id in g.pending then Share(g.pending[id].token, a) else 0
    case OnFill(fill) =>
      if fill.makerOrderId == fill.takerOrderId && fill.makerOrderId in g.pending
      then -Share(g.pending[fill.makerOrderId].token, a) else 0
    case OnReplace(conn, r) =>
      if r.orderId !in g.pending || ReplaceViolation(g.ledger, g.pending[r.orderId].token, r).Some? then 0
      else
        var held := g.pending[r.orderId].token;
        if LocalKey(conn, r.orderId) in g.locals
        then Share(held, a) - (if r.accountId == a then held.amount else 0)
        else if r.accountId == a then ReplaceToken(r).amount - held.amount else 0
    case RouteFailed(_, token, _) => -Share(token, a)
    case _ => 0
  }

  lemma ReserveSkew(g: Gateway, order: NewOrder, a: AccountId)
    requires a in g.ledger
    ensures a in Apply(g, ReserveNew(order)).ledger
    ensures Excess(Apply(g, ReserveNew(order)), a) == Excess(g, a)
  {
    SumByConcat(g.inFlight, [OrderToken(order)], ShareFor(a));
    assert InFlight([OrderToken(order)], a) == Share(OrderToken(order), a) + InFlight([], a);
  }

  lemma TrackSkew(g: Gateway, sec: Section, a: AccountId)
    requires sec.TrackNew? && Enabled(g, sec) && a in g.ledger
    ensures Excess(Apply(g, sec), a) == Excess(g, a) + Skew(g, sec, a)
  {
    SharesUpdate(g.pending, sec.orderId, Metadata(g.inFlight[sec.flight], sec.side, Active, sec.connId), a);
    InFlightWithout(g.inFlight, sec.flight, a);
  }

  lemma SettleSkew(g: Gateway, id: OrderId, a: AccountId)
    requires a in g.ledger
    ensures a in Settled(g, id).ledger && Excess(Settled(g, id), a) == Excess(g, a)
  {
    SharesRemove(g.pending, id, a);
  }

  lemma MarkSkew(g: Gateway, id: OrderId, op: Operation, a: AccountId)
    ensures Sum(Shares(SetOperation(g.pending, id, op), a)) == Sum(Shares(g.pending, a))
  {
    if id in g.pending {
      SharesUpdate(g.pending, id, g.pending[id].(operation := op), a);
    }
  }

  lemma FillSkew(g: Gateway, fill: Fill, a: AccountId)
    requires a in g.ledger
    ensures a in AfterFill(g, fill).ledger
    ensures Excess(AfterFill(g, fill), a) == Excess(g, a) + Skew(g, OnFill(fill), a)
  {
    var rest := g.pending - {fill.makerOrderId};
    SharesRemove(g.pending, fill.makerOrderId, a);
    SharesRemove(rest, fill.takerOrderId, a);
    assert rest - {fill.takerOrderId} == g.pending - {fill.makerOrderId, fill.takerOrderId};
  }

  lemma ReplaceSkew(g: Gateway, conn: ConnId, r: Replace, a: AccountId)
    requires a in g.ledger
    ensures a in Replaced(g, conn, r).ledger
    ensures Excess(Replaced(g, conn, r), a) == Excess(g, a) + Skew(g, OnReplace(conn, r), a)
  {
    var key := LocalKey(conn, r.orderId);
    if key in g.locals {
      SharesUpdate(g.pending, r.orderId, Metadata(ReplaceToken(r), g.locals[key], Active, conn), a);
    }
  }

  lemma SectionSkew(g: Gateway, sec: Section, a: AccountId)
    requires Enabled(g, sec) && a in g.ledger
    ensures a in Apply(g, sec).ledger
    ensures Excess(Apply(g, sec), a) == Excess(g, a) + Skew(g, sec, a)
  {
    match sec {
      case ReserveNew(order) => ReserveSkew(g, order, a);
      case TrackNew(_, _, _, _) => TrackSkew(g, sec, a);
      case MarkCancel(id) => MarkSkew(g, id, CancelPending, a);
      case RestoreActive(id) => MarkSkew(g, id, Active, a);
      case OnReplace(conn, r) => ReplaceSkew(g, conn, r, a);
      case RouteFailed(_, _, _) =>
      case OnFill(fill) => FillSkew(g, fill, a);
      case OnAck(id) => SettleSkew(g, id, a);
      case OnReject(id) => SettleSkew(g, id, a);
    }
  }

  /** A section is orderly exactly when it unbalances nobody. */
  lemma OrderlyIffNoSkew(g: Gateway, sec: Section)
    requires Enabled(g, sec)
    ensures Orderly(g, sec) <==> forall a :: a in g.ledger ==> Skew(g, sec, a) == 0
  {
    match sec {
      case TrackNew(_, _, id, _) =>
        if id in g.pending && g.pending[id].token.accountId in g.ledger {
          assert Skew(g, sec, g.pending[id].token.accountId) == g.pending[id].token.amount;
        }
      case OnFill(fill) =>
        var id := fill.makerOrderId;
        if id == fill.takerOrderId && id in g.pending && g.pending[id].token.accountId in g.ledger {
          assert Skew(g, sec, g.pending[id].token.accountId) == -g.pending[id].token.amount;
        }
      case OnReplace(conn, r) =>
        if r.orderId in g.pending && ReplaceViolation(g.ledger, g.pending[r.orderId].token, r).None? {
          var held := g.pending[r.orderId].token;
          if LocalKey(conn, r.orderId) in g.locals && held.accountId != r.accountId {
            assert Skew(g, sec, r.accountId) == -held.amount;
          } else if LocalKey(conn, r.orderId) !in g.locals {
            assert Skew(g, sec, r.accountId) == ReplaceToken(r).amount - held.amount;
          }
        }
      case RouteFailed(_, token, _) =>
        if token.accountId in g.ledger {
          assert Skew(g, sec, token.accountId) == -token.amount;
        }
      case _ =>
    }
  }

  lemma AccountsStay(g: Gateway, sec: Section)
    requires Enabled(g, sec)
    ensures Apply(g, sec).ledger.Keys == g.ledger.Keys
  {
  }

  /** From balanced books, a section leaves balanced books exactly when it is orderly. */
  lemma BalanceKeptIffOrderly(g: Gateway, sec: Section)
    requires Balanced(g) && Enabled(g, sec)
    ensures Balanced(Apply(g, sec)) <==> Orderly(g, sec)
  {
    var g' := Apply(g, sec);
    AccountsStay(g, sec);
    OrderlyIffNoSkew(g, sec);
    forall a ensures BalancedAt(g', a) <==> (a in g.ledger ==> Skew(g, sec, a) == 0) {
      assert BalancedAt(g, a);
      assert a in g'.ledger <==> a in g.ledger;
      if a in g.ledger {
        SectionSkew(g, sec, a);
      }
    }
    if Balanced(g') {
      forall a | a in g.ledger ensures Skew(g, sec, a) == 0 {
        assert BalancedAt(g', a);
      }
    }
  }

  // ----- runs -----

  predicate AllEnabled(g: Gateway, secs: seq<Section>)
    decreases |secs|
  {
    secs == [] || (Enabled(g, secs[0]) && AllEnabled(Apply(g, secs[0]), secs[1..]))
  }

  function After(g: Gateway, secs: seq<Section>): Gateway
    requires AllEnabled(g, secs)
    decreases |secs|
  {
    if secs == [] then g else After(Apply(g, secs[0]), secs[1..])
  }

  /** Every section of the run is orderly where it happens. */
  predicate AllOrderly(g: Gateway, secs: seq<Section>)
    requires AllEnabled(g, secs)
    decreases |secs|
  {
    secs == [] || (Orderly(g, secs[0]) && AllOrderly(Apply(g, secs[0]), secs[1..]))
  }

  /** The books are balanced after every section of the run. */
  ghost predicate AlwaysBalanced(g: Gateway, secs: seq<Section>)
    requires AllEnabled(g, secs)
    decreases |secs|
  {
    Balanced(g) && (secs == [] || AlwaysBalanced(Apply(g, secs[0]), secs[1..]))
  }

  lemma NotAlways(g: Gateway, secs: seq<Section>)
    requires AllEnabled(g, secs) && !Balanced(g)
    ensures !AlwaysBalanced(g, secs)
  {
  }

  /** Over any interleaving the books stay balanced throughout exactly when every section is orderly. */
  lemma {:induction false} ProtocolInvariant(g: Gateway, secs: seq<Section>)
    requires Balanced(g) && AllEnabled(g, secs)
    ensures AlwaysBalanced(g, secs) <==> AllOrderly(g, secs)
    decreases |secs|
  {
    if secs != [] {
      var next := Apply(g, secs[0]);
      BalanceKeptIffOrderly(g, secs[0]);
      if Balanced(next) {
        ProtocolInvariant(next, secs[1..]);
      } else {
        NotAlways(next, secs[1..]);
      }
    }
  }

  lemma FirstSection(g: Gateway, sec: Section, rest: seq<Section>)
    requires Enabled(g, sec) && AllEnabled(Apply(g, sec), rest)
    ensures AllEnabled(g, [sec] + rest) && After(g, [sec] + rest) == After(Apply(g, sec), rest)
  {
    assert ([sec] + rest)[1..] == rest;
  }

  lemma NoSections(g: Gateway)
    ensures AllEnabled(g, []) && After(g, []) == g
  {
  }

  /** A gateway with one account that has not seen an order. */
  const ONE_ACCOUNT := Gateway(map[1 := Account(100, 0, map[], map[])], map[], map[], [])

  lemma OneAccountIsBalanced()
    ensures Balanced(ONE_ACCOUNT)
  {
    forall a ensures BalancedAt(ONE_ACCOUNT, a) {
      assert Shares(map[], a) == map[];
    }
  }

  /** Two orders under one id, from a gateway that has seen none: the second displaces the reservation of the
      first, which then stays reserved for good. */
  lemma DuplicateIdUnbalances() returns (secs: seq<Section>)
    ensures AllEnabled(ONE_ACCOUNT, secs) && Balanced(ONE_ACCOUNT)
    ensures |secs| == 4 && secs[0].ReserveNew? && secs[1].TrackNew? && secs[2].ReserveNew? && secs[3].TrackNew?
    ensures secs[0].order.orderId == secs[1].orderId == secs[2].order.orderId == secs[3].orderId
    ensures !Balanced(After(ONE_ACCOUNT, secs))
  {
    hide Balanced, AllEnabled, After;
    var no := NewOrder(0, 7, 1, 1, Buy, 10, 1, Gtc, false);
    var s1, s2 := ReserveNew(no), TrackNew(0, 0, 7, Buy);
    var s3, s4 := ReserveNew(no.(price := 20)), TrackNew(0, 1, 7, Buy);
    var g1 := Apply(ONE_ACCOUNT, s1);
    assert g1.inFlight == [Token(1, 1, 10, 7)];
    var g2 := Apply(g1, s2);
    assert 7 in g2.pending && g2.pending[7].token == Token(1, 1, 10, 7) && g2.inFlight == [];
    var g3 := Apply(g2, s3);
    assert |g3.inFlight| == 1;
    var g4 := Apply(g3, s4);
    OneAccountIsBalanced();
    BalanceKeptIffOrderly(ONE_ACCOUNT, s1);
    BalanceKeptIffOrderly(g1, s2);
    BalanceKeptIffOrderly(g2, s3);
    BalanceKeptIffOrderly(g3, s4);
    NoSections(g4);
    FirstSection(g3, s4, []);
    FirstSection(g2, s3, [s4] + []);
    FirstSection(g1, s2, [s3] + ([s4] + []));
    FirstSection(ONE_ACCOUNT, s1, [s2] + ([s3] + ([s4] + [])));
    secs := [s1] + ([s2] + ([s3] + ([s4] + [])));
  }

  /** An order that cannot be routed leaves its entry behind. When it is cancelled later and the engine rejects
      that, its reservation is given back a second time. */
  lemma UnroutedIsReleasedTwice() returns (secs: seq<Section>)
    ensures AllEnabled(ONE_ACCOUNT, secs) && Balanced(ONE_ACCOUNT)
    ensures |secs| == 4 && secs[0].ReserveNew? && secs[1].TrackNew? && secs[2].RouteFailed? && secs[3].OnReject?
    ensures secs[0].order.orderId == secs[1].orderId == secs[2].unsent.orderId == secs[3].rejected
    ensures var g := After(ONE_ACCOUNT, secs); g.pending == map[] && 1 in g.ledger && g.ledger[1].reserved == -10
  {
    hide Balanced, AllEnabled, After;
    var no := NewOrder(0, 7, 1, 1, Buy, 10, 1, Gtc, false);
    var s1, s2, s3, s4 := ReserveNew(no), TrackNew(0, 0, 7, Buy), RouteFailed(0, Token(1, 1, 10, 7), true), OnReject(7);
    var g1 := Apply(ONE_ACCOUNT, s1);
    assert g1.inFlight == [Token(1, 1, 10, 7)];
    var g2 := Apply(g1, s2);
    assert g2.pending == map[7 := Metadata(Token(1, 1, 10, 7), Buy, Active, 0)];
    var g3 := Apply(g2, s3);
    var g4 := Apply(g3, s4);
    assert g4.pending == map[];
    OneAccountIsBalanced();
    NoSections(g4);
    FirstSection(g3, s4, []);
    FirstSection(g2, s3, [s4] + []);
    FirstSection(g1, s2, [s3] + ([s4] + []));
    FirstSection(ONE_ACCOUNT, s1, [s2] + ([s3] + ([s4] + [])));
    secs := [s1] + ([s2] + ([s3] + ([s4] + [])));
  }

  // ----- solvency -----

  predicate SolventAt(l: Ledger, a: AccountId) {
    a in l ==> 0 <= l[a].reserved <= l[a].buyingPower
  }

  ghost predicate Solvent(g: Gateway) {
    forall a :: SolventAt(g.ledger, a)
  }

  predicate TokensOk(g: Gateway) {
    && (forall id :: id in g.pending ==> g.pending[id].token.amount >= 0)
    && (forall i :: 0 <= i < |g.inFlight| ==> g.inFlight[i].amount >= 0)
  }

  /** Orders ask for non-negative amounts. */
  predicate AsksEnough(sec: Section) {
    match sec
    case ReserveNew(order) => Notional(order) >= 0
    case OnReplace(_, r) => ReplaceToken(r).amount >= 0
    case _ => true
  }

  /** Money not tied up. */
  function Free(l: Ledger, a: AccountId): int
    requires a in l
  {
    l[a].buyingPower - l[a].reserved
  }

  /** What settling the order under this id with the fill frees for an account: the whole reservation comes
      back, a buyer pays and a seller is paid. */
  function Gain(g: Gateway, fill: Fill, id: OrderId, a: AccountId): int {
    if id !in g.pending || g.pending[id].token.accountId != a then 0
    else
      var cost := fill.price * fill.qty;
      g.pending[id].token.amount + (if g.pending[id].side.Buy? then -cost else cost)
  }

  predicate AffordableFor(g: Gateway, sec: Section, a: AccountId) {
    sec.OnFill? && a in g.ledger ==>
      Free(g.ledger, a) + Gain(g, sec.fill, sec.fill.makerOrderId, a) + Gain(g, sec.fill, sec.fill.takerOrderId, a) >= 0
  }

  /** Nobody's part in a fill costs more than its reservation and its free money together. */
  ghost predicate Affordable(g: Gateway, sec: Section) {
    forall a :: AffordableFor(g, sec, a)
  }

  /** A fill costs a buyer no more than was reserved and pays a seller. */
  predicate FillFunded(g: Gateway, fill: Fill, id: OrderId) {
    id in g.pending ==>
      if g.pending[id].side.Buy? then fill.price * fill.qty <= g.pending[id].token.amount
      else fill.price * fill.qty >= 0
  }

  /** What suffices for affordability and needs no look at the ledger: fills are covered by their reservations. */
  predicate Funded(g: Gateway, sec: Section) {
    && AsksEnough(sec)
    && (sec.OnFill? ==>
          FillFunded(g, sec.fill, sec.fill.makerOrderId) && FillFunded(g, sec.fill, sec.fill.takerOrderId))
  }

  lemma {:induction false} InFlightNonNeg(tokens: seq<Token>, a: AccountId)
    requires forall i :: 0 <= i < |tokens| ==> tokens[i].amount >= 0
    ensures InFlight(tokens, a) >= 0
  {
    if tokens != [] {
      InFlightNonNeg(tokens[1..], a);
    }
  }

  /** What is outstanding is never negative, and covers each reservation of the account. */
  lemma OutstandingCovers(g: Gateway, a: AccountId)
    requires TokensOk(g)
    ensures Outstanding(g, a) >= 0
    ensures forall id :: id in g.pending && g.pending[id].token.accountId == a ==>
              g.pending[id].token.amount <= Outstanding(g, a)
  {
    InFlightNonNeg(g.inFlight, a);
    SumNonNeg(Shares(g.pending, a));
    forall id | id in g.pending && g.pending[id].token.accountId == a
      ensures g.pending[id].token.amount <= Outstanding(g, a)
    {
      assert Shares(g.pending, a)[id] == g.pending[id].token.amount;
    }
  }

  lemma TokensStayOk(g: Gateway, sec: Section)
    requires TokensOk(g) && Enabled(g, sec) && AsksEnough(sec)
    ensures TokensOk(Apply(g, sec))
  {
  }

  /** A fill changes an account's free money by its gains from the two orders. */
  lemma FreeAfterFill(g: Gateway, fill: Fill, a: AccountId)
    requires a in g.ledger
    ensures a in AfterFill(g, fill).ledger
    ensures Free(AfterFill(g, fill).ledger, a)
         == Free(g.ledger, a) + Gain(g, fill, fill.makerOrderId, a) + Gain(g, fill, fill.takerOrderId, a)
  {
  }

  /** No other section overdraws an account. */
  lemma FreeStaysNonNegative(g: Gateway, sec: Section, a: AccountId)
    requires Enabled(g, sec) && Orderly(g, sec) && AsksEnough(sec) && TokensOk(g) && !sec.OnFill?
    requires a in g.ledger && Free(g.ledger, a) >= 0
    ensures a in Apply(g, sec).ledger && Free(Apply(g, sec).ledger, a) >= 0
  {
  }

  /** With non-negative reservations an account is solvent exactly when its free money is not negative. */
  lemma SolventIffFree(g: Gateway, a: AccountId)
    requires Balanced(g) && TokensOk(g) && a in g.ledger
    ensures SolventAt(g.ledger, a) <==> Free(g.ledger, a) >= 0
  {
    assert BalancedAt(g, a);
    OutstandingCovers(g, a);
  }

  /** From solvent books, an orderly section leaves solvent books exactly when it is affordable. */
  lemma SolvencyKeptIffAffordable(g: Gateway, sec: Section)
    requires Balanced(g) && Solvent(g) && TokensOk(g)
    requires Enabled(g, sec) && Orderly(g, sec) && AsksEnough(sec)
    ensures Balanced(Apply(g, sec)) && TokensOk(Apply(g, sec))
    ensures Solvent(Apply(g, sec)) <==> Affordable(g, sec)
  {
    hide Outstanding, Orderly, AsksEnough, TokensOk;
    var g' := Apply(g, sec);
    BalanceKeptIffOrderly(g, sec);
    TokensStayOk(g, sec);
    AccountsStay(g, sec);
    forall a ensures SolventAt(g'.ledger, a) <==> AffordableFor(g, sec, a) {
      assert a in g'.ledger <==> a in g.ledger;
      assert SolventAt(g.ledger, a);
      if a in g.ledger {
        SolventIffFree(g, a);
        SolventIffFree(g', a);
        if sec.OnFill? {
          FreeAfterFill(g, sec.fill, a);
        } else {
          FreeStaysNonNegative(g, sec, a);
        }
      }
    }
  }

  predicate AllAskEnough(secs: seq<Section>) {
    forall i :: 0 <= i < |secs| ==> AsksEnough(secs[i])
  }

  ghost predicate AllAffordable(g: Gateway, secs: seq<Section>)
    requires AllEnabled(g, secs)
    decreases |secs|
  {
    secs == [] || (Affordable(g, secs[0]) && AllAffordable(Apply(g, secs[0]), secs[1..]))
  }

  /** Every account is solvent after every section of the run. */
  ghost predicate AlwaysSolvent(g: Gateway, secs: seq<Section>)
    requires AllEnabled(g, secs)
    decreases |secs|
  {
    Solvent(g) && (secs == [] || AlwaysSolvent(Apply(g, secs[0]), secs[1..]))
  }

  lemma NotAlwaysSolvent(g: Gateway, secs: seq<Section>)
    requires AllEnabled(g, secs) && !Solvent(g)
    ensures !AlwaysSolvent(g, secs)
  {
  }

  /** Over any orderly interleaving, every account stays solvent throughout exactly when every fill is
      affordable where it arrives. */
  lemma {:induction false} SolvencyInvariant(g: Gateway, secs: seq<Section>)
    requires Balanced(g) && Solvent(g) && TokensOk(g)
    requires AllEnabled(g, secs) && AllOrderly(g, secs) && AllAskEnough(secs)
    ensures AlwaysSolvent(g, secs) <==> AllAffordable(g, secs)
    decreases |secs|
  {
    if secs != [] {
      hide Balanced, Solvent, TokensOk, Affordable, Apply;
      var next := Apply(g, secs[0]);
      SolvencyKeptIffAffordable(g, secs[0]);
      if Solvent(next) {
        SolvencyInvariant(next, secs[1..]);
      } else {
        NotAlwaysSolvent(next, secs[1..]);
      }
    }
  }

  /** A fill that is covered by the reservations it meets is affordable. */
  lemma FundedIsAffordable(g: Gateway, sec: Section)
    requires Solvent(g) && Funded(g, sec) && TokensOk(g)
    ensures Affordable(g, sec)
  {
    forall a ensures AffordableFor(g, sec, a) {
      assert SolventAt(g.ledger, a);
    }
  }

  lemma SolvencyKept(g: Gateway, sec: Section)
    requires Balanced(g) && Solvent(g) && TokensOk(g)
    requires Enabled(g, sec) && Orderly(g, sec) && Funded(g, sec)
    ensures var g' := Apply(g, sec); Balanced(g') && Solvent(g') && TokensOk(g')
  {
    SolvencyKeptIffAffordable(g, sec);
    FundedIsAffordable(g, sec);
  }

  predicate AllFunded(g: Gateway, secs: seq<Section>)
    requires AllEnabled(g, secs)
    decreases |secs|
  {
    secs == [] || (Funded(g, secs[0]) && AllFunded(Apply(g, secs[0]), secs[1..]))
  }

  /** Over any orderly, funded interleaving, every account's reservation stays between zero and its
      buying power and equals what is outstanding. */
  lemma {:induction false} LedgerSafety(g: Gateway, secs: seq<Section>)
    requires Balanced(g) && Solvent(g) && TokensOk(g)
    requires AllEnabled(g, secs) && AllOrderly(g, secs) && AllFunded(g, secs)
    ensures var g' := After(g, secs); Balanced(g') && Solvent(g') && TokensOk(g')
    decreases |secs|
  {
    if secs != [] {
      SolvencyKept(g, secs[0]);
      LedgerSafety(Apply(g, secs[0]), secs[1..]);
    }
  }
}
