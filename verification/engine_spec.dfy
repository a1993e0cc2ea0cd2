/** The engine as a state machine over commands, on the simple book and the ledger. */
module EngineSpec {
  import opened Common
  import opened PriceTimeBook
  import opened Matching
  import opened EngineAccounts

  /** One fill seen from the ledger: two accounts, the taker's side, price and quantity. */
  datatype Trade = Trade(taker: AccountId, maker: AccountId, takerSide: Side, price: Price, qty: Qty)

  type Positions = map<AccountId, Position>

  datatype EngineState = EngineState(symbolId: SymbolId, book: Book, accounts: Accounts, serverSeq: nat)

  datatype Outcome = Outcome(state: EngineState, events: seq<Event>)

  predicate TradesOk(ts: seq<Trade>) {
    forall i :: 0 <= i < |ts| ==> ts[i].qty >= 0
  }

  /** The taker's leg, then the maker's; they may be the same account. */
  function ApplyTrade(p: Positions, t: Trade): Positions
    requires t.qty >= 0
  {
    var p' := p[t.taker := FilledPosition(PositionOf(p, t.taker), t.takerSide, t.price, t.qty)];
    p'[t.maker := FilledPosition(PositionOf(p', t.maker), t.takerSide.Opposite(), t.price, t.qty)]
  }

  function ApplyTrades(p: Positions, ts: seq<Trade>): Positions
    requires TradesOk(ts)
  {
    if ts == [] then p
    else ApplyTrade(ApplyTrades(p, ts[..|ts| - 1]), ts[|ts| - 1])
  }

  predicate AllPositive(fills: seq<MatchFill>) {
    forall i :: 0 <= i < |fills| ==> fills[i].qty > 0
  }

  function TradesOf(no: NewOrder, fills: seq<MatchFill>): (ts: seq<Trade>)
    ensures |ts| == |fills|
    ensures forall i :: 0 <= i < |fills| ==>
              ts[i] == Trade(no.accountId, fills[i].makerAccountId, no.side, fills[i].price, fills[i].qty)
    ensures AllPositive(fills) ==> TradesOk(ts)
  {
    seq(|fills|, i requires 0 <= i < |fills| =>
          Trade(no.accountId, fills[i].makerAccountId, no.side, fills[i].price, fills[i].qty))
  }

  function FillEvent(serverSeq: nat, symbolId: SymbolId, no: NewOrder, f: MatchFill): Event {
    Filled(Fill(serverSeq, no.clientSeq, symbolId, f.takerOrderId, f.makerOrderId, f.price, f.qty))
  }

  function FillEvents(serverSeq: nat, symbolId: SymbolId, no: NewOrder, fills: seq<MatchFill>): (evs: seq<Event>)
    ensures |evs| == |fills|
    ensures forall i :: 0 <= i < |fills| ==> evs[i] == FillEvent(serverSeq + i, symbolId, no, fills[i])
  {
    seq(|fills|, i requires 0 <= i < |fills| => FillEvent(serverSeq + i, symbolId, no, fills[i]))
  }

  function OrderFrom(no: NewOrder, qtyRem: Qty): Order {
    Order(no.orderId, no.accountId, no.symbolId, no.side, no.price, qtyRem, no.tif, no.postOnly)
  }

  /** Events that carry the current top of the book and then acknowledge. */
  function Acknowledged(st: EngineState, events: seq<Event>, clientSeq: nat, orderId: OrderId): Outcome {
    Outcome(st.(serverSeq := st.serverSeq + 2),
            events + [TopEvent(st.serverSeq, st.symbolId, Top(st.book.bids), Top(st.book.asks)),
                      Ack(st.serverSeq + 1, clientSeq, orderId)])
  }

  function Rejected(st: EngineState, clientSeq: nat, orderId: OrderId, reason: RejectReason): Outcome {
    Outcome(st.(serverSeq := st.serverSeq + 1), [Reject(st.serverSeq, clientSeq, Some(orderId), reason)])
  }

  /** Why a new order is turned away, if it is. */
  function Refusal(st: EngineState, no: NewOrder): Option<RejectReason> {
    if no.symbolId != st.symbolId || no.qty <= 0 then Some(Invalid)
    else if !WithinLimits(st.accounts, no.accountId, no.side, no.qty) then Some(Risk)
    else if no.postOnly && WouldCross(st.book, no.side, no.price) then Some(PostOnlyWouldCross)
    else None
  }

  lemma FillsPositive(b: Book, taker: OrderId, side: Side, limit: Price, qty: Qty)
    requires BookOk(b)
    ensures AllPositive(Match(b, taker, side, limit, qty).0)
  {
    MatchObeysRule(b, taker, side, limit, qty);
    var s := side.Opposite();
    var fills, os := Match(b, taker, side, limit, qty).0, Orders(b.On(s));
    forall i: nat | i < |fills| ensures fills[i].qty > 0 {
      assert RuleAt(s, limit, qty, taker, os, fills, i);
    }
  }

  /** The fills an order would get from the book. */
  function FillsFor(b: Book, no: NewOrder): (fills: seq<MatchFill>)
    requires BookOk(b)
    ensures AllPositive(fills)
  {
    FillsPositive(b, no.orderId, no.side, no.price, no.qty);
    Match(b, no.orderId, no.side, no.price, no.qty).0
  }

  /** Both parties' positions move for every fill, and every fill takes an event number. */
  function Booked(st: EngineState, no: NewOrder, fills: seq<MatchFill>): EngineState
    requires AllPositive(fills)
  {
    st.(accounts := st.accounts.(positions := ApplyTrades(st.accounts.positions, TradesOf(no, fills))),
        serverSeq := st.serverSeq + |fills|)
  }

  /** The order is matched, and its fills booked and reported. */
  function MatchStep(st: EngineState, no: NewOrder): (r: Outcome)
    requires BookOk(st.book)
    ensures BookOk(r.state.book)
  {
    MatchIsGreedy(st.book, no.orderId, no.side, no.price, no.qty);
    var fills := FillsFor(st.book, no);
    var b' := Match(st.book, no.orderId, no.side, no.price, no.qty).1;
    Outcome(Booked(st, no, fills).(book := b'), FillEvents(st.serverSeq, st.symbolId, no, fills))
  }

  /** What greedy matching leaves of the order. */
  function Remainder(b: Book, no: NewOrder): Qty
    requires BookOk(b)
  {
    no.qty - FillTotal(FillsFor(b, no))
  }

  lemma {:induction false} EnqueueKeepsOk(s: Side, l: seq<Resting>, r: Resting)
    requires ListOk(s, l) && r.order.side == s && r.order.qtyRem > 0
    ensures ListOk(s, Enqueue(s, l, r))
    ensures Enqueue(s, l, r)[0] == r || (l != [] && Enqueue(s, l, r)[0] == l[0])
    ensures forall x :: x in Enqueue(s, l, r) ==> x == r || x in l
  {
    if l != [] && Rank(s, l[0].order.price) <= Rank(s, r.order.price) {
      assert ListOk(s, l[1..]);
      EnqueueKeepsOk(s, l[1..], r);
      forall x | x in Enqueue(s, l[1..], r) ensures Rank(s, l[0].order.price) <= Rank(s, x.order.price) {
        if x != r {
          assert x in l[1..];
        }
      }
    }
  }

  lemma InsertKeepsOk(b: Book, o: Order)
    requires BookOk(b) && o.qtyRem > 0
    ensures BookOk(Insert(b, o))
  {
    ApplyKeepsOk(Buy, Unindex(o.orderId), b.bids);
    ApplyKeepsOk(Sell, Unindex(o.orderId), b.asks);
    EnqueueKeepsOk(o.side, b.Edited(Unindex(o.orderId)).On(o.side), Resting(o, true));
  }

  /** Match first; what is left rests unless the order is immediate-or-cancel. */
  function PlaceStep(st: EngineState, no: NewOrder): (r: Outcome)
    requires BookOk(st.book)
    ensures BookOk(r.state.book)
  {
    var matched := MatchStep(st, no);
    var rem := Remainder(st.book, no);
    if rem > 0 && no.tif.Gtc? then
      InsertKeepsOk(matched.state.book, OrderFrom(no, rem));
      matched.(state := matched.state.(book := Insert(matched.state.book, OrderFrom(no, rem))))
    else matched
  }

  lemma NothingToMatch(st: EngineState, no: NewOrder)
    requires BookOk(st.book) && no.qty > 0 && !WouldCross(st.book, no.side, no.price)
    ensures PlaceStep(st, no)
         == Outcome(if no.tif.Gtc? then st.(book := Insert(st.book, OrderFrom(no, no.qty))) else st, [])
  {
  }

  function NewStep(st: EngineState, no: NewOrder): (r: Outcome)
    requires BookOk(st.book)
    ensures BookOk(r.state.book)
  {
    if Refusal(st, no).Some? then Rejected(st, no.clientSeq, no.orderId, Refusal(st, no).value)
    else
      var placed := PlaceStep(st, no);
      Acknowledged(placed.state, placed.events, no.clientSeq, no.orderId)
  }

  lemma CancelKeepsOk(b: Book, id: OrderId, a: AccountId)
    requires BookOk(b)
    ensures BookOk(CancelIn(b, id, a))
  {
    ApplyKeepsOk(Buy, Remove(id), b.bids);
    ApplyKeepsOk(Sell, Remove(id), b.asks);
  }

  function CancelStep(st: EngineState, c: Cancel): (r: Outcome)
    requires BookOk(st.book)
    ensures BookOk(r.state.book)
  {
    if c.symbolId != st.symbolId then Rejected(st, c.clientSeq, c.orderId, Invalid)
    else if !Cancellable(st.book, c.orderId, c.accountId) then Rejected(st, c.clientSeq, c.orderId, NotFound)
    else
      CancelKeepsOk(st.book, c.orderId, c.accountId);
      Acknowledged(st.(book := CancelIn(st.book, c.orderId, c.accountId)), [], c.clientSeq, c.orderId)
  }

  /** The order a replace turns into: side, time in force and flags come from the order it replaces. */
  function Replacement(existing: Order, r: Replace): NewOrder {
    NewOrder(r.clientSeq, r.orderId, r.accountId, r.symbolId, existing.side, r.newPrice, r.newQty, existing.tif,
             existing.postOnly)
  }

  function ReplaceStep(st: EngineState, r: Replace): (out: Outcome)
    requires BookOk(st.book)
    ensures BookOk(out.state.book)
  {
    if r.symbolId != st.symbolId || r.newQty <= 0 then Rejected(st, r.clientSeq, r.orderId, Invalid)
    else if !Cancellable(st.book, r.orderId, r.accountId) then Rejected(st, r.clientSeq, r.orderId, NotFound)
    else
      CancelKeepsOk(st.book, r.orderId, r.accountId);
      NewStep(st.(book := CancelIn(st.book, r.orderId, r.accountId)),
              Replacement(Lookup(st.book, r.orderId).value, r))
  }

  /** What the engine does with one command. */
  function Step(st: EngineState, cmd: Command): (r: Outcome)
    requires BookOk(st.book)
    ensures BookOk(r.state.book)
  {
    match cmd
    case New(no) => NewStep(st, no)
    case CancelOrder(c) => CancelStep(st, c)
    case ReplaceOrder(r) => ReplaceStep(st, r)
    case SetLimits(clientSeq, a, _, limits) =>
      Outcome(st.(accounts := st.accounts.(riskLimits := st.accounts.riskLimits[a := limits]),
                  serverSeq := st.serverSeq + 1),
              [Ack(st.serverSeq, clientSeq, 0)])
    case QueryAccount(clientSeq, a, symbolId) =>
      Outcome(st.(serverSeq := st.serverSeq + 1),
              [AccountState(st.serverSeq, clientSeq, a, symbolId,
                            PositionOf(st.accounts.positions, a), LimitsOf(st.accounts, a))])
    case Authenticate(_) => Outcome(st, [])
  }

  /** Recovery replays a cancel straight on the book, without the symbol check and without events. */
  function ReplayStep(st: EngineState, cmd: Command): (r: EngineState)
    requires BookOk(st.book)
    ensures BookOk(r.book)
  {
    match cmd
    case CancelOrder(c) =>
      CancelKeepsOk(st.book, c.orderId, c.accountId);
      st.(book := CancelIn(st.book, c.orderId, c.accountId))
    case _ => Step(st, cmd).state
  }

  // ----- booking fills one by one -----

  lemma BookNone(st: EngineState, no: NewOrder, fills: seq<MatchFill>)
    requires AllPositive(fills)
    ensures Booked(st, no, fills[..0]) == st
    ensures FillEvents(st.serverSeq, st.symbolId, no, fills[..0]) == []
  {
  }

  lemma BookOneMore(st: EngineState, no: NewOrder, fills: seq<MatchFill>, i: nat)
    requires i < |fills|
    requires AllPositive(fills)
    ensures var st1 := Booked(st, no, fills[..i]);
            var t := Trade(no.accountId, fills[i].makerAccountId, no.side, fills[i].price, fills[i].qty);
            Booked(st, no, fills[..i + 1])
            == st1.(accounts := st1.accounts.(positions := ApplyTrade(st1.accounts.positions, t)),
                    serverSeq := st1.serverSeq + 1)
    ensures FillEvents(st.serverSeq, st.symbolId, no, fills[..i + 1])
         == FillEvents(st.serverSeq, st.symbolId, no, fills[..i])
          + [FillEvent(st.serverSeq + i, st.symbolId, no, fills[i])]
  {
    assert TradesOf(no, fills[..i + 1])[..i] == TradesOf(no, fills[..i]);
  }

  lemma {:induction false} FillTotalNonNeg(fs: seq<MatchFill>)
    requires AllPositive(fs)
    ensures FillTotal(fs) >= 0
  {
    if fs != [] {
      FillTotalNonNeg(fs[1..]);
    }
  }
}
