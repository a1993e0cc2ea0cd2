/** The gateway's ledger: buying power, and the part of it that is reserved for pending orders. */
module GatewayLedger {
  import opened Common

  datatype Account = Account(
    buyingPower: int,
    reserved: int,
    positions: map<SymbolId, Position>,
    riskLimits: map<SymbolId, RiskLimits>)

  /** A reservation held for one order. */
  datatype Token = Token(accountId: AccountId, symbolId: SymbolId, amount: int, orderId: OrderId)

  datatype RiskViolation = InsufficientFunds | PositionLimitExceeded | OrderSizeTooLarge | AccountNotFound

  datatype Reservation = Granted(token: Token) | Refused(violation: RiskViolation)

  type Ledger = map<AccountId, Account>

  function LimitsFor(state: Account, symbolId: SymbolId): RiskLimits {
    if symbolId in state.riskLimits then state.riskLimits[symbolId] else DEFAULT_LIMITS
  }

  function PositionFor(state: Account, symbolId: SymbolId): Position {
    if symbolId in state.positions then state.positions[symbolId] else FLAT
  }

  /** Only buys tie up buying power: the whole notional. */
  function Notional(order: NewOrder): int {
    if order.side.Buy? then order.price * order.qty else 0
  }

  function NetIfFilled(state: Account, order: NewOrder): Qty {
    PositionFor(state, order.symbolId).net + (if order.side.Buy? then order.qty else -order.qty)
  }

  /** The first check an order fails, in the order the gateway makes them. */
  function OrderViolation(l: Ledger, order: NewOrder): Option<RiskViolation> {
    if order.accountId !in l then Some(AccountNotFound)
    else
      var state := l[order.accountId];
      var limits := LimitsFor(state, order.symbolId);
      if Abs(order.qty) > limits.maxOrderSize then Some(OrderSizeTooLarge)
      else if !(-limits.maxShort <= NetIfFilled(state, order) <= limits.maxLong) then Some(PositionLimitExceeded)
      else if Notional(order) > state.buyingPower - state.reserved then Some(InsufficientFunds)
      else None
  }

  function ReplaceViolation(l: Ledger, held: Token, r: Replace): Option<RiskViolation> {
    if r.accountId !in l then Some(AccountNotFound)
    else
      var state := l[r.accountId];
      if Abs(r.newQty) > LimitsFor(state, r.symbolId).maxOrderSize then Some(OrderSizeTooLarge)
      else if r.newPrice * r.newQty > state.buyingPower - state.reserved + held.amount then Some(InsufficientFunds)
      else None
  }

  /** Moves an account's reservation; accounts that do not exist stay that way. */
  function Reserved(l: Ledger, a: AccountId, delta: int): Ledger {
    if a in l then l[a := l[a].(reserved := l[a].reserved + delta)] else l
  }

  /** A fill gives the whole reservation back and moves money and position. */
  function Consumed(l: Ledger, fill: Fill, token: Token, isBuy: bool): Ledger {
    if token.accountId !in l then l
    else
      var state := l[token.accountId];
      var pos := PositionFor(state, fill.symbolId);
      var net := if isBuy then pos.net + fill.qty else pos.net - fill.qty;
      var cost := fill.price * fill.qty;
      l[token.accountId := state.(
          reserved := state.reserved - token.amount,
          buyingPower := if isBuy then state.buyingPower - cost else state.buyingPower + cost,
          positions := state.positions[fill.symbolId :=
            pos.(net := net, avgPrice := if net != 0 then fill.price else pos.avgPrice)])]
  }

  function OrderToken(order: NewOrder): Token {
    Token(order.accountId, order.symbolId, Notional(order), order.orderId)
  }

  function ReplaceToken(r: Replace): Token {
    Token(r.accountId, r.symbolId, r.newPrice * r.newQty, r.orderId)
  }

  // ----- what the checks come to -----

  /** Limits set for the symbol, or else ten thousand lots either way and a thousand at a time. */
  lemma LimitsAreSetOrDefault(state: Account, symbolId: SymbolId)
    ensures LimitsFor(state, symbolId)
         == if symbolId in state.riskLimits then state.riskLimits[symbolId] else RiskLimits(10_000, 10_000, 1_000)
  {
  }

  /** All of the order, filled at its own price. */
  function WholeFill(order: NewOrder): Fill {
    Fill(0, order.clientSeq, order.symbolId, order.orderId, order.orderId, order.price, order.qty)
  }

  /** The account when the ledger has taken in such a fill. */
  function AfterWholeFill(l: Ledger, order: NewOrder): Account
    requires order.accountId in l
  {
    var token := Token(order.accountId, order.symbolId, 0, order.orderId);
    Consumed(l, WholeFill(order), token, order.side.Buy?)[order.accountId]
  }

  predicate SizeAllowed(l: Ledger, order: NewOrder)
    requires order.accountId in l
  {
    -LimitsFor(l[order.accountId], order.symbolId).maxOrderSize
    <= order.qty
    <= LimitsFor(l[order.accountId], order.symbolId).maxOrderSize
  }

  /** Filling all of the order would leave the account's position within its limits. */
  predicate PositionAllowed(l: Ledger, order: NewOrder)
    requires order.accountId in l
  {
    var limits := LimitsFor(l[order.accountId], order.symbolId);
    -limits.maxShort <= PositionFor(AfterWholeFill(l, order), order.symbolId).net <= limits.maxLong
  }

  /** A seller's reserved money is covered already; a buyer's is still covered when the order has been paid. */
  predicate MoneySuffices(l: Ledger, order: NewOrder)
    requires order.accountId in l
  {
    l[order.accountId].reserved
    <= if order.side.Buy? then AfterWholeFill(l, order).buyingPower else l[order.accountId].buyingPower
  }

  /** Each reason to refuse an order, exactly: no such account, then the size, then the position that filling all of
      it would lead to, then the money. */
  lemma OrderChecks(l: Ledger, order: NewOrder)
    ensures OrderViolation(l, order) == Some(AccountNotFound) <==> order.accountId !in l
    ensures order.accountId in l ==>
              var v := OrderViolation(l, order);
              && (v == Some(OrderSizeTooLarge) <==> !SizeAllowed(l, order))
              && (v == Some(PositionLimitExceeded) <==> SizeAllowed(l, order) && !PositionAllowed(l, order))
              && (v == Some(InsufficientFunds)
                  <==> (SizeAllowed(l, order) && PositionAllowed(l, order) && !MoneySuffices(l, order)))
              && (v == None <==> SizeAllowed(l, order) && PositionAllowed(l, order) && MoneySuffices(l, order))
  {
  }

  /** What a buyer pays for all of the order is reserved. */
  lemma ReservesWhatIsPaid(l: Ledger, order: NewOrder)
    requires order.accountId in l && order.side.Buy?
    ensures OrderToken(order).amount == l[order.accountId].buyingPower - AfterWholeFill(l, order).buyingPower
    ensures OrderToken(order.(side := Sell)).amount == 0
  {
  }

  /** Each reason to refuse a replace, exactly: no such account, then the size, then the money that would be free with
      the old reservation swapped for the new one. */
  lemma ReplaceChecks(l: Ledger, held: Token, r: Replace)
    ensures ReplaceViolation(l, held, r) == Some(AccountNotFound) <==> r.accountId !in l
    ensures r.accountId in l ==>
              var v, limit := ReplaceViolation(l, held, r), LimitsFor(l[r.accountId], r.symbolId).maxOrderSize;
              var swapped := Reserved(l, r.accountId, r.newPrice * r.newQty - held.amount)[r.accountId];
              && (v == Some(OrderSizeTooLarge) <==> !(-limit <= r.newQty <= limit))
              && (v == Some(InsufficientFunds)
                  <==> (-limit <= r.newQty <= limit && swapped.reserved > swapped.buyingPower))
              && (v == None <==> -limit <= r.newQty <= limit && swapped.reserved <= swapped.buyingPower)
  {
  }

  /** The average price of a position that a fill leaves open is the price of that fill. */
  lemma AverageIsLastPrice(l: Ledger, fill: Fill, token: Token, isBuy: bool)
    requires token.accountId in l
    ensures var before := PositionFor(l[token.accountId], fill.symbolId);
            var after := PositionFor(Consumed(l, fill, token, isBuy)[token.accountId], fill.symbolId);
            && after.avgPrice == (if after.net != 0 then fill.price else before.avgPrice)
            && after.realizedPnl == before.realizedPnl
  {
  }

  class AccountManager {
    var accounts: Ledger

    constructor ()
      ensures accounts == map[]
    {
      accounts := map[];
    }

    method CreateAccount(a: AccountId, buyingPower: int)
      modifies this
      ensures accounts == old(accounts)[a := Account(buyingPower, 0, map[], map[])]
    {
      accounts := accounts[a := Account(buyingPower, 0, map[], map[])];
    }

    /** Checks risk and reserves in one step under the account's lock; a refusal changes nothing. */
    method CheckAndReserveOrder(order: NewOrder) returns (r: Reservation)
      modifies this
      ensures r == match OrderViolation(old(accounts), order)
                   case None => Granted(OrderToken(order))
                   case Some(v) => Refused(v)
      ensures accounts == if r.Granted? then Reserved(old(accounts), order.accountId, Notional(order))
                          else old(accounts)
      ensures r.Granted? <==>
                && order.accountId in old(accounts)
                && SizeAllowed(old(accounts), order)
                && PositionAllowed(old(accounts), order)
                && MoneySuffices(old(accounts), order)
    {
      OrderChecks(accounts, order);
      if order.accountId !in accounts {
        return Refused(AccountNotFound);
      }
      var state := accounts[order.accountId];
      var limits := LimitsFor(state, order.symbolId);
      if Abs(order.qty) > limits.maxOrderSize {
        return Refused(OrderSizeTooLarge);
      }
      var position := PositionFor(state, order.symbolId);
      var newPosition;
      match order.side {
        case Buy => newPosition := position.net + order.qty;
        case Sell => newPosition := position.net - order.qty;
      }
      if newPosition > limits.maxLong {
        return Refused(PositionLimitExceeded);
      }
      if newPosition < -limits.maxShort {
        return Refused(PositionLimitExceeded);
      }
      var required;
      match order.side {
        case Buy => required := order.price * order.qty;
        case Sell => required := 0;
      }
      var available := state.buyingPower - state.reserved;
      if required > available {
        return Refused(InsufficientFunds);
      }
      accounts := accounts[order.accountId := state.(reserved := state.reserved + required)];
      return Granted(Token(order.accountId, order.symbolId, required, order.orderId));
    }

    /** Gives the old reservation back and takes the new one in one step; a refusal changes nothing. */
    method AdjustReservation(held: Token, r: Replace) returns (res: Reservation)
      modifies this
      ensures res == match ReplaceViolation(old(accounts), held, r)
                     case None => Granted(ReplaceToken(r))
                     case Some(v) => Refused(v)
      ensures accounts == if res.Granted?
                          then Reserved(old(accounts), r.accountId, ReplaceToken(r).amount - held.amount)
                          else old(accounts)
    {
      if r.accountId !in accounts {
        return Refused(AccountNotFound);
      }
      var state := accounts[r.accountId];
      var limits := LimitsFor(state, r.symbolId);
      if Abs(r.newQty) > limits.maxOrderSize {
        return Refused(OrderSizeTooLarge);
      }
      var newAmount := r.newPrice * r.newQty;
      var available := state.buyingPower - state.reserved + held.amount;
      if newAmount > available {
        return Refused(InsufficientFunds);
      }
      accounts := accounts[r.accountId := state.(reserved := state.reserved - held.amount + newAmount)];
      return Granted(Token(r.accountId, r.symbolId, newAmount, r.orderId));
    }

    method ReleaseReservation(token: Token)
      modifies this
      ensures accounts == Reserved(old(accounts), token.accountId, -token.amount)
    {
      if token.accountId in accounts {
        var state := accounts[token.accountId];
        accounts := accounts[token.accountId := state.(reserved := state.reserved - token.amount)];
      }
    }

    method ApplyFill(fill: Fill, token: Token, isBuy: bool)
      modifies this
      ensures accounts == Consumed(old(accounts), fill, token, isBuy)
    {
      if token.accountId in accounts {
        var state := accounts[token.accountId];
        state := state.(reserved := state.reserved - token.amount);
        var actualCost := fill.price * fill.qty;
        if isBuy {
          state := state.(buyingPower := state.buyingPower - actualCost);
        } else {
          state := state.(buyingPower := state.buyingPower + actualCost);
        }
        var position := PositionFor(state, fill.symbolId);
        if isBuy {
          position := position.(net := position.net + fill.qty);
        } else {
          position := position.(net := position.net - fill.qty);
        }
        if position.net != 0 {
          position := position.(avgPrice := fill.price);
        }
        accounts := accounts[token.accountId := state.(positions := state.positions[fill.symbolId := position])];
      }
    }

    method SetTentativeReserved(a: AccountId, amount: int)
      modifies this
      ensures accounts == if a in old(accounts) then old(accounts)[a := old(accounts)[a].(reserved := amount)]
                          else old(accounts)
    {
      if a in accounts {
        accounts := accounts[a := accounts[a].(reserved := amount)];
      }
    }
  }
}
