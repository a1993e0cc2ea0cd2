/** The engine's ledger: positions, average prices, realized profit and loss, and risk limits. */
module EngineAccounts {
  import opened Common
  import opened Finite

  /** Integer division that truncates toward zero. */
  function TruncDiv(a: int, b: int): int
    requires b != 0
  {
    var n, d := if b < 0 then -a else a, if b < 0 then -b else b;
    if n >= 0 then n / d else -(-n / d)
  }

  /** The remainder is smaller than the divisor and has the sign of the dividend. */
  lemma TruncDivIs(a: int, b: int)
    requires b > 0
    ensures a >= 0 ==> 0 <= a - b * TruncDiv(a, b) < b
    ensures a <= 0 ==> -b < a - b * TruncDiv(a, b) <= 0
  {
    if a >= 0 {
      assert a == b * (a / b) + a % b;
    } else {
      assert -a == b * (-a / b) + -a % b;
      assert b * -(-a / b) == -(b * (-a / b));
    }
  }

  datatype Accounts = Accounts(
    positions: map<AccountId, Position>,
    riskLimits: map<AccountId, RiskLimits>,
    defaultLimits: RiskLimits)

  function PositionOf(positions: map<AccountId, Position>, a: AccountId): Position {
    if a in positions then positions[a] else FLAT
  }

  function LimitsOf(acc: Accounts, a: AccountId): RiskLimits {
    if a in acc.riskLimits then acc.riskLimits[a] else acc.defaultLimits
  }

  function Signed(side: Side, qty: Qty): Qty {
    if side.Buy? then qty else -qty
  }

  /** The order is small enough, and filling all of it would leave the position within its limits. */
  predicate WithinLimits(acc: Accounts, a: AccountId, side: Side, qty: Qty) {
    var limits := LimitsOf(acc, a);
    && qty <= limits.maxOrderSize
    && -limits.maxShort <= PositionOf(acc.positions, a).net + Signed(side, qty) <= limits.maxLong
  }

  // ----- what a fill does to a position, stated alike for both sides -----

  /** The fill works against the open position. */
  predicate Closes(net: Qty, side: Side) {
    net != 0 && (net < 0 <==> side.Buy?)
  }

  /** The average price can be worked out: the fill does not undo an open position by adding a negative quantity. */
  predicate Averages(pos: Position, side: Side, qty: Qty) {
    pos.net == 0 || Closes(pos.net, side) || Abs(pos.net) + qty != 0
  }

  function FilledPosition(pos: Position, side: Side, price: Price, qty: Qty): Position
    requires Averages(pos, side, qty)
  {
    var net' := pos.net + Signed(side, qty);
    if Closes(pos.net, side) then
      var closing := Min(qty, Abs(pos.net));
      var gain := Signed(side.Opposite(), price - pos.avgPrice);
      Position(net', if closing < qty then price else pos.avgPrice, pos.realizedPnl + closing * gain)
    else if pos.net == 0 then
      Position(net', price, pos.realizedPnl)
    else
      Position(net', TruncDiv(Abs(pos.net) * pos.avgPrice + qty * price, Abs(pos.net) + qty), pos.realizedPnl)
  }

  /** An order of this size that would lead to this net position is allowed. */
  predicate Fits(limits: RiskLimits, qty: Qty, net: Qty) {
    qty <= limits.maxOrderSize && -limits.maxShort <= net <= limits.maxLong
  }

  class AccountManager {
    var positions: map<AccountId, Position>
    var riskLimits: map<AccountId, RiskLimits>
    var defaultLimits: RiskLimits

    ghost function View(): Accounts
      reads this
    {
      Accounts(positions, riskLimits, defaultLimits)
    }

    constructor (limits: RiskLimits)
      ensures View() == Accounts(map[], map[], limits)
    {
      positions, riskLimits, defaultLimits := map[], map[], limits;
    }

    function GetPosition(a: AccountId): Position
      reads this
    {
      if a in positions then positions[a] else FLAT
    }

    function GetLimits(a: AccountId): RiskLimits
      reads this
    {
      if a in riskLimits then riskLimits[a] else defaultLimits
    }

    method SetLimits(a: AccountId, limits: RiskLimits)
      modifies this
      ensures View() == old(View()).(riskLimits := old(riskLimits)[a := limits])
    {
      riskLimits := riskLimits[a := limits];
    }

    method Load(acc: Accounts)
      modifies this
      ensures View() == acc
    {
      positions, riskLimits, defaultLimits := acc.positions, acc.riskLimits, acc.defaultLimits;
    }

    /** None means the order may go ahead: it is small enough, and filling all of it, at whatever price, would leave
        the position within its limits. */
    method CheckRisk(a: AccountId, side: Side, qty: Qty) returns (r: Option<RejectReason>)
      ensures r == if WithinLimits(View(), a, side, qty) then None else Some(Risk)
      ensures qty > 0 ==> forall price ::
                r.None? <==> Fits(GetLimits(a), qty, FilledPosition(GetPosition(a), side, price, qty).net)
    {
      var limits := GetLimits(a);
      if qty > limits.maxOrderSize {
        return Some(Risk);
      }
      var current := GetPosition(a).net;
      var newPosition;
      match side {
        case Buy => newPosition := current + qty;
        case Sell => newPosition := current - qty;
      }
      if newPosition > limits.maxLong {
        return Some(Risk);
      }
      if newPosition < -limits.maxShort {
        return Some(Risk);
      }
      return None;
    }

    /** Where the average cannot be worked out the original divides by zero. */
    method ApplyFill(a: AccountId, side: Side, price: Price, qty: Qty)
      requires Averages(PositionOf(positions, a), side, qty)
      modifies this
      ensures View() == old(View()).(positions :=
                          old(positions)[a := FilledPosition(PositionOf(old(positions), a), side, price, qty)])
    {
      var pos := if a in positions then positions[a] else FLAT;
      match side {
        case Buy => pos := Bought(pos, price, qty);
        case Sell => pos := Sold(pos, price, qty);
      }
      positions := positions[a := pos];
    }

    static method Bought(before: Position, price: Price, qty: Qty) returns (pos: Position)
      requires Averages(before, Buy, qty)
      ensures pos == FilledPosition(before, Buy, price, qty)
    {
      hide TruncDiv;
      pos := before;
      if pos.net < 0 {
        var closingQty := Min(qty, -pos.net);
        var pnlPerLot := pos.avgPrice - price;
        pos := pos.(realizedPnl := pos.realizedPnl + closingQty * pnlPerLot);
        var openingQty := qty - closingQty;
        if openingQty > 0 {
          pos := pos.(avgPrice := price);
        }
      } else {
        if pos.net == 0 {
          pos := pos.(avgPrice := price);
        } else {
          var totalValue := pos.net * pos.avgPrice + qty * price;
          pos := pos.(avgPrice := TruncDiv(totalValue, pos.net + qty));
        }
      }
      pos := pos.(net := pos.net + qty);
    }

    static method Sold(before: Position, price: Price, qty: Qty) returns (pos: Position)
      requires Averages(before, Sell, qty)
      ensures pos == FilledPosition(before, Sell, price, qty)
    {
      hide TruncDiv;
      pos := before;
      if pos.net > 0 {
        var closingQty := Min(qty, pos.net);
        var pnlPerLot := price - pos.avgPrice;
        pos := pos.(realizedPnl := pos.realizedPnl + closingQty * pnlPerLot);
        var openingQty := qty - closingQty;
        if openingQty > 0 {
          pos := pos.(avgPrice := price);
        }
      } else {
        if pos.net == 0 {
          pos := pos.(avgPrice := price);
        } else {
          var totalValue := -pos.net * pos.avgPrice + qty * price;
          pos := pos.(avgPrice := TruncDiv(totalValue, -pos.net + qty));
        }
      }
      pos := pos.(net := pos.net - qty);
    }
  }

  // ----- profit and loss over any sequence of fills -----

  /** One account's part in one trade. */
  datatype Leg = Leg(side: Side, price: Price, qty: Qty)

  predicate LegsOk(legs: seq<Leg>) {
    forall i :: 0 <= i < |legs| ==> legs[i].qty >= 0
  }

  function AfterLegs(pos: Position, legs: seq<Leg>): Position
    requires LegsOk(legs)
    decreases |legs|
  {
    if legs == [] then pos else AfterLegs(FilledPosition(pos, legs[0].side, legs[0].price, legs[0].qty), legs[1..])
  }

  function CashOf(leg: Leg): int {
    Signed(leg.side.Opposite(), leg.qty) * leg.price
  }

  /** Money received less money paid. */
  function Cash(legs: seq<Leg>): int {
    SumBy(legs, CashOf)
  }

  function LotsOf(leg: Leg): Qty {
    Signed(leg.side, leg.qty)
  }

  function SignedSum(legs: seq<Leg>): Qty {
    SumBy(legs, LotsOf)
  }

  /** What one fill may lose to rounding: it averages into an open position of this size. */
  function RoundingOf(pos: Position, leg: Leg): nat {
    if pos.net == 0 || Closes(pos.net, leg.side) || leg.qty < 0 then 0 else Abs(pos.net) + leg.qty - 1
  }

  function RoundingBudget(pos: Position, legs: seq<Leg>): nat
    requires LegsOk(legs)
    decreases |legs|
  {
    if legs == [] then 0
    else
      var pos' := FilledPosition(pos, legs[0].side, legs[0].price, legs[0].qty);
      RoundingOf(pos, legs[0]) + RoundingBudget(pos', legs[1..])
  }

  /** Realized profit less the book value of the open position. */
  function Drift(pos: Position): int {
    pos.realizedPnl - pos.net * pos.avgPrice
  }

  /** How far one fill moves the drift away from its cash flow. */
  function DriftError(pos: Position, leg: Leg): int
    requires leg.qty >= 0
  {
    Drift(FilledPosition(pos, leg.side, leg.price, leg.qty)) - Drift(pos) - CashOf(leg)
  }

  lemma OpeningIsExact(pos: Position, leg: Leg)
    requires leg.qty >= 0 && pos.net == 0
    ensures DriftError(pos, leg) == 0
  {
  }

  lemma ClosingIsExact(pos: Position, leg: Leg)
    requires 0 <= leg.qty <= Abs(pos.net) && Closes(pos.net, leg.side)
    ensures DriftError(pos, leg) == 0
  {
    var net, q, p, a := pos.net, leg.qty, leg.price, pos.avgPrice;
    if leg.side.Buy? {
      assert q * (a - p) - (net + q) * a == -net * a - q * p;
    } else {
      assert q * (p - a) - (net - q) * a == -net * a + q * p;
    }
  }

  lemma ReversingIsExact(pos: Position, leg: Leg)
    requires leg.qty > Abs(pos.net) && Closes(pos.net, leg.side)
    ensures DriftError(pos, leg) == 0
  {
    var net, q, p, a := pos.net, leg.qty, leg.price, pos.avgPrice;
    if leg.side.Buy? {
      assert -net * (a - p) - (net + q) * p == -net * a - q * p;
    } else {
      assert net * (p - a) - (net - q) * p == -net * a + q * p;
    }
  }

  lemma NegMul(x: int, y: int)
    ensures -x * y == -(x * y)
  {
  }

  lemma AddingRounds(pos: Position, leg: Leg)
    requires leg.qty >= 0 && pos.net != 0 && !Closes(pos.net, leg.side)
    ensures Abs(DriftError(pos, leg)) < Abs(pos.net) + leg.qty
  {
    var q, p, a, n := leg.qty, leg.price, pos.avgPrice, Abs(pos.net);
    var avg := TruncDiv(n * a + q * p, n + q);
    TruncDivIs(n * a + q * p, n + q);
    NegMul(q, p);
    NegMul(n, a);
    NegMul(n + q, avg);
    var pos' := FilledPosition(pos, leg.side, p, q);
    assert pos'.avgPrice == avg && pos'.net == (if leg.side.Buy? then n + q else -(n + q));
    assert Drift(pos') == pos.realizedPnl - (if leg.side.Buy? then (n + q) * avg else -((n + q) * avg));
    assert Drift(pos) == pos.realizedPnl - (if leg.side.Buy? then n * a else -(n * a));
  }

  /** One fill moves the drift by its cash flow, exactly when it opens, closes or reverses a position
      and up to rounding when it adds to one. */
  lemma FillDrift(pos: Position, leg: Leg)
    requires leg.qty >= 0
    ensures Abs(DriftError(pos, leg)) <= RoundingOf(pos, leg)
  {
    if pos.net == 0 {
      OpeningIsExact(pos, leg);
    } else if !Closes(pos.net, leg.side) {
      AddingRounds(pos, leg);
    } else if leg.qty <= Abs(pos.net) {
      ClosingIsExact(pos, leg);
    } else {
      ReversingIsExact(pos, leg);
    }
  }

  /** The fill adds to an open position. */
  predicate Adds(net: Qty, side: Side) {
    (net > 0 && side.Buy?) || (net < 0 && side.Sell?)
  }

  /** The average price is the total paid or received divided by the lots, rounded toward zero. */
  lemma AverageTruncates(pos: Position, leg: Leg)
    requires leg.qty >= 0 && Adds(pos.net, leg.side)
    ensures var total, lots := Abs(pos.net) * pos.avgPrice + leg.qty * leg.price, Abs(pos.net) + leg.qty;
            var avg := FilledPosition(pos, leg.side, leg.price, leg.qty).avgPrice;
            && (total >= 0 ==> 0 <= total - lots * avg < lots)
            && (total <= 0 ==> -lots < total - lots * avg <= 0)
  {
    TruncDivIs(Abs(pos.net) * pos.avgPrice + leg.qty * leg.price, Abs(pos.net) + leg.qty);
  }

  /** Opening a position, or adding to one, realizes nothing; an opening takes the fill's price. */
  lemma OpeningRealizesNothing(pos: Position, leg: Leg)
    requires leg.qty >= 0 && (pos.net == 0 || Adds(pos.net, leg.side))
    ensures var after := FilledPosition(pos, leg.side, leg.price, leg.qty);
            after.realizedPnl == pos.realizedPnl && (pos.net == 0 ==> after.avgPrice == leg.price)
  {
  }

  /** A fill against a position realizes, for every lot it closes, what the lot has gained since it was opened at
      the average price. What remains open keeps the average; what the fill opens the other way takes its price. */
  lemma ClosingRealizesGain(pos: Position, leg: Leg)
    requires leg.qty >= 0 && pos.net != 0 && !Adds(pos.net, leg.side)
    ensures var after := FilledPosition(pos, leg.side, leg.price, leg.qty);
            var closed := Min(leg.qty, Abs(pos.net));
            && after.realizedPnl == pos.realizedPnl
                 + closed * (if pos.net > 0 then leg.price - pos.avgPrice else pos.avgPrice - leg.price)
            && after.avgPrice == if leg.qty <= Abs(pos.net) then pos.avgPrice else leg.price
  {
  }

  // ----- rounding has one direction -----

  predicate PricesOk(legs: seq<Leg>) {
    forall i :: 0 <= i < |legs| ==> legs[i].price >= 0
  }

  /** The error of adding to a position is what the average leaves of the total, with the sign of the position. */
  lemma AddingDrifts(pos: Position, leg: Leg)
    requires leg.qty >= 0 && leg.price >= 0 && pos.avgPrice >= 0 && Adds(pos.net, leg.side)
    ensures var total, lots := Abs(pos.net) * pos.avgPrice + leg.qty * leg.price, Abs(pos.net) + leg.qty;
            var left := total - lots * FilledPosition(pos, leg.side, leg.price, leg.qty).avgPrice;
            total >= 0 && DriftError(pos, leg) == if pos.net > 0 then left else -left
  {
    hide TruncDiv;
    var q, p, a, n := leg.qty, leg.price, pos.avgPrice, Abs(pos.net);
    var after := FilledPosition(pos, leg.side, p, q);
    NegMul(q, p);
    NegMul(n, a);
    NegMul(n + q, after.avgPrice);
    assert after.net == if pos.net > 0 then n + q else -(n + q);
    var value := (n + q) * after.avgPrice;
    assert Drift(after) == pos.realizedPnl - (if pos.net > 0 then value else -value);
    assert Drift(pos) == pos.realizedPnl - (if pos.net > 0 then n * a else -(n * a));
    assert n * a >= 0 && q * p >= 0;
  }

  lemma MulCancel(m: int, x: int, y: int)
    requires m > 0 && m * x < m * y
    ensures x < y
  {
  }

  lemma QuotientBetween(total: int, m: int, lo: int, hi: int)
    requires m > 0 && m * lo <= total <= m * hi
    ensures lo <= TruncDiv(total, m) <= hi
  {
    var q := TruncDiv(total, m);
    TruncDivIs(total, m);
    assert m * lo < m * (q + 1);
    assert m * (q - 1) < m * hi;
    MulCancel(m, lo, q + 1);
    MulCancel(m, q - 1, hi);
  }

  /** An averaged price lies between the old average and the fill price. */
  lemma AverageIsBetween(pos: Position, leg: Leg)
    requires leg.qty >= 0 && pos.net != 0 && !Closes(pos.net, leg.side)
    ensures var avg := FilledPosition(pos, leg.side, leg.price, leg.qty).avgPrice;
            pos.avgPrice <= avg <= leg.price || leg.price <= avg <= pos.avgPrice
  {
    var n, a, p, q := Abs(pos.net), pos.avgPrice, leg.price, leg.qty;
    var total := n * a + q * p;
    var lo, hi := Min(a, p), a + p - Min(a, p);
    assert n * lo <= n * a <= n * hi;
    assert q * lo <= q * p <= q * hi;
    assert (n + q) * lo <= total <= (n + q) * hi;
    QuotientBetween(total, n + q, lo, hi);
  }

  /** With non-negative prices rounding never loses money on a long position and never gains any on a short one. */
  lemma RoundingSign(pos: Position, leg: Leg)
    requires leg.qty >= 0 && leg.price >= 0 && pos.avgPrice >= 0
    ensures pos.net >= 0 ==> 0 <= DriftError(pos, leg) <= RoundingOf(pos, leg)
    ensures pos.net <= 0 ==> 0 <= RoundingOf(pos, leg) + DriftError(pos, leg) && DriftError(pos, leg) <= 0
    ensures FilledPosition(pos, leg.side, leg.price, leg.qty).avgPrice >= 0
  {
    FillDrift(pos, leg);
    if Adds(pos.net, leg.side) {
      AddingDrifts(pos, leg);
      AverageTruncates(pos, leg);
      AverageIsBetween(pos, leg);
    } else if pos.net == 0 {
      OpeningIsExact(pos, leg);
    } else if leg.qty <= Abs(pos.net) {
      ClosingIsExact(pos, leg);
    } else {
      ReversingIsExact(pos, leg);
    }
  }

  /** The position is never short along the way. */
  predicate NeverShort(pos: Position, legs: seq<Leg>)
    requires LegsOk(legs)
    decreases |legs|
  {
    pos.net >= 0
    && (legs == [] || NeverShort(FilledPosition(pos, legs[0].side, legs[0].price, legs[0].qty), legs[1..]))
  }

  predicate NeverLong(pos: Position, legs: seq<Leg>)
    requires LegsOk(legs)
    decreases |legs|
  {
    pos.net <= 0
    && (legs == [] || NeverLong(FilledPosition(pos, legs[0].side, legs[0].price, legs[0].qty), legs[1..]))
  }

  /** Over any fills that never take the account short, rounding only ever adds to its profit; over fills that never
      take it long, rounding only ever takes away. */
  lemma {:induction false} PnlIsOneSided(pos: Position, legs: seq<Leg>)
    requires LegsOk(legs) && PricesOk(legs) && pos.avgPrice >= 0
    ensures var error := Drift(AfterLegs(pos, legs)) - Drift(pos) - Cash(legs);
            && (NeverShort(pos, legs) ==> 0 <= error <= RoundingBudget(pos, legs))
            && (NeverLong(pos, legs) ==> 0 <= RoundingBudget(pos, legs) + error && error <= 0)
    decreases |legs|
  {
    hide FilledPosition, RoundingOf, Drift, CashOf;
    if legs != [] {
      RoundingSign(pos, legs[0]);
      PnlIsOneSided(FilledPosition(pos, legs[0].side, legs[0].price, legs[0].qty), legs[1..]);
    }
  }

  /** Profit and loss adds up: over any fills, realized profit is cash flow plus the value of the
      open position at its average price, within the rounding budget. */
  lemma {:induction false} PnlIdentity(pos: Position, legs: seq<Leg>)
    requires LegsOk(legs)
    ensures Abs(Drift(AfterLegs(pos, legs)) - Drift(pos) - Cash(legs)) <= RoundingBudget(pos, legs)
    ensures AfterLegs(pos, legs).net == pos.net + SignedSum(legs)
    decreases |legs|
  {
    if legs != [] {
      FillDrift(pos, legs[0]);
      PnlIdentity(FilledPosition(pos, legs[0].side, legs[0].price, legs[0].qty), legs[1..]);
    }
  }
}
