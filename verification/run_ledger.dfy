/** Positions and profit over whole runs: trades are zero-sum and profit adds up, account by account. */
module RunLedger {
  import opened Common
  import opened Finite
  import opened PriceTimeBook
  import opened Matching
  import opened EngineAccounts
  import opened EngineSpec
  import opened EngineRuns

  // ----- the trades of a run -----

  function NewTrades(st: EngineState, no: NewOrder): (ts: seq<Trade>)
    requires BookOk(st.book)
    ensures TradesOk(ts)
  {
    if Refusal(st, no).Some? then []
    else TradesOf(no, FillsFor(st.book, no))
  }

  function StepTrades(st: EngineState, cmd: Command): (ts: seq<Trade>)
    requires BookOk(st.book)
    ensures TradesOk(ts)
  {
    match cmd
    case New(no) => NewTrades(st, no)
    case ReplaceOrder(r) =>
      if r.symbolId != st.symbolId || r.newQty <= 0 || !Cancellable(st.book, r.orderId, r.accountId) then []
      else
        CancelKeepsOk(st.book, r.orderId, r.accountId);
        NewTrades(st.(book := CancelIn(st.book, r.orderId, r.accountId)),
                  Replacement(Lookup(st.book, r.orderId).value, r))
    case _ => []
  }

  function RunTrades(st: EngineState, cmds: seq<Command>): (ts: seq<Trade>)
    requires BookOk(st.book)
    ensures TradesOk(ts)
    decreases |cmds|
  {
    if cmds == [] then [] else StepTrades(st, cmds[0]) + RunTrades(Step(st, cmds[0]).state, cmds[1..])
  }

  lemma {:induction false} ApplyTradesConcat(p: Positions, a: seq<Trade>, b: seq<Trade>)
    requires TradesOk(a) && TradesOk(b)
    ensures ApplyTrades(p, a + b) == ApplyTrades(ApplyTrades(p, a), b)
    decreases |b|
  {
    if b == [] {
      assert a + b == a;
    } else {
      var m := |b| - 1;
      assert (a + b)[..|a + b| - 1] == a + b[..m];
      ApplyTradesConcat(p, a, b[..m]);
    }
  }

  lemma NewBooksTrades(st: EngineState, no: NewOrder)
    requires BookOk(st.book)
    ensures NewStep(st, no).state.accounts.positions == ApplyTrades(st.accounts.positions, NewTrades(st, no))
  {
    hide BookOk, Match, Insert, FilledPosition, WithinLimits, WouldCross, FillsFor;
  }

  lemma StepBooksTrades(st: EngineState, cmd: Command)
    requires BookOk(st.book)
    ensures Step(st, cmd).state.accounts.positions == ApplyTrades(st.accounts.positions, StepTrades(st, cmd))
  {
    hide BookOk, CancelIn, Lookup, NewStep, NewTrades;
    match cmd {
      case New(no) => NewBooksTrades(st, no);
      case ReplaceOrder(r) =>
        if Cancellable(st.book, r.orderId, r.accountId) {
          CancelKeepsOk(st.book, r.orderId, r.accountId);
          NewBooksTrades(st.(book := CancelIn(st.book, r.orderId, r.accountId)),
                         Replacement(Lookup(st.book, r.orderId).value, r));
        }
      case _ =>
    }
  }

  /** The positions after a run are the positions before it with the run's trades applied. */
  lemma {:induction false} RunBooksTrades(st: EngineState, cmds: seq<Command>)
    requires BookOk(st.book)
    ensures Run(st, cmds).state.accounts.positions == ApplyTrades(st.accounts.positions, RunTrades(st, cmds))
    decreases |cmds|
  {
    if cmds != [] {
      var next := Step(st, cmds[0]).state;
      StepBooksTrades(st, cmds[0]);
      RunBooksTrades(next, cmds[1..]);
      ApplyTradesConcat(st.accounts.positions, StepTrades(st, cmds[0]), RunTrades(next, cmds[1..]));
    }
  }

  // ----- one account's part -----

  function LegsIn(t: Trade, a: AccountId): seq<Leg> {
    (if t.taker == a then [Leg(t.takerSide, t.price, t.qty)] else [])
    + (if t.maker == a then [Leg(t.takerSide.Opposite(), t.price, t.qty)] else [])
  }

  function LegsOf(ts: seq<Trade>, a: AccountId): (legs: seq<Leg>)
    requires TradesOk(ts)
    ensures LegsOk(legs)
  {
    if ts == [] then [] else LegsOf(ts[..|ts| - 1], a) + LegsIn(ts[|ts| - 1], a)
  }

  lemma {:induction false} AfterLegsConcat(pos: Position, x: seq<Leg>, y: seq<Leg>)
    requires LegsOk(x) && LegsOk(y)
    ensures AfterLegs(pos, x + y) == AfterLegs(AfterLegs(pos, x), y)
    decreases |x|
  {
    if x == [] {
      assert x + y == y;
    } else {
      assert (x + y)[1..] == x[1..] + y;
      AfterLegsConcat(FilledPosition(pos, x[0].side, x[0].price, x[0].qty), x[1..], y);
    }
  }

  lemma OneLeg(pos: Position, x: Leg)
    requires x.qty >= 0
    ensures LegsOk([x]) && AfterLegs(pos, [x]) == FilledPosition(pos, x.side, x.price, x.qty)
    ensures Cash([x]) == Signed(x.side.Opposite(), x.qty) * x.price
  {
    assert [x][1..] == [];
    SumByOne(x, CashOf);
  }

  lemma TradeLegs(p: Positions, t: Trade, a: AccountId)
    requires t.qty >= 0
    ensures LegsOk(LegsIn(t, a))
    ensures PositionOf(ApplyTrade(p, t), a) == AfterLegs(PositionOf(p, a), LegsIn(t, a))
  {
    var x, y := Leg(t.takerSide, t.price, t.qty), Leg(t.takerSide.Opposite(), t.price, t.qty);
    var pos := PositionOf(p, a);
    OneLeg(pos, x);
    OneLeg(pos, y);
    if t.taker == a && t.maker == a {
      AfterLegsConcat(pos, [x], [y]);
      OneLeg(AfterLegs(pos, [x]), y);
    } else {
      assert [x] + [] == [x] && [] + [y] == [y];
    }
  }

  /** A trade moves the taker on its own side and the maker on the other, and nobody else. An account that trades with
      itself is first filled as taker and then as maker. */
  lemma TradeMovesBoth(p: Positions, t: Trade, other: AccountId)
    requires t.qty >= 0 && other != t.taker && other != t.maker
    ensures var p' := ApplyTrade(p, t);
            var asTaker := FilledPosition(PositionOf(p, t.taker), t.takerSide, t.price, t.qty);
            var makerSide := if t.takerSide.Buy? then Sell else Buy;
            && PositionOf(p', other) == PositionOf(p, other)
            && (if t.taker == t.maker then PositionOf(p', t.taker) == FilledPosition(asTaker, makerSide, t.price, t.qty)
                else && PositionOf(p', t.taker) == asTaker
                     && PositionOf(p', t.maker) == FilledPosition(PositionOf(p, t.maker), makerSide, t.price, t.qty))
  {
  }

  /** Each account's position is the outcome of its own legs, whatever the others do. */
  lemma {:induction false} PositionFromLegs(p: Positions, ts: seq<Trade>, a: AccountId)
    requires TradesOk(ts)
    ensures PositionOf(ApplyTrades(p, ts), a) == AfterLegs(PositionOf(p, a), LegsOf(ts, a))
    decreases |ts|
  {
    if ts != [] {
      var init, t := ts[..|ts| - 1], ts[|ts| - 1];
      PositionFromLegs(p, init, a);
      TradeLegs(ApplyTrades(p, init), t, a);
      AfterLegsConcat(PositionOf(p, a), LegsOf(init, a), LegsIn(t, a));
    }
  }

  /** A position that accounts for the legs that led to it: lots bought less lots sold, and profit that
      is cash received plus the change in the open position's book value, up to rounding. */
  predicate AddsUp(before: Position, legs: seq<Leg>, after: Position)
    requires LegsOk(legs)
  {
    && after.net == before.net + SignedSum(legs)
    && Abs(Drift(after) - Drift(before) - Cash(legs)) <= RoundingBudget(before, legs)
  }

  lemma PositionAfterRun(st: EngineState, cmds: seq<Command>, a: AccountId)
    requires BookOk(st.book)
    ensures PositionOf(Run(st, cmds).state.accounts.positions, a)
         == AfterLegs(PositionOf(st.accounts.positions, a), LegsOf(RunTrades(st, cmds), a))
  {
    RunBooksTrades(st, cmds);
    PositionFromLegs(st.accounts.positions, RunTrades(st, cmds), a);
  }

  lemma LegsAddUp(pos: Position, legs: seq<Leg>)
    requires LegsOk(legs)
    ensures AddsUp(pos, legs, AfterLegs(pos, legs))
  {
    PnlIdentity(pos, legs);
  }

  /** For every account over every run: the net position moves by the signed sum of the account's fills
      as taker and maker, and realized profit is cash flow plus the open position at its average
      price, within the rounding of the fills that averaged into an open position. */
  lemma ProfitAddsUp(st: EngineState, cmds: seq<Command>, a: AccountId)
    requires BookOk(st.book)
    ensures AddsUp(PositionOf(st.accounts.positions, a), LegsOf(RunTrades(st, cmds), a),
                   PositionOf(Run(st, cmds).state.accounts.positions, a))
  {
    PositionAfterRun(st, cmds, a);
    LegsAddUp(PositionOf(st.accounts.positions, a), LegsOf(RunTrades(st, cmds), a));
  }

  // ----- risk limits -----

  lemma FillTotalOfLast(fs: seq<MatchFill>)
    requires fs != []
    ensures FillTotal(fs) == FillTotal(fs[..|fs| - 1]) + fs[|fs| - 1].qty
  {
    assert fs == fs[..|fs| - 1] + [fs[|fs| - 1]];
    SumByConcat(fs[..|fs| - 1], [fs[|fs| - 1]], QtyFilled);
    SumByOne(fs[|fs| - 1], QtyFilled);
  }

  lemma SignedSumOfTrade(t: Trade, a: AccountId)
    requires t.qty >= 0
    ensures SignedSum(LegsIn(t, a))
         == (if t.taker == a then Signed(t.takerSide, t.qty) else 0)
            - (if t.maker == a then Signed(t.takerSide, t.qty) else 0)
  {
    var x, y := Leg(t.takerSide, t.price, t.qty), Leg(t.takerSide.Opposite(), t.price, t.qty);
    assert [x][1..] == [] && [y][1..] == [];
    assert [x] + [] == [x] && [] + [y] == [y];
    SumByConcat([x], [y], LotsOf);
  }

  /** The taker's own fills move its position one way only, by at most what was filled: a fill against
      its own resting order moves it not at all. */
  lemma {:induction false} TakerMoves(no: NewOrder, fs: seq<MatchFill>) returns (moved: Qty)
    requires AllPositive(fs)
    ensures 0 <= moved <= FillTotal(fs)
    ensures SignedSum(LegsOf(TradesOf(no, fs), no.accountId)) == Signed(no.side, moved)
    decreases |fs|
  {
    if fs == [] {
      moved := 0;
    } else {
      var init, f := fs[..|fs| - 1], fs[|fs| - 1];
      moved := TakerMoves(no, init);
      var ts := TradesOf(no, fs);
      assert ts[..|ts| - 1] == TradesOf(no, init);
      SumByConcat(LegsOf(TradesOf(no, init), no.accountId), LegsIn(ts[|ts| - 1], no.accountId), LotsOf);
      SignedSumOfTrade(ts[|ts| - 1], no.accountId);
      FillTotalOfLast(fs);
      if f.makerAccountId != no.accountId {
        moved := moved + f.qty;
      }
    }
  }

  /** An accepted order never takes its own account past the limit it trades towards, however much of it
      is filled at once and whoever the makers are. */
  lemma AcceptedStaysWithinLimits(st: EngineState, no: NewOrder)
    requires BookOk(st.book) && Refusal(st, no).None?
    ensures var limits := LimitsOf(st.accounts, no.accountId);
            var before := PositionOf(st.accounts.positions, no.accountId).net;
            var after := PositionOf(NewStep(st, no).state.accounts.positions, no.accountId).net;
            if no.side.Buy? then before <= after <= limits.maxLong else -limits.maxShort <= after <= before
  {
    var fs := FillsFor(st.book, no);
    var moved := TakerMoves(no, fs);
    MatchIsMaximal(st.book, no.orderId, no.side, no.price, no.qty);
    NewBooksTrades(st, no);
    PositionFromLegs(st.accounts.positions, TradesOf(no, fs), no.accountId);
    LegsAddUp(PositionOf(st.accounts.positions, no.accountId), LegsOf(TradesOf(no, fs), no.accountId));
  }

  // ----- zero sum -----

  /** The net positions of all accounts with an id below `n`, added up. */
  function NetBelow(p: Positions, n: nat): Qty {
    if n == 0 then 0 else PositionOf(p, n - 1).net + NetBelow(p, n - 1)
  }

  lemma {:induction false} NetAfterUpdate(p: Positions, a: AccountId, pos: Position, n: nat)
    ensures NetBelow(p[a := pos], n) == NetBelow(p, n) + (if a < n then pos.net - PositionOf(p, a).net else 0)
  {
    if n > 0 {
      NetAfterUpdate(p, a, pos, n - 1);
    }
  }

  lemma TradeIsZeroSum(p: Positions, t: Trade, n: nat)
    requires t.qty >= 0 && t.taker < n && t.maker < n
    ensures NetBelow(ApplyTrade(p, t), n) == NetBelow(p, n)
  {
    var x := FilledPosition(PositionOf(p, t.taker), t.takerSide, t.price, t.qty);
    var p' := p[t.taker := x];
    NetAfterUpdate(p, t.taker, x, n);
    NetAfterUpdate(p', t.maker, FilledPosition(PositionOf(p', t.maker), t.takerSide.Opposite(), t.price, t.qty), n);
  }

  lemma {:induction false} TradesAreZeroSum(p: Positions, ts: seq<Trade>, n: nat)
    requires TradesOk(ts)
    requires forall a :: a in ApplyTrades(p, ts) ==> a < n
    ensures NetBelow(ApplyTrades(p, ts), n) == NetBelow(p, n)
    ensures forall a :: a in p ==> a in ApplyTrades(p, ts)
    decreases |ts|
  {
    if ts != [] {
      var init, t := ts[..|ts| - 1], ts[|ts| - 1];
      var before := ApplyTrades(p, init);
      assert forall a :: a in before ==> a in ApplyTrades(p, ts);
      assert t.taker in ApplyTrades(p, ts) && t.maker in ApplyTrades(p, ts);
      TradesAreZeroSum(p, init, n);
      TradeIsZeroSum(before, t, n);
    }
  }

  lemma {:induction false} NothingNetsToZero(n: nat)
    ensures NetBelow(map[], n) == 0
  {
    if n > 0 {
      NothingNetsToZero(n - 1);
    }
  }

  /** After any run from empty the net positions of all accounts add up to zero, self-trades included. */
  lemma PositionsAreZeroSum(st: EngineState, cmds: seq<Command>, n: nat)
    requires BookOk(st.book) && st.accounts.positions == map[]
    requires forall a :: a in Run(st, cmds).state.accounts.positions ==> a < n
    ensures NetBelow(Run(st, cmds).state.accounts.positions, n) == 0
  {
    RunBooksTrades(st, cmds);
    TradesAreZeroSum(map[], RunTrades(st, cmds), n);
    NothingNetsToZero(n);
  }

  /** Cash flow of all accounts with an id below `n`. */
  function CashBelow(ts: seq<Trade>, n: nat): int
    requires TradesOk(ts)
  {
    if n == 0 then 0 else Cash(LegsOf(ts, n - 1)) + CashBelow(ts, n - 1)
  }

  /** What the last trade of a list pays its taker. */
  function LastFlow(ts: seq<Trade>): int
    requires ts != []
  {
    var t := ts[|ts| - 1];
    Signed(t.takerSide.Opposite(), t.qty) * t.price
  }

  lemma NegatedFlow(side: Side, qty: Qty, price: Price)
    ensures Signed(side.Opposite(), qty) * price == -(Signed(side, qty) * price)
  {
  }

  lemma CashOfTrade(t: Trade, a: AccountId)
    requires t.qty >= 0
    ensures var flow := Signed(t.takerSide.Opposite(), t.qty) * t.price;
            Cash(LegsIn(t, a)) == (if t.taker == a then flow else 0) - (if t.maker == a then flow else 0)
  {
    var x, y := Leg(t.takerSide, t.price, t.qty), Leg(t.takerSide.Opposite(), t.price, t.qty);
    OneLeg(FLAT, x);
    OneLeg(FLAT, y);
    SumByConcat([x], [y], CashOf);
    SumByConcat([x], [], CashOf);
    SumByConcat([], [y], CashOf);
    assert Cash([y]) == -Cash([x]) by {
      NegatedFlow(t.takerSide, t.qty, t.price);
    }
  }

  lemma CashFromLast(ts: seq<Trade>, a: AccountId)
    requires TradesOk(ts) && ts != []
    ensures var t := ts[|ts| - 1];
            Cash(LegsOf(ts, a)) == Cash(LegsOf(ts[..|ts| - 1], a))
              + (if t.taker == a then LastFlow(ts) else 0) - (if t.maker == a then LastFlow(ts) else 0)
  {
    hide CashOf, LegsIn;
    var t := ts[|ts| - 1];
    CashOfTrade(t, a);
    SumByConcat(LegsOf(ts[..|ts| - 1], a), LegsIn(t, a), CashOf);
  }

  lemma {:induction false} CashOfLast(ts: seq<Trade>, n: nat)
    requires TradesOk(ts) && ts != []
    ensures var t := ts[|ts| - 1];
            CashBelow(ts, n) == CashBelow(ts[..|ts| - 1], n)
              + (if t.taker < n then LastFlow(ts) else 0) - (if t.maker < n then LastFlow(ts) else 0)
  {
    hide Cash, LegsOf;
    if n > 0 {
      CashOfLast(ts, n - 1);
      CashFromLast(ts, n - 1);
    }
  }

  lemma {:induction false} NoTradesNoCash(n: nat)
    ensures CashBelow([], n) == 0
  {
    if n > 0 {
      NoTradesNoCash(n - 1);
    }
  }

  /** Whatever one account pays another receives. */
  lemma {:induction false} CashCancels(ts: seq<Trade>, n: nat)
    requires TradesOk(ts)
    requires forall i :: 0 <= i < |ts| ==> ts[i].taker < n && ts[i].maker < n
    ensures CashBelow(ts, n) == 0
    decreases |ts|
  {
    if ts == [] {
      NoTradesNoCash(n);
    } else {
      CashOfLast(ts, n);
      CashCancels(ts[..|ts| - 1], n);
    }
  }
}
