/** Recovery after a crash: the latest snapshot, then the journal from the snapshot's position on. */
module EngineRecovery {
  import opened Common
  import opened PriceTimeBook
  import opened BookRepresentation
  import opened EngineAccounts
  import opened EngineSpec
  import opened EngineRuns
  import opened IndexExact
  import opened Snapshots
  import opened Journals

  datatype EngineSnapshot = EngineSnapshot(sequence: nat, orders: seq<Order>, accounts: Accounts)

  /** The engine with a snapshot loaded, and the number of journalled commands it already covers. */
  function Loaded(st: EngineState, snapshot: EngineSnapshot): (r: EngineState)
    requires AllLive(snapshot.orders)
    ensures BookOk(r.book)
  {
    InsertAllAt(EMPTY_BOOK, snapshot.orders, Buy, 0);
    st.(book := InsertAll(EMPTY_BOOK, snapshot.orders),
        accounts := snapshot.accounts,
        serverSeq := snapshot.sequence + 1)
  }

  /** The journal is indexed by absolute position in the file. */
  function Tail(cmds: seq<Command>, from: nat): seq<Command> {
    if from < |cmds| then cmds[from..] else []
  }

  function Recovered(st: EngineState, commandSeq: nat, snapshot: Option<EngineSnapshot>,
                     journal: seq<Command>): (r: EngineState)
    requires BookOk(st.book)
    requires snapshot.Some? ==> AllLive(snapshot.value.orders)
  {
    match snapshot
    case None => ReplayRun(st, Tail(journal, commandSeq))
    case Some(s) => ReplayRun(Loaded(st, s), Tail(journal, s.sequence))
  }

  /** What the engine writes when it has executed `m` commands and its book is `repr`. */
  function SnapshotOf(m: nat, repr: Repr, accounts: Accounts): EngineSnapshot {
    EngineSnapshot(m, LiveOrders(repr.orders), accounts)
  }

  lemma NothingToReplay(st: EngineState)
    requires BookOk(st.book)
    ensures ReplayRun(st, []) == st
  {
  }

  lemma {:induction false} SameStartSameReplay(a: EngineState, b: EngineState, cmds: seq<Command>)
    requires BookOk(a.book) && SameEngine(a, b)
    ensures SameEngine(ReplayRun(a, cmds), ReplayRun(b, cmds))
    decreases |cmds|
  {
    if cmds != [] {
      StepIgnoresSeq(a, b, cmds[0]);
      SameStartSameReplay(ReplayStep(a, cmds[0]), ReplayStep(b, cmds[0]), cmds[1..]);
    }
  }

  /** The cancels name the engine's symbol, as they must for replay to be exact. */
  predicate LocalCancels(init: EngineState, cmds: seq<Command>) {
    forall n :: 0 <= n < |cmds| && cmds[n].CancelOrder? ==> cmds[n].cancel.symbolId == init.symbolId
  }

  /** Without a snapshot, replaying the whole journal gives the engine that executed it. */
  lemma RecoveryFromJournal(init: EngineState, cmds: seq<Command>)
    requires BookOk(init.book)
    requires LocalCancels(init, cmds)
    ensures SameEngine(Recovered(init, 0, None, cmds), Run(init, cmds).state)
  {
    assert Tail(cmds, 0) == cmds;
    ReplayReproduces(init, cmds);
  }

  /** Loading the snapshot gives back the engine it was taken from exactly when slab order agrees with queue order. */
  lemma LoadedIffAscending(st: EngineState, m: nat, repr: Repr)
    requires Valid(repr) && Abstract(repr) == st.book && Exact(st.book)
    ensures AllLive(LiveOrders(repr.orders))
    ensures SameEngine(Loaded(st, SnapshotOf(m, repr, st.accounts)), st) <==> AllAscending(repr)
  {
    RestoredOk(repr);
    RoundTripIffAscending(repr);
  }

  lemma SnapshotLoads(init: EngineState, before: seq<Command>, repr: Repr)
    requires BookOk(init.book)
    requires Valid(repr) && Abstract(repr) == Run(init, before).state.book
    requires Exact(Abstract(repr)) && AllAscending(repr)
    ensures var snapshot := SnapshotOf(|before|, repr, Run(init, before).state.accounts);
            && AllLive(snapshot.orders)
            && Loaded(init, snapshot).symbolId == init.symbolId
            && SameEngine(Loaded(init, snapshot), Run(init, before).state)
  {
    hide Valid, AllAscending, LiveOrders;
    var mid := Run(init, before).state;
    var snapshot := SnapshotOf(|before|, repr, mid.accounts);
    LoadedIffAscending(mid, |before|, repr);
    SymbolIsFixed(init, before);
    assert Loaded(init, snapshot).symbolId == mid.symbolId;
    assert Loaded(init, snapshot).book == Loaded(mid, snapshot).book;
  }

  lemma RestOfRun(init: EngineState, loaded: EngineState, before: seq<Command>, after: seq<Command>)
    requires BookOk(init.book) && SameEngine(loaded, Run(init, before).state)
    requires LocalCancels(loaded, after)
    ensures SameEngine(ReplayRun(loaded, after), Run(init, before + after).state)
  {
    var mid := Run(init, before).state;
    RunConcat(init, before, after);
    ReplayReproduces(mid, after);
    SameStartSameReplay(loaded, mid, after);
  }

  /** A snapshot taken after any prefix of the journal, plus the rest of the journal, gives the engine
      that executed all of it, when live ids are distinct and slab order agrees with queue order. */
  lemma RecoveryFromSnapshot(init: EngineState, before: seq<Command>, after: seq<Command>, repr: Repr)
    requires BookOk(init.book)
    requires LocalCancels(init, after)
    requires Valid(repr) && Abstract(repr) == Run(init, before).state.book
    requires Exact(Abstract(repr)) && AllAscending(repr)
    ensures var snapshot := SnapshotOf(|before|, repr, Run(init, before).state.accounts);
            && AllLive(snapshot.orders)
            && SameEngine(Recovered(init, 0, Some(snapshot), before + after), Run(init, before + after).state)
  {
    SnapshotLoads(init, before, repr);
    RestOfRun(init, Loaded(init, SnapshotOf(|before|, repr, Run(init, before).state.accounts)), before, after);
    assert Tail(before + after, |before|) == after;
  }

  // ----- a journal cut off by a crash, or rotated -----

  /** The journal file was cut off after `n` bytes. Reading it fails exactly when the cut lies inside a payload;
      otherwise recovery gives the engine as it was after some prefix of what it executed. */
  lemma CrashRecovery(fmt: Format, init: EngineState, cmds: seq<Command>, n: nat) returns (whole: nat, r: nat)
    requires Faithful(fmt) && AllFit(fmt, cmds) && n < |Frames(fmt, cmds)|
    requires BookOk(init.book) && LocalCancels(init, cmds)
    ensures CutAt(fmt, cmds, n, whole, r)
    ensures match ReadFrom(fmt, Frames(fmt, cmds)[..n])
            case Corrupt => 4 <= r < 4 + |fmt.encode(cmds[whole])|
            case Commands(read) =>
              && !(4 <= r < 4 + |fmt.encode(cmds[whole])|)
              && SameEngine(Recovered(init, 0, None, read), Run(init, cmds[..whole]).state)
  {
    hide BookOk, Frames, ReadFrom, Run, Recovered, SameEngine, Faithful;
    whole, r := FindCut(fmt, cmds, n);
    TornTail(fmt, cmds, n, whole, r);
    RecoveryFromJournal(init, cmds[..whole]);
  }

  /** The journal was rotated after `k` commands, and the snapshot was taken after `m`. Recovery counts the
      snapshot's position from the start of the new file, so it leaves out the `k` commands after the snapshot. */
  lemma RotatedRecovery(init: EngineState, cmds: seq<Command>, m: nat, k: nat, repr: Repr)
    requires BookOk(init.book) && LocalCancels(init, cmds)
    requires m <= |cmds| && k <= |cmds| && Valid(repr) && Abstract(repr) == Run(init, cmds[..m]).state.book
    requires Exact(Abstract(repr)) && AllAscending(repr)
    ensures var snapshot := SnapshotOf(m, repr, Run(init, cmds[..m]).state.accounts);
            && AllLive(snapshot.orders)
            && SameEngine(Recovered(init, 0, Some(snapshot), cmds[k..]), Run(init, cmds[..m] + Tail(cmds, m + k)).state)
  {
    hide BookOk, Run, SameEngine, Valid, Exact, AllAscending, LiveOrders;
    SnapshotLoads(init, cmds[..m], repr);
    var snapshot := SnapshotOf(m, repr, Run(init, cmds[..m]).state.accounts);
    RestOfRun(init, Loaded(init, snapshot), cmds[..m], Tail(cmds, m + k));
    assert Tail(cmds[k..], m) == Tail(cmds, m + k);
  }

  /** With a snapshot, the same holds for the commands after it; if the cut lies before them, recovery gives the
      engine of the snapshot. */
  lemma CrashRecoveryFromSnapshot(fmt: Format, init: EngineState, cmds: seq<Command>, m: nat, repr: Repr, n: nat)
      returns (whole: nat, r: nat)
    requires Faithful(fmt) && AllFit(fmt, cmds) && n < |Frames(fmt, cmds)|
    requires BookOk(init.book) && LocalCancels(init, cmds)
    requires m <= |cmds| && Valid(repr) && Abstract(repr) == Run(init, cmds[..m]).state.book
    requires Exact(Abstract(repr)) && AllAscending(repr)
    ensures CutAt(fmt, cmds, n, whole, r)
    ensures var snapshot := SnapshotOf(m, repr, Run(init, cmds[..m]).state.accounts);
            && AllLive(snapshot.orders)
            && match ReadFrom(fmt, Frames(fmt, cmds)[..n])
               case Corrupt => 4 <= r < 4 + |fmt.encode(cmds[whole])|
               case Commands(read) =>
                 && !(4 <= r < 4 + |fmt.encode(cmds[whole])|)
                 && SameEngine(Recovered(init, 0, Some(snapshot), read),
                               Run(init, if m <= whole then cmds[..whole] else cmds[..m]).state)
  {
    hide BookOk, Frames, ReadFrom, Run, SameEngine, Faithful, Valid, Exact, AllAscending, LiveOrders;
    whole, r := FindCut(fmt, cmds, n);
    TornTail(fmt, cmds, n, whole, r);
    var ran := if m <= whole then cmds[..whole] else cmds[..m];
    assert ran[..m] == cmds[..m] && ran[0..] == ran && ran[..m] + Tail(ran, m) == ran;
    RotatedRecovery(init, ran, m, 0, repr);
    assert Tail(cmds[..whole], m) == Tail(ran, m);
  }

  /** The engine answers a query, which changes nothing but its next event number, and then takes an order. */
  lemma QueryThenOrder(query: Command, no: NewOrder)
    requires query.QueryAccount? && Refusal(STARTED, no).None? && no.tif.Gtc?
    ensures SameEngine(Run(STARTED, [query]).state, STARTED)
    ensures Lookup(Run(STARTED, [query, New(no)]).state.book, no.orderId).Some?
  {
    hide NewStep, LookupIn, Run, ReplayRun;
    var st := Step(STARTED, query).state;
    assert [query] + [New(no)] == [query, New(no)];
    RunOne(STARTED, query);
    RunConcat(STARTED, [query], [New(no)]);
    RunOne(st, New(no));
    FirstOrderRests(st, no);
    OnlyOrder(OrderFrom(no, no.qty));
  }

  lemma EmptyIsLoaded()
    ensures AllLive(SnapshotOf(1, EMPTY_REPR, STARTED.accounts).orders)
    ensures SameEngine(STARTED, Loaded(STARTED, SnapshotOf(1, EMPTY_REPR, STARTED.accounts)))
  {
    assert LiveOrders(EMPTY_REPR.orders) == [];
  }

  lemma NothingIsFound(id: OrderId)
    ensures Lookup(EMPTY_BOOK, id).None?
  {
    assert EMPTY_BOOK.bids + EMPTY_BOOK.asks == [];
  }

  /** An engine that answers a query, writes a snapshot, rotates its journal and then takes an order recovers
      without the order, although the order is in the new journal. */
  lemma RotationLosesOrder() returns (query: Command, no: NewOrder)
    ensures var snapshot := SnapshotOf(1, EMPTY_REPR, STARTED.accounts);
            && AllLive(snapshot.orders)
            && SameEngine(Run(STARTED, [query]).state, Loaded(STARTED, snapshot))
            && Lookup(Run(STARTED, [query, New(no)]).state.book, no.orderId).Some?
            && Lookup(Recovered(STARTED, 0, Some(snapshot), [New(no)]).book, no.orderId).None?
  {
    hide Lookup, Run, ReplayRun, LiveOrders, Loaded;
    query, no := QueryAccount(0, 3, 1), NewOrder(0, 7, 3, 1, Buy, 100, 5, Gtc, false);
    StartedAccepts(no);
    QueryThenOrder(query, no);
    EmptyIsLoaded();
    NothingToReplay(Loaded(STARTED, SnapshotOf(1, EMPTY_REPR, STARTED.accounts)));
    NothingIsFound(no.orderId);
  }

  // ----- event numbers after recovery -----

  /** Event numbers continue from the number of commands. The next one has been used before exactly when there were
      more events than commands. */
  lemma NumberRepeatsIff(init: EngineState, before: seq<Command>, repr: Repr, accounts: Accounts)
    requires BookOk(init.book) && init.serverSeq == 1 && AllLive(LiveOrders(repr.orders))
    ensures var evs := Run(init, before).events;
            var next := Loaded(init, SnapshotOf(|before|, repr, accounts)).serverSeq;
            (exists i :: 0 <= i < |evs| && SeqOf(evs[i]) == next) <==> |evs| > |before|
  {
    hide BookOk, Run, InsertAll, LiveOrders, SeqOf;
    RunNumbers(init, before);
    var evs := Run(init, before).events;
    if |evs| > |before| {
      assert SeqOf(evs[|before|]) == 1 + |before|;
    }
  }

  /** One order that comes to rest is one command and two events. */
  lemma RecoveryRepeatsNumber() returns (no: NewOrder)
    ensures |Run(STARTED, [New(no)]).events| > |[New(no)]|
  {
    hide NewStep, Refusal, Run, SeqOf;
    no := NewOrder(0, 7, 3, 1, Buy, 100, 5, Gtc, false);
    StartedAccepts(no);
    FirstOrderRests(STARTED, no);
    RunOne(STARTED, New(no));
    RunNumbers(STARTED, [New(no)]);
  }
}
