/** The matching engine: order book, ledger and event numbering, updated in place. */
module Engines {
  import opened Common
  import opened PriceTimeBook
  import opened Matching
  import BookRepresentation
  import opened OrderBooks
  import opened EngineAccounts
  import opened EngineSpec
  import opened EngineRuns
  import opened EngineRecovery
  import opened Bytes
  import opened Journals
  import Snapshots

  class Engine {
    var serverSeq: nat
    var commandSeq: nat
    const book: OrderBook
    const accounts: AccountManager
    const journal: Journal

    ghost predicate Ok()
      reads this, book
    {
      book.Ok()
    }

    ghost function View(): EngineState
      reads this, book, accounts
    {
      EngineState(book.symbolId, book.View(), accounts.View(), serverSeq)
    }

    constructor (journal: Journal)
      ensures Ok() && fresh(book) && fresh(accounts) && this.journal == journal
      ensures View() == EngineState(1, EMPTY_BOOK, Accounts(map[], map[], DEFAULT_LIMITS), 1)
      ensures commandSeq == 0
    {
      serverSeq, commandSeq := 1, 0;
      book := new OrderBook(1);
      accounts := new AccountManager(DEFAULT_LIMITS);
      this.journal := journal;
    }

    method Process(cmd: Command) returns (evs: seq<Event>)
      requires Ok()
      modifies this, book, accounts
      ensures Ok() && BookOk(old(View()).book) && commandSeq == old(commandSeq)
      ensures Outcome(View(), evs) == Step(old(View()), cmd)
    {
      hide BookOk, NewStep, LookupIn, Apply;
      BookRepresentation.AbstractOk(book.State());
      match cmd {
        case New(no) => evs := HandleNew(no);
        case SetLimits(clientSeq, a, _, limits) =>
          accounts.SetLimits(a, limits);
          var seqNo := NextSeq();
          evs := [Ack(seqNo, clientSeq, 0)];
        case QueryAccount(clientSeq, a, symbolId) =>
          var seqNo := NextSeq();
          evs := [AccountState(seqNo, clientSeq, a, symbolId, accounts.GetPosition(a), accounts.GetLimits(a))];
        case Authenticate(_) => evs := [];
        case CancelOrder(c) =>
          if c.symbolId != book.symbolId {
            evs := RejectWith(c.clientSeq, c.orderId, Invalid);
            return;
          }
          var ok := book.Cancel(c.orderId, c.accountId);
          if !ok {
            evs := RejectWith(c.clientSeq, c.orderId, NotFound);
            return;
          }
          evs := AckWithTop([], c.clientSeq, c.orderId);
        case ReplaceOrder(r) =>
          if r.symbolId != book.symbolId || r.newQty <= 0 {
            evs := RejectWith(r.clientSeq, r.orderId, Invalid);
            return;
          }
          var existing := book.Get(r.orderId);
          if existing.None? || existing.value.accountId != r.accountId {
            evs := RejectWith(r.clientSeq, r.orderId, NotFound);
            return;
          }
          var side, tif, postOnly := existing.value.side, existing.value.tif, existing.value.postOnly;
          var _ := book.Cancel(r.orderId, r.accountId);
          evs := HandleNew(NewOrder(r.clientSeq, r.orderId, r.accountId, r.symbolId, side, r.newPrice, r.newQty, tif,
                                    postOnly));
      }
    }

    method HandleNew(no: NewOrder) returns (evs: seq<Event>)
      requires Ok()
      modifies this, book, accounts
      ensures Ok() && BookOk(old(View()).book) && commandSeq == old(commandSeq)
      ensures Outcome(View(), evs) == NewStep(old(View()), no)
    {
      BookRepresentation.AbstractOk(book.State());
      if no.symbolId != book.symbolId || no.qty <= 0 {
        evs := RejectWith(no.clientSeq, no.orderId, Invalid);
        return;
      }
      var refused := accounts.CheckRisk(no.accountId, no.side, no.qty);
      if refused.Some? {
        evs := RejectWith(no.clientSeq, no.orderId, refused.value);
        return;
      }
      if no.postOnly && book.WouldTrade(no.side, no.price) {
        evs := RejectWith(no.clientSeq, no.orderId, PostOnlyWouldCross);
        return;
      }
      evs := Place(no);
      evs := AckWithTop(evs, no.clientSeq, no.orderId);
    }

    /** Matches if the order crosses, then rests what is left of a good-till-cancelled order. */
    method Place(no: NewOrder) returns (evs: seq<Event>)
      requires Ok() && no.qty > 0
      modifies this, book, accounts
      ensures Ok() && BookOk(old(View()).book) && commandSeq == old(commandSeq)
      ensures Outcome(View(), evs) == PlaceStep(old(View()), no)
    {
      BookRepresentation.AbstractOk(book.State());
      if book.WouldTrade(no.side, no.price) {
        var rem;
        evs, rem := MatchAndBook(no);
        if rem > 0 && no.tif == Gtc {
          var _ := book.InsertResting(OrderFrom(no, rem));
        }
      } else {
        NothingToMatch(View(), no);
        evs := [];
        if no.tif == Gtc {
          var _ := book.InsertResting(OrderFrom(no, no.qty));
        }
      }
    }

    /** Matches the order and books its fills; also returns the quantity that is left. */
    method MatchAndBook(no: NewOrder) returns (evs: seq<Event>, rem: Qty)
      requires Ok()
      modifies this, book, accounts
      ensures Ok() && BookOk(old(View()).book) && commandSeq == old(commandSeq)
      ensures Outcome(View(), evs) == MatchStep(old(View()), no)
      ensures rem == Remainder(old(View()).book, no)
    {
      BookRepresentation.AbstractOk(book.State());
      FillsPositive(book.View(), no.orderId, no.side, no.price, no.qty);
      var fills := book.MatchTaker(no.orderId, no.side, no.price, no.qty);
      evs := BookFills(no, fills);
      rem := no.qty - FillTotal(fills);
    }

    method BookFills(no: NewOrder, fills: seq<MatchFill>) returns (evs: seq<Event>)
      requires AllPositive(fills)
      modifies this`serverSeq, accounts
      ensures View() == Booked(old(View()), no, fills)
      ensures evs == FillEvents(old(serverSeq), book.symbolId, no, fills)
    {
      hide Booked, FillEvents;
      BookNone(View(), no, fills);
      evs := [];
      for i := 0 to |fills|
        invariant View() == Booked(old(View()), no, fills[..i]) && serverSeq == old(serverSeq) + i
        invariant evs == FillEvents(old(serverSeq), book.symbolId, no, fills[..i])
      {
        var f := fills[i];
        MovePositions(no, f);
        var seqNo := NextSeq();
        evs := evs + [Filled(Fill(seqNo, no.clientSeq, book.symbolId, f.takerOrderId, f.makerOrderId, f.price, f.qty))];
        BookOneMore(old(View()), no, fills, i);
      }
      assert fills[..|fills|] == fills;
    }

    /** The taker's position first, then the maker's on the opposite side. */
    method MovePositions(no: NewOrder, f: MatchFill)
      requires f.qty > 0
      modifies accounts
      ensures accounts.View()
           == old(accounts.View()).(positions :=
                ApplyTrade(old(accounts.positions), Trade(no.accountId, f.makerAccountId, no.side, f.price, f.qty)))
    {
      accounts.ApplyFill(no.accountId, no.side, f.price, f.qty);
      accounts.ApplyFill(f.makerAccountId, no.side.Opposite(), f.price, f.qty);
    }

    method NextSeq() returns (s: nat)
      modifies this`serverSeq
      ensures s == old(serverSeq) && serverSeq == old(serverSeq) + 1
    {
      s := serverSeq;
      serverSeq := serverSeq + 1;
    }

    method RejectWith(clientSeq: nat, orderId: OrderId, reason: RejectReason) returns (evs: seq<Event>)
      requires Ok()
      modifies this`serverSeq
      ensures Outcome(View(), evs) == Rejected(old(View()), clientSeq, orderId, reason)
    {
      var seqNo := NextSeq();
      evs := [Reject(seqNo, clientSeq, Some(orderId), reason)];
    }

    /** The top of the book and then the acknowledgement, so that a reader waiting for it has seen both. */
    method AckWithTop(before: seq<Event>, clientSeq: nat, orderId: OrderId) returns (evs: seq<Event>)
      requires Ok()
      modifies this`serverSeq
      ensures Outcome(View(), evs) == Acknowledged(old(View()), before, clientSeq, orderId)
    {
      var topSeq := NextSeq();
      var top := TopEvent(topSeq, book.symbolId, book.BestBid(), book.BestAsk());
      var ackSeq := NextSeq();
      evs := before + [top] + [Ack(ackSeq, clientSeq, orderId)];
      assert evs == before + [top, Ack(ackSeq, clientSeq, orderId)];
    }

    /** Replays one journalled command during recovery. */
    method ReplayCommand(cmd: Command)
      requires Ok()
      modifies this, book, accounts
      ensures Ok() && BookOk(old(View()).book) && commandSeq == old(commandSeq) + 1
      ensures View() == ReplayStep(old(View()), cmd)
    {
      BookRepresentation.AbstractOk(book.State());
      match cmd {
        case New(no) =>
          var _ := HandleNew(no);
        case CancelOrder(c) =>
          var _ := book.Cancel(c.orderId, c.accountId);
        case _ =>
          var _ := Process(cmd);
      }
      commandSeq := commandSeq + 1;
    }

    /** One turn of the engine's loop: the command is journalled before it is executed, and executed even if that
        fails; then a snapshot and a rotation may be due. `expired` and `room` are the journal's, and
        `roomToRotate` is what can still be written by then. */
    method Execute(cmd: Command, snapshotInterval: nat, expired: bool, room: nat, roomToRotate: nat)
      returns (evs: seq<Event>, snapshot: Option<EngineSnapshot>, appended: bool, backup: Option<seq<Byte>>)
      requires Ok() && journal.Valid()
      modifies this, book, accounts, journal
      ensures Ok() && BookOk(old(View()).book) && journal.Valid()
      ensures Outcome(View(), evs) == Step(old(View()), cmd) && commandSeq == old(commandSeq) + 1
      ensures snapshot == if snapshotInterval > 0 && commandSeq % snapshotInterval == 0
                          then Some(SnapshotOf(commandSeq, book.State(), accounts.View())) else None
      ensures appended <==>
                old(journal.FlushIsDue(expired)) ==> |Frames(journal.fmt, old(journal.batch) + [cmd])| <= room
      ensures !journal.RotatesAt(old(journal.CountAfter(cmd, expired, room))) ==>
                && backup.None?
                && journal.Log() == (if appended then old(journal.Log()) + [cmd] else [])
                && (appended ==> journal.found == old(journal.found))
      ensures journal.RotatesAt(old(journal.CountAfter(cmd, expired, room))) ==>
                && journal.Log() == []
                && (backup.Some? && appended ==>
                      backup.value == old(journal.found) + Frames(journal.fmt, old(journal.Log()) + [cmd]))
                && (backup.Some? ==> journal.file == [])
      ensures journal.batch == [] || |journal.batch| < journal.batchSize
      ensures backup.Some? ==>
                && journal.commandsSinceRotation == 0 < journal.rotationThreshold
                && old(journal.commandsSinceRotation) + |old(journal.batch)| + 1 >= journal.rotationThreshold
      ensures journal.rotationThreshold > 0 && |Frames(journal.fmt, old(journal.batch) + [cmd])| <= roomToRotate ==>
                journal.commandsSinceRotation < journal.rotationThreshold
    {
      hide Step, BookOk, Frames, Fitting;
      appended := journal.Append(cmd, expired, room);
      evs := Process(cmd);
      commandSeq := commandSeq + 1;
      snapshot := None;
      if snapshotInterval > 0 && commandSeq % snapshotInterval == 0 {
        var s := TakeSnapshot();
        snapshot := Some(s);
      }
      backup := None;
      if journal.RotatesAt(journal.commandsSinceRotation) {
        backup := journal.Rotate(roomToRotate);
      }
    }

    method TakeSnapshot() returns (s: EngineSnapshot)
      requires Ok()
      ensures s == SnapshotOf(commandSeq, book.State(), accounts.View())
      ensures Snapshots.AllLive(s.orders)
    {
      var orders := book.SerializeSnapshot();
      s := EngineSnapshot(commandSeq, orders,
                          Accounts(accounts.positions, accounts.riskLimits, accounts.defaultLimits));
    }

    /** Loads the latest snapshot, if there is one, and replays the rest of the journal. If the journal cannot be
        read, the snapshot stays loaded and nothing is replayed. */
    method RestoreFromPersistence(snapshot: Option<EngineSnapshot>) returns (ok: bool)
      requires Ok()
      requires snapshot.Some? ==> Snapshots.AllLive(snapshot.value.orders)
      modifies this, book, accounts
      ensures Ok() && BookOk(old(View()).book)
      ensures var from := if snapshot.Some? then snapshot.value.sequence else old(commandSeq);
              match ReadFrom(journal.fmt, journal.file)
              case Corrupt =>
                && !ok
                && commandSeq == from
                && View() == if snapshot.Some? then Loaded(old(View()), snapshot.value) else old(View())
              case Commands(cmds) =>
                && ok
                && commandSeq == (if from < |cmds| then |cmds| else from)
                && View() == Recovered(old(View()), old(commandSeq), snapshot, cmds)
    {
      hide ReplayRun, BookOk, ReadFrom, Loaded;
      BookRepresentation.AbstractOk(book.State());
      if snapshot.Some? {
        Load(snapshot.value);
      }
      var read := journal.ReadAll();
      if read.Corrupt? {
        return false;
      }
      ReplayTail(read.cmds);
      return true;
    }

    method Load(snapshot: EngineSnapshot)
      requires Ok() && Snapshots.AllLive(snapshot.orders)
      modifies this, book, accounts
      ensures Ok() && View() == Loaded(old(View()), snapshot) && commandSeq == snapshot.sequence
    {
      var _ := book.RestoreFromSnapshot(snapshot.orders);
      accounts.Load(snapshot.accounts);
      commandSeq := snapshot.sequence;
      serverSeq := snapshot.sequence + 1;
    }

    /** Replays what the journal holds behind the position reached, if anything. */
    method ReplayTail(cmds: seq<Command>)
      requires Ok()
      modifies this, book, accounts
      ensures Ok() && BookOk(old(View()).book)
      ensures View() == ReplayRun(old(View()), Tail(cmds, old(commandSeq)))
      ensures commandSeq == if old(commandSeq) < |cmds| then |cmds| else old(commandSeq)
    {
      hide ReplayRun, BookOk;
      BookRepresentation.AbstractOk(book.State());
      if commandSeq < |cmds| {
        ReplayAll(cmds[commandSeq..]);
      } else {
        NothingToReplay(View());
      }
    }

    method ReplayAll(cmds: seq<Command>)
      requires Ok()
      modifies this, book, accounts
      ensures Ok() && BookOk(old(View()).book)
      ensures View() == ReplayRun(old(View()), cmds) && commandSeq == old(commandSeq) + |cmds|
    {
      BookRepresentation.AbstractOk(book.State());
      for i := 0 to |cmds|
        invariant Ok() && BookOk(View().book) && commandSeq == old(commandSeq) + i
        invariant ReplayRun(View(), cmds[i..]) == ReplayRun(old(View()), cmds)
      {
        ReplayCommand(cmds[i]);
        BookRepresentation.AbstractOk(book.State());
        assert cmds[i..][1..] == cmds[i + 1..];
      }
    }
  }
}
