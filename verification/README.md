# Matching engine, gateway ledger and their protocols

A trading venue in two processes. An **engine** keeps one order book per symbol, matches orders in
price-time order, keeps positions and profit per account, journals commands and recovers from snapshot
plus journal. A **gateway** checks funds before an order goes out, holds a reservation for it, and gives the
reservation back when the engine answers. This project models both as Dafny classes and methods with the
fields and loops of the original, ties each method to a small mathematical specification, and proves about
the specification what the system is for, over all inputs, all runs and all interleavings.

How the layers fit together:

- `price_time_book.dfy` is the specification of the market: two lists of live orders in price-time order
  and greedy matching on them. `matching.dfy` says what greedy matching means.
- `book_representation.dfy`, `book_refinement.dfy` and `order_book.dfy` are the fast book: price levels with
  FIFO queues of slab keys and cached totals, a slab that keeps cancelled orders as tombstones, and an id
  index. The representation invariant `BookRepresentation.Valid` is kept by every operation and
  `BookRepresentation.Abstract` maps the four structures to the specification. The two `expect`s of the
  original never fire and its empty-level branch is unreachable under the invariant; the methods have
  no such branch.
- `engine_spec.dfy`, `engine.dfy`, `engine_accounts.dfy` are the engine as a state machine over commands, the
  class that implements it, and its ledger. `engine_runs.dfy`, `run_ledger.dfy`, `time_priority.dfy`,
  `index_exact.dfy`, `engine_recovery.dfy` and `snapshots.dfy` are theorems over whole runs.
- `order_outcomes.dfy` and `market_data.dfy` say what becomes of every command in terms of the book and the ledger
  it meets, without the engine's own step: why it is refused, whom it trades with, what it leaves, how it is
  answered, and what the market is shown. `cancel_runs.dfy` follows a cancel through the whole system.
- `position_limits.dfy` says when resting orders can carry an account past its limits.
- `gateway_ledger.dfy`, `gateway_protocol.dfy`, `client_handler.dfy` are the gateway's ledger, its
  pending-order protocol as atomic sections, and the class that performs them.
- `reservation_covers.dfy` and `replaced_orders.dfy` join engine and gateway for one order, and `end_to_end.dfy`
  for the whole system, with commands and events in flight and delivered in any order. `settled_fills.dfy` compares
  the gateway's books with the fills that the engines make, in money and in lots, and `stranded.dfy` says when a
  reservation outlives its order. `system_runs.dfy` holds runs from a fresh start that show where these theorems
  end, and `listings.dfy`, `reconciliation.dfy` and `reserved_exposure.dfy` are about restarts.
- `journal.dfy`, `wire_format.dfy`, `binary_codec.dfy`, `wire_client.dfy`, `wire_layout.dfy`, `bytes.dfy` are the
  journal and the binary wire format, in the last of them byte by byte.

Prices and quantities are unbounded integers except on the wire, where widths are explicit. Integer
division in the ledger truncates toward zero. The slab may hand out any vacant key. Serialization of journal
payloads, the checksum and UTF-8 are parameters with stated laws. Time and the room left on the disk are
parameters of the journal's writes. The order in which a hash map is walked is left open wherever the original walks one.

Properties that turned out not to hold without a condition are stated with the exact condition, most with a
concrete counterexample beside them:

- Replay equals live execution exactly when no cancel names a foreign symbol while hitting a live order of
  its sender (`EngineRuns.ReplayExact`, `EngineRuns.ReplayCanDiverge`).
- Replace is called an atomic operation (line 128 of the repository's README), but the code cancels the old order
  at `crates/engine/src/engine.rs:308` before the risk and post-only checks. A rejected replace leaves the book
  as it was exactly when it was rejected before that line (`EngineRuns.RejectedReplaceKeepsBookIff`,
  `EngineRuns.RejectedReplaceCanCancel`).
- A snapshot restores time priority exactly when slab order agrees with queue order at every price
  (`Snapshots.RoundTripIffAscending`, `Snapshots.KeyReuseLosesPriority`).
- The id index stays exact throughout a run exactly when every new order that comes to rest does so under an id
  that is not live then (`IndexExact.AlwaysExactIff`, `IndexExact.DuplicateIdHidesOrder`).
- Whatever others do, an account stays within its position limits exactly when its position plus all its resting
  buys, and less all its resting sells, is within them (`PositionLimits.OthersKeepWithinIff`,
  `PositionLimits.RestingOrdersPassLimit`).
- The gateway's books balance throughout exactly when every step is orderly
  (`GatewayProtocol.ProtocolInvariant`, `GatewayProtocol.DuplicateIdUnbalances`). A routing failure is orderly exactly
  when nothing was reserved, because it gives the reservation back and leaves the entry
  (`GatewayProtocol.UnroutedIsReleasedTwice`).
- Every account stays solvent on the gateway's books exactly when every fill is affordable where it arrives
  (`GatewayProtocol.SolvencyInvariant`). In the whole system that is always so as long as no replace lowers a
  reservation (`EndToEnd.BooksStaySolvent`); one that does can overdraw an account
  (`SystemRuns.LoweringReplaceOverdraws`).
- The gateway's money and positions follow the engines' fills exactly when every fill finds the pending entries it
  needs (`SettledFills.BooksFollowIffAllSeen`). An order's first fill ends its entry, so an account can be charged
  more than it had, and hold other positions than the gateway thinks (`SystemRuns.EnginesChargeMore`).
- Every reservation belongs to an order under way (on its way to an engine, at rest, or named by an event on its way
  back) up to the first acknowledgement that meets an active entry and was the order's last trace, or the first order
  that cannot be routed (`StrandedReservations.SupportedIffNoneStrands`); an immediate-or-cancel order that finds nothing does that
  (`SystemRuns.UnfilledIocStaysReserved`), and a later cancel repairs it (`StrandedReservations.CancelFreesStranded`).
- The reservation covers what the engine charges exactly when the order's notional is not negative
  (`ReservationCovers.CoverageIsExact`).
- Reconciliation equals exposure exactly for accounts that start from zero or are mentioned by an engine
  (`Reconciliation.ReconciliationIsExposure`). An unexpected event takes an engine's turn, and then it does exactly
  when that engine held nothing of the account (`Reconciliation.ReconciliationWithMissed`).
- A journal reads back exactly when every command fits the reader's frame limit, which the writer does not
  check (`Journals.ReadBackIffFits`); after a torn journal is reopened, what is appended is readable exactly when
  the cut fell between two frames, unless the torn frame happens to pass its checksum with bytes of the new ones
  (`Journals.ReopenedReads`, `Journals.ReopenedReadsIffWhole`).
- After recovery event numbers continue from the number of commands. The next number has been used before exactly when
  there were more events than commands (`EngineRecovery.NumberRepeatsIff`, `EngineRecovery.RecoveryRepeatsNumber`).
- Recovery indexes the journal file by the count of all commands. Once the file has been rotated it leaves out as many
  commands after the snapshot as were rotated away (`EngineRecovery.RotatedRecovery`,
  `EngineRecovery.RotationLosesOrder`).

## Model

| member | source | states |
|---|---|---|
| OrderBooks.OrderBook.MatchTaker | crates/engine/src/order_book.rs:176-319 | the nested pop/trade/push-front loops, despite tombstones, reused slab keys and dropped levels, return exactly the fills of greedy matching on the price-time lists, in order, and leave exactly its residual lists; the representation invariant holds again and the loop ends |
| OrderBooks.OrderBook.MatchAsks | crates/engine/src/order_book.rs:186-252 | the buy loop refines greedy matching; every pass trades at least one lot |
| OrderBooks.OrderBook.MatchBids | crates/engine/src/order_book.rs:253-315 | the sell loop refines greedy matching; every pass trades at least one lot |
| OrderBooks.OrderBook.TradeAsk | crates/engine/src/order_book.rs:197-250 | one pass: the first live key of the level trades the smaller of the two quantities, tombstones before it are dropped, the maker leaves queue, slab and index if used up and keeps the front otherwise, the level goes when its total is gone |
| OrderBooks.OrderBook.TradeBid | crates/engine/src/order_book.rs:263-313 | the same for the bid side |
| OrderBooks.OrderBook.PopLiveFront | crates/engine/src/order_book.rs:323-332 | skips exactly the tombstones before the first live key and returns that key and the queue behind it, or reports that no key of the queue is live |
| OrderBooks.OrderBook.InsertResting | crates/engine/src/order_book.rs:95-107 | any order is stored under some vacant key, queued at its price and indexed; if it has quantity, it joins the price-time list behind every order at least as well priced, an older order under the same id loses its index entry, and the invariant is kept |
| OrderBooks.OrderBook.Cancel | crates/engine/src/order_book.rs:110-145 | succeeds exactly when the index leads to an order of this account; then exactly that order leaves the price-time lists, and otherwise nothing changes |
| OrderBooks.OrderBook.MarkDead | crates/engine/src/order_book.rs:119-143 | the lazy removal: a tombstone stays in slab and queue, the cached total falls, the level goes when it reaches zero |
| OrderBooks.OrderBook.Get | crates/engine/src/order_book.rs:69-72 | index and slab find exactly the order that a search of the price-time lists finds |
| OrderBooks.OrderBook.BestBid | crates/engine/src/order_book.rs:74-79 | the cached total of the highest level is the depth of the live bids at the best bid price |
| OrderBooks.OrderBook.BestAsk | crates/engine/src/order_book.rs:81-86 | the same for the asks |
| OrderBooks.OrderBook.WouldTrade | crates/engine/src/order_book.rs:88-93 | true exactly when the head of the opposite live list is within the price |
| OrderBooks.OrderBook.SerializeSnapshot | crates/engine/src/order_book.rs:340-351 | the snapshot holds the live orders, and only those, in ascending slab order |
| OrderBooks.OrderBook.RestoreFromSnapshot | crates/engine/src/order_book.rs:354-370 | whatever was there before, the four structures are those of inserting the snapshot's orders one by one under distinct keys; when all have quantity, the book is valid and lists them as one-by-one insertion does |
| OrderBooks.OrderBook.GetAllOrderSnapshots | crates/engine/src/order_book.rs:373-396 | lists every order that can be looked up exactly once, in any order, with price times remaining quantity for buys and zero for sells |
| BookRefinement.InsertValid | crates/engine/src/order_book.rs:95-107 | insertion keeps the representation invariant: totals equal queue sums and are positive, queued keys are distinct and placed, live orders are queued, index entries lead to live orders |
| BookRefinement.InsertAbstract | crates/engine/src/order_book.rs:95-107 | appending a key to a level's queue is joining the price-time list behind all orders at least as well priced |
| BookRefinement.CancelValid | crates/engine/src/order_book.rs:110-145 | lazy cancellation keeps the representation invariant |
| BookRefinement.CancelAbstract | crates/engine/src/order_book.rs:110-145 | a zeroed slab entry, with or without its level, is the order's removal from the price-time list |
| BookRefinement.TradeRefines | crates/engine/src/order_book.rs:197-250 | one pass of the loop keeps the invariant and is one step of greedy matching on the price-time lists |
| BookRepresentation.AbstractOk | crates/engine/src/order_book.rs:36-58 | the levels of a valid book, best price first and each queue without tombstones, are a list in price order of live orders of the right side |
| BookRepresentation.HeadOfSide | crates/engine/src/order_book.rs:187-200 | a side has a level exactly when it has a live order, so the best level always holds a live maker and the empty-level branch is never taken |
| BookRepresentation.TopOfSide | crates/engine/src/order_book.rs:74-86 | a level's cached total equals the depth of live orders at its price |
| BookRepresentation.LookupRefines | crates/engine/src/order_book.rs:69-72 | index then slab equals search of the lists |
| Matching.MatchIsGreedy | crates/engine/src/order_book.rs:176-319 | matching acts on the opposite orders as plain greedy filling and leaves the orders of the taker's own side untouched |
| Matching.GreedyObeysRule | crates/engine/src/order_book.rs:186-252 | a maker is filled exactly when better-placed makers leave something for it within the limit, for exactly that much at its own price; every fill but the last uses its maker up; the rest keep what they had |
| Matching.MatchObeysRule | crates/engine/src/order_book.rs:176-319 | the price-time rule for whole books: no fill skips a better-priced or earlier order, and the taker's own side is untouched |
| Matching.MatchIsMaximal | crates/engine/src/order_book.rs:176-319 | total filled is the smaller of the taker's quantity and the opposite depth within its limit, depth falls by exactly that, and a taker left over no longer crosses |
| Matching.SidesAreAlike | crates/engine/src/order_book.rs:186-315 | matching a seller equals matching a buyer on the mirrored book (sides swapped, prices negated) and mirroring back, so the two hand-written loops agree |
| Engines.Engine.Process | crates/engine/src/engine.rs:251-327 | every command does to the book, ledger and event numbers, and emits in events, what the state machine's step says, with the replace cancelling before its checks |
| Engines.Engine.HandleNew | crates/engine/src/engine.rs:329-427 | the order of the checks (invalid, risk, post-only), the match, the rest and the two closing events |
| OrderOutcomes.NewOutcome | crates/engine/src/engine.rs:329-427 | a new order is refused as malformed, for risk, or as post-only if and only if it is malformed, or else its size or the position after all of it is out of bounds, or else it is post-only and the depth within its price is positive; a refusal is a single reject that changes nothing; otherwise fills, top of book and acknowledgement follow |
| OrderOutcomes.PostOnlyNeverTakes | crates/engine/src/engine.rs:347-355 | no event of a post-only order is a fill |
| OrderOutcomes.PostOnlyNeverTakesInRun | crates/engine/src/engine.rs:286-355 | over any run, replaces included, no fill has a post-only order as its taker |
| OrderOutcomes.ClosingIsNeverRisky | crates/engine/src/account_manager.rs:31-63 | an order of allowed size that closes part or all of a position within its limits is never refused for risk |
| OrderOutcomes.FillsAreBooked | crates/engine/src/engine.rs:357-388 | every fill is between the new order and a resting one of the other side within its price, names them as taker and maker, is at the resting price, and is booked to their two accounts in the order of the events |
| OrderOutcomes.AcceptedRests | crates/engine/src/engine.rs:390-421 | what an acknowledged order leaves under its id: all lots not filled, under its own account, side, price, time in force and flag, if it is good till cancelled, and otherwise nothing |
| OrderOutcomes.ReplaceOutcome | crates/engine/src/engine.rs:286-327 | a replace is refused as malformed or not found if and only if it is, and changes nothing then; otherwise the old order goes and the risk and post-only refusals are exactly those of the old order under its new terms |
| OrderOutcomes.ReplacedPostOnlyNeverTakes | crates/engine/src/engine.rs:293-327 | replacing a post-only order never takes, whatever the new price |
| OrderOutcomes.ReplacementKeepsTerms | crates/engine/src/engine.rs:293-327 | an acknowledged replace leaves the old account, side, time in force and flag under the id, at the new price, for the new quantity less what was filled |
| OrderOutcomes.CancelOutcome | crates/engine/src/engine.rs:266-284 | a cancel is refused for a foreign symbol or an id that leads to no order of the account, and changes nothing then; otherwise its id leads nowhere and every other id leads where it led |
| OrderOutcomes.LimitsAreLastSet | crates/engine/src/engine.rs:429-432 | after any run an account's limits are those last set for it |
| OrderOutcomes.QueryTellsLedger | crates/engine/src/engine.rs:434-446 | after any run the answer to a query is the position that accounts for all legs of the account since the start and the limits last set; asking changes nothing |
| MarketData.TopOfBookIsShown | crates/engine/src/engine.rs:466-487 | every top-of-book event shows the book after the command: for each side blanks if nothing rests, and otherwise the best resting price and the sum of all lots at it |
| MarketData.ShownBooksAreUncrossed | crates/engine/src/engine.rs:466-487 | over any run from an uncrossed book every best bid shown is below the best ask shown with it |
| Engines.Engine.Place | crates/engine/src/engine.rs:347-421 | a crossing order is matched first and only what is left of a good-till-cancelled order rests; an order that does not cross rests whole |
| Engines.Engine.BookFills | crates/engine/src/engine.rs:357-388 | the loop over fills moves taker then maker and reports each fill under the next number; it equals applying the list of trades at once |
| Engines.Engine.MovePositions | crates/engine/src/engine.rs:364-377 | both legs of one fill, also when taker and maker are the same account |
| Engines.Engine.AckWithTop | crates/engine/src/engine.rs:448-487 | the top of the book is reported before the acknowledgement, under consecutive numbers |
| Engines.Engine.ReplayCommand | crates/engine/src/engine.rs:510-533 | a replayed cancel goes straight to the book, everything else through live execution, and the command count rises |
| Engines.Engine.Execute | crates/engine/src/engine.rs:150-186 | the command is appended to the journal before it is executed, and executed even if that fails; it is counted, a snapshot is due exactly when the interval divides the count, and then a rotation exactly when enough commands were written since the last one |
| Engines.Engine.TakeSnapshot | crates/engine/src/engine.rs:218-240 | the snapshot carries the command count, the live orders in slab order and the whole ledger |
| Engines.Engine.RestoreFromPersistence | crates/engine/src/engine.rs:90-126 | the engine afterwards is the recovery function of snapshot and journal file, and counts the whole journal; if the file cannot be read, it fails with the snapshot loaded and nothing replayed |
| Engines.Engine.ReplayAll | crates/engine/src/engine.rs:536-543 | the loop folds replay over the commands |
| EngineAccounts.AccountManager.CheckRisk | crates/engine/src/account_manager.rs:31-63 | accepts an order if and only if its size is allowed and the net position after filling all of it, at any price, is within the limits |
| EngineAccounts.AccountManager.ApplyFill | crates/engine/src/account_manager.rs:67-120 | the branches for buying and selling are one side-symmetric rule, for every quantity for which the original does not divide by zero: closing realizes profit at the average price, a reversal opens at the fill price, adding averages with truncation |
| EngineAccounts.AccountManager.Bought | crates/engine/src/account_manager.rs:71-94 | buying step by step (close a short, reverse it, open, add) is the side-symmetric rule |
| EngineAccounts.AccountManager.Sold | crates/engine/src/account_manager.rs:95-118 | selling step by step is the same rule mirrored |
| EngineAccounts.PnlIdentity | crates/engine/src/account_manager.rs:67-120 | over any fills, realized profit is cash flow plus the open position at its average price, within the sum over averaging fills of position size minus one; the net position is the signed sum |
| EngineAccounts.FillDrift | crates/engine/src/account_manager.rs:67-120 | a fill is accounted for exactly when it opens, closes or reverses, and within position size minus one when it adds |
| EngineAccounts.AverageTruncates | crates/engine/src/account_manager.rs:84-92 | when a fill adds to a position, total value less lots times the new average is smaller than the lots and has the sign of the total: the average is rounded toward zero |
| EngineAccounts.ClosingRealizesGain | crates/engine/src/account_manager.rs:72-83 | a fill against a position realizes price against average for every lot it closes; what stays open keeps the average and what opens the other way takes the price |
| EngineAccounts.PnlIsOneSided | crates/engine/src/account_manager.rs:67-120 | with non-negative prices, rounding errs in one direction over any fills that keep the account off the other side: never down while it is not short, never up while it is not long |
| EngineAccounts.AverageIsBetween | crates/engine/src/account_manager.rs:80-92 | an averaged price lies between the old average and the fill price |
| EngineRuns.NeverCrossed | crates/engine/src/engine.rs:286-427 | after every run from an uncrossed book the best bid is below the best ask |
| EngineRuns.ReplayExact | crates/engine/src/engine.rs:510-533 | replay agrees with live execution after every prefix of a run if and only if no command of the run is a cancel for a foreign symbol that hits a live order of its sender |
| EngineRuns.ReplayReproduces | crates/engine/src/engine.rs:510-543 | if every cancel names the engine's symbol, replay gives the live book and ledger |
| EngineRuns.ReplayStepExact | crates/engine/src/engine.rs:251-327 | for a single command, replay and live execution agree exactly in the stated case |
| EngineRuns.ReplayCanDiverge | crates/engine/src/engine.rs:515-526 | after one order, a concrete cancel that is rejected live but removes the order on replay |
| EngineRuns.RejectedReplaceKeepsBookIff | crates/engine/src/engine.rs:286-327 | a replace whose only event is a reject leaves the book as it was if and only if it names a foreign symbol or no quantity, or no live order of the sender has the id |
| EngineRuns.RejectedReplaceCanCancel | crates/engine/src/engine.rs:286-327 | after one order, a concrete replace that the risk check rejects and that leaves the order gone |
| EngineRuns.StepIgnoresSeq | crates/engine/src/engine.rs:503-533 | two engines that differ in the event number only stay that way, live and on replay |
| EngineRuns.RunNumbers | crates/engine/src/engine.rs:503-507 | the events of a run carry consecutive numbers, none skipped and none used twice |
| RunLedger.PositionsAreZeroSum | crates/engine/src/engine.rs:357-388 | after any run from empty, net positions over all accounts add up to zero, self-trades included |
| RunLedger.ProfitAddsUp | crates/engine/src/account_manager.rs:67-120 | for every account over every run, the net position is the signed sum of its fills as taker and maker, and profit adds up within the rounding bound |
| RunLedger.AcceptedStaysWithinLimits | crates/engine/src/account_manager.rs:31-63 | an accepted order's own fills move its account's position one way only and never past the limit it trades towards, self-trades included |
| PositionLimits.OthersKeepWithinIff | crates/engine/src/account_manager.rs:31-63 | over all runs of other accounts' commands, an account stays within its limits if and only if its position plus its resting buys is at most the long limit and its position less its resting sells is at least the short limit |
| PositionLimits.RunDrifts | crates/engine/src/engine.rs:357-388 | over any run of others' commands an account's position moves by exactly what leaves its resting orders, which never grow |
| PositionLimits.RestingOrdersPassLimit | crates/engine/src/account_manager.rs:31-63 | from a fresh engine, two resting buys that are each within the limit and another account's sale that carries the position past it |
| RunLedger.PositionFromLegs | crates/engine/src/engine.rs:364-377 | an account's position depends on its own fills only |
| RunLedger.CashCancels | crates/engine/src/engine.rs:364-377 | cash flow over all accounts cancels |
| TimePriority.TimePriorityIsStable | crates/engine/src/order_book.rs:104-106 | over any run that does not re-enter the given ids, their surviving orders form a subsequence of the old queue on each side: orders leave but never overtake |
| TimePriority.JoinsAtTheBack | crates/engine/src/order_book.rs:104-106 | a new order is placed behind all orders at least as well priced and ahead of all others |
| IndexExact.InsertExactIffFresh | crates/engine/src/order_book.rs:95-107 | an insertion keeps ids unique and reachable exactly when no live order has the id |
| IndexExact.AlwaysExactIff | crates/engine/src/engine.rs:329-427 | ids stay unique and reachable after every command of a run if and only if every new order that comes to rest does so under an id that is not live then; refused, filled and immediate-or-cancel orders and replaces do no harm |
| IndexExact.IndexIsExact | crates/engine/src/engine.rs:329-427 | over any run with fresh ids, an id can be looked up exactly when one live order carries it |
| IndexExact.DuplicateIdHidesOrder | crates/engine/src/engine.rs:329-427 | concrete orders under one id: both rest, only the second can be found, because the code does not check that an id is new |
| Snapshots.RoundTripIffAscending | crates/engine/src/order_book.rs:340-370 | with distinct live ids, restoring a snapshot gives the same price-time lists if and only if live keys ascend in every queue |
| Snapshots.SameLiveOrders | crates/engine/src/order_book.rs:340-370 | restoring gives the same live orders on each side, duplicate ids or not |
| Snapshots.MarketSurvives | crates/engine/src/order_book.rs:340-370 | restoring gives the same depth at every price and the same best quotes, duplicate ids or not |
| Snapshots.LookupsSurvive | crates/engine/src/order_book.rs:340-370 | with distinct live ids, restoring gives the same order under every id |
| Snapshots.KeyReuseLosesPriority | crates/engine/src/order_book.rs:340-370 | two insertions, a fill and a third insertion that takes the freed slab key: after a restore the third order overtakes the second |
| EngineRecovery.RecoveryFromJournal | crates/engine/src/engine.rs:90-126 | without a snapshot, recovery gives the engine that executed the journal |
| EngineRecovery.RecoveryFromSnapshot | crates/engine/src/engine.rs:90-126 | a snapshot after any prefix, plus the rest of the journal, gives the engine that executed all of it |
| EngineRecovery.CrashRecovery | crates/engine/src/engine.rs:112-126 | a journal file cut off at any byte: reading it fails exactly when the cut lies inside a payload, and otherwise recovery gives the engine as it was after the commands whose frames are whole |
| EngineRecovery.CrashRecoveryFromSnapshot | crates/engine/src/engine.rs:90-126 | the same with a snapshot taken after any prefix; a cut before the snapshot's position gives the engine of the snapshot |
| EngineRecovery.RotatedRecovery | crates/engine/src/engine.rs:112-126 | after a rotation of any number of commands, recovery gives the engine that executed all commands but as many behind the snapshot |
| EngineRecovery.RotationLosesOrder | crates/engine/src/engine.rs:112-188 | a query, a snapshot, a rotation and an order from a fresh engine: recovery loses the order |
| EngineRecovery.NumberRepeatsIff | crates/engine/src/engine.rs:108-109 | the event number that follows a restored snapshot was used before if and only if there were more events than commands |
| EngineRecovery.LoadedIffAscending | crates/engine/src/engine.rs:95-110 | loading a snapshot gives back the engine it was taken from if and only if live keys ascend in every queue |
| ReservationCovers.ReservationCovers | crates/gateway_server/src/account_manager.rs:204-217 | over any run, what the engine charges a never-replaced buy order under a fresh id, first as taker and then as maker, is at most what the gateway reserved |
| ReservationCovers.CoverageIsExact | crates/gateway_server/src/account_manager.rs:204-217 | that holds for all engines and runs if and only if the order's price times quantity is not negative |
| ReservationCovers.LifeOfOrder | crates/engine/src/engine.rs:357-421 | over its whole life a buy order pays at most its limit for every lot and never gets more than its quantity |
| ReservationCovers.SpentPlusRestingIsCovered | crates/gateway_server/src/reconciliation.rs:34-73 | for one order, charges so far plus what reconciliation would reserve for the resting part are within the original reservation |
| ReservedExposure.RebuiltWithinReservations | crates/gateway_server/src/reconciliation.rs:34-73 | in every state the system reaches, what is rebuilt for an account from all engines' answers is at most the sum of the reservations last granted to its live buy orders, each counted once, and if none of these was replaced at most the sum of their original ones |
| ReplacedOrders.ReplacementsAreCovered | crates/gateway_server/src/account_manager.rs:337-377 | over any run, what the engine charges a buy order that is replaced any number of times is at most its own notional plus those of the replaces that the engine accepted |
| ReplacedOrders.StepWithinBudget | crates/engine/src/engine.rs:286-327 | for every command, what it charges the order plus the value of what rests then is at most the value of what rested plus the notional of an accepted replace |
| ReplacedOrders.OtherKeepsSole | crates/engine/src/engine.rs:251-427 | whatever others do, at most one order rests under the id and the index leads to it, so the next replace cancels all of it |
| ReservationCovers.FillsAreFunded | crates/gateway_server/src/account_manager.rs:231-275 | every single fill costs at most the whole reservation, which is what the ledger's safety needs when the first fill ends it |
| ReservationCovers.OrderIsConserved | crates/engine/src/engine.rs:390-421 | every lot of an accepted order is filled, rests, or is discarded as immediate-or-cancel, and lots remain only if nothing left would trade with them |
| GatewayLedger.AccountManager.CheckAndReserveOrder | crates/gateway_server/src/account_manager.rs:170-225 | grants a token for exactly price times quantity of a buy (nothing for a sell) when no check is violated, in the order of the checks; a refusal changes nothing |
| GatewayLedger.OrderChecks | crates/gateway_server/src/account_manager.rs:170-215 | each of the four refusals if and only if: no such account; else the size; else the position that the ledger's own fill of all of it leads to; else the money left after it |
| GatewayLedger.ReplaceChecks | crates/gateway_server/src/account_manager.rs:337-377 | each of the three refusals of a replace if and only if: no such account; else the size; else the money with the old reservation swapped for the new one |
| GatewayLedger.AccountManager.AdjustReservation | crates/gateway_server/src/account_manager.rs:337-377 | swaps the old token for the new one in one step, or changes nothing |
| GatewayLedger.AccountManager.ReleaseReservation | crates/gateway_server/src/account_manager.rs:278-283 | gives a token back; an unknown account is ignored |
| GatewayLedger.AccountManager.ApplyFill | crates/gateway_server/src/account_manager.rs:231-275 | ends the whole reservation and moves money and position |
| GatewayProtocol.BalanceKeptIffOrderly | crates/gateway_server/src/client_handler.rs:461-506 | from balanced books, a step leaves every account's reserved amount equal to its outstanding tokens if and only if the step is orderly |
| GatewayProtocol.ProtocolInvariant | crates/gateway_server/src/client_handler.rs:301-713 | over any interleaving of reserve, track, cancel, replace, failed routing, fill, ack and reject steps, the books balance throughout if and only if every step is orderly |
| GatewayProtocol.SolvencyKeptIffAffordable | crates/gateway_server/src/account_manager.rs:170-283 | from balanced and solvent books, an orderly step that asks for no negative amount leaves them solvent if and only if, for every account, its free money and its gains from the fill's two orders do not add up to less than zero |
| GatewayProtocol.SolvencyInvariant | crates/gateway_server/src/account_manager.rs:170-283 | over any orderly interleaving all accounts stay solvent throughout if and only if every fill is affordable where it arrives |
| GatewayProtocol.SolvencyKept | crates/gateway_server/src/account_manager.rs:170-283 | the sufficient form: fills covered by the reservations they meet keep 0 <= reserved <= buying power for every account |
| GatewayProtocol.LedgerSafety | crates/gateway_server/src/account_manager.rs:170-283 | the sufficient form over any interleaving |
| EndToEnd.BooksStaySolvent | crates/gateway_server/src/client_handler.rs:165-713 | gateway and engines started afresh, with orders under fresh ids for non-negative prices and quantities, replaces that do not lower a reservation, and failed routing of nothing but what reserved nothing: over any interleaving of risk checks, routing, cancels, replaces, execution and delivery, in any order of delivery, every account's reserved amount on the gateway's books equals its outstanding reservations and lies between zero and its buying power |
| EndToEnd.StaysGood | crates/gateway_server/src/client_handler.rs:165-713 | the inductive invariant behind it: every reservation is the one its order was last granted, every resting order works for a known order within what it was granted, ids are live at most once, and every fill under way is within both parties' grants |
| EndToEnd.NewIsBacked | crates/engine/src/engine.rs:329-427 | the engine takes up an order whose id does not rest: each fill names two different known orders and costs neither more than its grant, and whatever rests afterwards is backed by a known order |
| EndToEnd.LinksStayOk | crates/gateway_server/src/engine_router.rs:134-230 | commands and events under way stay consistent with the record of orders, whichever is taken next |
| SettledFills.FollowsIffSeen | crates/gateway_server/src/client_handler.rs:609-676 | a step changes an account's money, or its position in a symbol, by what its fill brings if and only if the parts of the parties without a pending entry cancel out for the account |
| SettledFills.BooksFollowIffAllSeen | crates/gateway_server/src/client_handler.rs:609-676 | over any run the gateway's money and positions follow the fills it is handed throughout if and only if every fill finds the pending entries it needs |
| SystemRuns.EnginesChargeMore | crates/gateway_server/src/client_handler.rs:609-676 | a run from a fresh start after which an account that had 1000 has 900 and one lot on the gateway's books, while its engine counts 19 lots and the fills on their way are due to charge it 1800 for 18 of them |
| SystemRuns.LoweringReplaceOverdraws | crates/gateway_server/src/client_handler.rs:365-506 | a run from a fresh start in which a replace to a smaller amount outruns a fill of the order it replaces and the account is overdrawn: why the system theorem asks that replaces do not lower a reservation |
| SystemRuns.UnfilledIocStaysReserved | crates/gateway_server/src/client_handler.rs:677-698 | a run from a fresh start after which nothing is under way and nothing rests, and an immediate-or-cancel order that found nothing still holds all the account's money (StrandedReservations says when this happens) |
| StrandedReservations.StepKeepsOrNames | crates/engine/src/engine.rs:251-427 | the engine never drops an order silently: after any command, an order that rested still rests or an event names it, and a new order is named |
| StrandedReservations.SupportKeptIffNoneStranded | crates/gateway_server/src/client_handler.rs:677-713 | when every pending order is under way, a step leaves it so if and only if it neither hands over an acknowledgement that meets an active entry and was the order's last trace nor fails to route an order that has no other trace |
| StrandedReservations.SupportedIffNoneStrands | crates/gateway_server/src/client_handler.rs:301-713 | over any possible run every pending order is under way throughout if and only if no step strands one |
| StrandedReservations.IdleSupportedIffRests | crates/gateway_server/src/client_handler.rs:677-713 | when nothing is on the way in either direction, every pending order is under way if and only if each reservation belongs to an order at rest |
| StrandedReservations.IdlePendingRests | crates/gateway_server/src/client_handler.rs:301-713 | a run that strands nothing and ends idle leaves reservations of resting orders only |
| StrandedReservations.CancelFreesStranded | crates/gateway_server/src/client_handler.rs:699-713 | in any state, a cancel of an order that does not rest, once executed and answered, gives its reservation back and leaves everything under way as it was |
| CancelRuns.CancelReleases | crates/gateway_server/src/client_handler.rs:301-698 | a cancel of a resting order, marked, routed, executed and answered: the order is off the book, exactly its entry is gone from the gateway, its account has exactly its amount back, and what else was on the way still is |
| CancelRuns.AckSettlesMarked | crates/gateway_server/src/client_handler.rs:677-698 | an acknowledgement gives a reservation back after a marked cancel, and changes nothing if no cancel was marked; taking the mark back restores the gateway |
| CancelRuns.ReplaceForgetsCancel | crates/gateway_server/src/client_handler.rs:365-506 | a replace that goes through from the own connection makes the entry active with the new token, so that an acknowledgement gives nothing back; from another connection it leaves the entry |
| GatewayProtocol.UnroutedIsReleasedTwice | crates/gateway_server/src/client_handler.rs:526-541 | from a gateway that has seen no order: an order that cannot be routed and is cancelled later has its reservation given back twice, which leaves a negative amount reserved |
| GatewayProtocol.DuplicateIdUnbalances | crates/gateway_server/src/client_handler.rs:461-506 | from a gateway that has seen no order, two orders under one id after which an amount stays reserved for good |
| GatewayProtocol.SectionSkew | crates/gateway_server/src/client_handler.rs:301-713 | each step changes the difference between reserved and outstanding by exactly the stated amount |
| ClientHandlers.ClientHandler.Reserve | crates/gateway_server/src/client_handler.rs:427-459 | the risk check of a new order is the protocol's reserve step; a refusal leaves everything as it was |
| ClientHandlers.ClientHandler.Track | crates/gateway_server/src/client_handler.rs:461-506 | recording the order moves its token from in flight to pending |
| ClientHandlers.ClientHandler.Cancel | crates/gateway_server/src/client_handler.rs:301-363 | a cancel only marks the pending entry |
| ClientHandlers.ClientHandler.CancelFailed | crates/gateway_server/src/client_handler.rs:301-363 | a cancel that could not be routed makes the entry active again |
| ClientHandlers.ClientHandler.ReplaceOrder | crates/gateway_server/src/client_handler.rs:365-426 | the reservation is adjusted for any pending order, but only a connection that sent the order writes the new token |
| ClientHandlers.ClientHandler.RoutingFailed | crates/gateway_server/src/client_handler.rs:526-541 | a command that cannot be routed gives its reservation back, the connection forgets a new order, and the shared entry stays |
| ClientHandlers.ClientHandler.HandleFill | crates/gateway_server/src/client_handler.rs:609-676 | maker and taker are settled in that order, each ending its reservation, and both entries go |
| ClientHandlers.ClientHandler.HandleAck | crates/gateway_server/src/client_handler.rs:677-698 | an acknowledgement releases the reservation exactly when a cancel was pending |
| ClientHandlers.ClientHandler.HandleReject | crates/gateway_server/src/client_handler.rs:699-713 | a reject releases the reservation and drops the entry |
| Reconciliation.RebuildReservations | crates/gateway_server/src/reconciliation.rs:34-73 | nothing changes if a query cannot be sent or an answer is missing; otherwise every known account that some engine mentions gets the sum of the reserved amounts reported for it, whatever the map's order; all others and all other fields stay |
| Reconciliation.SumByAccount | crates/gateway_server/src/reconciliation.rs:43-55 | the accumulated map has an entry exactly for the accounts mentioned, each with its sum |
| Reconciliation.QueryAllEngines | crates/gateway_server/src/engine_router.rs:174-230 | fails exactly when a query cannot be sent, the channel closes or time runs out; otherwise joins the answers in order, an unexpected event using up a turn |
| Reconciliation.ReconciliationIsExposure | crates/gateway_server/src/reconciliation.rs:34-73 | the rebuilt amount is the sum of price times remaining quantity over the account's live buys on all engines if and only if the account starts from zero or is mentioned |
| Reconciliation.ReconciliationWithMissed | crates/gateway_server/src/engine_router.rs:174-230 | when unexpected events have taken the turns of some engines, the rebuilt amount is the exposure over all engines if and only if those not heard hold nothing of the account or, if nobody mentions it, exactly what was reserved before |
| Listings.ListingIsExposure | crates/engine/src/order_book.rs:373-396 | what an engine reports as reserved for an account adds up to price times remaining quantity of its live buys |
| Listings.ListingIsDepth | crates/engine/src/order_book.rs:373-396 | the lots listed for a side and a price are the depth of the book there |
| Listings.EntryShowsOrder | crates/engine/src/order_book.rs:373-396 | every entry shows a resting order in all its fields |
| Journals.Journal.Append | crates/persistence/src/lib.rs:89-100 | what the file held when it was opened, then frames, then the buffer: frames and buffer together are always the commands appended since opening, the last rotation or the last failed write, whenever the flush happens; the buffer stays below the batch size, an expired interval empties it, and before either nothing is written |
| Journals.Journal.Flush | crates/persistence/src/lib.rs:103-130 | moves the buffer into the file and changes nothing of the log; if a write fails half-way, the file keeps the bytes that fitted, the whole buffer is gone, and exactly the whole frames are counted |
| Journals.Journal.WriteFrame | crates/persistence/src/lib.rs:133-149 | length, payload and checksum in three writes, or as much of them as fits |
| Journals.Journal.Rotate | crates/persistence/src/lib.rs:227-257 | the file set aside holds what was found on opening and the whole log, buffered commands included, and a new log starts; nothing is set aside if the flush before it fails |
| Journals.Journal.ReadAll | crates/persistence/src/lib.rs:152-219 | the cursor loop computes the recursive reader |
| Journals.ReadBackIffFits | crates/persistence/src/lib.rs:133-219 | the frames of a command list read back as that list if every payload fits the reader's limit, and as an error otherwise |
| Journals.TornTail | crates/persistence/src/lib.rs:152-219 | a file cut at any byte reads as the commands whose frames are whole, or as an error exactly when the cut lies after a full length header and before the payload's end |
| Journals.ReopenedReads | crates/persistence/src/lib.rs:66-219 | when a torn file is reopened and appended to, what is read is the whole frames before the cut and then the new commands, if the cut fell between two frames, and otherwise what the torn frame completed by new bytes makes of the rest: nothing more, an error, or a mistaken command and what follows it |
| Journals.ReopenedReadsIffWhole | crates/persistence/src/lib.rs:66-219 | unless the torn frame passes for a whole one, the new commands are read if and only if the cut fell between two frames; otherwise all of them are lost |
| Journals.FindCut | crates/persistence/src/lib.rs:152-219 | every cut of the file falls into exactly such a place |
| WireFormat.DecodedIff | crates/codecs/src/binary.rs:105-208 | decoding succeeds if and only if the input begins with the encoding of a command whose fields fit, and returns that command; what follows is ignored |
| WireLayout.NewOrderLayout | crates/codecs/src/binary.rs:113-146 | every field of a new order by byte offset and width, with the numbers of type, side, time in force and flag |
| WireLayout.CancelLayout | crates/codecs/src/binary.rs:147-158 | the fields of a cancel by byte offset |
| WireLayout.ReplaceLayout | crates/codecs/src/binary.rs:159-174 | the fields of a replace by byte offset |
| WireLayout.SetLimitsLayout | crates/codecs/src/binary.rs:175-192 | the fields of a change of limits by byte offset |
| WireLayout.RejectLayout | crates/codecs/src/binary.rs:37-58 | the fields of a reject by byte offset, with the number of each reason |
| WireLayout.BookTopLayout | crates/codecs/src/binary.rs:69-77 | the fields of a top-of-book event by byte offset, whichever of the four are there |
| WireLayout.AccountStateLayout | crates/codecs/src/binary.rs:78-92 | the fields of an account state by byte offset |
| WireFormat.EventsArePrefixFree | crates/codecs/src/binary.rs:29-103 | events with equal encodings are equal, options and texts included, and no event's encoding begins another's |
| WireFormat.ReadBackInverts | crates/codecs/src/binary.rs:29-103 | a reader of the format recovers every event and exactly the bytes behind it |
| WireFormat.TextInvertsIffFits | crates/codecs/src/binary.rs:245-261 | a text survives the wire if and only if its byte length fits the 32-bit length field |
| WireFormat.GettersInvert | crates/codecs/src/binary.rs:220-243 | each getter inverts its putter over the full width of the field, negative numbers included |
| BinaryCodec.DecodeCommand | crates/codecs/src/binary.rs:105-208 | the cursor program reads within its input on every byte string and returns what the format says, with the same error |
| BinaryCodec.DecodeNew | crates/codecs/src/binary.rs:113-146 | fields in order, a bad side, time in force or flag reported before later fields are read |
| BinaryCodec.EncodeEvent | crates/codecs/src/binary.rs:29-103 | appends exactly the event's encoding and touches nothing before it |
| BinaryCodec.Cursor.GetString | crates/codecs/src/binary.rs:251-261 | takes the length and that many bytes, or fails without reading past the end |
| BinaryCodec.Buffer.PutString | crates/codecs/src/binary.rs:245-249 | writes the length in 32 bits, whatever it is, and then the bytes |
| BinaryCodec.Buffer.PutOptI64 | crates/codecs/src/binary.rs:211-219 | a tag byte, and the number only if there is one |
| WireClient.WriteBinaryCommand | crates/bench/src/main.rs:1072-1102 | the client writes new orders in the gateway's format and refuses every other command |
| WireClient.GatewayDecodesClient | crates/bench/src/main.rs:1072-1102 | whatever new order a client writes, for all 64-bit prices and quantities, the gateway decodes |
| WireClient.ClientReadsIff | crates/bench/src/main.rs:1104-1159 | the client's slicing reader returns the event that was encoded exactly for acknowledgements, fills and the blank top-of-book event |

## Left out

- Integer overflow: the original's 64-bit prices, quantities, products and sequence numbers are unbounded here; only the wire format has widths.
- Slab internals: any vacant key may be chosen on insertion; the free list that picks one is not modelled.
- `OrderBook::replace` (crates/engine/src/order_book.rs:149-173): the engine does not call it, and it inserts without matching.
- EngineRuns.ReplayExact: compares book and ledger and not the next event number, which replayed cancels do not advance in the original (EngineRecovery.NumberRepeatsIff is about the number that a snapshot restores).
- EngineRecovery.RecoveryFromSnapshot: assumes a journal that is aligned with the snapshot's command count (EngineRecovery.RotatedRecovery has rotated ones); commands that were executed but not written before a snapshot are outside it.
- Journals.Journal.Flush: a write fails by running out of room; a failing sync after complete writes is not modelled.
- Journals.ReopenedReadsIffWhole: sets aside the accident that the torn frame, completed by bytes of the new ones, passes its length and checksum tests and decodes; Journals.ReopenedReads includes it.
- Journal payload serialization, CRC-32 and the file system: a payload codec with decode(encode(x)) = x, an arbitrary 32-bit checksum and a byte sequence stand for them.
- UTF-8: an encode/decode pair in which bytes decode to a text exactly when the text encodes to them.
- GatewayProtocol.ProtocolInvariant: a replace is one atomic step although the original reads the pending entry and adjusts the ledger separately.
- GatewayProtocol.LedgerSafety: takes as a premise that each fill is covered by the token it meets, which is not necessary (see GatewayProtocol.SolvencyInvariant); EndToEnd.BooksStaySolvent discharges it for fills that come from engines.
- EndToEnd.BooksStaySolvent: speaks of the gateway's own books, which do not follow an order's fills after its first (see SettledFills.BooksFollowIffAllSeen), asks that what cannot be routed had nothing reserved (else the books are unbalanced, see GatewayProtocol.BalanceKeptIffOrderly), asks that replaces come from the order's own connection and account and do not lower its reservation, and takes handling one event as one step.
- The steps for fills, acknowledgements and rejects are atomic in the model; the original takes its locks one after the other within each. Connections never close in the model.
- Engines.Engine.RestoreFromPersistence: asks that the snapshot's orders have quantity, which serialization provides; what replay does on a book with empty levels is not modelled.
- ReservationCovers.ReservationCovers: is about orders that are not replaced; ReplacedOrders.ReplacementsAreCovered is about those that are.
- The gateway's average price, which is the price of the last fill it has seen: modelled as written, nothing is claimed about it.
- Position limits over runs: the risk check ignores resting orders, so maker fills can pass a limit; an accepted order's own fills are bounded (RunLedger.AcceptedStaysWithinLimits), and PositionLimits.OthersKeepWithinIff says when others' fills are; runs that mix the account's own commands with others' are not.
- The gateway's own account journal and snapshot (crates/gateway_server/src/persistence.rs): same framing as the engine's journal.
- The reservation check for replaces under `check_and_reserve` (crates/gateway_server/src/account_manager.rs:287-335): the replace path uses `adjust_reservation` instead.
- Sockets, tasks, channels, framing, metrics, tracing, the JSON codec, authentication and sessions: plumbing around the modelled operations.
