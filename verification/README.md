# PMKit: verified models of the trading core

PMKit is a prediction-market trading engine. This project models the parts of it whose correctness
spans many calls and proves what they promise over every input, every run and every reachable state.

| module | models |
|---|---|
| `BookWalk` | walking an order book for a taker |
| `Accounting`, `AccountMoves` | cash, fees, positions and profit of a portfolio |
| `Simulator`, `Execution`, `OrderLifecycle` | the fill simulator, what single executions promise, and the life of every order |
| `Ledger`, `LedgerLog`, `OrderLog`, `Reconstruction` | the event-sourced ledger, what its log says of account and orders, and which logs it can be rebuilt from |
| `Executor`, `Clock`, `Agreement`, `Solvency`, `Restart`, `Restarts` | the paper account that runs the simulator and the ledger in lockstep, its rebuild after a restart, and lives with any number of restarts |
| `Divergence`, `Refusals`, `Visits`, `Counterexamples` | what follows when the two part, what iteration order changes, and short runs in which a promise fails without its condition |
| `Archive` | the crash-safe segment archive |
| `SourceMerge`, `BookHistory` | order-book history per token and the ordered merge of many tokens |
| `AbiDecoder` | strict decoding of dynamic ABI arrays |
| `SegmentParts`, `Discovery`, `Collector`, `CanonicalChain` | byte-bounded segment rolling, paginated discovery, the frame collector, and the canonical log table |
| `Trading`, `Numerals`, `Texts`, `Sequences` | shared values, identifier numerals, text order, chunking and sorting |

State that the program updates in place is a class here, and each method's `ensures` ties the new state
to a function of the old one; the lemmas are about those functions, and about whole runs of them. The
collector, whose tasks run concurrently, is a step system in which every interleaving is a run. Decimals
are `real`, timestamps are 64-bit integers with the program's saturating and checked arithmetic, and the
iteration order of a hash map is an arbitrary visiting order. Fee schedules, venue limits and digests are
arbitrary functions.

What the code does and its own documentation or tests do not say:

- A refused sale still adds its fee to the fee total (`Accounting.RefusedSaleStillCharges`). Conservation
  and replay hold exactly when no such call happened; the lemmas state both directions.
- Good-til-date orders that expire while resting leave the simulator silently and stay open in the ledger
  (`Counterexamples.SilentExpiry`; exactly when: `Agreement.UpdateStaysExactIff`).
- A fill that the accounting refuses is lost to the ledger together with all later fills of its update, while the
  simulator has carried them out. A maker rebate, which is a negative fee, is enough
  (`Counterexamples.RebateStrandsOrder`; exactly which orders are then open in the ledger alone:
  `Refusals.RefusedUpdate`). Short of a restart, a resting order left to the ledger alone is never closed again
  (`Refusals.LeftForever`).
- An order already expired at submission advances the ledger's id counter only
  (`Counterexamples.LateSubmission`; exactly when: `Agreement.CountersStayEqualIff`), and the account never
  recovers from it (`Divergence.LateOrderIsFatal`).
- The cash guard reserves notional without fees, so fees are the one way the free balance goes below zero
  (`Counterexamples.FeeOverdraws`, `Solvency.FundedRunsStaySolvent`; exactly when a fill does it:
  `Solvency.FillKeepsBalanceIff`).
- Rebuilding the simulator can lose open orders: remainders are checked against the venue limits, and with
  latency the empty book that closes a taker reaches earlier orders of its market
  (`Counterexamples.RestartLosesWaitingOrder`; exactly when: `Restart.RebuildRestoresIff`).
- The iteration order of the resting map does not show in the simulator but can show in the ledger. It can decide
  whether an update is booked at all (`Counterexamples.VisitingOrderMattersToTheLedger`; exactly when every order is
  booked: `Visits.EveryVisitBooksIff`), and orders that are all booked can leave different profits
  (`Counterexamples.BothOrdersBookedDifferently`), always matched by the cost of what is held
  (`Visits.BookedVisitsShare`), and never when the crossed makers are on one side (`Visits.OneSidedVisitsAgree`).
- A first canonical segment without logs leaves a checkpoint that refuses every later segment
  (`CanonicalChain.EmptyFirstSegment`, `CanonicalChain.EmptyStartIsStuck`). The first stored segment cannot be
  repeated (`CanonicalChain.RepeatedSegment`), and the first stored block cannot be reorganised away
  (`CanonicalChain.RootIsPermanent`).

## Model

| member | source | states |
|---|---|---|
| `BookWalk.WalkBook` | crates/pmkit-math/src/fill.rs:12-42 | the loop returns the average price and quantity of the greedy allocation `Takes`, or nothing when nothing was taken |
| `BookWalk.NeverOverfills` | crates/pmkit-math/src/fill.rs:21-35 | on any book, sorted or not, no more than the request is taken |
| `BookWalk.WalkIsAnAllocation` | crates/pmkit-math/src/fill.rs:21-35 | the walk takes at most each level's depth, and only within the limit |
| `BookWalk.FillsAvailableDepth` | crates/pmkit-math/src/fill.rs:21-35 | on a best-first side it fills exactly min(request, depth within the limit) |
| `BookWalk.WalkIsOptimal` | crates/pmkit-math/src/fill.rs:12-42 | among all allocations of that quantity within the limit none is cheaper for a buy or dearer for a sell |
| `BookWalk.AverageWithinLimit` | crates/pmkit-math/src/fill.rs:37-41 | a reported average price is never beyond the limit |
| `Execution.WalkedIsBest` | crates/pmkit-math/src/fill.rs:12-42 | the walk reports something if and only if the request and the depth within the limit are positive: the smaller of the two, at an average that no other way of taking it within the limit improves on |
| `Accounting.PortfolioLedger.ApplyFill` | crates/pmkit-accounting/src/lib.rs:214-242 | new account and verdict of a fill, fee booked before the oversell check |
| `Accounting.PortfolioLedger.Settle` | crates/pmkit-accounting/src/lib.rs:249-258 | new account and verdict of a settlement |
| `Accounting.PortfolioLedger.AddPosition` | crates/pmkit-accounting/src/lib.rs:336-360 | cost-averaged position, or failure on division by a zero total |
| `Accounting.PortfolioLedger.RemovePosition` | crates/pmkit-accounting/src/lib.rs:362-372 | reduced position, empty ones dropped in place |
| `AccountMoves.PurchaseMoves` | crates/pmkit-accounting/src/lib.rs:220-226 | a purchase costs price and fee, and adds its quantity and its price to what the token's position holds and cost; everything else stays |
| `AccountMoves.SaleMoves` | crates/pmkit-accounting/src/lib.rs:227-241 | a sale is accepted if and only if the holding covers it, earns price less fee, realizes price less average cost and leaves the rest of the position at its average |
| `AccountMoves.SettlementMoves` | crates/pmkit-accounting/src/lib.rs:249-258 | a settlement pays payout times the quantity held, realizes that less its cost and removes exactly that position |
| `Accounting.StepConserves` | crates/pmkit-accounting/src/lib.rs:214-258 | one call keeps one positive position per outcome and moves cash + fees + basis - realized profit by the leaked fee only |
| `Accounting.FeesAreWriteOnly` | crates/pmkit-accounting/src/lib.rs:214-258 | no verdict, position or cash amount depends on the fee total |
| `Accounting.LeaksExactly` | crates/pmkit-accounting/src/lib.rs:217-234 | the leak of a run is zero exactly when no refused oversell carried a fee |
| `Accounting.ValueConservation` | crates/pmkit-accounting/src/lib.rs:214-258 | over every run cash + fees + basis - realized profit is the initial cash plus the leak, and the initial cash itself if and only if no oversell with a fee was refused |
| `Accounting.RefusedSaleStillCharges` | crates/pmkit-accounting/src/lib.rs:217-234 | a concrete refused sale whose fee is booked |
| `Accounting.EquityIdentity` | crates/pmkit-accounting/src/lib.rs:286-320 | after any run equity is initial cash + realized + unrealized - fees, corrected by unmarked cost and leak, both zero when every position is marked and nothing leaked |
| `Accounting.MarkForIff` | crates/pmkit-accounting/src/lib.rs:294-294 | a position is valued at the first mark of its own market and outcome, and at none without one |
| `Accounting.ValuedOneByOne` | crates/pmkit-accounting/src/lib.rs:286-320 | equity and unrealized profit are sums over positions of mark times quantity, and of mark less average entry times quantity |
| `Execution.SlippageIsAgainstTaker` | crates/pmkit-sim/src/lib.rs:321-327 | a taker never pays less, or gets more, than the walk's average: its price is the average moved against it by exactly slippage and impact, or its limit where that would pass it |
| `Execution.TakerFillIs` | crates/pmkit-sim/src/lib.rs:306-344 | a taker is filled if and only if the walk finds something and the fee is known; size, price, fee and time of the fill told from book, order and settings |
| `Execution.MakerFillIs` | crates/pmkit-sim/src/lib.rs:430-478 | a maker fills at its own price for the smaller of what rests and the touch quantity less the queue share, if that is positive and the fee is known |
| `Execution.PostOnlyRestsIff` | crates/pmkit-sim/src/lib.rs:276-304 | a post-only order is accepted if and only if its book is known and the best opposite level is absent or strictly beyond its price; it then rests as submitted |
| `Execution.TakerAcceptedIff` | crates/pmkit-sim/src/lib.rs:181-193 | with latency any other order waits in line; without, it is accepted if and only if a known book fills it, at once |
| `Execution.RefusedUpFront` | crates/pmkit-sim/src/lib.rs:175-178 | an order beyond the limits or expired changes nothing; any other mints one id |
| `Execution.RestingNeverCrossed` | crates/pmkit-sim/src/lib.rs:276-304 | in every state of every run a resting order is one that did not cross the book stored when it was submitted |
| `Execution.CancelFindsOpen` | crates/pmkit-sim/src/lib.rs:196-210 | a cancellation finds exactly the open orders and leaves the others alone |
| `Execution.UpdateFillsIff` | crates/pmkit-sim/src/lib.rs:357-478 | the fills of an update are exactly those of unexpired waiting orders whose delay is over, against the new book, and of unexpired active resting orders that it crosses |
| `Execution.RestingAfterUpdate` | crates/pmkit-sim/src/lib.rs:357-478 | a resting order of another token is untouched by an update, an expired one goes, a filled one keeps what the fill left of it, any other stays as it was |
| `Execution.DelayedAfterUpdate` | crates/pmkit-sim/src/lib.rs:357-392 | exactly the waiting orders of other tokens, and those neither expired nor due, go on waiting |
| `Simulator.AdversePrice` | crates/pmkit-sim/src/lib.rs:306-344 | slippage and impact never push a taker past its limit; how far they do push it is `Execution.SlippageIsAgainstTaker` |
| `Simulator.MakerQuantity` | crates/pmkit-sim/src/lib.rs:411-478 | a maker fill is nonnegative and never more than what rests |
| `Simulator.SimEngine.UpdateBook` | crates/pmkit-sim/src/lib.rs:144-152 | expiry, activation and the maker sweep, in that order, for some visiting order of the resting map |
| `Simulator.SimEngine.Submit` | crates/pmkit-sim/src/lib.rs:169-193 | limit check, expiry check, id minting, and the maker or taker path |
| `Simulator.SimEngine.SubmitTaker` | crates/pmkit-sim/src/lib.rs:306-344 | queues at most one fill, the walked and slipped one |
| `Simulator.SimEngine.ExpireOrders` | crates/pmkit-sim/src/lib.rs:357-368 | exactly the expired resting and delayed orders of the token leave |
| `Simulator.SimEngine.ActivateDelayed` | crates/pmkit-sim/src/lib.rs:370-392 | exactly the matured delayed orders of the token leave and are tried as takers, in order |
| `Simulator.SimEngine.CheckRestingFills` | crates/pmkit-sim/src/lib.rs:411-478 | the remove-and-reinsert loop computes the one-pass sweep of the resting map |
| `Simulator.SimEngine.FillMaker` | crates/pmkit-sim/src/lib.rs:430-478 | one crossed maker: its fill, and what of it rests on |
| `Simulator.SimEngine.Cancel` | crates/pmkit-sim/src/lib.rs:196-210 | an id leaves the resting map or the delayed list, and what it frees is what the open notional loses |
| `Simulator.SimEngine.CancelAll` | crates/pmkit-sim/src/lib.rs:212-222 | nothing rests or waits afterwards, and the whole open notional is reported as freed |
| `Simulator.SimEngine.DrainFills` | crates/pmkit-sim/src/lib.rs:272-274 | hands out the queued fills once |
| `Simulator.VisitingOrderIrrelevant` | crates/pmkit-sim/src/lib.rs:411-478 | any two iteration orders of the resting map leave the same engine and the same multiset of fills |
| `Visits.SumPermutes` | crates/pmkit-paper/src/lib.rs:190-197 | a sum over fills does not depend on their order |
| `Visits.BookedInAnyOrder` | crates/pmkit-paper/src/lib.rs:190-197 | fills that can be booked in two orders leave the same orders, cash and fees; positions and profit can differ |
| `Visits.LedgerSeesNoOrder` | crates/pmkit-paper/src/lib.rs:186-204 | whatever the prices and fees, two iteration orders of one update that are both booked leave the same orders, cash and fees, and both always are when every fill is a purchase |
| `Visits.EveryVisitBooksIff` | crates/pmkit-paper/src/lib.rs:186-204 | for fills of nonnegative price and fee and positive size, every iteration order of an update is booked if and only if its activation fills are and the maker sells of the crossed orders total at most the holding left after them |
| `Visits.BookedVisitsShare` | crates/pmkit-paper/src/lib.rs:186-204 | two iteration orders that are both booked leave the same engine, orders, cash, fees and quantity held, and their realized profits differ by exactly the cost of what they hold |
| `Visits.OneSidedVisitsAgree` | crates/pmkit-paper/src/lib.rs:186-204 | when the crossed makers are on one side, all iteration orders are booked or none is, and the booked ones leave the same engine, orders and whole account |
| `Counterexamples.VisitingOrderMattersToTheLedger` | crates/pmkit-paper/src/lib.rs:186-204 | a resting buy and sell crossed by one book: booked in one iteration order, refused by the ledger in the other |
| `Counterexamples.BothOrdersBookedDifferently` | crates/pmkit-paper/src/lib.rs:186-204 | ten held at 0.30, a resting buy at 0.55 and sell at 0.45 crossed by one book: both iteration orders are booked, with realized profits 0.25 and 1.5 |
| `OrderLifecycle.SweepTotal` | crates/pmkit-sim/src/lib.rs:411-478 | a sweep fills an order at most once |
| `OrderLifecycle.ActivationTotal` | crates/pmkit-sim/src/lib.rs:370-392 | activation fills an order at most once, and only a matured one |
| `OrderLifecycle.StepKeepsLifecycle` | crates/pmkit-sim/src/lib.rs:144-193 | every engine call keeps the lifecycle invariant |
| `OrderLifecycle.EveryRunKeepsLifecycle` | crates/pmkit-sim/src/lib.rs:144-478 | in every run, out-of-order book times included, filled plus resting equals submitted, no order is overfilled, and no fill is beyond its limit, before activation or at or after expiry |
| `Ledger.PaperLedger.Place` | crates/pmkit-paper/src/ledger.rs:675-699 | a placement is stored and the id counter advances |
| `Ledger.PaperLedger.Acknowledge` | crates/pmkit-paper/src/ledger.rs:701-732 | an acknowledgement opens exactly the placed order under the expected id |
| `Ledger.PaperLedger.Reject` | crates/pmkit-paper/src/ledger.rs:734-758 | a rejection answers an open placement under the id it expects and opens nothing |
| `Ledger.PaperLedger.RecordFill` | crates/pmkit-paper/src/ledger.rs:760-806 | a fill must match an open order; it shrinks or closes it |
| `Ledger.PaperLedger.RecordSettlement` | crates/pmkit-paper/src/ledger.rs:808-834 | a settlement must match the position held |
| `Ledger.PaperLedger.ApplyEntry` | crates/pmkit-paper/src/ledger.rs:630-673 | dispatch over entry kinds |
| `Ledger.PaperLedger.AppendEvent` | crates/pmkit-paper/src/ledger.rs:612-628 | an accepted event is logged, queued and numbered; a refused one is not |
| `Ledger.PaperLedger.FreeCash` | crates/pmkit-paper/src/ledger.rs:323-334 | cash less the notional of all open buys, whatever order the map is visited in |
| `Ledger.PaperLedger.DrainPending` | crates/pmkit-paper/src/ledger.rs:475-477 | hands out the entries not yet stored, once |
| `Ledger.Deduplicate` | crates/pmkit-paper/src/ledger.rs:837-853 | the loop keeps first occurrences and fails on a conflicting repetition |
| `Ledger.SumCash` | crates/pmkit-paper/src/ledger.rs:246-270 | the initial cash found in the entries |
| `Ledger.Restore` | crates/pmkit-paper/src/ledger.rs:246-300 | deduplication, cash, replay and the at-rest check in sequence |
| `Ledger.RefusedCall` | crates/pmkit-paper/src/ledger.rs:612-628 | a refused call changes nothing but a leaked fee |
| `Ledger.DeduplicationRestores` | crates/pmkit-paper/src/ledger.rs:837-853 | exact repetitions inserted anywhere after their first occurrence are removed without trace |
| `Ledger.LeakedFeesExactly` | crates/pmkit-paper/src/ledger.rs:760-806 | replay misses no fee if and only if no live call leaked one |
| `Ledger.ReplayMirrorsLive` | crates/pmkit-paper/src/ledger.rs:612-673 | replaying what any run recorded succeeds and reaches the run's state |
| `Ledger.ReplayEqualsLive` | crates/pmkit-paper/src/ledger.rs:246-300 | for every run and any repetition of its entries, reconstruction succeeds if and only if the ledger is at rest, and then gives the same account, placements, orders, sequence, counter and fill count, except fees leaked by refused calls, and all of it if and only if none leaked |
| `Ledger.OwnEntriesRestore` | crates/pmkit-paper/src/ledger.rs:246-300 | a run's own entries rebuild it exactly if and only if it is at rest and leaked no fee |
| `LedgerLog.SettlementPays` | crates/pmkit-paper/src/ledger.rs:808-834 | a settlement is recorded if and only if it settles exactly the position held; cash rises by exactly the proceeds, profit by proceeds less cost, that position goes and nothing else changes |
| `LedgerLog.FillRecordedIff` | crates/pmkit-paper/src/ledger.rs:760-806 | exactly the fills of an open order's token and side, within its remainder and the holding and with no negative amount, are recorded |
| `LedgerLog.RecordedIsQueued` | crates/pmkit-paper/src/ledger.rs:612-628 | an accepted call adds one numbered entry to the log and to the queue for storage, a refused one to neither |
| `LedgerLog.AccountIsOnRecord` | crates/pmkit-paper/src/ledger.rs:612-673 | over every run cash, fees and every holding are sums over the recorded entries, leaked fees aside |
| `OrderLog.OrdersAreOnRecord` | crates/pmkit-paper/src/ledger.rs:675-806 | over every run each placement expects the id its place in the log gives it and knows whether it was answered; exactly those orders are open that were acknowledged, never cancelled and not filled (or, resting, not completely), each with its placed quantity less all its fills |
| `Reconstruction.DeduplicatedIff` | crates/pmkit-paper/src/ledger.rs:837-853 | deduplication succeeds if and only if no two entries share an id and differ, and gives the first entry of every id, in order |
| `Reconstruction.ReconstructionVerdict` | crates/pmkit-paper/src/ledger.rs:246-300 | reconstruction reports a conflicting duplicate if and only if two entries share an id and differ, otherwise a gap if and only if the distinct entries that replay reaches are not numbered 0, 1, 2 and so on; what it rebuilds holds the first entry of every id, numbered so |
| `Reconstruction.RebuiltIsFundedIff` | crates/pmkit-paper/src/ledger.rs:251-266 | a rebuilt account is bound by its cash if and only if the distinct entries paid some in |
| `Clock.FillsAreRecorded` | crates/pmkit-paper/src/lib.rs:190-197 | a batch of fills that is accepted is on record as it came: one entry each, in order, with its own time and amounts |
| `Clock.CallsAreTimed` | crates/pmkit-paper/src/lib.rs:175-516 | whatever a call records, fills aside, bears its own time, a cancellation the executor's clock; the clock moves exactly with calls that complete |
| `Clock.TurnedAwayIff` | crates/pmkit-paper/src/lib.rs:401-415 | a submission places nothing if and only if it violates the limits or is a buy beyond the cash that a funded account has not promised to open buys |
| `Executor.PaperExecutor.SubmitOrder` | crates/pmkit-paper/src/lib.rs:427-483 | guards, placement, engine submission, answer and recorded fills, with every early exit |
| `Executor.PaperExecutor.UpdateBook` | crates/pmkit-paper/src/lib.rs:175-210 | engine update, recorded fills and closed maturing orders |
| `Executor.PaperExecutor.MaturingDelayed` | crates/pmkit-paper/src/ledger.rs:453-469 | lists exactly the delayed ledger orders of the token that are due |
| `Executor.PaperExecutor.SettlePosition` | crates/pmkit-paper/src/lib.rs:217-232 | a settlement through the ledger, with the clock advanced |
| `Executor.PaperExecutor.CancelOrder` | crates/pmkit-paper/src/lib.rs:485-496 | engine and ledger cancel together |
| `Executor.PaperExecutor.OpenOrders` | crates/pmkit-sim/src/lib.rs:225-247 | lists exactly the open orders, sorted by id |
| `Executor.PaperExecutor.CancelEverything` | crates/pmkit-paper/src/lib.rs:498-516 | every engine order is cancelled in the ledger, in id order |
| `Executor.PaperExecutor.Record` | crates/pmkit-paper/src/lib.rs:175-210 | fills are recorded one by one up to the first refusal |
| `Agreement.UpdateExpected` | crates/pmkit-paper/src/lib.rs:175-210 | every fill of an update is one the ledger can match to an open order |
| `Agreement.UpdateAgrees` | crates/pmkit-paper/src/lib.rs:175-210 | an update keeps engine and ledger in agreement, or stops on a fill that the accounting refuses |
| `Agreement.SubmitAgrees` | crates/pmkit-paper/src/lib.rs:427-483 | so does a submission of an order not yet expired |
| `Agreement.CancelAgrees` | crates/pmkit-paper/src/lib.rs:485-496 | a cancellation always succeeds on both sides |
| `Agreement.CountersStayEqualIff` | crates/pmkit-sim/src/lib.rs:175-178 | a submission keeps both id counters equal if and only if it is refused up front or not yet expired |
| `Agreement.UpdateStaysExactIff` | crates/pmkit-sim/src/lib.rs:357-368 | an update keeps exact agreement if and only if it expires no order that the ledger holds open |
| `Agreement.StepAgrees` | crates/pmkit-paper/src/lib.rs:175-232 | every executor call keeps agreement; apart from settlements only the accounting can make one fail |
| `Agreement.StepStaysAttributed` | crates/pmkit-paper/src/lib.rs:175-232 | every executor call keeps the strategy of each open order the same on both sides |
| `Agreement.EngineAndLedgerAgree` | crates/pmkit-paper/src/lib.rs:427-516 | in every run of orders not expired at submission, engine orders are open in the ledger with equal terms, remainders and strategies, both mint the same next id, and the ledger is at rest; the two sets are equal as long as nothing expires silently |
| `Agreement.GtcRunsAgreeExactly` | crates/pmkit-paper/src/lib.rs:427-516 | with good-til-cancelled orders engine and ledger hold exactly the same orders throughout |
| `Counterexamples.SilentExpiry` | crates/pmkit-sim/src/lib.rs:357-368 | a run in which every call succeeds, the engine drops an expired maker and the ledger keeps it open |
| `Counterexamples.LateSubmission` | crates/pmkit-sim/src/lib.rs:175-178 | an order expired at submission is rejected and leaves the ledger counter one ahead |
| `Divergence.LateOrderPutsAhead` | crates/pmkit-paper/src/ledger.rs:675-699 | every order that is late and passes the guards puts the ledger ahead |
| `Divergence.StepKeepsAhead` | crates/pmkit-paper/src/lib.rs:427-516 | no call lets the engine catch up |
| `Divergence.AcceptedWhileAhead` | crates/pmkit-paper/src/lib.rs:441-447 | an order that the engine then accepts is refused as inconsistent and its placement stays unanswered |
| `Divergence.StepKeepsOrphan` | crates/pmkit-paper/src/ledger.rs:701-758 | no call ever answers an old placement |
| `Divergence.LateOrderIsFatal` | crates/pmkit-paper/src/lib.rs:427-516 | over every run: after one late order each submission the engine accepts fails, and from the first of them on the ledger is never at rest and reconstruction fails |
| `Refusals.RecordingStops` | crates/pmkit-paper/src/lib.rs:190-197 | a batch that is refused stops at one fill: those before it are booked, no order of the others changes in the ledger |
| `Refusals.RefusedUpdate` | crates/pmkit-paper/src/lib.rs:186-204 | after a refused update the orders newly open in the ledger alone are exactly those without a booked fill that expired, whose delay ended, or whose lost fill was for all of them; orders that both keep differ by the lost fill only |
| `Refusals.StepKeepsAbandoned` | crates/pmkit-paper/src/lib.rs:175-516 | no executor call, accepted or refused, closes or changes a resting order that the engine no longer knows |
| `Refusals.LeftForever` | crates/pmkit-paper/src/lib.rs:175-516 | over every run: a resting order that an update leaves open in the ledger alone, refused or expired, is open there in every later state |
| `Counterexamples.RebateStrandsOrder` | crates/pmkit-accounting/src/lib.rs:214-218 | a maker rebate of 0.1: the update fails on a negative value, the engine has filled the order and the ledger keeps it open |
| `Solvency.ReleaseCovers` | crates/pmkit-paper/src/ledger.rs:760-806 | what a fill at its limit or better releases covers what it pays |
| `Solvency.FillKeepsSolvent` | crates/pmkit-paper/src/ledger.rs:760-806 | one recorded fill, accepted or refused, keeps the account solvent |
| `Solvency.StepKeepsBacked` | crates/pmkit-paper/src/lib.rs:401-415 | every executor call keeps every open buy backed by cash plus fees paid |
| `Solvency.FundedRunsStaySolvent` | crates/pmkit-paper/src/ledger.rs:323-334 | in every state of every funded run of nonnegative orders, cash plus cumulative fees covers all open buys, so the free balance is never below minus the fees |
| `Solvency.BuyMovesFreeCash` | crates/pmkit-paper/src/lib.rs:401-415 | exactly how a buy fill moves the free balance; a complete fill at the limit costs it the fee |
| `Solvency.SaleMovesFreeCash` | crates/pmkit-paper/src/ledger.rs:760-806 | exactly how a sale moves the free balance: proceeds less fee, with nothing released |
| `Solvency.FillKeepsBalanceIff` | crates/pmkit-paper/src/ledger.rs:323-334 | a booked fill leaves the free balance at or above zero if and only if its fee is at most the balance plus what the fill releases over its price, or earns |
| `Counterexamples.FeeOverdraws` | crates/pmkit-paper/src/lib.rs:401-415 | ten of cash, twenty bought at one half with a fee of one: accepted, and the free balance is minus one |
| `Restart.RebuildEngine` | crates/pmkit-paper/src/ledger.rs:543-606 | the loop that submits every past placement again and closes or trims it |
| `Restart.ResubmitInto` | crates/pmkit-paper/src/ledger.rs:548-602 | one placement submitted again, with the divergence check |
| `Restart.CloseReplayed` | crates/pmkit-paper/src/ledger.rs:864-881 | cancels, expires or drains what a placement that is no longer open left in the engine |
| `Restart.RunIsLive` | crates/pmkit-paper/src/lib.rs:175-232 | the ledger of any executor run, failures included, is a ledger that replay is proved about |
| `Restart.OpenShape` | crates/pmkit-paper/src/ledger.rs:543-606 | an order still open at rest is a maker, or a taker waiting out the latency, and was not expired when placed |
| `Restart.ResubmitStep` | crates/pmkit-paper/src/ledger.rs:548-602 | a safe step, whatever the latency and limits, restores the next placement if it is open and leaves no trace otherwise |
| `Restart.RebuildRestoresIff` | crates/pmkit-paper/src/ledger.rs:543-606 | the rebuilt engine holds exactly the ledger's open orders, makers resting and takers delayed, with their remainders and the ledger's next id, if and only if every open remainder is within the limits and the empty book of every closed taker spares the open orders placed before it on its market |
| `Restart.RebuildInventsNothing` | crates/pmkit-paper/src/ledger.rs:543-606 | whatever latency and limits, a rebuild that succeeds holds only orders open in the ledger, under their own ids with their terms and remainders |
| `Restart.PlainIsRestorable` | crates/pmkit-paper/src/ledger.rs:543-606 | without latency and limits every ledger is restorable |
| `Restart.UnsafeLimit` | crates/pmkit-paper/src/ledger.rs:558-575 | a remainder beyond the limits mints no id |
| `Restart.UnsafeSweep` | crates/pmkit-paper/src/ledger.rs:864-881 | a closed taker's empty book loses every open order it reaches |
| `Restart.LaterSteps` | crates/pmkit-paper/src/ledger.rs:548-602 | what a rebuild has lost it never regains, and it mints at most one id per placement |
| `Counterexamples.RestartLosesWaitingOrder` | crates/pmkit-paper/src/ledger.rs:864-881 | latency ten, orders at 0 and 5, the second cancelled: the ledger holds the first, the rebuilt engine does not |
| `Restart.RestartRestoresEngine` | crates/pmkit-paper/src/ledger.rs:543-606 | after any run, reconstruction from the stored entries succeeds, and the rebuild restores its orders if and only if the ledger is restorable, always so without latency and limits; they are the live orders (strategies aside) when nothing expired silently |
| `Restarts.RestoredAgrees` | crates/pmkit-paper/src/lib.rs:148-168 | a restored engine agrees exactly with the ledger it was rebuilt from, strategies aside |
| `Restarts.ReopenContinues` | crates/pmkit-paper/src/lib.rs:148-168 | a restorable account reopens from any repetition of its entries with the same ledger and an engine in exact agreement, even where orders had expired silently before |
| `Restarts.AgreeThroughRestarts` | crates/pmkit-paper/src/lib.rs:148-232 | over every life with any number of restarts engine and ledger agree and the ledger is at rest |
| `Restarts.SolventThroughRestarts` | crates/pmkit-paper/src/lib.rs:148-232 | over every such life of nonnegative orders the free balance is never below minus the fees |
| `Archive.ObjectStore.PutManifest` | crates/pmkit-archive/src/lib.rs:80-80 | a put replaces the manifest or changes nothing |
| `Archive.ObjectStore.CompleteMultipart` | crates/pmkit-archive/src/lib.rs:114-119 | completion assembles the uploaded parts under its key only |
| `Archive.Recover` | crates/pmkit-archive/src/lib.rs:340-382 | if no store call fails, corruption is reported of exactly the unreadable stores and readable ones are accepted; it is unavailable if and only if a call failed; pending uploads are aborted one by one, and nothing else is touched |
| `Archive.Open` | crates/pmkit-archive/src/lib.rs:238-247 | any store can be opened or is refused; one that this sink wrote is never corrupt, whatever crashed, and the session starts from exactly its durable bytes |
| `Archive.DurableRawSink.AppendRecord` | crates/pmkit-archive/src/lib.rs:263-275 | below the threshold the store is not called; at it the segment is flushed, and then all but fewer than a segment's worth of nonempty records are in the durable bytes |
| `Archive.DurableRawSink.FlushSegment` | crates/pmkit-archive/src/lib.rs:283-331 | it fails if and only if a store call failed permanently or as often in a row as is allowed, and tries on until then; otherwise it commits, if the parts can be numbered; durable bytes grow by exactly the buffer or not at all, and a failure keeps the buffer and its record count |
| `Archive.DurableRawSink.UploadParts` | crates/pmkit-archive/src/lib.rs:292-306 | the uploaded parts assemble to the buffer, whatever is retried |
| `Archive.DurableRawSink.PutWithRetry` | crates/pmkit-archive/src/lib.rs:313-330 | the commit happens at the manifest put and nowhere else |
| `Archive.DurableRawSink.UploadWithRetry` | crates/pmkit-archive/src/lib.rs:384-405 | retries of one part leave the other parts alone |
| `Archive.SegmentKeysDistinct` | crates/pmkit-archive/src/lib.rs:287-288 | no two segments share a key |
| `Archive.CommitIsSafe` | crates/pmkit-archive/src/lib.rs:313-330 | committing a stored segment keeps the store sound and appends its bytes |
| `Archive.CutIsSession` | crates/pmkit-archive/src/lib.rs:283-331 | a run of the sink cut after any store operation is a session, and what it leaves can be opened again |
| `Archive.RunSession` | crates/pmkit-archive/src/lib.rs:238-331 | recovery, appends and a crash at any point form a session over the store found |
| `Archive.RunSessions` | crates/pmkit-archive/src/lib.rs:238-382 | any number of such processes over one store form a history |
| `Archive.CommittedForever` | crates/pmkit-archive/src/lib.rs:283-331 | across any number of sessions and crashes no operation ever rewrites a committed segment |
| `Archive.CrashesLoseOnlySuffixes` | crates/pmkit-archive/src/lib.rs:340-382 | after any number of crashes the store is sound and its bytes are those found first followed, session by session, by a prefix of the records given |
| `Archive.UnnoticedPutCorrupts` | crates/pmkit-archive/src/lib.rs:313-330 | if a put took effect but was reported as failed, the sink's next flush would complete under the committed key, and a crash before its put is found corrupt if and only if the digests differ |
| `SourceMerge.KeysAreTotallyOrdered` | crates/pmkit-event/src/feed.rs:39-83 | key comparison is antisymmetric, transitive and agrees with equality |
| `SourceMerge.KeyOrder` | crates/pmkit-event/src/feed.rs:39-83 | keys are ordered field by field: time, rank, then stream text, epoch and frame, or trade id, with frames before trades |
| `SourceMerge.OrderRefinesTime` | crates/pmkit-event/src/feed.rs:39-50 | the key order refines the order of timestamps |
| `SourceMerge.BeforeIsStrictOrder` | crates/pmkit-polymarket/src/orbscan.rs:572-578 | key then stream is a strict total order on pending events |
| `SourceMerge.LeastPending` | crates/pmkit-polymarket/src/orbscan.rs:507-507 | the heap yields the least pending event, earlier streams winning ties |
| `SourceMerge.FirstEvents` | crates/pmkit-polymarket/src/orbscan.rs:496-505 | every stream is opened at its first event, or the replay fails |
| `SourceMerge.Replay` | crates/pmkit-polymarket/src/orbscan.rs:465-541 | on any streams watermarks strictly increase; on sorted ones the regression error is unreachable, no event follows a watermark at or above its time, each event but the first is announced as tightly as possible, and the replay succeeds if and only if no stream fails and at most one event is at the earliest instant, with every event out exactly once in order and the window end as its last signal |
| `SourceMerge.MergeIsUnique` | crates/pmkit-polymarket/src/orbscan.rs:496-541 | the merged events are determined by the streams alone |
| `BookHistory.ParseLevels` | crates/pmkit-polymarket/src/orbscan.rs:941-957 | succeeds exactly on readable levels without repeated prices, and holds exactly those |
| `BookHistory.ToOrderBook` | crates/pmkit-polymarket/src/orbscan.rs:922-937 | bids strictly descend, asks strictly ascend, and both list exactly the levels kept |
| `BookHistory.LevelIsItsLastChange` | crates/pmkit-polymarket/src/orbscan.rs:895-920 | a folded level is what its last price change left, or the snapshot's |
| `BookHistory.FoldIsSound` | crates/pmkit-polymarket/src/orbscan.rs:895-920 | sizes stay positive and prices within [0, 1] |
| `BookHistory.BestPricesAgree` | crates/pmkit-book/src/book.rs:11-20 | on a published book the first level is what a scan of all levels finds |
| `BookHistory.CheckPage` | crates/pmkit-polymarket/src/orbscan.rs:715-737 | accepts a page exactly when identity, time, cursor and delta checks hold of every event after the one before it |
| `BookHistory.TokenReplay.NextDelta` | crates/pmkit-polymarket/src/orbscan.rs:693-748 | price changes come out once, in the order of the provider's pages, and fail exactly when the next page cannot be taken |
| `BookHistory.TokenReplay.FetchPage` | crates/pmkit-polymarket/src/orbscan.rs:701-747 | takes a page if and only if it is present, follows what was read before and names a new cursor, and then queues exactly its items |
| `BookHistory.TokenReplay.NextBookUpdate` | crates/pmkit-polymarket/src/orbscan.rs:665-691 | the published books stay the history of the provider's price changes, growing by the one returned; at the end they cover the whole feed, and an error means the feed cannot be read (or the frame counter is used up) |
| `BookHistory.TokenReplay.ReachWindow` | crates/pmkit-polymarket/src/orbscan.rs:666-680 | the baseline folds exactly the price changes of the feed that precede the window |
| `BookHistory.TokenReplay.ReplayAll` | crates/pmkit-polymarket/src/orbscan.rs:665-748 | read to the end, a token says the history of the whole feed after its snapshot, and it gets there if and only if the feed is readable, frame counter permitting |
| `BookHistory.EnvelopesAreFaithful` | crates/pmkit-polymarket/src/orbscan.rs:757-791 | every published envelope carries the token's own market and outcome, lists exactly the folded levels at the key's time, and has rank 0, epoch 0 and its frame number |
| `BookHistory.FeedIsOurs` | crates/pmkit-polymarket/src/orbscan.rs:715-737 | only usable price changes of this token inside the time asked for are ever read |
| `BookHistory.CursorsAreNew` | crates/pmkit-polymarket/src/orbscan.rs:706-747 | a page taken repeats no cursor, ends the feed if empty, and names a page not asked for before |
| `BookHistory.UsableSnapshotIff` | crates/pmkit-polymarket/src/orbscan.rs:603-662 | which snapshots a replay can start from, field by field |
| `BookHistory.WholeFeedIsUnique` | crates/pmkit-polymarket/src/orbscan.rs:701-714 | a provider has one feed after a cursor |
| `BookHistory.BadPageBreaksFeed` | crates/pmkit-polymarket/src/orbscan.rs:712-737 | a page that cannot be taken makes the whole feed unreadable |
| `BookHistory.Open` | crates/pmkit-polymarket/src/orbscan.rs:603-662 | a replay opens exactly on one usable snapshot and starts from its levels |
| `BookHistory.HistoryGrows` | crates/pmkit-polymarket/src/orbscan.rs:681-691 | the next book is the fold up to and including its event |
| `BookHistory.HistoryIsWellFormed` | crates/pmkit-polymarket/src/orbscan.rs:922-937 | every published book is sound, best level first, with matching best prices |
| `BookHistory.HistoryIsSorted` | crates/pmkit-polymarket/src/orbscan.rs:757-795 | published books have strictly increasing keys inside the window |
| `BookHistory.ValidIsPublished` | crates/pmkit-polymarket/src/orbscan.rs:665-691 | what a token has said is the history of the price changes it has applied, a prefix of the pages read |
| `BookHistory.TokenStreamsAreSorted` | crates/pmkit-polymarket/src/orbscan.rs:496-541 | token histories meet the assumption of the merge |
| `BookHistory.TokenStreamsStayAboveFloor` | crates/pmkit-polymarket/src/orbscan.rs:517-524 | in a window that starts after the earliest instant token histories never meet the watermark underflow, so their merge ends well exactly when every stream does |
| `AbiDecoder.DynamicWordsFacts` | crates/pmkit-store/src/decoder.rs:395-418 | an accepted array sits at the expected offset, after a word holding its length |
| `AbiDecoder.HexRoundTrip` | crates/pmkit-store/src/decoder.rs:351-361 | a number survives being written as a word |
| `AbiDecoder.ValueRoundTrip` | crates/pmkit-store/src/decoder.rs:351-361 | reading a word loses only the case of its digits |
| `AbiDecoder.DecodeAfterEncode` | crates/pmkit-store/src/decoder.rs:190-237 | decoding the canonical encoding of any transfers returns them |
| `AbiDecoder.EncodeAfterDecode` | crates/pmkit-store/src/decoder.rs:190-237 | accepted data is, up to hex case, the canonical encoding of its result |
| `AbiDecoder.DecodingIsInjective` | crates/pmkit-store/src/decoder.rs:190-237 | equal results come from data equal up to case |
| `AbiDecoder.BatchIgnoresCase` | crates/pmkit-store/src/decoder.rs:190-237 | the case of hex digits never changes the result |
| `AbiDecoder.AcceptedIff` | crates/pmkit-store/src/decoder.rs:190-237 | data is read as given transfers if and only if it spells their canonical encoding |
| `AbiDecoder.TopicIff` | crates/pmkit-store/src/decoder.rs:335-344 | a topic is read as an address if and only if it is that address padded with zeros |
| `AbiDecoder.BatchLogIff` | crates/pmkit-store/src/decoder.rs:190-237 | which four-topic logs are accepted, and as what |
| `AbiDecoder.PositionIff` | crates/pmkit-store/src/decoder.rs:239-266 | a position change is accepted if and only if collateral, offset, amount, length and partition fill the data exactly |
| `AbiDecoder.PositionLogIff` | crates/pmkit-store/src/decoder.rs:239-266 | which four-topic position-change logs are accepted, and as what |
| `SegmentParts.RollRows` | crates/pmkit-store/src/market_segment_parts.rs:58-91 | succeeds if and only if every row fits and no running count passes the address space; parts are nonempty, within the limit, concatenate to the rows, and no split into parts within the limit has fewer |
| `SegmentParts.SmallLimitsAreCountable` | crates/pmkit-store/src/market_segment_parts.rs:72-83 | fitting rows never pass the address space under limits up to half of it |
| `SegmentParts.FullPartsAreFewest` | crates/pmkit-store/src/market_segment_parts.rs:58-91 | parts that could not take one more row are the fewest possible |
| `SegmentParts.EncodedSize` | crates/pmkit-store/src/market_segment_parts.rs:93-101 | rows encode to exactly the bytes counted for them |
| `SegmentParts.RowsThenNewlines` | crates/pmkit-store/src/market_segment_parts.rs:93-101 | a segment is written if and only if all rows are encodable; each row stands after the bytes counted for the rows before it, and a newline follows it |
| `SegmentParts.PartsEncodeTheWhole` | crates/pmkit-store/src/market_segment_parts.rs:93-101 | the encoded parts laid end to end are the encoding of all rows |
| `Sequences.Chunks` | crates/pmkit-polymarket/src/discovery.rs:173-180 | chunks concatenate to the input and all but the last are full |
| `Sequences.SortedIsAscending` | crates/pmkit-polymarket/src/discovery.rs:135-135 | sorted means ascending in dictionary order |
| `Sequences.SortForgetsOrder` | crates/pmkit-polymarket/src/discovery.rs:135-135 | sorting by a telling key gives one result for all permutations |
| `Discovery.CheckMarkets` | crates/pmkit-polymarket/src/discovery.rs:136-166 | the loop finds the first fault, or collects all tokens in order |
| `Discovery.CheckOutcomes` | crates/pmkit-polymarket/src/discovery.rs:154-165 | accepts exactly nonblank, distinct outcomes |
| `Discovery.AdjacentPair` | crates/pmkit-polymarket/src/discovery.rs:167-172 | comparing neighbours of a sorted list finds any repetition |
| `Discovery.NormalizeSnapshot` | crates/pmkit-polymarket/src/discovery.rs:130-189 | the loops compute the snapshot or the error of the listing |
| `Discovery.SnapshotIff` | crates/pmkit-polymarket/src/discovery.rs:130-189 | when a listing has a snapshot, and that its lanes are identical shards of bounded size concatenating to the sorted distinct tokens of all active markets |
| `Discovery.SnapshotMarketsAreUsable` | crates/pmkit-polymarket/src/discovery.rs:115-166 | every market of a snapshot is active, named, dated, of some series and has named outcomes |
| `Discovery.ErrorTells` | crates/pmkit-polymarket/src/discovery.rs:135-172 | an error describes the first wrong market, all earlier ones being good, or two markets share a token |
| `Discovery.DiscoverSnapshot` | crates/pmkit-polymarket/src/discovery.rs:74-113 | for every provider: which pages are read, and that it ends with their snapshot at a short page or with exactly what is wrong with the next answer; for one that holds a listing with distinct ids, every page size gives the result of the listing itself |
| `Discovery.FreshPage` | crates/pmkit-polymarket/src/discovery.rs:100-102 | such a provider never triggers the repeated-page error |
| `Discovery.PagingAndOrderAreIrrelevant` | crates/pmkit-polymarket/src/discovery.rs:74-189 | every permutation of the listing gives the same snapshot or the same error |
| `Collector.PlanShards` | crates/pmkit-collector/src/lib.rs:179-187 | shards concatenate to the subscriptions and all but the last are full |
| `Collector.ConnectionIdsAreUnique` | crates/pmkit-collector/src/lib.rs:385-386 | ids differ for different shards or epochs |
| `Collector.ShardsCount` | crates/pmkit-collector/src/lib.rs:350-402 | in every run a shard counts its consecutive failures, connections and reconnects, and gives up with exactly the failure that makes the streak as long as is allowed |
| `Collector.StopsForAReason` | crates/pmkit-collector/src/lib.rs:262-345 | no shard stops and no run is cancelled unless shutdown was asked for, a shard gave up or the writer ended |
| `Collector.FramesAreTakenAsTheyCome` | crates/pmkit-collector/src/lib.rs:385-452 | a frame is taken unchanged, under the id of the connection its shard opened last, and nothing else counts as received |
| `Collector.StepKeepsInv` | crates/pmkit-collector/src/lib.rs:216-454 | every step of every task keeps the invariant: bounded queue, frames in order from connection to tape, attempts counted |
| `Collector.EveryRunKeepsInv` | crates/pmkit-collector/src/lib.rs:216-454 | so it holds in every state of every interleaving |
| `Collector.SuccessLosesNothing` | crates/pmkit-collector/src/lib.rs:303-322 | on success the tape restricted to any connection is exactly what it delivered, in order, and the count covers all frames |
| `Collector.TapeIsAlwaysPrefix` | crates/pmkit-collector/src/lib.rs:238-247 | even when a run fails, the tape holds a prefix of each connection, and the queue never exceeds its capacity |
| `Collector.VerdictIsExact` | crates/pmkit-collector/src/lib.rs:268-322 | a finished run fails if and only if a shard used up its attempts or the writer broke |
| `Collector.ReportedReconnects` | crates/pmkit-collector/src/lib.rs:262-322 | the reported reconnects are all connections opened, less at most one per shard |
| `Collector.ShutdownNeverBlocks` | crates/pmkit-collector/src/lib.rs:417-454 | while a cancelled run is not over some task can step, even with a full channel |
| `Collector.ShutdownFinishes` | crates/pmkit-collector/src/lib.rs:216-322 | from any cancelled state a bounded number of such steps ends the run |
| `Collector.EveryDrainEnds` | crates/pmkit-collector/src/lib.rs:216-322 | however a cancelled run drains, it takes at most the work left and is over when nothing can drain |
| `CanonicalChain.LogStore.Insert` | crates/pmkit-store/src/schema.rs:353-358 | a row is added unless its primary key is present |
| `CanonicalChain.LogStore.WriteSegment` | crates/pmkit-store/src/chain_store.rs:69-121 | row-by-row replacement leaves the old rows up to the ancestor followed by the whole segment; no insert is dropped |
| `CanonicalChain.LogStore.ReplaceSegment` | crates/pmkit-store/src/chain_store.rs:29-42 | replaces exactly the acceptable segments and otherwise changes nothing |
| `CanonicalChain.AcceptedIff` | crates/pmkit-store/src/chain_store.rs:124-184 | on a canonical table exactly those segments are accepted that are of this chain and its contracts, in order throughout with one hash per block, all after an ancestor stored under its hash (block zero on an empty table), with numbers the database can hold |
| `CanonicalChain.ReplacementKeepsCanonical` | crates/pmkit-store/src/chain_store.rs:69-197 | an accepted segment keeps rows ordered, one hash per block and the checkpoint at the last row, except an empty one on an empty table |
| `CanonicalChain.EveryRunIsCanonical` | crates/pmkit-store/src/chain_store.rs:29-42 | every sequence of calls leaves the table canonical or stuck, and canonical once it holds a row |
| `CanonicalChain.NonemptyStartIsCanonical` | crates/pmkit-store/src/chain_store.rs:29-42 | a run that starts with a nonempty segment is canonical ever after |
| `CanonicalChain.EmptyStartIsStuck` | crates/pmkit-store/src/chain_store.rs:149-163 | a run that starts with an empty segment accepts nothing more |
| `CanonicalChain.EmptyFirstSegment` | crates/pmkit-store/src/chain_store.rs:149-163 | an accepted empty first segment, after which every segment is refused |
| `CanonicalChain.RepeatedSegment` | crates/pmkit-store/src/chain_store.rs:149-184 | repeating an accepted segment is accepted, without effect, if and only if the table was not empty before it |
| `CanonicalChain.RootIsPermanent` | crates/pmkit-store/src/chain_store.rs:164-184 | over every later run the first row stays first, and the rows up to and including its block are exactly the same |

## Left out

- Decimal rounding, overflow and scale: amounts are `real`; a division by zero is the one arithmetic failure modelled.
- Wrap-around of the 64-bit order, sequence, epoch and frame-count counters, which are natural numbers; the frame sequence of a token is the exception and keeps its overflow error.
- JSON and wire formats (crates/pmkit-paper/src/wire.rs, crates/pmkit-manifest/src/lib.rs): entries, manifests and rows are typed values, and a manifest read back is the manifest put.
- Error messages: an error is its kind, with the identifiers that the program branches on.
- Network and venue clients, timers, sleeps, heartbeats, task panics and mutex poisoning; a failed heartbeat is a disconnect.
- Fee schedules (crates/pmkit-sim/src/fee.rs) and venue limits are arbitrary functions, so maker rebates occur as negative fees, which the accounting refuses.
- `Restart.RebuildRestoresIff`: the strategy of an order is not restored by the program, so the rebuilt orders carry none.
- `Executor.PaperExecutor.SubmitOrder`: does not show that a closed fill receiver turns a call that has already changed the account into an error; delivery of fills is not modelled.
- `Executor.PaperExecutor.UpdateBook`: the same, for fills that a book update triggers.
- `Visits.BookedInAnyOrder`: leaves out positions and realized profit, which the order can change; `Visits.BookedVisitsShare` relates them.
- `Visits.LedgerSeesNoOrder`: leaves them out too, and is not exact; `Visits.EveryVisitBooksIff` is.
- `Restarts.AgreeThroughRestarts`: strategies are not compared, because the program does not restore them.
- `BookHistory.TokenReplay.FetchPage`: a failed fetch discards the replay, so its partial updates are not described; the provider is a finite table of pages.
- `SourceMerge.Replay`: a closed sink, market selection and the end-of-stream signal are not modelled; streams are lists of updates that may end in an error.
- Upload ids in the archive are numbers and backoff delays are dropped; closing a sink is one more flush.
- Rows of other chains in the log table: the table holds one chain, and wallet reconstruction from it is not modelled.
- The remaining event decoders of crates/pmkit-store/src/decoder.rs, which read fixed words only.
- Fair values and signals (crates/pmkit-math), which rest on unmodelled transcendental approximations.
- The Binance cache quota, live reconciliation, run specifications and configuration builders.
