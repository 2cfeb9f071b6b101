# Verified model of the hedging engine

A Dafny model of a two-venue quoting engine. The engine rests maker orders on one exchange (BitTrade),
records their fills durably, and hedges every fill on a second exchange (GMO). `dafny verify dfyconfig.toml`
checks everything. Quantities, prices and money are exact reals, times are integers (reals in the rate
limiter), fee rates are fractions in `Pricing` and edges are fractions in `QuoteEngine`.

## What is modelled

- **Durable tables** (`Domain`, `Store`, `StateStore`). Orders, fills, hedge intents and hedge submissions.
  Each locked transaction is a function on table values in `Store`, and a method of the class `StateStore`
  is proved equal to it.
- **Hedge protocol** (`Allocation`, `Ledger`, `HedgeProtocol`, `HedgeInvariant`, `HedgeVenue`, `HedgeAccount`,
  `HedgeSafety`, `HedgeFutures`, `HedgeRetries`, `SingleAttempt`, `OverHedgeWitness`, `DoubleCredit`). A state
  machine over the tables, the worker's volatile tasks and the exchange account: client fills, grouping,
  attempts, prepared SOK and FAK submissions, accepted, refused and lost requests, executions inside and after
  the search window, acknowledgement, reports, finishing, settling, crashes, and a recovery that reads the
  executions, then the book, and acts on its answer later. Every event is one atomic step and any interleaving is
  allowed.
- **Fills** (`Fills`, `RestSweep`). The order machine, idempotent and order-independent ingestion, the repair
  of fills without intents, and the meeting of pushed and polled reports.
- **Lost submissions** (`OrphanSearch`, `OrphanMatch`, `HedgeSearch`). Paging through exchange history, deciding
  which order, if any, belongs to a submission without an order id, and the link to the protocol's two search steps.
- **Paper matcher** (`PaperQueue`, `PaperMatcher`, `PaperEngine`, `PaperRuns`, `PaperLedger`,
  `PaperOvertaken`, `PaperExposure`). Price-time matching of prints with queue-ahead volume, its runs, and its interleaving
  with the gateway and the durable tables.
- **Simulated hedge exchange** (`Picks`, `PaperVenue`, `PaperVenueRuns`, `FakeGmo`, `BookWalk`). The order
  table, the index of resting post-only orders, pruning, balances, prints and book walks.
- **Gates and limits** (`RiskGate`, `ArmingHistory`, `Recovery`, `TokenBucket`, `RateLimiter`).
- **Orders and quotes** (`ExecutionGateway`, `QuoteLoop`, `QuoteEngine`, `Pricing`).

`Sums` and `Picks` hold the few general laws about sums and filters.

## What the proofs found

- **Over-hedging.** `NeverOverHedged` holds for every run whose answers from the exchange are complete, step by
  step (`HedgeVenue.SafeEvent`): an order whose id is not known yet is accepted and executed inside its search
  window; a search is made once no request is under way and reads back to the start of the window, its order does
  not execute between the reading of the executions and that of the book, and executions are taken only of an order
  that is off the book; a report lists every execution of its order. The program checks none of this. For every
  quantity q and 0 < x < q there are runs that hedge 2q - x for fills of q: recovery settles a lost order from the
  executions it finds while the order rests (`RestingOrderSettled`), or misses those stamped after the window
  (`LateRestUncounted`, and `LateExecutionAbsent` with 2q), or those made between its two requests
  (`RestExecutesMeanwhile`, and `ExecutionMissedMeanwhile` with 2q, both inside the window and on covered listings),
  or, with nothing lost at all, the executions of an immediate order are listed before the rest executes and the
  status read afterwards is terminal (`StaleReport`). What a settled submission was credited is final exactly when its
  order can execute nothing more and the credit is all it executed (`CreditIsFinalIff`). Over-hedging is possible
  at all exactly when an intent may be attempted twice (`OverHedgeIff`): one attempt is safe in every run
  (`OneAttemptIsSafe`).
- **An order can be credited twice.** The search compares candidates with one submission only
  (backend/engine/hedge_worker.py:890-909) and does not exclude order ids that other submissions already own. In
  `CreditedTwice` one executed order of q pays for two fills of q although every answer is complete. If every lost
  order is compared with the ids already bound before it is bound, the intents are never credited more than the
  account executed (`NeverOverCredited`), and no id is bound twice exactly when that is done (`RunIds`).
- **A late row in front of a swept one is lost.** REST sweeps accumulate from the start of the list
  (backend/engine/fill_tracker.py:307-330); a row inserted before one already recorded is never fully counted
  (`LateTradeLost`). Rows that only extend the list are, in any interleaving with pushed reports (`RunConverges`).
- **Paper cancel-all can overtake placing.** It marks a PLACING order UNKNOWN, clears the matcher, and may later
  write CANCELED over the order that placing has meanwhile put on the book (`CanceledThenFilled`). A CANCELED order
  is final exactly when it is neither active in the matcher nor between opening and placing
  (`CanceledFinalIff`).
- **An order can be stranded in NEW.** `open_orders` does not list NEW, so an order created just before a crash
  is never confirmed or cancelled (`StrandedForever`), and a later pass places another beside it
  (`StrandedBesideLive`). That is the only way to two live orders of one symbol and side: without a further crash
  some future has two exactly when an order of theirs is in NEW and is not the one the loop is creating
  (`TwoLiveIff`). A crash can leave such an order for any symbol and side at any time (`CrashStrands`). No request
  was sent for it.
- **The profitability check is not quite enough for sales.** Products of rates come off the margin
  (`SellTight`, `ValidatedSaleLoses`).
- **The buying budget is checked at the level's price**, up to one tick below the price quoted (`BuyOverBudget`;
  `BuyBudgetIff`: at the price itself it holds exactly when the volume counted in front of the chosen level fits at
  the smaller of the boundary and one tick above that level).
- **A kill that a restart finds only by its sentinel is stored by the next write, not by the restart.** It survives
  the next restart exactly when something is written in between (`SentinelKillIff`); the start of the service
  goes on to recovery, whose first act writes (`StartupStoresKill`), so only a stop between the two loses it.
- **A failed recovery run leaves an earlier completion standing**: approvals alone arm the gate afterwards exactly
  when it had recovered before and is not killed (`FailedRunArmableIff`).

## What is assumed of the surroundings

- Store writes succeed, and one database holds one trading mode.
- The exchange accepts a request at most once and executes at most an order's quantity; a structured rejection
  means that nothing was accepted. The record of an ended post-only order carries all it executed. Listings and
  execution reports show nothing that did not happen. A listing that reaches back to the start of the search window
  shows all there is at the moment it is read; the executions and the book are read at different moments, and what
  happens in between, and how much an uncovered listing or a report misses, is part of each run. Other orders of the
  account may exist and execute, and recovery may bind to them.
- The clock of the rate limiter does not run backwards.
- A single exchange listing does not change while it is paged, and lists newest first, wherever a row says so.
- Depth levels have sizes that are not negative; the profit results need positive ones, as the feeds provide.

## Model

| member | source | states |
|---|---|---|
| HedgeSafety.NeverOverHedged | backend/engine/hedge_worker.py:304-454 | In every run of fills, attempts, prepares, sends, lost responses, acknowledgements, executions, reports, finishes, crashes, searches and recoveries whose answers are complete, the exchange never executes more, per symbol and side, than the hedge intents ask for |
| HedgeVenue.FoundRight | backend/engine/hedge_worker.py:897-922 | A search that reads the executions and later the book, both back to the window's start, is right if its order does not execute in between: no order, or another order, is answered only if the own one executed nothing and never will, and executions of the own order are all it executed and ever will |
| OverHedgeWitness.RestingOrderSettled | backend/engine/hedge_worker.py:906-922 | For every q and 0 < x < q: recovery settles a lost order that executed x and still rests; the rest is hedged again and executed twice, 2q - x in all for fills of q |
| OverHedgeWitness.LateExecutionAbsent | backend/engine/hedge_worker.py:863-905 | For every q: a lost order that executes after its search window is declared absent and hedged again, 2q in all |
| OverHedgeWitness.LateRestUncounted | backend/engine/hedge_worker.py:863-872 | For every q and 0 < x < q: of a lost order only the x executed inside the window is credited, and the rest is hedged again, 2q - x in all |
| OverHedgeWitness.ExecutionMissedMeanwhile | backend/engine/hedge_worker.py:843-905 | For every q: a lost order executes, inside the window, between the reading of the executions and that of the book; both listings are covered, it is declared absent and hedged again, 2q in all |
| OverHedgeWitness.RestExecutesMeanwhile | backend/engine/hedge_worker.py:843-922 | For every q and 0 < x < q: the executions read show x, the rest executes before the book is read; x is credited and the rest hedged again, 2q - x in all |
| OverHedgeWitness.StaleReport | backend/engine/hedge_worker.py:1037-1069 | For every q and 0 < x < q: the executions of an immediate order are listed before its rest executes and the status is read after it; x is credited and the rest hedged again, 2q - x in all, with nothing lost |
| OverHedgeWitness.OverHedgeIff | backend/engine/hedge_worker.py:314-320 | Some run executes more than its intents ask for if and only if an intent may be attempted twice |
| SingleAttempt.OneAttemptIsSafe | backend/engine/hedge_worker.py:314-320 | With at most one attempt for each intent no run, whatever the exchange answers, executes more than the intents ask for |
| HedgeFutures.CreditIsFinalIff | backend/engine/hedge_worker.py:183-194 | What a settled submission was credited is what its order executes in every future, or in every future with complete answers, if and only if the order can execute nothing more and the credit is all it executed |
| HedgeFutures.SpentStays | backend/engine/hedge_worker.py:183-194 | A settled row never changes, and what its order executed is final once it can execute no more |
| HedgeInvariant.StepInv | backend/engine/hedge_worker.py:238-302 | Every step of the protocol keeps the invariant: unresolved submissions hold pairwise disjoint intents and exactly their remaining quantity, running groups are disjoint, and each group owns what its stage claims |
| HedgeVenue.VenueStepOk | backend/engine/hedge_worker.py:619-725 | Every step with a complete answer keeps the exchange within what each submission claims, the SOK-then-FAK remainder and the recovery steps included, whatever the exchange does between the two requests of a search but execute its order |
| HedgeInvariant.RunInv | backend/engine/hedge_worker.py:48-302 | The invariant holds in every reachable state |
| HedgeSafety.LedgerExact | backend/engine/state_store.py:545-602 | In every reachable state filled quantity, notional and fee over intents equal the sums over RESOLVED submissions, no intent is over-filled, and HEDGED means filled completely |
| HedgeSafety.VenueAgrees | backend/engine/state_store.py:545-602 | With complete answers and ids checked before binding, once nothing is unresolved the intents are credited what the submissions' orders executed, up to what other orders of the account did |
| HedgeSafety.NeverOverCredited | backend/engine/hedge_worker.py:183-194 | In every run, with complete answers or not, in which a lost order is bound only if no other submission has its id, the intents are credited no more than the account executed |
| HedgeAccount.RunIds | backend/engine/hedge_worker.py:183-187 | After a run no order id is bound to two submissions if and only if every lost order was checked before it was bound |
| HedgeAccount.AccountStep | backend/engine/hedge_worker.py:183-194 | Every step keeps: a bound submission names an order of the account under its own symbol and side and is credited no more than that order executed |
| DoubleCredit.CreditedTwice | backend/engine/hedge_worker.py:890-922 | For every q: with complete answers, an order of q that already paid for one fill is found for another lost submission and credited again, 2q for q executed |
| HedgeSafety.DeltaIdentity | backend/engine/state_store.py:680-707 | Signed client fills plus signed hedge fills equal minus (pending hedge exposure plus the signed remainder of ESCALATE intents), in every reachable state |
| HedgeRetries.BoundedRetries | backend/engine/hedge_worker.py:314-320 | No intent enters HEDGING more than max_attempts times in any run |
| HedgeRetries.EntriesCounted | backend/engine/state_store.py:410-430 | The attempts column counts exactly the entries into HEDGING along a run |
| HedgeRetries.StatusChangesBounded | backend/engine/domain.py:45-59 | After any run, without new fills only finitely many status changes remain, bounded by a rank over attempts and status |
| HedgeRetries.RankBoundsChanges | backend/engine/domain.py:53-59 | Each status change uses up rank, so the rank bounds the number of changes |
| HedgeRetries.EndedStays | backend/engine/domain.py:45-59 | An intent that is HEDGED or escalated stays so in every run |
| Ledger.FinishExactIff | backend/engine/state_store.py:545-602 | Finishing a submission keeps the ledger exact if and only if the fill fits the remaining quantity of its intents and an empty fill carries no money |
| Ledger.FinishKeeps | backend/engine/state_store.py:545-602 | Finishing keeps the table invariant: reservations stay disjoint and covered, amounts stay exact |
| Ledger.FinishIdempotent | backend/engine/state_store.py:556-562 | Finishing a RESOLVED submission again changes nothing, whatever it reports |
| Ledger.PrepareKeeps | backend/engine/state_store.py:464-510 | Preparing a submission over intents that no unresolved one holds keeps the table invariant if and only if it asks for exactly their remaining quantity |
| Ledger.StatusKeeps | backend/engine/state_store.py:611-629 | Marking a submission absent or escalated keeps the invariant |
| Ledger.TransitionKeeps | backend/engine/state_store.py:410-430 | Moving an intent along its status table keeps the table invariant if and only if it does not declare a partly filled intent HEDGED |
| Ledger.RecordKeeps | backend/engine/state_store.py:290-347 | A client fill with its hedge intent keeps the hedge ledger exact |
| Ledger.DedupeDistinct | backend/engine/state_store.py:464-480 | The intent list of a submission has no repetitions and loses no intent |
| Allocation.AllocateGreedy | backend/engine/state_store.py:571-600 | Allocation is greedy: an intent receives something only if every earlier intent in the list is completely filled |
| Allocation.AllocateFilled | backend/engine/state_store.py:571-600 | The quantities credited add up to the smaller of the fill and the remaining quantity |
| Allocation.AllocateNotional | backend/engine/state_store.py:571-600 | The notional credited is proportional: credited quantity times the average price |
| Allocation.AllocateFee | backend/engine/state_store.py:571-600 | The fee credited is proportional to the credited quantity |
| Allocation.AllocateOtherKeys | backend/engine/state_store.py:571-600 | Intents of other symbols and sides keep their amounts |
| Allocation.AllocateRows | backend/engine/state_store.py:571-600 | Allocation changes only the listed intents and never their identity |
| StateStore.StateStore.CreateOrder | backend/engine/state_store.py:248-259 | Creating an existing client order changes nothing and returns it; a new one starts NEW and empty |
| StateStore.StateStore.TransitionOrder | backend/engine/state_store.py:265-279 | The row moves only along the order table, an unknown order is an error, and refused moves change nothing |
| StateStore.StateStore.RecordCumulativeFill | backend/engine/state_store.py:290-347 | Fill row, order row and hedge intent change in one transaction; a known trade changes nothing |
| StateStore.StateStore.BackfillMissingHedgeIntents | backend/engine/state_store.py:352-382 | Every positive fill without an intent gets one, in fill order |
| StateStore.StateStore.TransitionHedge | backend/engine/state_store.py:410-430 | The intent moves along the hedge table and counts entries into HEDGING |
| StateStore.StateStore.PrepareHedgeSubmission | backend/engine/state_store.py:464-510 | A submission row is written only for HEDGING intents of one group that no unresolved submission holds |
| StateStore.StateStore.AcknowledgeHedgeSubmission | backend/engine/state_store.py:517-534 | Binding the exchange order id once; a different id is refused |
| StateStore.StateStore.FinishHedgeSubmission | backend/engine/state_store.py:545-602 | The allocation loop over the intents equals the recursive greedy allocation |
| StateStore.StateStore.SetHedgeSubmissionStatus | backend/engine/state_store.py:611-629 | Only unresolved submissions become ABSENT or ESCALATED |
| StateStore.StateStore.PendingHedgeExposure | backend/engine/state_store.py:680-694 | Per symbol, the signed remaining quantity of pending intents |
| StateStore.StateStore.PendingHedgeSubmissions | backend/engine/state_store.py:634-641 | Exactly the unresolved submissions are returned, each once, by submission time |
| StateStore.StateStore.EscalatedHedges | backend/engine/state_store.py:699-707 | Exactly the escalated intents are returned, each once, in the order of their rows |
| Fills.OrderMachine | backend/engine/domain.py:32-42 | Over all runs mixing transitions and fills with positive quantity: FILLED, CANCELED and FAILED absorb, cumulative never decreases, complete implies FILLED or CANCELED, and a fill excludes NEW and PLACING |
| Fills.RefusedIff | backend/engine/state_store.py:290-330 | A fill is refused exactly when it is unknown and its order is missing, NEW or FAILED |
| Fills.RecordKeepsFills | backend/engine/state_store.py:290-347 | Every positive fill has exactly one opposite-side intent of equal quantity, and the order cumulative is the sum of increments |
| Fills.IngestHighest | backend/engine/fill_tracker.py:55-75 | For events with one fixed cumulative per trade, the order ends at the highest cumulative, and the intents cover exactly that |
| Fills.IngestOrderIndependent | backend/engine/fill_tracker.py:55-75 | Any permutation or duplication of the events gives the same cumulative and the same total intent quantity |
| Fills.IngestAgain | backend/engine/state_store.py:296-306 | Ingesting recorded events again changes nothing |
| Fills.BackfillCompletes | backend/engine/state_store.py:352-382 | The startup repair leaves exactly one intent per positive fill and touches nothing else |
| Fills.BackfillIdle | backend/engine/state_store.py:352-382 | On a complete table the repair does nothing |
| RestSweep.ForOrder | backend/engine/fill_tracker.py:307-330 | The polling source turns an order's matches into events with running cumulative sums |
| RestSweep.SweepAt | backend/engine/fill_tracker.py:307-330 | The k-th event of a sweep carries the sum of the first k+1 matched amounts |
| RestSweep.SweepConvergesIff | backend/engine/fill_tracker.py:307-330 | A full REST sweep brings order and intents to the sum of the matches if and only if they are there already or the last trade is news |
| RestSweep.SweepConverges | backend/engine/fill_tracker.py:172-216 | After any earlier reports that cover their own trade and do not exceed the total, a full sweep converges |
| RestSweep.RunConverges | backend/engine/fill_tracker.py:109-216 | Pushed reports and sweeps over any part of an order's trades, interleaved in any way: from the first sweep that reads them all on, order and intents are at their sum and stay there |
| RestSweep.ExtendedSweepRepeats | backend/engine/fill_tracker.py:307-330 | A later sweep that extends an earlier one repeats its events |
| RestSweep.LateTradeLost | backend/engine/fill_tracker.py:307-330 | Otherwise it fails: a trade that turns up in front of one already swept is never fully counted |
| RestSweep.IngestSweep | backend/engine/fill_tracker.py:109-120 | The polling loop ingests a sweep in order |
| OrphanSearch.PagedRows | backend/engine/hedge_worker.py:945-965 | The rows read are a prefix of the listing; when covered and newest first, nothing after the window start was left unread |
| OrphanSearch.ExecutionsByWindow | backend/adapters.py:112-145 | Exactly the rows read inside the window are returned; when covered and newest first, no row after the window start is missed |
| OrphanMatch.FindOrphan | backend/engine/hedge_worker.py:828-943 | An answer of "no order" proves that no visible order of the submission is on the book or has executed; an answer with an id is the own order whenever that is visible; covered sums miss no listed execution; too old is refused |
| OrphanMatch.Decide | backend/engine/hedge_worker.py:897-922 | The answer is the unique candidate, absence only when both listings were covered, and a refusal in every other case |
| OrphanMatch.Group | backend/engine/hedge_worker.py:863-872 | Executions of the right side inside the window, grouped by order |
| OrphanMatch.VisibleIsCandidate | backend/engine/hedge_worker.py:873-905 | A visible order is a candidate once both listings were read back to the window start |
| HedgeSearch.SearchShowsOwn | backend/engine/hedge_worker.py:843-862 | Executions read while they were true of the submission's order, and a book read later, show the order as the protocol's second search step takes it: never more than it has executed inside the window, and its place on the book |
| HedgeSearch.SearchShowsRows | backend/engine/hedge_worker.py:843-855 | The executions read are those of the protocol's first search step: never more than was executed inside the window, and all of it so far when they were read back to the window's start |
| HedgeSearch.Search | backend/engine/hedge_worker.py:828-922 | On steady histories, the book read any time after the executions, what the search reads and answers are the protocol's two search steps; covered, the executions read are all that the order has executed inside the window if and only if none of it happened in between |
| PaperQueue.QueuePosition.Consume | backend/engine/paper_queue.py:34-41 | Same-price volume is consumed before better-price volume |
| PaperQueue.QueuePosition.Resync | backend/engine/paper_queue.py:43-47 | A snapshot can only shrink the queue |
| PaperQueue.TakenLaw | backend/engine/paper_queue.py:34-41 | As much as fits is taken, the queue shrinks by exactly that, and the better-priced part shrinks only once the rest is gone |
| PaperMatcher.VolumeConserved | backend/engine/paper_matcher.py:352-392 | Queue consumed, quantity executed and volume left add up to the print |
| PaperMatcher.Priority | backend/engine/paper_matcher.py:352-392 | An order receives volume only if every eligible order in front of it ends completely filled |
| PaperMatcher.RankedUnique | backend/engine/paper_matcher.py:346-351 | Price-time order leaves no choice: the candidate list is determined by the book |
| PaperMatcher.SweepKeepsBook | backend/engine/paper_matcher.py:336-408 | A print keeps the book in order; each order left is a later version of itself |
| PaperMatcher.ResyncKeepsBook | backend/engine/paper_matcher.py:430-436 | A resync changes queues only, and only downwards |
| PaperEngine.PaperMatchingEngine.OnTrade | backend/engine/paper_matcher.py:336-408 | A repeated print changes nothing; a new one is swept over the ranked orders and hands over exactly the fills of the sweep |
| PaperEngine.PaperMatchingEngine.Candidates | backend/engine/paper_matcher.py:346-351 | Exactly the active orders of the symbol, in price-time order |
| PaperEngine.PaperMatchingEngine.SweepCandidates | backend/engine/paper_matcher.py:352-408 | The loop with its early exit equals the sweep of the whole row, and completed orders leave the book |
| PaperEngine.PaperMatchingEngine.OnPlace | backend/engine/paper_matcher.py:309-320 | An order joins with the visible volume ahead of it; without depth nothing changes |
| PaperEngine.PaperMatchingEngine.OnCancel | backend/engine/paper_matcher.py:328-330 | The order leaves the book |
| PaperEngine.PaperMatchingEngine.ResyncOnce | backend/engine/paper_matcher.py:430-436 | Each order is resynchronised or as before; all of them when every snapshot is there |
| PaperEngine.PaperMatchingEngine.Remember | backend/engine/paper_matcher.py:340-344 | The seen set is exactly the last 20 000 print ids |
| PaperRuns.RunAges | backend/engine/paper_matcher.py:309-436 | Over any run the queue ahead of an order never grows, fills are never lost, an order with a fill has nothing ahead and is not complete, and an order that left never returns under its number |
| PaperRuns.VolumeBounded | backend/engine/paper_matcher.py:336-408 | Consumed and executed volume of a whole run never exceed the volume printed, each print counted once |
| PaperRuns.RepeatIgnored | backend/engine/paper_matcher.py:337-344 | A print delivered again with fewer than 20 000 prints in between changes nothing |
| PaperLedger.MatcherAgrees | backend/engine/paper_matcher.py:371-408 | In every interleaving of placing, cancelling, cancel-all, printing, resync and crash, an order in the matcher has filled equal to its durable cumulative |
| PaperLedger.EveryFillCommits | backend/engine/state_store.py:290-347 | No fill of a sweep is refused or mistaken for a duplicate: it is committed and published with the executed quantity |
| PaperExposure.CanceledFinalIff | backend/engine/execution_gateway.py:172-194 | For every reachable CANCELED order: no future changes what it has filled if and only if it is neither active in the matcher nor between opening and placing |
| PaperExposure.ExposedFills | backend/engine/paper_matcher.py:336-408 | From any state in which a CANCELED order is so exposed, some future fills it: the sweep is finished, the order activated, and a print one beyond its price is large enough to reach it |
| PaperLedger.RemovedIsFinal | backend/engine/execution_gateway.py:190-194 | An order that a cancel call has itself taken out of the matcher never changes again, without exception |
| PaperLedger.GoneForever | backend/engine/paper_matcher.py:328-334 | An order out of the matcher stays out, with its filled quantity fixed |
| PaperLedger.StepKeeps | backend/engine/execution_gateway.py:88-119 | Every interleaved step keeps matcher and tables in agreement |
| PaperOvertaken.CanceledThenFilled | backend/engine/execution_gateway.py:251-270 | The exception is real: for every order there is a run in which it is CANCELED with nothing filled and a later print fills it |
| PaperVenue.IndexRefinesScan | backend/engine/paper_exchange.py:660-711 | Processing a print through the index equals processing it over the whole order table |
| PaperVenueRuns.ReachableIndexed | backend/engine/paper_exchange.py:180-208 | In every reachable state each bucket is exactly the resting SOK orders of its symbol and opposite side, in placement order, and the index and the scan give the same result |
| PaperVenueRuns.ReachableBalances | backend/engine/paper_exchange.py:345-354 | Balances equal the opening balances plus all signed deals, in every reachable state |
| PaperVenueRuns.ReachableFills | backend/engine/paper_exchange.py:639-658 | An order's fill is the sum of its deals, a multiple of its step, and within its size |
| PaperVenueRuns.VisitAllKeeps | backend/engine/paper_exchange.py:660-711 | A print takes no more than it printed and keeps the invariant |
| PaperVenueRuns.ResyncOnce | backend/engine/paper_exchange.py:617-637 | A queue shrinks at most once for each market version, and never by a fill |
| PaperVenue.PruneKeepsIndex | backend/engine/paper_exchange.py:199-208 | Pruning drops only finished orders, so the index stays right |
| PaperVenue.PruneBounds | backend/engine/paper_exchange.py:199-208 | After pruning the table is within its limit or holds only resting orders |
| PaperVenue.StepDownLaw | backend/engine/paper_exchange.py:701-702 | Rounding down to the step gives the largest multiple that fits |
| PaperVenue.TurnLaw | backend/engine/paper_exchange.py:687-708 | An order takes volume for its queue first, stays on its grid and within its size, and executes only with nothing ahead |
| FakeGmo.FakeGmo.Prune | backend/engine/paper_exchange.py:199-208 | The oldest finished orders above the limit are dropped |
| FakeGmo.FakeGmo.RebuildIndex | backend/engine/paper_exchange.py:180-185 | The index rebuilt from the table is the one a scan gives |
| FakeGmo.FakeGmo.PostOnlyOrder | backend/engine/paper_exchange.py:590-615 | The order is appended to the table and to its bucket, with the visible queue ahead of it |
| FakeGmo.FakeGmo.MarketOrder | backend/engine/paper_exchange.py:543-588 | The fill is the allowed share, limited by depth and rounded down to the step, costs exactly the levels it takes when the whole share fits, and is booked at once |
| FakeGmo.FakeGmo.CancelOrder | backend/engine/paper_exchange.py:721-727 | The order is canceled and leaves the index; an unknown order is an error |
| FakeGmo.FakeGmo.ResyncPostOnly | backend/engine/paper_exchange.py:617-637 | Only a newer market version shrinks the queue, and the result says whether it did |
| FakeGmo.FakeGmo.Apply | backend/engine/paper_exchange.py:639-658 | A fill is written, completes the order when it reaches its size, and is booked |
| FakeGmo.FakeGmo.OnPublicTrade | backend/engine/paper_exchange.py:660-711 | The loop over the snapshot of the bucket equals visiting its orders in turn |
| BookWalk.Walk | backend/engine/paper_exchange.py:559-573 | The walk fills the quantity or the depth rounded down to the step, and costs exactly the levels it takes when the whole quantity fits |
| BookWalk.CostAtLeast | backend/engine/paper_exchange.py:559-573 | Where no price is below a limit, the walk brings at least the limit per unit |
| BookWalk.CostAtMost | backend/engine/paper_exchange.py:559-573 | Where no price is above a limit, the walk costs at most the limit per unit |
| QuoteEngine.TargetPrice | backend/engine/quote_engine.py:40-68 | The loop returns the joined price of the first level that reaches the boundary and fits the budget |
| QuoteEngine.SellIff | backend/engine/quote_engine.py:48-57 | Selling: the search agrees with its simple reading; at the first level at or above the boundary it fits and offers the joined price, or there is no price at all |
| QuoteEngine.SellBounds | backend/engine/quote_engine.py:48-57 | A selling price earns its edge, is within one tick of its level and not above it, and the better-priced volume valued at it fits the budget |
| QuoteEngine.BuyBounds | backend/engine/quote_engine.py:58-67 | With an edge of at most one, a buying price keeps its edge; the better-priced volume fits the budget at the level's own price and exceeds it at the price itself by at most one tick per unit |
| QuoteEngine.BuyBudgetIff | backend/engine/quote_engine.py:58-67 | Valued at the quoted price, what stands in front of a purchase fits the budget if and only if the volume counted in front of the chosen level does, at the smaller of the boundary and one tick above that level |
| QuoteEngine.BuyOverBudget | backend/engine/quote_engine.py:58-67 | For every level price, tick and volume: a volume two ticks above the level that just fits at the level no longer fits one tick above it, where the price is joined |
| QuoteEngine.BoundaryLaw | backend/engine/quote_engine.py:49-60 | Rounding to the tick never gives up edge |
| Pricing.HedgeableSize | backend/core_fallback.py:16-27 | The depth of exactly the leading levels within the slippage limit |
| Pricing.MakeQuotes | backend/core_fallback.py:30-51 | Errors exactly on invalid input; prices lie on the tick grid, keep the spread and lose less than a tick; each size is the depth of the leading levels within the slippage limit, up to the largest size |
| Pricing.BackedFills | backend/engine/paper_exchange.py:559-573 | Any step multiple of a backed size is hedged completely, at the cost of the levels |
| Pricing.BuyProfit | backend/core_fallback.py:62-74 | A purchase up to the quoted size nets the validated margin plus slip times hedge fee plus spread times maker fee |
| Pricing.BuyProfitFloor | backend/core_fallback.py:9-13 | Without a maker rebate a purchase nets at least bid times size times the validated margin |
| Pricing.SellProfit | backend/core_fallback.py:62-74 | A sale up to the quoted size nets at least ask times size times (margin minus spread times maker fee minus slip times hedge fee) |
| Pricing.SellTight | backend/core_fallback.py:9-13 | The sale bound is exact at the limits, so such a sale makes money if and only if the margin exceeds the two products |
| Pricing.ValidatedSaleLoses | backend/core_fallback.py:9-13 | A configuration that passes the profitability check and whose sales, hedged at the slippage limit, lose money at every price and quantity |
| Pricing.NetPnlIsTradePnl | backend/core_fallback.py:62-74 | The net result used above is the program's own |
| RiskGate.RiskGate.IsArmed | backend/engine/risk.py:67-71 | Armed is: not killed, recovered, active, and the lease not run out |
| RiskGate.RiskGate.Restore | backend/engine/risk.py:73-81 | A restart disarms and reads back the kill flag or the sentinel |
| RiskGate.RiskGate.MarkRecoveryComplete | backend/engine/risk.py:83-86 | Recovery is marked and stored |
| RiskGate.RiskGate.TryArm | backend/engine/risk.py:88-127 | Refusal, first approval or arming, with the approval time and the actors compared |
| RiskGate.RiskGate.Disarm | backend/engine/risk.py:129-144 | Arming and pending approval are dropped and the kill flag stored |
| RiskGate.RiskGate.Kill | backend/engine/risk.py:146-154 | The gate is killed, disarmed and the kill stored |
| RiskGate.RiskGate.ResetKill | backend/engine/risk.py:156-167 | Refused under the sentinel; otherwise kill, arming and recovery are withdrawn |
| RiskGate.RiskGate.Evaluate | backend/engine/risk.py:169-190 | Expiry, sentinel and limits disarm or kill before the answer, which is true only for an armed gate within limits |
| ArmingHistory.ArmedNeedsTwo | backend/engine/risk.py:88-127 | Whenever the gate is armed under dual approval: two correct approvals by different actors within the approval time, a lease that has not run out, and no disarm, kill, reset or restore since the first |
| ArmingHistory.RearmedAfterKill | backend/engine/risk.py:146-167 | After a stored kill the gate is armed again only through a reset, then the end of a recovery run that passed every check and read no ESCALATE intent and no unresolved submission (it may have begun before the reset), then two approvals by different actors, in that order |
| ArmingHistory.KillSurvives | backend/engine/risk.py:73-81 | A stored kill, whoever found it, holds, across restarts too, until a reset that the sentinel does not block |
| ArmingHistory.RecoveredIff | backend/engine/risk.py:83-86 | The gate counts as recovered if and only if a recovery run has passed every check since the last reset or restart |
| ArmingHistory.SentinelKillIff | backend/engine/risk.py:73-81 | A kill that a restart finds only by its sentinel holds after the next restart without it if and only if some call in between stores the gate's state |
| ArmingHistory.StartupStoresKill | backend/service.py:222-233 | The start of the service stores such a kill, by the disarm that opens recovery |
| ArmingHistory.FailedRunArmableIff | backend/engine/recovery.py:25-84 | After any history and a recovery run that fails, approvals alone, single or dual, can arm the gate if and only if it had recovered before and is not killed |
| Recovery.RecoveryCoordinator.Run | backend/engine/recovery.py:25-84 | Recovery is marked exactly when every check passes; a run that stops early has only disarmed the gate |
| Recovery.Wait | backend/engine/recovery.py:68-74 | The wait succeeds exactly when the look after the first idle one, or the last one, finds nothing pending |
| Recovery.CompletionIsFlat | backend/engine/recovery.py:68-84 | A run that waited for the hedges and passes every check: at its last look every intent was hedged and client fills and hedge fills of every symbol added up to zero; whatever happened until the check for escalated intents, the exposure then is what fills committed in between still ask for |
| TokenBucket.TokenBucket.Take | backend/engine/rate_limit.py:38-45 | One take refills, caps and spends |
| TokenBucket.WindowBound | backend/engine/rate_limit.py:28-45 | On a clock that does not run backwards, the takes granted in any window are at most capacity plus rate times its length |
| RateLimiter.RateBound | backend/engine/rate_limit.py:106-126 | In every run of the limiter the operations of a group that start in any window are at most capacity plus rate times its length |
| RateLimiter.RetriesBounded | backend/engine/rate_limit.py:128-154 | A request's operation starts at most 9 times for hedges and 5 times otherwise |
| RateLimiter.OnePlace | backend/engine/rate_limit.py:106-154 | A running request is nowhere else, so an operation never runs twice at once |
| RateLimiter.PriorityRateLimiter.Dispatch | backend/engine/rate_limit.py:106-126 | The most urgent and oldest request is started, put back while its group is blocked or out of tokens, or dropped when nobody waits |
| RateLimiter.PriorityRateLimiter.Finish | backend/engine/rate_limit.py:128-154 | Only a refusal for its rate is retried, within the limit, and blocks the group for the back-off |
| RateLimiter.PriorityRateLimiter.Top | backend/engine/rate_limit.py:48-55 | The heap's top is the least pair of priority and sequence number |
| ExecutionGateway.ExecutionGateway.Confirm | backend/engine/execution_gateway.py:213-249 | A look changes only its order, and ends it only when the exchange reported the end and every fill the reconciler read is in the tables, or its fills completed it |
| ExecutionGateway.ExecutionGateway.WaitTerminal | backend/engine/execution_gateway.py:338-349 | Repeated looks end the order only with such a justification; otherwise it is UNKNOWN |
| ExecutionGateway.ExecutionGateway.CancelOrder | backend/engine/execution_gateway.py:172-211 | An ended order is returned unchanged; another is CANCELING before the request and ends only with a justification |
| ExecutionGateway.ExecutionGateway.PlaceOrder | backend/engine/execution_gateway.py:88-148 | The order is durable before the request and OPEN only with an exchange id |
| ExecutionGateway.ExecutionGateway.Replace | backend/engine/execution_gateway.py:159-170 | A new order is placed exactly when the gate allows it and there is no old one or the old one is CANCELED, justified by a look |
| ExecutionGateway.ExecutionGateway.CloseListed | backend/engine/execution_gateway.py:309-334 | The end of a cancel-all: on success no listed order is left, and each one has ended after its fills were recorded; an order without an exchange id stays open and makes the call fail |
| ExecutionGateway.ExecutionGateway.CloseOne | backend/engine/execution_gateway.py:310-326 | One order is closed only after its fills |
| Pricing.LeadsBack | backend/core_fallback.py:46-51 | A size within the hedgeable depth is backed by levels within the slippage limit |
| QuoteLoop.AtMostOneLive | backend/service.py:1344-1519 | In every run no symbol and side has two listed orders, and two live ones only if one of them is in NEW and is not the one the loop is creating |
| QuoteLoop.TwoLiveIff | backend/service.py:1344-1519 | From every reachable state, some future without a further crash has two live orders for a symbol and side if and only if one of its orders is in NEW and is not the one the loop is creating |
| QuoteLoop.StepKeeps | backend/service.py:1363-1519 | Every step of the loop and of the tasks around it keeps that property |
| QuoteLoop.KeysDistinct | backend/core_fallback.py:48-51 | A pass visits each symbol and side once |
| QuoteLoop.StrandedForever | backend/engine/state_store.py:788-795 | An order a crash leaves in NEW stays there: it is not listed |
| QuoteLoop.StrandedBesideLive | backend/service.py:1363-1375 | Beside such an order, whatever the loop is doing and for either side, some future without a crash opens another one for its symbol and side |
| QuoteLoop.CrashStrands | backend/engine/execution_gateway.py:88-119 | From every reachable state and for every symbol and side, some future that ends in a crash leaves such an order |

## Left out

- `HedgeSafety.NeverOverHedged`: requires `SafeRun`, because without complete answers the claim is false (the runs of `OverHedgeWitness`); without that condition it holds exactly where only one attempt is allowed (`OverHedgeWitness.OverHedgeIff`).
- `HedgeSafety.NeverOverCredited`: requires `CheckedRun`, because the program does not compare ids before binding and the claim is then false (`DoubleCredit.CreditedTwice`).
- `HedgeSafety.VenueAgrees`: requires both conditions, and that nothing is unresolved any more.
- `StateStore.StateStore.TransitionHedge`: leaves out the explicit amounts that `transition_hedge` can overwrite (backend/engine/state_store.py:410-430), which the resolver path alone uses.
- `QuoteEngine.BuyBounds`: bounds the better-priced volume at the level's price, and at the quoted price only up to one tick per unit, because the stronger claim is false (`QuoteEngine.BuyOverBudget`); `QuoteEngine.BuyBudgetIff` gives the exact condition.
- `OrphanSearch.ExecutionsByWindow`: rows stamped exactly at the window start are excluded from the coverage claim, because the page that reaches it may end among them.
- The `resolve` path of the hedge worker and the checkpoint branch without durable submissions (backend/engine/hedge_worker.py:115-153 and 479-535): the worker is modelled without a resolver, where unmatched in-flight intents escalate. The service does wire a resolver, and no ledger claim is made for it.
- Races inside one pass of the hedge worker: reading pending hedges, filtering by active intents and starting a group is one step. Dust timers, batching delays and the concurrency cap are free choices of the scheduler.
- Equal creation times of intents: groups list intents in the order the worker read them, and equal submission times are in no fixed order.
- Decimal's 28-digit rounding, binary floats, text forms of numbers and the Rust copy of the core.
- Parsing of exchange messages, unreadable order ids, sorting and de-duplication of polled rows by time, signing, sockets, HTTP, alerts, SQLite schema and migrations.
- Paper orders are values in a map, not shared objects: aliasing between the matcher's map and a caller's reference is not modelled. `QueuePosition` is modelled as an object and, inside orders, as its value.
- The matcher's statistics, the trade streams' own de-duplication, and the depth feed's freshness check, which appears as a missing snapshot.
- In `PaperLedger` repeated prints are not filtered out, which allows more runs than the program has.
- The average price of a market order when depth runs out off the step grid (its correction uses the last level's price), and price priority on the simulated hedge exchange, which goes by placement order: neither holds in general.
- The simulated maker exchange, random faults, delayed fills, JSON persistence of the paper broker (beyond rebuilding the index) and allocation resets.
- The requests of the live `cancel_all` and its waiting for the exchange's listing to empty (backend/engine/execution_gateway.py:271-308): `CloseListed` starts where that listing is empty, and in `QuoteLoop` the writes are moves of order states like any other task's.
- Error texts and the difference between post-only rejections and other rejections; which snapshot limit was exceeded.
- `should_requote`, quote capacity, delta headroom, `reconcile`'s rounding to units of 1e-8, balances of the live venues, symbol configuration and heartbeats: they would only add easy members.
- The rate limiter while it is stopped, and fairness: a blocked request at the head of the queue delays the others, as in the program.
- Single-approval arming beyond `RiskGate.RiskGate.TryArm` and `ArmingHistory.FailedRunArmableIff`.
- Clock synchronisation and audit rows of a recovery run; `HedgeWorker` runs beside it, and what its steps write meanwhile appears only in the tables the run reads.
