# Verified model of the trading core

This project models the parts of the trading backend whose correctness is hard to see from any one function, and proves what they
promise over whole runs. It is plain Dafny 4.11; `dafny verify dfyconfig.toml` checks everything.

| part | modules |
|---|---|
| canonical 1-minute market data | `WorkingCandle`, `PairState`, `PairStateTheorems`, `PairStateMachine`, `CandleProvenance`, `PairOutcomes`, `Scenario`, `PairStateLimits`, `Coordinator`, `Engine`, `EngineInvariants`, `EngineTheorems`, `EngineProvenance`, `EngineOutcomes`, `ColdStart` |
| backtest | `Ledger`, `BacktestEngine`, `BacktestTheorems`, `BarExecution`, `BarCycle`, `BacktestBooks`, `BacktestRunner`, `OcoMarketLeg`, `Dataset` |
| risk and sizing | `RiskDecimal`, `Exposure`, `TierSizing`, `TierSizingTheorems`, `SizingPolicy`, `RiskEvaluation` |
| risk admission | `Admission`, `AdmissionTheorems`, `AdmissionHistories`, `AdmissionOutcomes`, `AdmissionCaps`, `AdmissionLimits`, `AdmissionCoordinator` |
| ranking | `Ranking`, `RankingTheorems`, `RankingPolicy`, `RankingEngine`, `Orders` |
| decimal strings | `DecimalStrings`, `DecimalTheorems` |
| coin registry | `Registry`, `RegistryTheorems`, `RegistryHistories`, `RegistryOutcomes`, `CoinRegistry` |
| shared vocabulary | `Common` |

**How it is built.** Each stateful component appears twice. A value type with one function per operation says what an operation does,
branch by branch, and the theorems are about these functions: invariants of every reachable state, and statements about whole runs.
Beside it stands a class (or a method with the source's loop) that works by assignment as the source does, and whose contracts equate the
new state with the function of the old one. Where the source awaits, an operation is split, so that anything may happen in between.

**What the main theorems are stated over.** The theorems that say which prices are written, which orders fill and at what price, which size
is returned, which caps hold, who ranks above whom and which lifecycles are reachable mention only the fields of packets, candles, orders,
bars, requests, policies and records: which limit is least, which leg protects, which value is better or what a fill costs is written out
there, not called. The modules `CandleProvenance`, `PairOutcomes`, `EngineProvenance`, `EngineOutcomes`, `BarExecution`, `BarCycle`,
`BacktestBooks`, `SizingPolicy`, `AdmissionOutcomes`, `RankingPolicy` and `RegistryOutcomes` hold those statements.

**The market-data engine** is a transition system (`Engine.World`, `Engine.Step`, `Engine.CanTake`, `Engine.Take`) for one pair: machines,
initialisations, queued and executing writes, recoveries, waiting packets, subscribers, the store, and the announced events. Every step the
scheduler may choose is a constructor of `Step`; `EngineTheorems.Reachable` is any finite sequence of enabled steps from any store.
`EngineInvariants.StepHolds` is the induction step behind all of its theorems.

**Where the code does less than its comments say**, the model follows the code. Each difference is shown by a run or an input, and a lemma
says exactly when it occurs:

- Without a baseline the first minute may be any minute, and a stale write can leave a stray row (`ColdStart.HoleAppears`). The store stays
  free of holes in every run exactly when it was not empty to begin with (`ColdStart.HoleFreeExactlyAboveABaseline`).
- A gap drops the minutes in their grace period, but the recovery it asks for begins with the forming minute, so the queue can wait forever
  (`PairStateLimits.DroppedGraceStallsRecovery`, a run from a new machine). The first recovered candle starts its write at once exactly when
  nothing is in flight, the gap's own packet raises no fault, and no minute forms or the forming minute is the watermark's successor
  (`PairStateLimits.GapRecoveryProceedsExactly`). With a commit in flight it starts when that commit has ended, exactly when no fault
  has appeared and the candle is the successor of the watermark the commit leaves (`PairStateLimits.GapRecoveryAfterCommitExactly`).
  Once stalled, a recovery stays so (`PairStateLimits.StallOutlivesTheRun`).
- The end of a commit releases the waiters of its minute although that minute has been queued anew
  (`PairStateLimits.StaleCommitReleasesItsSuccessor`, a run from a new machine). It does so exactly when the commit did not move the
  watermark to the minute, and the queued candidate is not blocked by a fault (`PairStateLimits.EarlyReleaseExactly`).
- A market leg that fills when it is activated does not cancel its OCO sibling (`OcoMarketLeg.BothLegsFill`); the sibling survives exactly
  when the leg was a market order (`OcoMarketLeg.SiblingSurvivesExactly`).
- The pending overlay turns an unknown base into a known one (`AdmissionLimits.UnknownBaseBecomesKnown`), and merges repeated instances:
  the base is refused for them exactly when there are any, the overlay never is (`AdmissionLimits.DuplicateInstancesCollapse`).
- A consumption marker outlives a recovery exactly when its entry is not the current one of its decision and no row read back has its id
  (`AdmissionLimits.MarkerSurvivesExactly`), and markers get there (`AdmissionLimits.MarkersOutliveRecovery`).
- A size can be zero: every size is positive exactly when the instrument has a positive minimum (`TierSizingTheorems.SizesPositivelyExactly`).

Decimals are exact: reals where the source's 128-digit context is not the point, scaled integers where digits matter (risk quotients,
ranking scores, decimal strings). Identifiers that the source derives by hashing are the tuples that are hashed.

## Model

| member | source | states |
|---|---|---|
| `WorkingCandle.ArrivalOrderIrrelevant` | src/market-data/working-candle.ts:61-138 | any two arrival orders of the same snapshots below the evidence limit agree on whether a minute is in conflict, and otherwise keep the same candle |
| `WorkingCandle.RunSummarises` | src/market-data/working-candle.ts:61-138 | after any arrivals a minute is faulted exactly if two of them share a provider time and differ, or the limit was reached; otherwise the stored candle is one with the greatest provider time |
| `WorkingCandle.UpdateConsistent` | src/market-data/working-candle.ts:101-138 | every update keeps the three maps consistent, and its second conflict branch is never taken |
| `WorkingCandle.ObserveConsistent` | src/market-data/working-candle.ts:61-81 | recording evidence keeps the three maps consistent |
| `WorkingCandle.RemovalConsistent` | src/market-data/working-candle.ts:140-158 | deleting a minute or clearing a pair keeps them consistent |
| `WorkingCandle.WorkingCandleManager.ObserveEvidence` | src/market-data/working-candle.ts:61-81 | the method changes the evidence map to what the function says, and answers the same fault |
| `WorkingCandle.WorkingCandleManager.Update` | src/market-data/working-candle.ts:101-138 | the method's new maps and answer are those of the function whose runs are confluent |
| `WorkingCandle.WorkingCandleManager.Delete` | src/market-data/working-candle.ts:140-147 | forgets one minute in every map |
| `WorkingCandle.WorkingCandleManager.Clear` | src/market-data/working-candle.ts:149-158 | forgets one pair in every map |
| `PairStateTheorems.ReactionEvolves` | src/market-data/pair-state.ts:228-1053 | the step theorem: whatever the stimulus, the watermark moves only for an acknowledged commit with a valid token and, once set, only by one minute; at most one write is open; a write starts only with its licence and for the watermark's successor; epochs grow; absorbing faults stay and block writes; and an incomplete recovery clears only inside a recovery application with a current token |
| `PairStateTheorems.DrainDrains` | src/market-data/pair-state.ts:745-803 | draining the queue starts at most one commit, only when none is in flight, and for the successor of the watermark |
| `PairStateTheorems.TokenNeverRevives` | src/market-data/pair-state.ts:883-891 | a token that is invalid stays invalid in every later state |
| `PairStateTheorems.Invalidation` | src/market-data/pair-state.ts:264-291 | a reconnect and a stop invalidate every token, a new recovery those of earlier recoveries |
| `PairStateTheorems.LifeKeeps` | src/market-data/pair-state.ts:110-1156 | the invariant of the queue and the commit in flight holds in every state of every life of a machine |
| `PairStateTheorems.StaleCommitIsInert` | src/market-data/pair-state.ts:849-860 | a commit whose token was invalidated while it was in flight never moves the watermark |
| `CandleProvenance.ReactionSources` | src/market-data/pair-state.ts:314-1053 | whatever the stimulus: forming candles and buffered packets change only by the packet delivered and only forward in provider time, the queue gains only the record delivered, and a write takes its prices from the forming candle of its minute or from its record |
| `CandleProvenance.LiveCommitIsNewestPacket` | src/market-data/pair-state.ts:809-849 | in every life of a machine the candle that a live commit hands over carries, in pair, minute and each of its six values, a packet delivered for that minute, and since the minute began to form no packet that could be taken had a greater provider time |
| `CandleProvenance.RecoveredCommitIsRecord` | src/market-data/pair-state.ts:809-849 | in every life a recovered commit hands over exactly a record that a recovery delivered before |
| `CandleProvenance.FormingCandle` | src/market-data/pair-state.ts:411-528 | how a forming candle came about: the packet it carries, when the minute began to form, and that no newer one was passed over |
| `CandleProvenance.LateConflictExactly` | src/market-data/pair-state.ts:900-985 | a late packet raises a conflict if and only if its recovery token is honoured and nothing is stored, or its minute was over when it was observed and a value differs; a failed read raises a persistence fault; nothing else changes |
| `CandleProvenance.OverlapConflictExactly` | src/market-data/pair-state.ts:999-1041 | a record below the watermark raises a conflict if and only if the stored candle is missing, of another pair or minute, or differs in a value; otherwise the recovery goes on with the rest |
| `CandleProvenance.BufferKeepsNewest` | src/market-data/pair-state.ts:562-592 | during a recovery the buffer keeps a packet at least as new as the one delivered and every other minute, within its bound, unless a conflict or overflow has emptied it |
| `PairOutcomes.CommitStartsExactly` | src/market-data/pair-state.ts:809-849 | a commit writes if and only if its token is wanted, no fault bars it, a live one finds no recovery active and a well-formed forming candle, and a recovered one has its record; a malformed forming candle is a fault |
| `PairOutcomes.DrainIsExact` | src/market-data/pair-state.ts:745-803 | a drain drops the outdated minutes as far as no fault bars one; then nothing is left, or the first minute is barred and every waiter of the queue resumes, or it would leave a gap and waits, or its commit starts |
| `PairOutcomes.AnswerIsExact` | src/market-data/pair-state.ts:849-870 | a failed answer is a fault; an acknowledged one moves the watermark up to the minute and ends its forming if and only if the commit is still wanted |
| `PairOutcomes.PacketIsExact` | src/market-data/pair-state.ts:314-528 | every packet: when it is ignored, a time fault, buffered, to be compared with the store, applied, the start of a grace period, or of a recovery, and of exactly which minutes |
| `PairOutcomes.BufferIsExact` | src/market-data/pair-state.ts:562-600 | buffering raises a conflict or overflow if and only if the evidence, the buffered packet of the minute or the bound says so; the newer packet stays |
| `PairOutcomes.ReconnectIsExact` | src/market-data/pair-state.ts:264-288 | a reconnect to no older generation raises both epochs, drops everything pending and forming, and owes recovery from the successor of the watermark or, without one, from the first unfinished minute |
| `PairOutcomes.ReconcilingIsExact` | src/market-data/pair-state.ts:1056-1076 | the first buffered packet for a final minute is compared with the store; when there is none the recovery is over |
| `CandleProvenance.DrainedInOrder` | src/market-data/pair-state.ts:1056-1100 | a drained buffer is handed over in ascending minutes with nothing lost or added |
| `PairStateMachine.PairCanonicalStateMachine.constructor` | src/market-data/pair-state.ts:154-204 | a new machine starts from its baseline with nothing queued, and the invariant holds |
| `PairStateMachine.PairCanonicalStateMachine.HandleReconnectBarrier` | src/market-data/pair-state.ts:264-288 | epochs bumped, pending work dropped, the minutes owed to recovery noted; the object keeps its invariant and evolves as the step theorem says, so no write starts and the watermark stays |
| `PairStateMachine.PairCanonicalStateMachine.EnterRecoveryMode` | src/market-data/pair-state.ts:235-243 | a new recovery epoch, everything pending dropped; invariant and step relation as above |
| `PairStateMachine.PairCanonicalStateMachine.LatchIncomplete` | src/market-data/pair-state.ts:252-259 | a recovery fault is latched only for the current epoch and never over a worse fault; invariant and step relation as above |
| `PairStateMachine.PairCanonicalStateMachine.DrainCommitQueue` | src/market-data/pair-state.ts:745-803 | the loop over the queue does what its specification says, supersession included |
| `PairStateMachine.PairCanonicalStateMachine.CommitOne` | src/market-data/pair-state.ts:809-849 | a commit up to its await: the candle built and checked, or a fault latched; `CandleProvenance.LiveCommitIsNewestPacket` says which prices the candle has |
| `PairStateMachine.PairCanonicalStateMachine.CommitOneAnswered` | src/market-data/pair-state.ts:849-870 | the answer moves the watermark only while the token is valid, and only to its successor; a failure latches a fault in any case; invariant and step relation as above |
| `PairStateMachine.PairCanonicalStateMachine.CommitOneFinally` | src/market-data/pair-state.ts:797-802 | the commit is over, its waiters resume and the queue drains; a write that this starts has its licence and is the only one |
| `PairStateMachine.PairCanonicalStateMachine.EnqueueCommitCandidate` | src/market-data/pair-state.ts:706-714 | a candidate joins the queue, which is then drained |
| `PairStateMachine.PairCanonicalStateMachine.OnFinalizationGraceElapsed` | src/market-data/pair-state.ts:682-704 | an elapsed grace period queues its minute, unless it is stale; a write that this starts has its licence |
| `PairStateMachine.PairCanonicalStateMachine.HandleStreamEnvelope` | src/market-data/pair-state.ts:314-528 | classification of a packet: dropped, buffered, verified, applied, or the start of a recovery; no packet starts a write, moves the watermark or clears a fault |
| `PairStateMachine.PairCanonicalStateMachine.Buffer` | src/market-data/pair-state.ts:562-592 | a packet is buffered in place of an older one for its minute, with conflict and overflow faults |
| `PairStateMachine.PairCanonicalStateMachine.HistoricalVerified` | src/market-data/pair-state.ts:900-985 | what a late packet does once the stored candle has been read; invariant and step relation as above |
| `PairStateMachine.PairCanonicalStateMachine.ApplyNextRecovered` | src/market-data/pair-state.ts:1017-1041 | one turn of the loop that queues recovered candles; a write that this starts has its licence |
| `PairStateMachine.PairCanonicalStateMachine.ApplyBatchSettled` | src/market-data/pair-state.ts:1042-1053 | once everything awaited has settled, an incomplete recovery is forgiven only if the token is still current; invariant and step relation as above |
| `PairStateMachine.PairCanonicalStateMachine.Stop` | src/market-data/pair-state.ts:1147-1155 | a stopped machine has nothing queued and only invalid tokens; invariant and step relation as above |
| `PairStateLimits.DrainRestsExactly` | src/market-data/pair-state.ts:745-803 | a draining leaves the queue as it is exactly if the machine is stopped or writing, nothing is queued, or the first queued minute is blocked by a fault or leaps over the successor of the watermark |
| `PairStateLimits.DroppedGraceStallsRecovery` | src/market-data/pair-state.ts:502-528 | a run of a new machine with a baseline in which a gap drops the minute in grace, asks for a recovery that starts after it, and the recovered candles wait for it |
| `PairStateLimits.GapRecoveryProceedsExactly` | src/market-data/pair-state.ts:411-528 | for every machine with a baseline and every packet that opens a gap: the first candle of the recovery asked for starts its write at once if and only if no commit is in flight, the packet raises no fault, and no minute forms or the forming one is the watermark's successor; and it stalls if and only if no commit is in flight, the packet raises no fault, and the forming one lies further ahead |
| `PairStateLimits.GapRecoveryAfterCommitExactly` | src/market-data/pair-state.ts:745-870 | the same with a commit in flight: when it has ended, the first candle starts its write if and only if neither the packet nor the commit raised a fault and the candle is the successor of the watermark, which the commit has moved if its token was still valid; and it stalls if and only if it lies further ahead and is not the commit's own minute |
| `PairStateLimits.StallOutlivesTheRun` | src/market-data/pair-state.ts:745-803 | a stalled recovery stays stalled over every run without a fault, a stop, a reconnect, a new recovery, an empty reconciliation or the missing minute |
| `PairStateLimits.StaleCommitReleasesItsSuccessor` | src/market-data/pair-state.ts:797-802 | a run of a new machine with a reconnect during a write, at whose end the recovery hands over to live packets while its own write has only begun |
| `PairStateLimits.EarlyReleaseExactly` | src/market-data/pair-state.ts:797-802 | for every waiter of a queued candidate that no fault blocks: the end of a commit releases it while the candidate is still outstanding if and only if the commit was for the same minute and the watermark has not reached it |
| `Coordinator.FirstInFirstOut` | src/market-data/pair-persistence-coordinator.ts:35-56 | once a write has been attempted, every earlier write of its pair has settled |
| `Coordinator.SettledTailMeansAllSettled` | src/market-data/pair-persistence-coordinator.ts:63-65 | a settled tail means that every write enqueued for the pair so far has settled |
| `Coordinator.OnlyOneRuns` | src/market-data/pair-persistence-coordinator.ts:35-56 | at most one write of a pair executes at a time |
| `Coordinator.PairsAreIsolated` | src/market-data/pair-persistence-coordinator.ts:26-56 | what happens to another pair's write neither blocks nor releases a write |
| `Coordinator.SomethingCanMove` | src/market-data/pair-persistence-coordinator.ts:35-56 | unless everything has settled, some write executes or may be attempted: the chains cannot deadlock |
| `Coordinator.SinglePairIsAList` | src/market-data/pair-persistence-coordinator.ts:35-56 | for one pair the chain is the list of its writes, which is how the engine model keeps it |
| `Coordinator.PairPersistenceCoordinator.EnqueueWrite` | src/market-data/pair-persistence-coordinator.ts:35-46 | a write joins its pair's chain behind the current tail, and the chains stay well linked |
| `Coordinator.PairPersistenceCoordinator.Attempt` | src/market-data/pair-persistence-coordinator.ts:44-49 | a write is attempted only once its predecessor has settled |
| `Coordinator.PairPersistenceCoordinator.Settle` | src/market-data/pair-persistence-coordinator.ts:48-55 | a settled write, successful or not, lets its successor go on |
| `Coordinator.PairPersistenceCoordinator.AwaitSettled` | src/market-data/pair-persistence-coordinator.ts:63-65 | the tail to wait for is the newest write of the pair |
| `EngineInvariants.StepHolds` | src/market-data/canonical-engine.ts:176-745 | every step of the engine keeps the invariant of machines, writes, initialisations, store and publications, and the relation to any earlier state |
| `EngineTheorems.WritesNeverOverlap` | src/market-data/canonical-engine.ts:211-352 | in every run from any store the physical writes of the pair never overlap and are executed in the order they were enqueued |
| `EngineTheorems.OneMachinePerRun` | src/market-data/canonical-engine.ts:176-352 | at most one machine per engine run, only the newest in service, every older one stopped for good |
| `EngineTheorems.InstallIsSound` | src/market-data/canonical-engine.ts:211-352 | a machine goes into service only with its ownership intact, after every write enqueued before its barrier has settled, with a baseline read after that, and faulted if the last write failed |
| `EngineTheorems.StoreExtendsBaseline` | src/market-data/pair-state.ts:745-870 | from a store with a baseline, in every run: baseline rows never change, new rows extend it minute by minute, the write under way is for the newest row or the next minute, and the watermark is at the newest row or one minute behind it |
| `EngineProvenance.RowsComeFromTheWire` | src/market-data/pair-state.ts:809-870 | in every run, from any store: each row that the engine added is stored under its own minute and carries, in pair, minute and each value, a packet that arrived before, or is a record that REST replied before |
| `EngineProvenance.WritesComeFromTheWire` | src/market-data/canonical-engine.ts:250-281 | likewise every candle ever handed to the persistence layer: a live one an arrived packet, a recovered one a replied record |
| `EngineTheorems.EventsAscend` | src/market-data/canonical-engine.ts:250-281 | over all runs together a minute is announced at most once, in ascending order, and only stored minutes above the baseline are |
| `EngineTheorems.DeliveriesAscend` | src/market-data/canonical-engine.ts:688-745 | no subscriber is handed an event after its run has ended, even if one stops the engine during the dispatch, and each sees ascending minutes |
| `EngineTheorems.EmissionIsOwned` | src/market-data/canonical-engine.ts:250-281 | an event comes only from the machine in service, in its own run, for the row its own write inserted |
| `EngineTheorems.NothingIsTakenBack` | src/market-data/canonical-engine.ts:211-352 | between any two points of a run rows are never changed or removed, and events and deliveries are only added |
| `EngineTheorems.FaultedMachinesWriteNothing` | src/market-data/pair-state.ts:761-774 | from the moment a machine is stopped or has an absorbing fault it hands no further write to the store |
| `EngineOutcomes.BarrierIsExact` | src/market-data/canonical-engine.ts:215-234 | an attempt passes the barrier once the last write before it has settled; it goes on if and only if run, revision, generation and attempt are still its own, and remembers whether that write failed |
| `EngineOutcomes.BaselineIsExact` | src/market-data/canonical-engine.ts:236-237 | the baseline is the newest row of the store, or none if it is empty |
| `EngineOutcomes.InstallingIsExact` | src/market-data/canonical-engine.ts:239-352 | a machine goes into service if and only if its attempt is still the owner: at the baseline, in its generation, faulted if the last write failed, and meeting the barrier at once if its generation came with one |
| `EngineOutcomes.EnvelopeIsExact` | src/market-data/canonical-engine.ts:449-515 | every envelope that is not refused: what is noted, when a barrier is raised, and where its packet goes |
| `EngineOutcomes.CoverageIsExact` | src/market-data/canonical-engine.ts:574-577 | the last REST record of each minute counts |
| `EngineOutcomes.BatchIsExact` | src/market-data/canonical-engine.ts:579-609 | a recovered batch has one usable record for every minute of its range, in order, or there is none |
| `EngineOutcomes.ReplyIsExact` | src/market-data/canonical-engine.ts:538-670 | a reply is ignored unless the recovery still speaks for the machine in service; a failure or a missing minute leaves the machine incomplete; otherwise the batch is applied |
| `ColdStart.HoleAppears` | src/market-data/pair-state.ts:786-787 | a run from an empty store that ends with a hole in it |
| `ColdStart.HoleFreeExactlyAboveABaseline` | src/market-data/pair-state.ts:786-787 | every run keeps the store free of holes if and only if the store was not empty |
| `Ledger.EquityIsCashFlow` | src/backtest/accounting.ts:67-193 | after any journal of fills, marks and funding the position is the sum of signed fills, and realised plus unrealised profit at the mark is the plain cash flow |
| `Ledger.RunRefines` | src/backtest/accounting.ts:67-164 | the average-cost books refine books without averages, realisation or flips; maker and taker fees, spread and slippage costs and the numbers of fills and closed trades are what the journal says |
| `Ledger.MovingKeepsValue` | src/backtest/accounting.ts:80-110 | adding, reducing, closing and flipping all keep realised profit plus carrying value less cash paid |
| `Ledger.AverageCostRules` | src/backtest/accounting.ts:80-110 | adding averages the entry by value and realises nothing; a fill against the position realises price difference times what it closes and keeps the entry of the rest; a flip opens anew at the fill price |
| `Ledger.ReducingFillShrinks` | src/backtest/accounting.ts:90-109 | a reduce-only fill within the position never enlarges or reverses it |
| `Ledger.BacktestAccountingLedger.constructor` | src/backtest/accounting.ts:54-61 | a flat account with the initial equity, agreeing with the empty journal |
| `Ledger.BacktestAccountingLedger.ApplyFill` | src/backtest/accounting.ts:67-135 | a fill is booked as specified and added to the journal the books agree with, or refused without any change |
| `Ledger.BacktestAccountingLedger.Mark` | src/backtest/accounting.ts:137-151 | a positive mark revalues the position; any other is refused |
| `Ledger.BacktestAccountingLedger.ApplyFunding` | src/backtest/accounting.ts:153-164 | funding charges the position held, and nothing when flat |
| `Ledger.BacktestAccountingLedger.EquitySnapshot` | src/backtest/accounting.ts:176-193 | equity is the initial equity, plus the position of the journal liquidated at its last mark against the cash its fills paid, plus the funding received, less the fees paid; when closed, the cash alone |
| `BacktestTheorems.BarInv` | src/backtest/engine.ts:286-320 | every phase of a bar keeps the order book within its limits, terminal orders out of it, and the history of fills sound |
| `BacktestTheorems.LimitsHold` | src/backtest/engine.ts:589-621 | in every run the active orders stay within the limit, with at most two to an OCO group |
| `BacktestTheorems.OrdersEndOnce` | src/backtest/engine.ts:440-494 | event times never decrease, an order ends at most once, and no order fills against a bar that opened before its submission |
| `BacktestTheorems.CancelledNeverFills` | src/backtest/engine.ts:322-334 | an order whose cancellation was accepted never fills |
| `BacktestTheorems.ReduceOnlyReduces` | src/backtest/engine.ts:440-494 | a reduce-only fill neither enlarges nor reverses the position it found |
| `BacktestTheorems.OcoFillsOnce` | src/backtest/engine.ts:404-438 | once a limit or stop leg of a group has filled inside a bar, no other order of the group that existed then can fill |
| `BarExecution.IntrabarIsExact` | src/backtest/engine.ts:363-494 | inside a bar, from every state: exactly the chosen orders are executed, by number; each fills at the price and fee written out for its kind from the bar if it is fillable at that moment, else is rejected; the other legs of a group that fills are cancelled; nothing else leaves the book |
| `BarExecution.OcoLegIsChosen` | src/backtest/engine.ts:404-438 | if the bar reaches a protective stop of a group (SELL for LONG, BUY for SHORT), only the lowest-numbered one trades and no limit of the group fills; if it reaches none, only the lowest-numbered reached order does |
| `BarExecution.OpeningIsExact` | src/backtest/engine.ts:336-361 | at the open: pending orders open, marketable post-only ones are rejected, and exactly the market orders are executed at the open with their costs |
| `BarExecution.CancellationsAreExact` | src/backtest/engine.ts:322-334 | exactly the requested cancellations that are still in the book are carried out, by number, and nothing else changes |
| `BacktestBooks.RunIsItsCashFlow` | src/backtest/engine.ts:286-320 | in every run the account is what its own events say: position the sum of signed fills, and equity the initial equity plus the plain cash flow liquidated at the last close, plus funding, less fees, each fill at the price of its order on its bar |
| `BarCycle.BarIsExact` | src/backtest/engine.ts:286-320 | every bar, from every state: cancellations of the last close, openings with the market orders, trades inside the bar, marking at the close, funding that is due, and the evaluation, each exactly as its phase is written out |
| `BarCycle.EntriesAreExact` | src/backtest/engine.ts:553-621 | the intents of a close are taken in turn until one aborts the run: an intent becomes an order if and only if there is room in the book and in its group, it has the prices of its kind on their grids and above the minima, and fits the position if it is reduce-only |
| `BarCycle.RequestsAreExact` | src/backtest/engine.ts:575-581 | exactly the requests for orders in the book that are not yet to be cancelled are accepted, at their first mention and in their order |
| `BarCycle.TradingAbortsExactly` | src/backtest/engine.ts:363-438 | in every run the trading of a bar aborts it if and only if a market order that opens, or a stop that the bar reaches, has no positive price after its costs |
| `BacktestBooks.ActiveOrdersObey` | src/backtest/engine.ts:589-621 | in every run each active order has quantity and price on the instrument's grids and above its minima |
| `OcoMarketLeg.BothLegsFill` | src/backtest/engine.ts:336-361 | a run in which both legs of one group, active together, fill |
| `OcoMarketLeg.SiblingSurvivesExactly` | src/backtest/engine.ts:336-438 | for every state, bar and grouped order that fills: the rest of its group stays in the book if and only if the order was a market order |
| `OcoMarketLeg.SecondFillFollowsMarketLeg` | src/backtest/engine.ts:336-438 | in every run, if a second order of a group fills although it existed when the first did, the first was a market order |
| `BacktestRunner.Engine.ProcessBar` | src/backtest/engine.ts:286-320 | the phases of a bar, in the order of the source, take the state where the function takes it |
| `BacktestRunner.Engine.ApplyPendingCancellations` | src/backtest/engine.ts:322-334 | the loop that carries out accepted cancellations |
| `BacktestRunner.Engine.ActivateOrders` | src/backtest/engine.ts:336-361 | submitted orders become active, and market orders trade at the open |
| `BacktestRunner.Engine.ProcessIntrabar` | src/backtest/engine.ts:404-438 | candidates are selected per group before any of them trades, as the function does of which `BarExecution.OcoLegIsChosen` says which leg it selects |
| `BacktestRunner.Engine.ExecuteCandidate` | src/backtest/engine.ts:440-494 | an order fills, or is rejected because it has become invalid |
| `BacktestRunner.Engine.ApplyFundingAt` | src/backtest/engine.ts:534-551 | due funding events are applied in order |
| `BacktestRunner.Engine.Evaluate` | src/backtest/engine.ts:553-587 | cancellations requested at the close, then new orders |
| `BacktestRunner.Engine.AcceptOrder` | src/backtest/engine.ts:589-621 | an intent becomes an order, or is rejected, or aborts the run if a number in it cannot be computed with |
| `Dataset.ReplayIsExact` | src/backtest/dataset.ts:133-179 | whatever the source answers: a replay that succeeds yields every minute of the range exactly once, in order, all of them for the pair |
| `Dataset.YieldedIsExact` | src/backtest/dataset.ts:146-170 | whatever the source answers: the rows yielded before a replay fails are every minute from the start exactly once, in order, all of them for the pair |
| `Dataset.EveryPageSizeAgrees` | src/backtest/dataset.ts:133-179 | over an ordered table a replay succeeds exactly if the range is complete, and with the same rows for every page size |
| `Dataset.ReplayVerifiedDataset` | src/backtest/dataset.ts:133-179 | the two nested loops compute the specified replay, and what they have yielded when it ends, in success or in failure, is every minute from the start |
| `RiskDecimal.ComputeCheckedProduct` | src/risk/decimal.ts:110-124 | the loop multiplies exactly, or fails; it never rounds |
| `RiskDecimal.FloorRatioIsOptimal` | src/risk/decimal.ts:97-107 | a floored ratio is a multiple of the increment, fits, and no larger multiple does |
| `RiskDecimal.ScaledQuotientIsExact` | src/risk/decimal.ts:97-107 | the integer arithmetic computes exactly the floor of the real ratio, for negative numerators too |
| `Exposure.ReasonsAreExact` | src/risk/exposure.ts:36-127 | each reason is given if and only if what it names is the case, the caps written out limit by limit |
| `Exposure.SilentMeansFits` | src/risk/exposure.ts:36-127 | no reason is raised if and only if the state is coherent, its reservations agree with the candidate, and open plus pending plus the request is within each of the seven notional and position limits of the policy |
| `Exposure.HeadroomIsExact` | src/risk/exposure.ts:60-77 | a notional is within a headroom if and only if open plus pending plus it is within every limit of that kind, both the environment's and the mode's |
| `Exposure.HeadroomIsTheBound` | src/risk/exposure.ts:64-127 | a positive notional fits every limit if and only if it does not exceed the headrooms |
| `TierSizing.ValidateTierIntervals` | src/risk/tier-resolution.ts:79-92 | the loop accepts exactly the contiguous tier tables |
| `TierSizing.SomeTier` | src/risk/tier-resolution.ts:79-100 | every non-negative notional below the last bound lies in some tier |
| `TierSizing.OnlyTier` | src/risk/tier-resolution.ts:79-100 | and in no two tiers |
| `TierSizing.ComputeSurvey` | src/risk/tier-resolution.ts:102-210 | the loop over the tiers collects the specified candidates and failures |
| `SizingPolicy.SizingIsBest` | src/risk/tier-resolution.ts:102-210 | whenever the arithmetic stays within its digits: an ill-formed request is refused as such; otherwise the greatest permitted quantity over all tiers is returned, at the greatest leverage among equals, or none is permitted and the reason says why. Permitted means whole increments, within risk budget, quantity, notional and headroom limits, its tier, and available margin times the least of the leverage limits that are present |
| `SizingPolicy.EveryLimitHolds` | src/risk/tier-resolution.ts:144-189 | the returned leverage exceeds none of the tier's, mode's, pair's, global, requested, override and account limits, and the position is affordable at each of them |
| `SizingPolicy.ReasonExplains` | src/risk/tier-resolution.ts:21-26 | the reason for returning nothing is the one that every tier has, and the general one if they differ; each is stated over the sizes within reach |
| `SizingPolicy.EnoughDigits` | src/risk/tier-resolution.ts:102-210 | with room for every product the arithmetic never runs out of digits |
| `TierSizingTheorems.PositiveMinimaSizePositively` | src/risk/tier-resolution.ts:102-210 | with a positive minimum quantity or notional every returned size is positive |
| `TierSizingTheorems.NoMinimaSizeNothing` | src/risk/tier-resolution.ts:102-210 | without positive minima an exactly exhausted global headroom is "sized" with zero |
| `TierSizingTheorems.SizesPositivelyExactly` | src/risk/tier-resolution.ts:102-210 | for fixed instrument limits every size returned, over all requests, is positive if and only if the minimum quantity, trade size or notional is positive |
| `TierSizingTheorems.MarginIsAvailable` | src/risk/tier-resolution.ts:144-198 | the initial margin of a returned size, although divided rounding up, does not exceed the available margin |
| `TierSizingTheorems.SizedPositionFits` | src/risk/tier-resolution.ts:144-189 | a position sized within a snapshot's headroom fits that snapshot's caps |
| `RiskEvaluation.EvaluationRespectsCaps` | src/risk/engine.ts:152-196 | an engine that sizes within the headroom and then asks exposure about the size opens nothing against the caps, whatever its other steps are |
| `RiskEvaluation.CapsHold` | src/dispatch/admission.ts:307-460 | admission with that engine keeps every single limit over every history, with no assumption on the engine |
| `RiskEvaluation.VerdictIsExact` | src/risk/engine.ts:152-196 | an opening is accepted if and only if no other step objects, the exposure is known, coherent and of the candidate's lineage, a size exists within its headrooms and that size fits every limit; then with just that notional |
| `RiskEvaluation.SizedIsOpened` | src/risk/engine.ts:152-196 | for a sound snapshot with a position to spare and an instrument with a positive minimum exposure never objects to what was sized within the headrooms: the verdict is the sizing's own |
| `Admission.ComputePending` | src/dispatch/admission.ts:534-573 | the loop over the admitted records builds the specified overlay |
| `AdmissionTheorems.OverlayConserves` | src/dispatch/admission.ts:534-573 | the overlay is what the base records and what was granted: in total, on the long and the short side each, per pair, per strategy and per instance, and in number |
| `AdmissionTheorems.OverlayIsWellFormed` | src/dispatch/admission.ts:534-573 | a well-formed base gives a well-formed overlay |
| `AdmissionTheorems.OneAdmittedPerDecision` | src/dispatch/admission.ts:307-399 | at most one record of a decision is admitted, and both indexes hold the same entry for it |
| `AdmissionTheorems.FreshAdmission` | src/dispatch/admission.ts:307-399 | a fresh admission has a generation above every earlier one of its decision, hence an unused id |
| `AdmissionOutcomes.FirstSubmissionExactly` | src/dispatch/admission.ts:307-399 | the outcome of a first submission: thrown, stale, or the engine's verdict about the base plus everything admitted; only an opening that is not to FLAT is granted, with the decision's own identity, side, notional and margin, and nothing else changes |
| `AdmissionOutcomes.ResubmissionExactly` | src/dispatch/admission.ts:307-350 | a decision that holds an admission gets that record again; after a restoration only if the engine, asked about everything that the others hold, comes to the same risk decision |
| `AdmissionOutcomes.RestorationExactly` | src/dispatch/admission.ts:210-290 | start-up restoration and fault recovery succeed exactly on admitted records of different decisions with sound watermarks, and then hold exactly the admissions read back, unconsumed and without a verdict |
| `AdmissionTheorems.AdmitInv` | src/dispatch/admission.ts:307-399 | admitting keeps the invariant of the two indexes |
| `AdmissionTheorems.ReleaseInv` | src/dispatch/admission.ts:401-422 | so does releasing |
| `AdmissionTheorems.ConsumeInv` | src/dispatch/admission.ts:424-434 | and consuming |
| `AdmissionHistories.RestoreInv` | src/dispatch/admission.ts:210-234 | and start-up restoration from complete watermarks |
| `AdmissionHistories.RecoverInv` | src/dispatch/admission.ts:236-251 | and fault recovery from complete watermarks |
| `AdmissionHistories.HistoryKeeps` | src/dispatch/admission.ts:210-434 | over every history the invariant holds and no watermark of an instance's sequence or a decision's generation falls |
| `AdmissionHistories.GenerationsIncrease` | src/dispatch/admission.ts:307-399 | over every history, restorations included, the generations of one decision strictly increase |
| `AdmissionHistories.ConsumedAtMostOnce` | src/dispatch/admission.ts:424-434 | between restorations an admission is consumed once, by one intent |
| `AdmissionHistories.MarkersStay` | src/dispatch/admission.ts:401-434 | until a restoration a consumption marker survives everything, release included |
| `AdmissionCaps.CapsAreNeverOversubscribed` | src/dispatch/admission.ts:307-460 | over every history under a fixed base and fixed limits, with any engine that opens nothing against exposure's reasons: whichever different decisions hold an admission, open plus base-pending plus their notionals is within each global, pair and strategy limit, and the positions within each of the three position limits |
| `AdmissionLimits.UnknownBaseBecomesKnown` | src/dispatch/admission.ts:535-539 | the reason against an unknown base disappears behind the overlay |
| `AdmissionLimits.DuplicateInstancesCollapse` | src/dispatch/admission.ts:534-573 | for every base and all admitted records: the base is refused for repeated instances if and only if it has any, its overlay never is, and the overlay alone leaves the base as it is if and only if it has none |
| `AdmissionLimits.MarkerSurvivesExactly` | src/dispatch/admission.ts:236-251 | for every state and batch: a marker survives the recovery if and only if it was there, its entry is not the current one of its decision, and no row of the batch has its id |
| `AdmissionLimits.MarkersOutliveRecovery` | src/dispatch/admission.ts:236-251 | for every engine and request: after opening, consuming, releasing and opening again, the first consumption marker survives every recovery whose rows do not claim its id |
| `AdmissionLimits.MarkerOutlivesUnderCaps` | src/dispatch/admission.ts:236-251 | such a marker exists under an engine that respects the caps |
| `AdmissionCoordinator.RiskAdmissionCoordinator.constructor` | src/dispatch/admission.ts:117-138 | a new coordinator knows nothing |
| `AdmissionCoordinator.RiskAdmissionCoordinator.AdmitLocked` | src/dispatch/admission.ts:307-399 | the method's new maps and outcome are those of the function, and the invariant holds |
| `AdmissionCoordinator.RiskAdmissionCoordinator.ReleaseLocked` | src/dispatch/admission.ts:401-422 | likewise for a release |
| `AdmissionCoordinator.RiskAdmissionCoordinator.ConsumeForLiveLocked` | src/dispatch/admission.ts:424-434 | likewise for a consumption |
| `AdmissionCoordinator.RiskAdmissionCoordinator.RestoreLocked` | src/dispatch/admission.ts:210-234 | likewise for start-up restoration |
| `AdmissionCoordinator.RiskAdmissionCoordinator.RestoreAuthoritativeLocked` | src/dispatch/admission.ts:236-251 | likewise for fault recovery |
| `RankingTheorems.HalfUpIsNearest` | src/backtest/decimal.ts:46-68 | rounding half up gives the nearest unit, and the larger of two equally near |
| `RankingPolicy.RowsAreThePolicy` | src/ranking/policy.ts:74-124 | a candidate's seven rows carry the seven metrics with the directions and weights of the policy, written out: the position counts the distinct better values, the score is the nearest to the share of values left behind, and the composite is the sum |
| `RankingPolicy.BetterValueScoresMore` | src/ranking/normalize.ts:40-90 | a value is strictly better at a metric, in the direction written out for it, if and only if its position is strictly smaller; its score is then no lower, and strictly higher as long as the published scale can tell the places apart |
| `RankingPolicy.CandidatesAreTheAvailable` | src/ranking/core.ts:95-114 | the candidates are exactly the evidence with all seven metrics available, each with its own values |
| `RankingPolicy.EverybodyGetsAResult` | src/ranking/core.ts:158-263 | every piece of evidence has a result and every result its evidence: ranked with its own rows, or insufficient with exactly the metrics that are missing; ranks run from 1 |
| `RankingTheorems.ScoreInUnit` | src/ranking/normalize.ts:66-80 | component scores lie in [0, 1], the best value scores 1 and the worst of several 0 |
| `RankingTheorems.CompositeInUnit` | src/ranking/score.ts:20-48 | composite scores lie in [0, 1], and a candidate best at everything scores exactly 1 |
| `RankingTheorems.DominanceIsRespected` | src/ranking/score.ts:20-48 | a candidate whose six metrics are at least as high and whose drawdown is at least as low has no lower composite score, in spite of the rounding of each term |
| `RankingTheorems.DominatorRanksAbove` | src/ranking/tie-break.ts:88-117 | and is ranked above, unless the two are level on the composite score and every tie-break metric and their ids decide |
| `RankingTheorems.ComparatorIsTotal` | src/ranking/tie-break.ts:65-96 | the comparator is antisymmetric, says 0 only of candidates with one id, and puts first exactly what precedes lexicographically |
| `RankingTheorems.BeforeIsStrict` | src/ranking/tie-break.ts:88-96 | what the comparator puts first is a strict order |
| `Orders.LexIsFirstDifference` | src/ranking/tie-break.ts:82-84 | the order of ids: one ends inside the other or has the smaller character where they first differ |
| `RankingTheorems.RankedResultsForgetOrder` | src/ranking/core.ts:158-263 | order, ranks, tie groups and scores of one pair do not depend on the order of the candidates |
| `RankingTheorems.RunForgetsOrder` | src/ranking/core.ts:158-263 | nor does the whole run of a pair, candidates with insufficient evidence included |
| `RankingTheorems.RunSetForgetsOrder` | src/ranking/core.ts:271-310 | nor does the whole run set, errors included |
| `RankingEngine.NumberValues` | src/ranking/normalize.ts:57-65 | numbering the ordered distinct values gives each the number of values better than it |
| `RankingEngine.NormalizeComponent` | src/ranking/normalize.ts:49-88 | fails exactly on no candidates or a repeated id; otherwise every candidate is placed by the number of distinct values that beat its own, with the nearest score |
| `RankingEngine.ComputeCompositeScore` | src/ranking/score.ts:20-48 | succeeds exactly if every component occurs once, and then the rows re-add to the total in any order |
| `RankingEngine.OrderRankingCandidates` | src/ranking/tie-break.ts:104-117 | fails exactly if the comparator leaves two candidates undecided; otherwise the result is sorted strictly |
| `RankingEngine.TieGroups` | src/ranking/core.ts:198-216 | the scan gives every candidate the number of candidates with its composite score, and marks the first of each group |
| `RankingEngine.TieBreakIsNamed` | src/ranking/core.ts:218-240 | every candidate but the first of its group is published with a level, and that level puts its predecessor first |
| `RankingEngine.BuildPairRankingRun` | src/ranking/core.ts:158-263 | computes the specified run of a pair, and fails exactly if two rankable candidates share an id |
| `RankingEngine.ComposeRankingRunSet` | src/ranking/core.ts:271-310 | refuses duplicates and mixed plans exactly when there are any; otherwise one run per pair, computed from that pair's evidence alone |
| `DecimalTheorems.CanonicalKeepsNumber` | src/execution/decimal.ts:115-128 | the canonical string denotes the same number and is in canonical form |
| `DecimalTheorems.CanonicalIsUnique` | src/execution/decimal.ts:115-128 | a number has only one canonical form |
| `DecimalTheorems.CanonicalExactly` | src/risk/decimal.ts:69-85 | canonical strings are equal exactly if the numbers are |
| `DecimalTheorems.CanonicalIdempotent` | src/risk/decimal.ts:69-85 | canonicalizing twice is canonicalizing once |
| `DecimalTheorems.FormatRoundTrips` | src/execution/decimal.ts:130-147 | printing a scaled integer and decomposing the text gives the same integer and scale |
| `DecimalTheorems.ExactSumIsExact` | src/risk/decimal.ts:25-36 | string addition loses nothing |
| `DecimalTheorems.FloorIsNearestBelow` | src/execution/decimal.ts:149-185 | fails exactly for a tick that is not positive; otherwise the greatest multiple of the tick not above the value, for negatives too |
| `DecimalTheorems.CeilIsNearestAbove` | src/execution/decimal.ts:149-178 | likewise the least multiple not below the value |
| `DecimalTheorems.AlignedExactly` | src/execution/decimal.ts:193-201 | a quantity passes exactly if it is a multiple of a positive increment |
| `RegistryTheorems.ApplySound` | src/coin-runtime/registry.ts:182-540 | every operation keeps the registry sound: nothing past PAPER, DATA_READY together with its evidence, proofs never ahead of the revisions |
| `RegistryTheorems.NamedPairIsTrimmed` | src/coin-runtime/data-readiness.ts:13-20 | a pair in the form that data initialization demands has nothing to trim |
| `RegistryTheorems.PromotionKeepsIndexes` | src/coin-runtime/registry.ts:516-539 | a promotion keeps the two indexes together, because the pair of a proof has nothing to trim |
| `RegistryTheorems.ApplyIndexed` | src/coin-runtime/registry.ts:182-540 | every operation keeps them together |
| `RegistryHistories.IndexesStayTogether` | src/coin-runtime/registry.ts:218-337 | over every history the registry is sound and its two indexes describe the same records one to one |
| `RegistryHistories.SpacedPairIsNeverPromoted` | src/coin-runtime/data-readiness.ts:13-20 | in no history is a coin promoted whose pair has spaces around it |
| `RegistryHistories.ApplyRises` | src/coin-runtime/registry.ts:182-212 | neither kind of revision ever falls |
| `RegistryHistories.ChangeRaisesRevision` | src/coin-runtime/registry.ts:200-212 | nothing about a coin changes without its revision rising |
| `RegistryHistories.OnlySingleSteps` | src/coin-runtime/lifecycle.ts:16-121 | of all transitions exactly the single steps are allowed, and authorization stops at PAPER |
| `RegistryHistories.GrantedExactly` | src/coin-runtime/registry.ts:413-454 | a transition is granted if and only if the coin is registered, the target is not DATA_READY nor past PAPER, and it is a single step or stays disabled |
| `RegistryHistories.LifecycleFollowsGraph` | src/coin-runtime/lifecycle.ts:16-121 | a lifecycle changes only by a single step not past PAPER or by a new registration at its start, and becomes DATA_READY only from next to it by a proof that is still current |
| `RegistryHistories.NeverPastPaper` | src/coin-runtime/lifecycle.ts:85-121 | in every history no coin is PAPER_APPROVED, SHADOW, LIVE_CANDIDATE or LIVE, and a coin is DATA_READY exactly while it carries evidence of its latest lifecycle revision |
| `RegistryHistories.PromotesAtMostOnce` | src/coin-runtime/registry.ts:516-539 | a proof promotes at most once, ever |
| `RegistryHistories.ProofCertifiesStillness` | src/coin-runtime/registry.ts:479-539 | between the start of an initialization and the promotion by its proof nothing about the coin changed, and no rival initialization began |
| `RegistryHistories.OvertakenNeverIssues` | src/coin-runtime/registry.ts:479-514 | an initialization overtaken by a later one of its coin can no longer issue a proof |
| `RegistryOutcomes.TrimIsExact` | src/coin-runtime/registry.ts:250-305 | the trimmed pair is the pair without the spaces at both ends |
| `RegistryOutcomes.RegistersExactly` | src/coin-runtime/registry.ts:218-281 | a registration is refused if and only if its lifecycle is no start or its symbol or trimmed pair is taken; otherwise the whole new state is stated |
| `RegistryOutcomes.ReplacesExactly` | src/coin-runtime/registry.ts:287-337 | a rediscovery is refused if and only if it has no instrument, does not start at the start, or its pair is another coin's; the pair held before leaves the index unless it is the same, and no other does |
| `RegistryOutcomes.SettlesExactly` | src/coin-runtime/registry.ts:492-514 | an initialization issues a proof if and only if the same record is registered, neither revision has moved, and the answer has the registered pair in the form that names its coin and quote currency |
| `RegistryOutcomes.PromotesExactly` | src/coin-runtime/registry.ts:517-539 | a promotion is granted if and only if the proof fits the coin and has promoted it before with nothing begun since, or is outstanding; the whole new state is stated |
| `CoinRegistry.CoinRegistry.BeginDiscovery` | src/coin-runtime/registry.ts:182-187 | the next revision, and nothing else changed |
| `CoinRegistry.CoinRegistry.NotifyChanged` | src/coin-runtime/registry.ts:200-212 | both revisions rise and the evidence is replaced |
| `CoinRegistry.CoinRegistry.Register` | src/coin-runtime/registry.ts:218-281 | the indexes after a registration, or no change if it is refused |
| `CoinRegistry.CoinRegistry.ReplaceOrRegisterDiscovered` | src/coin-runtime/registry.ts:287-337 | likewise for a rediscovery, with the old pair removed |
| `CoinRegistry.CoinRegistry.TransitionLifecycle` | src/coin-runtime/registry.ts:413-454 | likewise for a lifecycle transition |
| `CoinRegistry.CoinRegistry.Clear` | src/coin-runtime/registry.ts:466-470 | both indexes empty, and every coin ever seen notified by the loop |
| `CoinRegistry.CoinRegistry.PrepareDataReadiness` | src/coin-runtime/registry.ts:479-492 | an initialization up to its wait |
| `CoinRegistry.CoinRegistry.SettleDataReadiness` | src/coin-runtime/registry.ts:492-514 | the rest of it: a proof only for an owner whose answer has the registered pair, in the form that names its coin and quote currency |
| `CoinRegistry.CoinRegistry.PromoteDataReady` | src/coin-runtime/registry.ts:517-539 | the promotion, its repetition, or its refusal |

## Left out

- CapsAreNeverOversubscribed: covers histories without restorations, because a restored record may have been admitted under another base.
- SizingIsBest: says nothing of requests whose products need more digits than the context has; these are refused before a size exists.
- OcoFillsOnce: begins with a fill inside a bar, because a market leg that fills at activation leaves its sibling alone (`BothLegsFill`).
- EveryPageSizeAgrees: assumes pages of whole minutes; `ReplayIsExact` does not.
- HTTP, WebSocket, Prisma, logging, environment and scripts: only their answers enter the model (insert outcome, baseline or failure, REST batch or failure, instrument or failure).
- Hashing and canonical JSON: identifiers are the tuples that the source hashes.
- Health labels, freshness timers and counters: no modelled behaviour depends on them.
- Real time: when timers fire and what the clock says are choices of the scheduler.
- The market-data engine is modelled on values for one pair, not as heap objects; the class forms are those of the pair machine, the coordinator and the working-candle manager. What the engine model then does not capture is aliasing between several pairs, of which the coordinator's `PairsAreIsolated` treats the one shared object.
- Events other than closed canonical minutes, and subscribers that call anything but `stop` during a dispatch.
- Higher-timeframe aggregation, indicators and the candle repository's own code: the candle repository is not part of this model beyond its three answers to an insert.
- The 128-digit decimal contexts: ledger and sizing are over reals; only `checkedProduct`'s refusal to round is kept, with the number of significant digits as any function.
- Ranking divides in 128 digits before it rounds to 18 places; the model rounds once, which is the same for any number of candidates that fits a safe integer.
- Symbol canonicalization (`canonicalizeUnderlying`) and entry eligibility: the registry's symbols are canonical, and eligibility is part of a runtime's other settings.
- Registry change listeners: what they do counts as the next operation. `clear()` notifies inside its loop, so a listener of it runs between two coins' notifications; that interleaving is not modelled. Deep cloning and freezing come for free with values.
- Orders.LexLess: compares Unicode characters, where the source's `<` compares UTF-16 units; the two orders differ only for ids with characters outside the basic plane.
- The registry's record objects are entries of a store addressed by identity, not heap objects.
- The first pass of `verifyHistoricalDataset` (structure checks and running hashes): the replay is proved exact for whatever the source answers.
- `BacktestRunner.Engine` holds the account as a value of the ledger's specification, not as a ledger object; `Ledger.BacktestAccountingLedger` is proved against the same specification.
- The individual reason codes of the sizing gate (they are one refusal); the margins of a size are related to it by `MarginIsAvailable` only.
- The risk engine beside exposure and sizing: its other steps are any function of policy and context (`RiskEvaluation.Surroundings`), which may only refuse or choose another action.
- Several accounts in one coordinator: the model is one account's slice, since every key and id contains the account.
- The keyed serial queue: its operations are the atomic steps of the admission model.
- Authority devices (WeakMap channels, issuer symbols, frozen exports) and `execution/live/decimal.ts`, which repeats `execution/decimal.ts`.
- Parsing limits of the decimal library (exponents beyond its range): a fixed-point string always denotes its number.
