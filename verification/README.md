# Verified model of the trading guardrails

This project models, in Dafny, the protocols that decide whether a trade may happen and make sure it happens at most
once, and the numeric and parsing code whose exact meaning they rely on. `dafny verify dfyconfig.toml` checks it.

| module | models |
|---|---|
| `TradingIntents`, `Outcomes` | shared data |
| `IdempotencyStore`, `ApprovalStore` | the durable idempotency file with each process's reservations; the approval table |
| `BrokerExecution`, `BrokerExecute` | results and terminal events; `execute` as one process runs it |
| `BrokerProtocol` | all broker processes as one state machine, with crashes and faulty writes |
| `BrokerSafety`, `BrokerResults`, `BrokerApprovals`, `BrokerReplays` | what every run keeps: one connector call per key, audited and stable results, consumed approvals; when a retry is given the stored result |
| `AuditChain` | the audit hash chain and its external anchor |
| `HistoryCollection`, `DecimalText` | collecting exchange history; writing quantities without exponents |
| `CostBasis` | spot losses by weighted-average cost |
| `Numerals`, `StateDiffs`, `TraceBalances`, `BalanceDelta`, `StateOverrides` | a simulated state diff becomes balance changes, a verdict and state overrides |
| `SignerRuntime` | signing requests with reserved rows |
| `GuardrailStore`, `GuardrailEvaluate` | deduplicated evaluation of intents |
| `CanonicalJson`, `Uint256`, `TokenExtensions` | exact languages: canonical JSON, 256-bit decimals, Token-2022 extensions |

Conventions. A durable write is done, lost, or takes effect and still throws (`WriteOutcome`). Digests and signatures
are free constructors or the hashed value itself, so different inputs differ and no digest is the genesis value. The
storage-slot hash is an arbitrary function; where it must not collide, that is stated as a condition on the configured
slots (`StateDiffs.NoCollisions`). Protocols are state machines whose labels carry everything the outside decides:
verdicts of checks, clocks, connector answers and faults. Objects of the source are classes whose methods are proved
against the functions the state machines are made of.

Where the code does something else than its own comments or callers suggest, the model follows the code and says exactly
when the expected property holds:

- A retry is not always given the stored result, even when all its own writes work. It is given it exactly when three
  things hold (`BrokerReplays.RetryReplaysExactlyWhen`): no reservation of the key is left in its process, which
  fails after a release whose write threw (`BrokerReplays.LostReleaseInput`); the result executed or the intent is no
  order-status query, because the replay check demands status evidence that other results have not; and the pending
  event, if any, has an id that is free in the log or its own.
- Terminal audit ids join their fields by colons: they tell calls apart exactly where keys and principals hold none
  (`IdempotencyStore.TerminalIdsDetermineCalls`, `IdempotencyStore.ColonsShareTerminalIds`).
- An interrupted backfill of a legacy audit table leaves a table that no later start accepts, exactly when it sealed
  some rows but not all (`AuditChain.InterruptedBackfill`).
- The printers that sort keys with the locale's comparison are canonical exactly when no two distinct keys tie
  (`CanonicalJson.CanonicalExactlyWithoutTies`).
- The comparison tolerance lets a sell charge more than its lot cost; the excess is zero exactly when no sell spends
  beyond its lot (`CostBasis.RunConserves`).
- An evaluation that fails after creating its approval leaves it behind exactly when the deletion throws as well
  (`GuardrailEvaluate.FailedEndLeavesNoApproval`).

## Model

| member | source | states |
|---|---|---|
| BrokerSafety.ConnectorCalledAtMostOncePerKey | packages/broker/src/broker.ts:255-579 | over every run of several processes with crashes, lost and half-done writes, two connector calls on one scoped key are the same call |
| BrokerSafety.OrphanIsNeverReserved | packages/broker/src/idempotency-store.ts:208-237 | an in-progress entry nobody holds any more blocks its key for good: it keeps its payload and no further call is made on it |
| BrokerSafety.OwnedRun | packages/broker/src/idempotency-store.ts:204-323 | every run keeps: a holder's reservation is in memory and in the file, a key has one holder, a called key stays in the file |
| BrokerSafety.OwnedNext | packages/broker/src/broker.ts:255-579 | one step of any call, arrival, crash or operator keeps that ownership |
| BrokerSafety.ActReserves | packages/broker/src/idempotency-store.ts:204-323 | as long as a call may still execute, the store shows its own reservation |
| BrokerSafety.ActKeeps | packages/broker/src/idempotency-store.ts:253-322 | no step but a holder's releases a key or overwrites another attempt's in-progress entry or reservation |
| BrokerResults.ResultsAreAudited | packages/broker/src/broker.ts:779-809 | whoever is given a result, by executing, replaying or waiting, gets one that a row of the audit log already reports |
| BrokerResults.StoredResultsAgree | packages/broker/src/idempotency-store.ts:225-237 | of two calls on one key that were both given a stored result, both had one payload and got one result; when a retry is given one is RetryReplaysExactlyWhen |
| BrokerReplays.RetryReplaysExactlyWhen | packages/broker/src/idempotency-store.ts:204-237 | in every reachable state with a stored result, a retry with the stored payload whose own writes are done is given that result if and only if its process has no reservation of the key left, the result executed or the intent is no order-status query, and the pending event's id is free in the log or its own; otherwise it is given nothing |
| BrokerReplays.OrphanFailsRetries | packages/broker/src/idempotency-store.ts:208-237 | a retry on an orphaned key fails in every process |
| BrokerReplays.OnlyTheCallersProcessBlocks | packages/broker/src/idempotency-store.ts:208-212 | with a result stored, only the process of the call that stored it can still hold a reservation of the key |
| BrokerReplays.RetryAfterFailedAudit | packages/broker/src/broker.ts:789-797 | after a terminal audit failed on a stored result, retries in every process are given the first stored result, but for a failed status query or an event id taken by another event |
| BrokerReplays.LostReleaseBlocksItsProcess | packages/broker/src/idempotency-store.ts:278-292 | in every run, when clearing a stored and audited result throws, the result stays stored and logged and every retry in that process is given nothing |
| BrokerReplays.LostReleaseInput | packages/broker/src/idempotency-store.ts:278-292 | one such input: the same retry fails in its own process and is given the result in any other |
| BrokerReplays.TracedRun | packages/broker/src/idempotency-store.ts:204-323 | every run keeps: reservations belong to sessions of their process that hold or called, with unresolved promises, and stored results come from a conclusion or a refusal of their own intent |
| BrokerReplays.GivenResultsAreOwn | packages/broker/src/idempotency-store.ts:204-253 | over every run a result given as stored is what some connector answer to the caller's own intent concluded, or a refusal of it |
| BrokerResults.OneTerminalRowPerCall | packages/audit/src/writer.ts:258-282 | every row with a deterministic id belongs to a connector call, and no call has two, however often it is retried |
| BrokerResults.StoredResultStays | packages/broker/src/idempotency-store.ts:253-306 | a cached result is never replaced or forgotten |
| BrokerResults.SoundRun | packages/broker/src/broker.ts:779-809 | every run keeps: cached results are logged or carry the event that will report them, promises resolve only to cached and logged results |
| BrokerResults.CompleteSound | packages/broker/src/idempotency-store.ts:255-277 | storing a result keeps the records sound even when the write is lost or takes effect and throws |
| BrokerApprovals.CallsConsumeTheirApproval | packages/broker/src/broker.ts:309-358 | a connector call made with an approval id consumed that approval, approved, unexpired at that moment and matching the intent |
| BrokerApprovals.OneCallPerApproval | packages/broker/src/broker.ts:460-470 | two connector calls never rest on one approval |
| BrokerApprovals.ApprovedRun | packages/broker/src/broker.ts:309-470 | every run keeps: past consumption a call holds its own use of its own approval, and a used approval is consumed |
| BrokerExecute.Broker.Execute | packages/broker/src/broker.ts:116-579 | run alone, `execute` with its handlers and flags makes exactly the steps of the state machine and replies as the reached phase says |
| BrokerExecute.Broker.ExecuteHeld | packages/broker/src/broker.ts:278-579 | the part from the reservation on does |
| BrokerExecute.Broker.CloseRefusal | packages/broker/src/broker.ts:267-306 | a refusal is kept or released; when that throws, the handler's abort finds nothing left to release |
| BrokerExecute.Broker.LookUpApproval | packages/broker/src/broker.ts:309-358 | the branches on the approval row, in order: consumed, missing or not approved, expired, mismatching |
| BrokerExecution.ReplayCheckPassesExactlyWhen | packages/broker/src/idempotency-store.ts:480-574 | a stored result without a pending event passes the check on replay exactly when it executed or the intent is not an order-status query |
| BrokerExecution.FailedStatusQueryIsNeverReplayed | packages/broker/src/idempotency-store.ts:538-552 | a failed status query whose stored result fails the check on replay |
| BrokerExecution.ExecutesExactlyWhen | packages/broker/src/broker.ts:704-760 | an answered call executes, with exactly its evidence, if and only if the evidence is of the action's kind, complete, and speaks of the intent's own order; otherwise it fails as revalidated |
| BrokerExecution.RaisedFails | packages/broker/src/broker.ts:496-530 | a connector that throws fails the call, as not revalidated exactly when the throw says so |
| BrokerExecution.TerminalEventReports | packages/broker/src/broker.ts:811-822 | the terminal event reports its result and passes the replay check exactly when the result does |
| BrokerExecution.RefusalEventReports | packages/broker/src/broker.ts:848-882 | a refusal's event reports it under the call's own intent, principal and correlation id, with an id of its own |
| BrokerExecution.WriteEventAdds | packages/audit/src/writer.ts:230-283 | a write adds its row, or nothing, and throws exactly on a failed write or a known id with other content |
| BrokerProtocol.ApprovalPassesExactlyWhen | packages/broker/src/broker.ts:309-358 | an approval lets a call pass if and only if it is one-time, approved, unexpired and was asked for this very call; otherwise which refusal it is and whether the key is released |
| BrokerProtocol.HowRefusalsEnd | packages/broker/src/broker.ts:116-306 | a logged refusal is returned once its key is closed, and throws when its last write does |
| BrokerProtocol.HowResultsEnd | packages/broker/src/broker.ts:779-809 | released and replayed results are returned as stored, and throw when their last write does |
| BrokerProtocol.HowWaitersEnd | packages/broker/src/idempotency-store.ts:208-212 | a waiter is given what its promise resolves to, and fails when it breaks |
| BrokerProtocol.OperatorsMoveApprovals | packages/approval/src/store.ts:138-343 | operators decide, expire, create and delete approvals; only brokers consume them |
| IdempotencyStore.TerminalIdsDetermineCalls | packages/broker/src/broker.ts:811-822 | where ids, keys, principals and correlation ids hold no colon, equal terminal ids are of one scope, intent, correlation and outcome |
| IdempotencyStore.ColonsShareTerminalIds | packages/broker/src/broker.ts:811-822 | with colons two calls of different scopes share a terminal id |
| IdempotencyStore.HeldKeyIsJoined | packages/broker/src/idempotency-store.ts:204-237 | while a reservation is held the same call waits for it and another payload conflicts; after a crash the key is orphaned |
| IdempotencyStore.FailedBeginReservesNothing | packages/broker/src/idempotency-store.ts:238-253 | a begin whose write throws reserves nothing, and one whose write took effect leaves an orphan |
| IdempotencyStore.AbortUndoesBegin | packages/broker/src/idempotency-store.ts:307-321 | begin and abort leave file and process as they were and fail the waiters; a lost abort leaves an orphan |
| IdempotencyStore.CompletedIsReplayed | packages/broker/src/idempotency-store.ts:255-277 | a result stored without an audit to come is given to waiters and retries; what each write outcome leaves |
| IdempotencyStore.StoredResultIsHeld | packages/broker/src/idempotency-store.ts:255-277 | a result with an audit to come stays held in its process and is replayed with that audit in others |
| IdempotencyStore.StoredResultIsReleased | packages/broker/src/idempotency-store.ts:278-306 | release gives the result to waiters and clears the audit, a failed audit breaks the promise and clears nothing, a throwing release keeps the reservation |
| IdempotencyStore.ReleaseWithoutItsResult | packages/broker/src/idempotency-store.ts:278-300 | a release without a reservation is a replayer's, and one that finds no stored result breaks the promise |
| IdempotencyStore.FailedReadAnswersNothing | packages/broker/src/idempotency-store.ts:204-253 | a known key whose file cannot be written back is answered by a failure |
| IdempotencyStore.OthersChangeNothing | packages/broker/src/idempotency-store.ts:253-322 | a caller without the reservation changes nothing |
| IdempotencyStore.ReplayableExactlyWhen | packages/broker/src/idempotency-store.ts:480-574 | a stored entry passes the check on replay if and only if its ids, kind, evidence and pending event are those of the intent |
| BrokerExecution.ExecutionBroker.FinishExecutionWithAudit | packages/broker/src/broker.ts:779-801 | store, audit and release in that order: success needs all three, and what each failure leaves in the file, the log and for waiters |
| BrokerExecution.ExecutionBroker.FlushPendingTerminalAudit | packages/broker/src/broker.ts:803-809 | a replay is released only with its event in the log, and clears the pending event |
| BrokerExecution.AuditLog.Write | packages/audit/src/writer.ts:239-283 | a known id adds no row and must repeat the stored content |
| IdempotencyStore.FileBrokerIdempotencyStore.BeginReservation | packages/broker/src/idempotency-store.ts:204-253 | conflict, joining, orphan, replay or a new reservation, with the write's three outcomes |
| IdempotencyStore.FileBrokerIdempotencyStore.CompleteReservation | packages/broker/src/idempotency-store.ts:255-277 | the stored result, the settled promise and the remaining reservation |
| IdempotencyStore.FileBrokerIdempotencyStore.CompleteReservationAudit | packages/broker/src/idempotency-store.ts:278-300 | the pending event is cleared and waiters settle with the stored result, or break when the write throws |
| IdempotencyStore.FileBrokerIdempotencyStore.CompleteReplay | packages/broker/src/idempotency-store.ts:353-360 | a replayer clears the pending event only of its own payload |
| IdempotencyStore.FileBrokerIdempotencyStore.FailReservationAudit | packages/broker/src/idempotency-store.ts:301-306 | waiters break, the file keeps the result |
| IdempotencyStore.FileBrokerIdempotencyStore.AbortReservation | packages/broker/src/idempotency-store.ts:307-321 | an own in-progress entry is removed, a cached one never |
| IdempotencyStore.FileBrokerIdempotencyStore.WriteState | packages/broker/src/idempotency-store.ts:330-384 | a write is done, lost, or takes effect and throws |
| ApprovalStore.RunFollows | packages/approval/src/store.ts:214-269 | at every call of every sequence a row stays, goes from pending to approved, denied or timed out, or goes from approved to consumed with its decision kept; a deleted row never returns and a new one is pending |
| ApprovalStore.RunReaches | packages/approval/src/store.ts:214-269 | from first to last state of a run: facts never change, decisions freeze, and only approved rows end consumed |
| ApprovalStore.DecisionTakesEffect | packages/approval/src/store.ts:214-256 | a decision turns a pending row, in time and with its audit written, into what its operator asked for, one past its deadline into timed out, and changes nothing else |
| ApprovalStore.DecidedByItsOperator | packages/approval/src/store.ts:214-256 | over every run a row it turned approved or consumed was approved, and one it turned denied was denied, by a call of the operator it names at the time it names, while pending and in time |
| ApprovalStore.RequestsStartPending | packages/approval/src/store.ts:138-202 | a new request is pending under a new id, which is never issued again; deleting one leaves all others |
| ApprovalStore.ConsumedWasApproved | packages/approval/src/store.ts:258-269 | a row that a run consumed stood approved, under the same decision, at an earlier moment of it |
| ApprovalStore.RunDecidesInTime | packages/approval/src/store.ts:214-256 | a decided row was decided by a named operator before its deadline |
| ApprovalStore.ConsumedAtMostOnce | packages/approval/src/store.ts:258-269 | a run takes the use of one approval at most once, and exactly once when it consumes it |
| ApprovalStore.ApplyFollows | packages/approval/src/store.ts:136-343 | one call leaves a row, decides or times out a pending one, or consumes an approved one, and nothing else |
| ApprovalStore.ApprovalStore.Approve | packages/approval/src/store.ts:214-240 | the transaction's new table, with the late decision timing out and audit failure rolling back |
| ApprovalStore.ApprovalStore.Deny | packages/approval/src/store.ts:242-256 | likewise for a denial |
| ApprovalStore.ApprovalStore.ConsumeOneTime | packages/approval/src/store.ts:258-269 | consumes only an approved, unexpired, one-time row |
| ApprovalStore.ApprovalStore.ExpireOne | packages/approval/src/store.ts:334-343 | expires only a pending row past its deadline |
| ApprovalStore.ApprovalStore.CheckTimeouts | packages/approval/src/store.ts:397-406 | the sweep times out exactly the overdue pending rows, or a part of them when an audit throws |
| AuditChain.HeadDeterminesRows | packages/audit/src/writer.ts:211-228 | two accepted chains with one head agree on every hashed field of every row |
| AuditChain.TruncationChangesHead | packages/audit/src/writer.ts:211-228 | a proper prefix of an accepted chain has another head |
| AuditChain.SealedFieldsUnique | packages/audit/src/writer.ts:402-436 | the hashed text determines every field of a row |
| AuditChain.SealedIsAccepted | packages/audit/src/writer.ts:132-176 | backfilling any fully legacy table gives an accepted chain |
| AuditChain.WriteKeeps | packages/audit/src/writer.ts:230-323 | a write only extends the chain by its own row; when it returns the anchor is the head, and the chain is never more than one row ahead |
| AuditChain.RecoversExactlyLinked | packages/audit/src/writer.ts:211-228 | a chain is accepted if and only if every row's digest covers its fields and the digest before it |
| AuditChain.KnownIdMustRepeat | packages/audit/src/writer.ts:254-282 | a write of a known id adds no row and returns if and only if the stored row agrees on every field but the time, the commit works and the anchor holds the head, which only the last row's repeat may restore |
| AuditChain.NewIdIsAppended | packages/audit/src/writer.ts:283-322 | a write of a new id returns if and only if the anchor held the head, the commit works and the new head reaches the anchor; committed, it is the chain's last row |
| AuditChain.OnlyTheLastEventRepairs | packages/audit/src/writer.ts:272-322 | behind a failed anchor write only a repeat of the last event succeeds, and it repairs the anchor without a row |
| AuditChain.RunKeeps | packages/audit/src/writer.ts:230-375 | over every run of writes, crashes, restarts and repairs the chain stays accepted, only grows, and leads its anchor by at most one row |
| AuditChain.RestartWorksExactlyWhen | packages/audit/src/writer.ts:355-375 | a restart works if and only if the anchor holds the head, or may be rewritten and is |
| AuditChain.AuditWriter.Open | packages/audit/src/writer.ts:50-64 | construction on a sealed table is exactly one restart step; on any table it leaves a verified chain or fails, and changes no hashed field |
| AuditChain.InterruptedBackfill | packages/audit/src/writer.ts:154-175 | a backfill stopped partway leaves a table every start refuses exactly when some rows but not all were sealed |
| AuditChain.AuditWriter.BackfillLegacyEventHashes | packages/audit/src/writer.ts:132-176 | refuses a mixed table, seals an unsealed one, leaves a sealed one |
| AuditChain.AuditWriter.RecoverLastHash | packages/audit/src/writer.ts:211-228 | succeeds exactly on accepted chains and then knows the head |
| AuditChain.AuditWriter.Transaction | packages/audit/src/writer.ts:232-313 | which events are inserted, recognised or refused, and the hash to anchor |
| AuditChain.AuditWriter.WriteEvent | packages/audit/src/writer.ts:230-323 | the whole write with both anchor outcomes and the repair state |
| AuditChain.AuditWriter.VerifyAnchoredHash | packages/audit/src/writer.ts:355-375 | the anchor is checked, or repaired when that is allowed |
| AuditChain.AuditWriter.WriteAnchoredHash | packages/audit/src/writer.ts:377-400 | the anchor file after a done, lost or half-done write |
| HistoryCollection.WindowIsComplete | packages/binance-connector/src/rest-client.ts:499-529 | the window's records as a multiset, or a throw exactly when some millisecond holds a full page |
| HistoryCollection.WindowIsSound | packages/binance-connector/src/rest-client.ts:499-529 | against any server at all, only records of the window |
| HistoryCollection.SpotTrades | packages/binance-connector/src/rest-client.ts:530-556 | terminates and returns every trade up to the cutoff exactly once, in id order |
| HistoryCollection.ReadPage | packages/binance-connector/src/rest-client.ts:541-553 | a page is rejected exactly when some id does not advance |
| HistoryCollection.AdvancesExactlyWhenIncreasing | packages/binance-connector/src/rest-client.ts:541-553 | a page is taken if and only if its ids increase from the cursor on |
| DecimalText.UnrollKeepsValue | packages/binance-connector/src/rest-client.ts:98-110 | unrolled exponents are plain decimal notation for the same number |
| DecimalText.PlainIsDigitsAndAPoint | packages/binance-connector/src/rest-client.ts:98-110 | plain notation is digits with at most one point inside |
| CostBasis.LossIgnoresOrder | packages/binance-connector/src/risk-provider.ts:304-340 | every permutation of the trades is accepted or rejected alike and gives the same loss |
| CostBasis.SortedOrdersAgree | packages/binance-connector/src/risk-provider.ts:304-340 | two sorted orders of the same trades, ties and all, leave the same books |
| CostBasis.RunConserves | packages/binance-connector/src/risk-provider.ts:310-340 | lots stay non-negative and buy costs equal charged costs plus remaining cost, up to oversells the tolerance admits, whose excess is zero exactly when there are none |
| CostBasis.CostIsConserved | packages/binance-connector/src/risk-provider.ts:310-340 | with exact comparison cost is conserved |
| CostBasis.ToleranceBreaksConservation | packages/binance-connector/src/risk-provider.ts:37-39 | with any positive tolerance some accepted trades charge more than was paid |
| CostBasis.SellKeepsUnitCost | packages/binance-connector/src/risk-provider.ts:326-337 | a partial sell leaves the unit cost unchanged |
| CostBasis.LossCoversNet | packages/binance-connector/src/risk-provider.ts:326-332 | the loss is at least today's charged cost less today's proceeds |
| CostBasis.LossIsTodaysLosses | packages/binance-connector/src/risk-provider.ts:326-332 | an accepted run's loss is exactly the sum, over today's sells, of the positive part of charged cost less net proceeds, each on the lot the trades before it left |
| CostBasis.ReportedLoss | packages/binance-connector/src/risk-provider.ts:294-350 | the reported loss is that sum, and zero when nothing was traded today |
| CostBasis.BuyAcceptedExactlyWhen | packages/binance-connector/src/risk-provider.ts:311-325 | which buys are accepted, and what they add: base fees reduce the units, stable fees add to the cost |
| CostBasis.SellAcceptedExactlyWhen | packages/binance-connector/src/risk-provider.ts:311-340 | which sells are accepted, and what they leave: the unit cost, or nothing |
| CostBasis.QuantityIsConserved | packages/binance-connector/src/risk-provider.ts:310-340 | per base, what remains is what was held plus net bought units plus what was oversold |
| CostBasis.ReportedOnlyWhenReconciled | packages/binance-connector/src/risk-provider.ts:294-350 | a loss is reported only for observations taken together and holdings the trades account for; with exact comparison the held quantity is the trades' net |
| CostBasis.ReportedExactlyWhen | packages/binance-connector/src/risk-provider.ts:222-350 | a loss is reported if and only if the history is sound, it and the snapshot are at most thirty seconds apart, every trade finds its inventory and each covered lot is what the account holds |
| CostBasis.BaseSplitsPairs | packages/binance-connector/src/risk-provider.ts:31-36 | a symbol is accepted if and only if it spells a base of capitals and digits, no stable asset, against a stable asset |
| CostBasis.CoverUniverse | packages/binance-connector/src/risk-provider.ts:53-68 | accepts exactly a nonempty list of supported symbols with one symbol per base |
| CostBasis.ValidateTrades | packages/binance-connector/src/risk-provider.ts:222-250 | accepts exactly valid trades with distinct records |
| CostBasis.TradeOnLot | packages/binance-connector/src/risk-provider.ts:311-340 | the body of the loop on one lot |
| CostBasis.RunSpotLoss | packages/binance-connector/src/risk-provider.ts:294-350 | the loops of `spotLoss` compute the specified loss or throw alike |
| StateDiffs.BuildSlotIndex | packages/evm-connector/src/trace-balances.ts:234-288 | accepts exactly the configurations with unique tokens and readable, separate slots, and indexes exactly their slots |
| StateDiffs.TokenSlots | packages/evm-connector/src/trace-balances.ts:249-285 | the slots of one token, each balance under its own account and asset |
| StateDiffs.AllowanceSlots | packages/evm-connector/src/trace-balances.ts:261-272 | one allowance slot for every pair of observed accounts |
| StateDiffs.DiffStorage | packages/evm-connector/src/trace-balances.ts:412-445 | each changed slot once, with its word before and its delta; omitted slots are zero |
| StateDiffs.ParseStorageMap | packages/evm-connector/src/trace-balances.ts:447-464 | accepts exactly maps whose keys name different slots and whose values are words |
| StateDiffs.CodeIsKeptExactlyWhenUnchanged | packages/evm-connector/src/trace-balances.ts:366-410 | an account is accepted for its code if and only if both sides' codes read and none is changed, created or removed |
| TraceBalances.ClassifyAndExtract | packages/evm-connector/src/trace-balances.ts:56-205 | accepts exactly the diffs with well-formed accounts, kept code and no change outside configured slots, and reports exactly the implied balance changes |
| TraceBalances.AcceptedKeepsCode | packages/evm-connector/src/trace-balances.ts:366-410 | accounts of an accepted diff keep their code |
| TraceBalances.ReadAccount | packages/evm-connector/src/trace-balances.ts:117-185 | one key's contribution to every total |
| TraceBalances.ClassifyChanges | packages/evm-connector/src/trace-balances.ts:155-184 | every changed slot must be classified; balance slots are charged to their holder |
| TraceBalances.ListBalances | packages/evm-connector/src/trace-balances.ts:187-199 | one entry per native delta and per nonzero token delta |
| TraceBalances.ChargedIsOwnSlot | packages/evm-connector/src/trace-balances.ts:254-260 | without collisions an account is charged exactly its own slot's change |
| TraceBalances.TallyReports | packages/evm-connector/src/trace-balances.ts:187-204 | the listed deltas are the totals the diff implies |
| BalanceDelta.AcceptedEffectsAreExpected | packages/evm-connector/src/trace-balances.ts:117-204 | accepted and passed: every implied native and token change is zero or inside every matching range, no other slot changed, and every account keeps its code |
| BalanceDelta.CompareEvmBalanceDeltas | packages/evm-connector/src/balance-delta.ts:21-91 | no reasons exactly when every change is expected or zero and every range is met |
| BalanceDelta.ComparisonIsExact | packages/evm-connector/src/balance-delta.ts:21-91 | readable changes of different holdings pass if and only if every nonzero one is expected and every range is met by its own holding's change, bounds included |
| BalanceDelta.RangeReason | packages/evm-connector/src/balance-delta.ts:51-88 | the range's own verdict: present, readable and inside |
| BalanceDelta.PassedChangeIsInside | packages/evm-connector/src/balance-delta.ts:27-90 | a passed comparison puts a nonzero change inside every range that matches it |
| StateOverrides.OverridesGivePostState | packages/evm-connector/src/rpc-provider.ts:249-272 | over the pre-state the overrides give each balance plus its native delta and each slot plus its storage delta |
| StateOverrides.ProbesSeeTheReportedDelta | packages/evm-connector/src/rpc-provider.ts:120-146 | a balance slot probed before and under the overrides differs by the extracted token change |
| StateOverrides.StateOverrides | packages/evm-connector/src/rpc-provider.ts:249-272 | on readable diffs it does not throw and describes every account's state after |
| StateOverrides.AccountOverride | packages/evm-connector/src/rpc-provider.ts:255-269 | one account's override sets exactly the slots either side names, to their words after |
| StateOverrides.WriteSlots | packages/evm-connector/src/rpc-provider.ts:262-267 | a slot spelled differently on the two sides still ends with its word after |
| StateOverrides.NormalizeAccounts | packages/evm-connector/src/rpc-provider.ts:239-247 | accepts exactly distinct well-formed addresses holding objects, and keeps the accounts |
| Numerals.NormalizedIsHex32 | packages/evm-connector/src/trace-balances.ts:466-471 | a normalised slot is the 32-byte text of the word its name denotes |
| Numerals.QuantityReads | packages/evm-connector/src/rpc-provider.ts:258-266 | the texts written for quantities read back as those quantities |
| Numerals.SignedReads | packages/evm-connector/src/balance-delta.ts:104-107 | a delta's text parses back to the delta |
| SignerRuntime.NothingIsSignedTwice | packages/runtime/src/signer-runtime.ts:118-127 | over every interleaving with crashes no key, intent or nonce is signed twice, and every signature is within the gas and fee caps |
| SignerRuntime.ReplaysReturnTheStoredSignature | packages/runtime/src/signer-runtime.ts:204-263 | answers are stored, audited signatures of that very request, the same for every repeat |
| SignerRuntime.StoredResponseIsReplayed | packages/runtime/src/signer-runtime.ts:207-217 | a stored response stays and a retry gets it: verification of it cannot fail |
| SignerRuntime.RunKeeps | packages/runtime/src/signer-runtime.ts:190-263 | every run keeps: a flight past its reservation owns an unanswered row and has signed exactly when its phase says so |
| SignerRuntime.Signer.Sign | packages/runtime/src/signer-runtime.ts:146-264 | run alone, `sign` makes exactly the machine's steps; without faults it signs if and only if the request is authorized, within the caps, and new or the stored one, and what it signs is the request's own transaction |
| GuardrailEvaluate.OnePipelineOneDecision | packages/guardrail-service/src/service.ts:420-454 | a scope has at most one pipeline in flight and at most one completed decision |
| GuardrailEvaluate.OneApprovalBarringAborts | packages/guardrail-service/src/service.ts:99-132 | a scope creates at most one approval more often than it aborts |
| GuardrailEvaluate.DuplicatesShareTheDecision | packages/guardrail-service/src/service.ts:448-453 | all answers of a scope have its decision's outcome, under `needs_human` the identical decision and token, and were audited first |
| GuardrailEvaluate.AnswersCarryTheirTokens | packages/guardrail-service/src/service.ts:260-320 | over every interleaving each answer carries a token exactly when it does not deny, binding its own call and decision |
| GuardrailEvaluate.PipelineGivesItsVerdict | packages/guardrail-service/src/service.ts:687-724 | a pipeline that ends gives its caller the policy's verdict and keeps it for the scope, or gives nothing and frees the scope, by which writes fail |
| GuardrailEvaluate.SubmissionMeetsItsScope | packages/guardrail-service/src/service.ts:420-454 | a caller runs, conflicts, waits or is answered by what its scope holds |
| GuardrailEvaluate.WaiterIsGivenTheDecision | packages/guardrail-service/src/service.ts:448-453 | a waiter is given the settled decision or fails with its pipeline |
| GuardrailEvaluate.FailureFreesTheScope | packages/guardrail-service/src/service.ts:718-724 | a pipeline that throws frees its scope and fails those who waited for it |
| GuardrailEvaluate.ApprovalsBelongToDecisions | packages/guardrail-service/src/service.ts:700-724 | every approval in the table belongs to a completed decision unless its deletion failed |
| GuardrailEvaluate.FailedEndLeavesNoApproval | packages/guardrail-service/src/service.ts:700-716 | a failed end leaves no approval exactly when it created none or could delete it |
| GuardrailEvaluate.RunKeeps | packages/guardrail-service/src/service.ts:420-724 | every interleaving keeps the store, the waiters, the answers and the approvals in step |
| GuardrailEvaluate.GuardrailService.ConcludePipeline | packages/guardrail-service/src/service.ts:687-724 | the synchronous end of `evaluate` is one step of the interleaving |
| GuardrailEvaluate.GuardrailService.RequestHumanApproval | packages/guardrail-service/src/service.ts:99-132 | the approval exists afterwards exactly when it was created and either announced or undeletable |
| GuardrailEvaluate.GuardrailService.FinalizeDecision | packages/guardrail-service/src/service.ts:282-320 | the decision under its correlation id with its token, audited |
| GuardrailStore.IdempotencyStore.Lookup | packages/guardrail-service/src/idempotency.ts:20-28 | unknown, conflict, the decision or the promise |
| GuardrailStore.IdempotencyStore.ReserveKey | packages/guardrail-service/src/idempotency.ts:30-40 | a new pending entry with a promise of its own, or nothing |
| GuardrailStore.IdempotencyStore.SetDecision | packages/guardrail-service/src/idempotency.ts:42-48 | the entry completes and its waiters resolve |
| GuardrailStore.IdempotencyStore.AbortKey | packages/guardrail-service/src/idempotency.ts:50-55 | only a pending entry of that payload is removed, and its waiters reject |
| GuardrailStore.ReservationLife | packages/guardrail-service/src/idempotency.ts:20-55 | duplicates wait for a reservation and other payloads conflict, until it settles for all of them or its abort frees the key and fails them |
| CanonicalJson.PrintInjective | packages/broker/src/idempotency-store.ts:713-726 | different JSON values never print alike |
| CanonicalJson.EscapeReadsBack | packages/broker/src/idempotency-store.ts:713-726 | a JSON reader gets back the very text that was quoted |
| CanonicalJson.NumbersAreTokens | packages/broker/src/idempotency-store.ts:713-726 | every JSON number text is among the tokens the values may hold |
| CanonicalJson.TextsDecideMeaning | packages/broker/src/idempotency-store.ts:713-726 | with a tie-free key order the canonical texts of two values are equal exactly when the values are equal up to key order |
| CanonicalJson.EqualTextsMeanEqual | packages/broker/src/broker.ts:956-969 | with any key comparison equal texts mean equal values |
| CanonicalJson.CanonicalExactlyWithoutTies | packages/broker/src/broker.ts:956-969 | the printer is canonical exactly when the comparison never ties distinct keys |
| CanonicalJson.TiesBreakCanonicity | packages/broker/src/broker.ts:956-969 | two equal values whose texts differ when distinct keys tie |
| CanonicalJson.CodeOrderIsCanonical | packages/broker/src/idempotency-store.ts:713-726 | the order by UTF-16 code units is such a comparison |
| CanonicalJson.UnitsEncode | packages/broker/src/idempotency-store.ts:713-726 | the compared units are those of UTF-16 |
| CanonicalJson.ScopedKeysCoincideOnlyWhenEqual | packages/broker/src/idempotency-store.ts:409-416 | scoped keys coincide only when key, principal, action and resource do |
| CanonicalJson.TokenTextsBindDecisions | packages/broker/src/broker.ts:76-87 | a token text fixes intent, outcome, times, approval and whether it is a dry run |
| Uint256.AcceptorsAgree | packages/schemas/src/intent.ts:112-123 | the schema check, the signer's check, the generated pattern and the metadata parser accept exactly canonical decimals below 2^256 |
| Uint256.PatternIsFits | packages/schemas/src/generate-json-schema.ts:20-32 | for every greatest value starting with 1 the generated alternatives are exact |
| Uint256.TextOrderIsNumeric | packages/schemas/src/intent.ts:115-123 | text order of equal-length decimals is numeric order |
| Uint256.FitsIsNumeric | packages/guardrail-service/src/service.ts:738-740 | shorter-or-not-later is numeric comparison with the greatest value |
| Uint256.AliasesAreUnbounded | packages/guardrail-service/src/service.ts:735-737 | an alias parses as the greatest value |
| Uint256.MaxValue | packages/runtime/src/signer-request.ts:10-16 | the decimal literal is 2^256 - 1 |
| TokenExtensions.AcceptsExactlyRecords | packages/solana-connector/src/account-state.ts:77-95 | accepts exactly a matching type byte and distinct permitted records followed by zeros |
| TokenExtensions.ParseOfSerialized | packages/solana-connector/src/account-state.ts:77-95 | walking a serialised record list recovers it |
| TokenExtensions.InspectExtensions | packages/solana-connector/src/account-state.ts:77-95 | the loop terminates, stays in bounds and accepts exactly what the walk does |

## Left out

- BrokerExecute.Broker.Execute: the rejecting checks enter as verdicts, and calls of other processes that step in between are the state machine's.
- BrokerExecute.Broker.ExecuteHeld: likewise.
- BrokerExecution.AuditLog.Write: the chain and the anchor behind the log are one write outcome here; `AuditChain` models them.
- IdempotencyStore.FileBrokerIdempotencyStore.WriteState: temporary file, rename and directory sync are one outcome.
- AuditChain.AuditWriter.WriteAnchoredHash: likewise.
- AuditChain.AuditWriter.Open: runs without a crash; what a crash inside its backfill leaves is `AuditChain.InterruptedBackfill`.
- ApprovalStore.ApprovalStore.CheckTimeouts: one clock reading serves the whole sweep, and no other process moves during it; over interleaved calls each expiry is one call of `ApprovalStore.RunFollows`.
- CostBasis.ValidateTrades: checks of identifiers, finite numbers and timestamps, which the types of the model make hold.
- TraceBalances.ClassifyAndExtract: the locale sort of the changes, and diffs that are not objects.
- TraceBalances.ListBalances: the locale sort.
- SignerRuntime.Signer.Sign: the authorization checks before the gas limits are one verdict.
- The in-memory idempotency store of the broker: not durable, it replays without the evidence check and lets a replay settle the waiters. The model is of the file store, which processes share.
- Parsing and validating the idempotency file when it is read, and the lock file; every update is one atomic step with a write outcome.
- The broker's rejecting checks (schema, decision token, staleness, environment, preflight, kill switch, revalidation, dry-run report): in the state machine any of them may refuse or throw wherever the code performs one, with any reason.
- Audit rows that are neither refusals nor terminal events, such as `broker.revalidated` and `killswitch.blocked`; that writing one may throw is part of the model.
- `dryRun`, order reconciliation and the connectors themselves; turning a thrown connector value into text is taken not to throw.
- `waitForApproval`, which polls a row and expires it past its deadline.
- Allowlist onboarding approvals beyond their type; the side effects of an approval's decision are the audit outcome that may roll it back.
- Several audit writers on one chain and anchor; migrations and the health probe of the audit database; redaction of audit data, which happens before hashing.
- A transaction commit that takes effect and still throws, for the audit and approval databases.
- The content of reconciliation records, and of simulation evidence beyond its provider.
- `undefined` members and array items, and lone surrogates, in canonical JSON; the regular grammar of numbers is kept, their parsing is not.
- Floating-point rounding in the cost basis: amounts are exact reals and the tolerance keeps its form with its scale as a parameter. Number and timestamp validation before it, futures losses, order counts and cached promises are not modelled.
- Futures and income history; they use the same window collection.
- The reasons given when a diff is rejected, the locale sort of the reported changes, diffs that are not objects at all, and case folding beyond ASCII.
- StateOverrides.WriteSlots: slot keys that are not hexadecimal texts are refused, although the conversion it models also takes other numerals; no accepted diff has such a key.
- The remote calls around the simulation (block pinning, gas estimate, the balance probes themselves).
- Authorization checks of a signing request before the gas limits: they enter as one verdict. The signer's `signer.failed` rows and its HTTP server are not modelled.
- A restart of the guardrail service, which forgets its in-memory store, and an audit write that takes effect and still throws there.
- Policy evaluation, review and risk checks inside an evaluation: any of them may fail the pipeline or decide any outcome.
- Token account decoding and observed balance differences on Solana, beyond the extension walk.
- Regular expression texts: the generated pattern is modelled as its alternatives.
- HTTP services, command line, agent adapters, configuration, secrets and process start-up.
