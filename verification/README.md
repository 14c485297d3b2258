# Obolos, verified

A Dafny model of the parts of Obolos that must not go wrong when a process dies: the durable purchaser
and its journals, the provider worker and its queue, the research run and its store, and the accounting,
encodings and index built on top of them.

A crash may happen at every `await`. Memory is then lost; files, database rows and the chain stay.
`Effects.Result` makes that explicit: an effect ends as `Ok`, as `Threw` (the program's handlers run) or
as `Crashed` (nothing runs). Code that changes state in place is a class whose methods change its fields;
each method is proved against a specification, and the theorems are lemmas about that specification over
whole runs. Code made of expressions is a function with lemmas about it.

| file | what it models |
|---|---|
| `ExecutorProtocol.dfy`, `ExecutorRuns.dfy`, `Executor.dfy` | `runEconomyExecutor`: the protocol as small steps over disk and chain, what all its runs keep, and the code itself, proved to take only those steps |
| `WriteAhead.dfy` | one write-ahead protocol and the four journals that refine it |
| `BrokerPayments.dfy` | `DurablePayments`: budgets and uniqueness of the broker's payments |
| `ProviderQueue.dfy`, `ProviderProtocol.dfy`, `ProviderWorker.dfy` | the job queue, worker and queue as one machine with lost replies and what all its runs keep, and the worker itself, proved to take only its steps |
| `Ownership.dfy`, `Recovery.dfy`, `Production.dfy` | controller roots in a graph with cycles, reputation counted by controller, the production-input graph |
| `Policy.dfy`, `RunEngine.dfy`, `Engine.dfy`, `RunStore.dfy` | mandates and the audit log, what one engine action may do, the engine, its crash store |
| `TextOrder.dfy`, `Json.dfy`, `CanonicalJson.dfy`, `ServiceSchema.dfy`, `SchemaMatchability.dfy`, `SchemaLimits.dfy` | canonical JSON (key order of section 3.2.3 of RFC 8785, string escaping of section 7 of RFC 8259) with a parser that undoes it; constrained schemas |
| `Base58.dfy` | the Base58 digest of the agent identifier |
| `PriceIndex.dfy`, `ClosedDay.dfy` | price-index arithmetic and the stability of closed days |
| `EventIndex.dfy` | the event index: cursor, shrinking range, insertion, paged reading |

`dafny verify dfyconfig.toml` checks everything.

## Where the code does less than it says

Each point is a theorem of the model.

- A crash after `acknowledging` is stored but before its journal exists leaves an order that no later call
  can finish (`src/lib/economy/executor.ts:79-81`). `Executor.CrashStrandsAcknowledgment` is such a run,
  `Executor.StrandedCannotFinish` says that no call gets past it, and `Executor.Directory.RunEconomyExecutor`
  that calls about any order leave it so, and exactly when a call on an undisturbed directory succeeds.
- `completed` is final for the engine but not for the store: `mutate` announces every action first, also
  one on a completed run, and an announcement found later counts as a failure (`src/lib/store.ts:33-46`).
  `RunStore.CompletedCanFail` extends every life with a completed run to one where it failed,
  `RunStore.CompletedIsReachedAndLost` is a whole life of that kind, and `RunStore.CompletedUntilCutOff` is
  the exact condition. `failed` is final, and no money moves in either case.
- A schema that `isSchema` accepts need not accept any value. It compares `String(type)` with the known
  names, so `{"type":["string"]}` passes (`src/lib/economy/service-contract.ts:21`), and so does an integer
  between 0.2 and 0.8. `ServiceSchema.ListTypeIsAccepted` and `SchemaMatchability.EmptyRangeIsAccepted` are the
  two cases, `SchemaMatchability.AcceptsSomethingIffMatchable` is the exact condition for every accepted schema.
- `canonicalJson` alone is not injective: a number that is not finite prints as `null`.
  `CanonicalJson.CollisionsAreNulls` says exactly which values collide; on what `assertJson` lets through there
  are none (`CanonicalJson.CanonicalIsInjective`).
- `base58` throws on an empty byte sequence, because `0x` without digits is not a number.

## Model

| member | source | states |
|---|---|---|
| ExecutorProtocol.StepSafe | src/lib/economy/executor.ts:22-83 | Every write of the purchaser and every chain event keeps what the stored phases say about journals, chain, reservation and allowance: files, journals, submissions, settled payments and the allowance agree after each single step, for any number of orders in one directory |
| ExecutorRuns.RunSafe | src/lib/economy/executor.ts:22-83 | That agreement holds at every point of every run, crashes included |
| ExecutorRuns.SubmittedAtMostOnce | scripts/economy-circle.ts:33-54 | In any run no approval, payment, acknowledgment or revocation is handed to Circle twice, and the chain settles an order at most once, for its quantity at its unit price |
| ExecutorRuns.StoredOrdersFit | src/lib/economy/executor.ts:23-24 | Every stored order asks for something, and its quantity at its unit price is within its own maximum |
| ExecutorRuns.JournaledAmounts | src/lib/economy/executor.ts:18 | At every point of every run an approval and a payment are journaled with quantity times unit price of the stored intent, an acknowledgment and a revocation with nothing |
| ExecutorRuns.SentIsSubmissions | scripts/economy-circle.ts:44-47 | The submissions the protocol counts are exactly the submit steps of the run, in order |
| ExecutorRuns.JournalsStay | scripts/economy-circle.ts:37-45 | A journal that exists keeps existing, whatever happens afterwards |
| ExecutorRuns.PayJournalFixesPhase | src/lib/economy/executor.ts:62-67 | Once the pay journal exists, the order is in paying, paid, delivered, acknowledging or completed at every later point |
| ExecutorRuns.AbortStays | src/lib/economy/executor.ts:37-45 | An order that is aborting or aborted stays so |
| ExecutorRuns.NeverPaidAndAborted | src/lib/economy/executor-live.ts:80-88 | An order that is ever aborting is never submitted for payment, neither before nor after |
| ExecutorRuns.AllowanceIsReserved | src/lib/economy/executor-live.ts:125-132 | The allowance is zero or quantity times unit price of the order holding the reservation; with no reservation it is zero and no approval is pending |
| ExecutorRuns.OneSpender | src/lib/economy/executor.ts:31-57 | Orders in approving, approved or paying hold the one reservation, so there is at most one; delivered, acknowledging and completed orders never hold it |
| ExecutorRuns.HandoverThroughRelease | src/lib/economy/executor.ts:31-36 | Between two different holders of the reservation lies a moment without a holder |
| ExecutorRuns.ApprovalsAreConserved | src/lib/economy/executor.ts:36-70 | Over a whole run, approved amounts equal payments plus revoked amounts plus the allowance that is left |
| ExecutorRuns.StepIsWriteAhead | scripts/economy-circle.ts:33-54 | Seen from one operation name, every step of the purchaser is a step of the write-ahead protocol or none at all |
| Executor.Directory.RunEconomyExecutor | src/lib/economy/executor.ts:22-83 | Under the directory lock, whatever throws or dies: disk and chain stay the result of a legal run; files, journals and submissions of every other order are as before, and a stranded order stays stranded; without an error the order costs no more than its maximum, ends completed or aborted as asked, and the reservation is free; on an undisturbed directory the call succeeds exactly when the reservation is free, the intent is the stored one, the stored phase has the evidence it waits for, and what is still to be approved or paid is under the policy versions it was created with |
| Executor.Directory.LoadOrder | src/lib/economy/executor.ts:27-34 | The checks of intent, platform, reservation and abort, and the first order file |
| Executor.Directory.AbortOrder | src/lib/economy/executor.ts:38-45 | The abort branch ends aborted with the reservation released, only for orders that could be aborted; a paid order is not changed |
| Executor.Directory.BeginAbort | src/lib/economy/executor.ts:39-40 | The need for a revocation is decided and stored before anything is revoked |
| Executor.Directory.FinishAbort | src/lib/economy/executor.ts:44 | The aborted phase is stored and then the reservation released, after payment and allowance were excluded |
| Executor.Directory.Revoke | src/lib/economy/executor.ts:41-43 | Without an error the revocation has landed; a journaled one is only recovered, nothing is submitted |
| Executor.Directory.Retreat | src/lib/economy/executor.ts:46-49 | Approving goes back to prepared, and paying to approved, exactly when no journal exists for the operation |
| Executor.Directory.ApproveOrder | src/lib/economy/executor.ts:53-58 | Without an error the order is approved; whatever fails, only legal writes were made: reservation before phase, phase before approval, back only without a journal |
| Executor.Directory.PayOrder | src/lib/economy/executor.ts:59-64 | Without an error the order is paid; whatever fails, only legal writes were made: the paying phase before the payment, the paid phase only with its proof |
| Executor.Directory.ApproveAndPay | src/lib/economy/executor.ts:50-64 | An order is approved and paid only while the platform names the policy versions it was created with; under others nothing is stored or submitted |
| Executor.Directory.ResumePayment | src/lib/economy/executor.ts:65-67 | A stored paying phase is only recovered: nothing is submitted and no journal is created |
| Executor.Directory.ReceiveOutput | src/lib/economy/executor.ts:71-75 | Without an error the stored output is the one of an answer that is fulfilled and names this order, its service terms and its payment, and it is stored with its own hash, after the reservation is gone |
| Executor.Directory.CloseOrder | src/lib/economy/executor.ts:77-81 | Completed is reported and stored only for an acknowledged delivery; where the acknowledgment comes from |
| Executor.Directory.Circle | scripts/economy-circle.ts:37-52 | A submission follows its own new journal; with an existing journal nothing is submitted and no journal is created, and only a submitted status is an answer |
| Executor.Directory.HasOperation | src/lib/economy/executor-live.ts:68-73 | The answer is whether the journal exists; `no` only for an order the chain shows unpaid |
| Executor.Directory.PrepareAbort | src/lib/economy/executor-live.ts:80-88 | Without an error there is no pay journal, a journaled approval has landed, and a revocation is asked for exactly when an allowance is left |
| Executor.Directory.VerifyAborted | src/lib/economy/executor-live.ts:102 | Without an error there is no pay journal and a required revocation has left no allowance |
| Executor.FreeAllowance | src/lib/economy/executor-live.ts:85-87 | With no other holder the allowance is this order's amount or nothing, so the check for a foreign allowance never fires |
| Executor.IntentStays | src/lib/economy/executor.ts:27-28 | The intent stored for an order never changes |
| Executor.PendingLands | src/lib/economy/executor-live.ts:133-134 | A payment on its way always finds the allowance it needs |
| Executor.CrashStrandsAcknowledgment | src/lib/economy/executor.ts:79-81 | A run exists that dies between the acknowledging phase and its journal, and leaves an order no call can finish |
| Executor.StrandedCannotFinish | src/lib/economy/executor.ts:79 | At every point of every run, no call can finish an order that is acknowledging without a journal |
| WriteAhead.OnlyTheStoredIntent | scripts/economy-circle.ts:32-54 | Over any number of calls and crashes everything dispatched under a name is the intent stored first, and at most once unless the variant may rebroadcast |
| WriteAhead.StoredIntentStays | scripts/hedera-register.ts:22-36 | The intent stored first under a name stays |
| CircleJournal.OperationFile.DurableOperation | scripts/economy-circle.ts:33-54 | For every course of writes, death, reply: one call makes only moves of the protocol without repetition; an existing operation is answered or refused by its intent and status and never changes; a new one is stored before it goes out, goes out at most once, and its final status says exactly whether its own key was confirmed, is in doubt, or nothing is known |
| SignedJournal.TransactionFile.DurableSignedTransaction | scripts/economy-eoa.ts:14-26 | For every course of signature, writes and lookups: only the stored bytes are ever broadcast, and only after a lookup found nothing; another intent or a hash that is not that of the stored bytes stops the call; it succeeds exactly with a successful receipt of the stored hash |
| HcsJournal.JournalFile.ExecuteDurableHcsOperation | scripts/hedera-register.ts:22-36 | For every course: an existing journal is only recovered, and only for its own terms; a new one is signed and stored before its one dispatch; a torn first write stays unreadable; a result is an answer exactly when it was stored |
| TokenPurchaseJournal.PurchaseFile.Recover | scripts/hedera-token-buyer.ts:221-281 | For every course: recovery signs and pays nothing; it settles exactly with the stored answer or the seller's receipt for the stored transaction, once the chain proves the transfer, and only adds facts |
| TokenPurchaseJournal.PurchaseFile.PurchaseHtsRepositories | scripts/hedera-token-buyer.ts:284-311 | For every course: one call makes only moves of the protocol; other terms throw; an existing intent is only recovered; a new one pays exactly when intent and signature were stored first, and succeeds exactly with a stored, proven answer |
| TokenPurchaseJournal.PurchaseFile.SignAndPay | scripts/hedera-token-buyer.ts:421-494 | Intent, signature, answer and result are each on disk exactly when their write was, each before the next effect, and the payment goes out at most once |
| BrokerPayments.DurablePayments.Execute | services/broker.ts:59-89 | Journal and started operations stay consistent; a kind stays within its limit, pending entries included; an operation starts at most once per request id; a known id gets exactly the stored result of the same terms; a new one is paid exactly when its stage is free and its kind has the money; an outcome is refused as a duplicate exactly when its transaction id is settled on the same network, and then its entry stays pending |
| BrokerPayments.DurablePayments.Pay | services/broker.ts:71-87 | A new request is refused before anything is written, or reserved and paid once |
| BrokerPayments.DurablePayments.Reserve | services/broker.ts:74-87 | The pending entry is stored before the operation starts and stays when the outcome is unknown; a failed save may have stored it, and then nothing was started |
| BrokerPayments.DurablePayments.Perform | services/broker.ts:76-86 | A result settles the entry only if no other entry was settled by the same transaction on the same network; the file may have settled although the call fails, when saving fails after the rename |
| BrokerPayments.DurablePayments.ResultOf | services/broker.ts:55-58 | The settled result of a run's stage, if there is one |
| BrokerPayments.ReusedIsRepeated | services/broker.ts:79-83 | The duplicate check fires exactly for a named transaction whose id and network some settled entry has |
| BrokerPayments.AppendKeeps | services/broker.ts:64-75 | A pending entry with a new request id and a new (run, kind) pair keeps every uniqueness and was never started before |
| BrokerPayments.SettleKeeps | services/broker.ts:78-84 | Settling with a fresh transaction keeps every uniqueness: no two settled receipts share transaction and network |
| BrokerPayments.AppendBudget | services/broker.ts:72-75 | A reserved amount counts against the limit of its kind at once |
| BrokerPayments.SettleBudget | services/broker.ts:84 | Settling changes no budget |
| ProviderQueue.JobQueue.Claim | src/lib/economy/provider-queue.ts:44-50 | The same claim id gets the same job back; a new one gets a queued job; nothing else changes |
| ProviderQueue.JobQueue.RetryRead | src/lib/economy/provider-queue.ts:51-59 | Only read-only work without output runs again; refusals change nothing |
| ProviderQueue.JobQueue.ReportFailed | src/lib/economy/provider-queue.ts:60-62 | Reporting a failure never undoes a completion |
| ProviderQueue.JobQueue.Complete | src/lib/economy/provider-queue.ts:63-73 | A row completes exactly while it runs, with the output whose hash the chain attests and, for storage, an hour that ends an hour after the claim and is not over; a completed row answers only its own output; each refusal exactly when its reason holds |
| ProviderProtocol.WorkerAgreesWithQueue | services/economy-provider.ts:33-70 | After any sequence of worker steps, queue steps, chain events and restarts: the work of an order was started at most once plus its recorded read retries, so at most once for inference and storage; what is stored is what the last start came to; a completed record has its output in the queue; a failed one has a failed row unless a read retry is under way, and an output only if it is storage; a completed row has the stored output and its digest is on chain |
| ProviderProtocol.StoredOutputStays | services/economy-provider.ts:33-70 | Between any two points of any run a stored output, a signed delivery, a completed record and a completed row stay as they are |
| ProviderProtocol.ResultIsKept | services/economy-provider.ts:45-47 | A result the process has in memory ends up stored unless the process starts over |
| ProviderProtocol.OutputIsNeverAbandoned | services/economy-provider.ts:49-57 | A stored output that is no storage is never given up at any later point of any run |
| ProviderProtocol.StepSafe | services/economy-provider.ts:33-70 | Every step of worker, queue, chain or restart keeps what records, rows, deliveries and memory say about each other |
| ProviderProtocol.NoClaimIsLost | services/economy-provider.ts:69-70 | A job the queue has given away has a record, or the worker still holds the claim id that gets it the same job again |
| ProviderProtocol.NoRecordNoWork | services/economy-provider.ts:43-48 | For an order without a record nothing was started, signed or completed |
| ProviderWorker.Worker.ProcessRecord | services/economy-provider.ts:33-58 | Whatever happens is a legal run, nothing of another order is touched, and work that had already started is not repeated; without an error work in doubt is given up, work never started is started once, and a stored output ends in the queue, or abandoned only if its storage has run out; with files, replies and chain that do not fail it ends without an error |
| ProviderWorker.Worker.Execute | services/economy-provider.ts:43-48 | The executing stage is stored before the work starts, once; the record then has exactly what the work made, or is given up because it threw |
| ProviderWorker.Worker.DeliverOutput | services/economy-provider.ts:49-57 | A stored output that is no storage ends finished, its row completed with that output; storage is abandoned only if it ran out before it was attested or the queue says so, and never attested once it has run out |
| ProviderWorker.Worker.Submit | services/economy-provider.ts:54-55 | A completion, its reply lost or not, is one step of the protocol; what the queue answers about the row is true, and a failed row aside it is either done or storage that has lapsed |
| ProviderWorker.Worker.Attest | services/economy-provider.ts:51-53 | One delivery is signed per order, always for the stored output, and only it lands |
| ProviderWorker.Worker.RetryRead | services/economy-provider.ts:62-63 | The operator's retry counts itself, and only for failed read-only work without output |
| ProviderWorker.Worker.ClaimWork | services/economy-provider.ts:69-70 | The claim id is on disk before the first request and is forgotten only once everything claimed under it has a record; an existing record is never replaced |
| ProviderWorker.Worker.Poll | services/economy-provider.ts:65-73 | A pass without an error leaves no claim file and has taken every record known before, and the one claimed, to its end: finished with its row completed, given up because its work threw or was in doubt, or storage that ran out; when nothing fails the pass has no error |
| ProviderWorker.Worker.ProcessSaved | services/economy-provider.ts:68 | Every saved record is taken to its own end, none is added or lost |
| Ownership.WalkEndsAtRoot | src/lib/economy/ownership.ts:6-13 | On every binding map, cycles included, the walk ends at an address reachable from its start that lies on a cycle and is least there |
| Ownership.RootsAgree | src/lib/economy/ownership.ts:6-14 | Two addresses have the same such representative exactly when their walks meet |
| Ownership.SameRootIsJoined | src/lib/economy/ownership.ts:5-15 | Equal roots mean exactly: joined by binding edges taken in either direction |
| Ownership.JoinedIsMeet | src/lib/economy/ownership.ts:5-15 | Joined by undirected edges is the same as reaching a common address |
| TextOrder.BeforeIsPrecedes | src/lib/economy/ownership.ts:10 | The string order: a proper beginning first, otherwise by the first code unit that differs |
| Ownership.LowerMeaning | src/lib/economy/ownership.ts:8 | Lowering an address turns each capital into its small letter and keeps everything else |
| Ownership.FindRoot | src/lib/economy/ownership.ts:6-13 | The loop with its position table computes that root and ends on every map |
| Ownership.SameKnownController | src/lib/economy/ownership.ts:5-15 | True exactly for joined addresses; hence an equivalence |
| Ownership.ReadControllerBindings | src/lib/economy/ownership.ts:16-28 | Without an error exactly the bound addresses reachable from the given ones are read, as the contract has them, and controllers are shared as on the full function; unless a read fails it throws only when some address has at least 32 bound owners in a row, and it never returns when an address is reachable only through 32 or more |
| Ownership.ReadSuffices | src/lib/economy/ownership.ts:16-28 | On what was read, controllers are shared exactly as on the full ownership function |
| Recovery.ProjectRecovery | src/lib/economy/recovery-projection.ts:37-49 | One reputation per seller, in order of first appearance, equal to the reputation defined straight from the evidence |
| Recovery.GroupReviews | src/lib/economy/recovery-projection.ts:24-31 | An order's group holds exactly its eligible rows, in the order read |
| Recovery.IsEligible | src/lib/economy/recovery-projection.ts:28 | A row counts only from a trusted reviewer sharing no controller with seller, payer, owner or account |
| Recovery.CountControllers | src/lib/economy/recovery-projection.ts:43-44 | The number of verified reviews is the number of controller classes among the rows |
| Recovery.GroupControllers | src/lib/economy/recovery-projection.ts:25-30 | Those classes depend only on which rows there are, not on their order |
| Recovery.MatchIsSame | src/lib/economy/recovery-projection.ts:23-24 | With distinct order ids a row belongs to an order exactly when all its terms agree |
| Recovery.ScoreMeaning | src/lib/economy/recovery-projection.ts:45-47 | A score exists exactly when there are eligible orders and each was reviewed unanimously; it lies between 0 and 10000 |
| Recovery.SellersPartition | src/lib/economy/recovery-projection.ts:37-48 | Grouping by seller loses nothing and counts nothing twice |
| Recovery.DisputesCounted | src/lib/economy/recovery-projection.ts:32-41 | Dispute counts over all sellers add up to the matched dispute rows |
| Recovery.RefundsCounted | src/lib/economy/recovery-projection.ts:33-41 | Refund counts and amounts over all sellers add up to the matched refund rows |
| Recovery.SellerReputation | src/lib/economy/recovery-projection.ts:38-48 | The counting loop of one seller |
| Production.ProductionAccountTotals | src/lib/economy/production-account.ts:8-13 | Accepts exactly distinct inputs other than the output, with complete inputs behind complete resources; a known resource cost is at least the known intermediate cost |
| Production.CycleCheckIsExact | src/lib/economy/production-store.ts:29-30 | The recursive query refuses exactly the statements that would close a cycle |
| Production.PayableKeepsAffordable | src/lib/economy/production-store.ts:27-28 | The running check against existing allocations keeps every purchase within what was paid, several inputs at once |
| Production.RecordKeepsSound | src/lib/economy/production-store.ts:21-34 | An accepted statement keeps graph, allocations and accounts sound |
| Production.HistoryIsSound | src/lib/economy/production-store.ts:10-36 | After any sequence of accepted, refused and replayed statements, while sales are added and delivered, the graph is acyclic and no purchase is allocated beyond its price |
| Production.AccountsNeverChange | src/lib/economy/production-store.ts:12-13 | A recorded account and its links never change |
| Production.ClaimedCostIsRecorded | src/lib/economy/production-account.ts:11-12 | The intermediate cost an account claims is its external part plus its recorded allocations, its whole cost that plus gas, inference and other; each exactly where the account says it is complete |
| Production.Ledger.InputClosure | src/lib/economy/production-store.ts:29 | The recursive query finds exactly what went into an order, directly or through other products |
| Production.Ledger.CheckInputs | src/lib/economy/production-store.ts:21-31 | The loop accepts exactly the admissible statements |
| Production.Ledger.CheckSale | src/lib/economy/production-store.ts:18-20 | A statement is about a sale whose platform record and chain record agree with it, signed after the buyer accepted |
| Production.Ledger.CheckAcquired | src/lib/economy/production-store.ts:22-26 | An input counts exactly if this producer bought it on the same settlement and had accepted it before the output was delivered, in time and in chain position |
| Production.Ledger.RecordProductionAccount | src/lib/economy/production-store.ts:7-36 | One transaction: recorded as a whole exactly when authentic, by the seller, new and admissible; replayed exactly for the stored statement; refused with the status of the first check that fails; failed with nothing or everything stored only when the database fails |
| Production.Ledger.RecordDelivery | src/lib/economy/marketplace.ts:61 | An output hash is noted once and changes neither accounts nor what was paid |
| Policy.AssessQuote | src/lib/policy.ts:4-13 | Approved exactly when the quote can be paid in full under the mandate; any other verdict names a reason that holds |
| Policy.VerifyAudit | src/lib/policy.ts:19-23 | True exactly for a chained log |
| Policy.AppendAudit | src/lib/policy.ts:15-18 | Appending keeps the log chained and its past unchanged |
| Policy.HeadFixesLog | src/lib/policy.ts:14-23 | The last hash commits to the whole log |
| RunEngine.StepKeepsSound | src/lib/engine.ts:37-116 | Every engine action keeps: spent equals receipts per rail, within the mandate; every raise signed for; the log chained |
| RunEngine.StepKeepsCount | src/lib/engine.ts:52-77 | Every engine action keeps: one data call and one verification call at most |
| RunEngine.EndedStays | src/lib/engine.ts:39 | Nothing leaves failed or completed through the engine |
| Engine.ProposalPaysForTheQuote | src/lib/engine.ts:25-32 | The proposed mandate makes a sound quote payable and raises each limit no further than the quote needs |
| Engine.CreateRun | src/lib/engine.ts:15-22 | Refused exactly when the expiry is not within a day; otherwise a sound run with the given id and repositories, nothing spent, whose mandate has each limit as given and the default for each one left out |
| Engine.FreshRunWithinLimits | src/lib/engine.ts:15-86 | Until an approval is signed, whatever a new run goes through, it buys only from providers on the list it was created with, within unit price, budgets and expiry it was created with |
| Engine.Run.AdvanceRun | src/lib/engine.ts:37-86 | One step is a legal engine action with at most one paid call, and only one the mandate allows; for every set of answers of the services: whether the run fails, what it keeps of the answers, and exactly which notes the log gains |
| Engine.Run.DiscoverServices | src/lib/engine.ts:45-51 | The quotes are kept and the allowed provider that comes first by price is selected; the run fails exactly without quotes or without an allowed provider |
| Engine.Run.BuyEvidence | src/lib/engine.ts:52-66 | The quotes are refreshed; the data is bought from the allowed quote that fits and comes first by price, if there is one; receipt and evidence are kept exactly if they settle this call and cover the repositories; an approval is asked for exactly when an allowed provider exists but none fits |
| Engine.Run.BuyChecks | src/lib/engine.ts:71-82 | The verification is paid exactly if a report exists and its price is within the budget; a valid receipt is booked even when the checks fail the run; it completes exactly if all checks pass |
| Engine.FirstThatFits | src/lib/engine.ts:55-56 | The first quote of the list that fits, or none fits |
| Engine.EligibleFirst | src/lib/engine.ts:46-55 | Sorted by price, the first quote with any property is the cheapest with it, and of equal ones the first discovered |
| Engine.Run.ApproveRun | src/lib/engine.ts:94-111 | Succeeds exactly for the signed, unexpired proposal of the pending approval; it then becomes the mandate, once, is remembered, and noted in the log |
| Engine.Run.ApplyShock | src/lib/engine.ts:87-93 | Succeeds exactly before the purchase of a run that has not ended, and then changes quotes only and notes it; a refusal changes nothing |
| Engine.Run.PauseRun | src/lib/engine.ts:112-116 | Succeeds exactly for an active or paused run, flips its status and notes which way, nothing else |
| RunStore.Store.Mutate | src/lib/store.ts:39-46 | The action is announced on disk before it starts; the file ends with its whole effect, with the announcement, or unchanged; an answer is the effect of that very action on that very run; on a disk that does not fail it succeeds exactly where the action is permitted, and a refusal leaves every run as it reads |
| RunStore.Store.Insert | src/lib/store.ts:25-29 | A run is added exactly below 50 per owner and 500 in all, on a disk that does not fail |
| RunStore.Store.Get | src/lib/store.ts:30-32 | The run of that owner and id as it reads after a restart, exactly if there is one |
| RunStore.AnnouncedReadsFailed | src/lib/store.ts:33-38 | An operation found announced reads as failed, with a note in the log, and nothing else changes |
| RunStore.Store.List | src/lib/store.ts:24 | All runs of an owner, latest first, recovered |
| RunStore.DiskStepKeeps | src/lib/store.ts:33-46 | Every store operation, finished or cut off, keeps all records sound and all paid calls single |
| RunStore.LifeIsSafe | src/lib/store.ts:33-46 | At every moment of every life with any number of crashes: one data and one verification call per run at most, spent equals receipts within the signed mandate, and the log verifies |
| RunStore.FailedStays | src/lib/store.ts:33-38 | A failed run stays failed and its money untouched |
| RunStore.CompletedUntilCutOff | src/lib/store.ts:33-46 | In every life a completed run stays completed exactly as long as no action on it is cut off between announcement and final write |
| RunStore.CompletedCanFail | src/lib/store.ts:33-46 | From every life with a completed run, one interrupted action leads to a life in which the run failed, its money and calls unchanged |
| RunStore.CompletedIsReachedAndLost | src/lib/store.ts:33-46 | A life exists in which a run is created, pays for data and verification and completes, and one more interrupted action fails it |
| CanonicalJson.CanonicalIsInjective | src/lib/economy/service-contract.ts:41-44 | Two values print the same canonical text exactly when they are equal as unordered values, minus zero being zero |
| CanonicalJson.ValueComesBack | src/lib/economy/service-contract.ts:42 | A parser undoes the printer, whatever follows the text |
| CanonicalJson.StringComesBack | src/lib/economy/service-contract.ts:42 | Every string comes back from its escaped text, lone surrogates included |
| Json.EscapedUnit | src/lib/economy/service-contract.ts:42 | A code unit is written in its two-unit form if it has one, in four small hexadecimal digits if it is a control or a lone half of a pair, and as itself otherwise |
| Json.PlainStands | src/lib/economy/service-contract.ts:42 | A well-formed string without quotes, backslashes and controls is written as it is |
| Json.EscapedIsPaired | src/lib/economy/service-contract.ts:42 | The text of every string is well-formed, lone halves included |
| CanonicalJson.EquivIsNormal | src/lib/economy/service-contract.ts:42 | Equal values have one normal form, and only equal values share it |
| CanonicalJson.CollisionsAreNulls | src/lib/economy/service-contract.ts:38-42 | Without any check on numbers, two values print the same text exactly when they are equal once every number that is not finite is read as null |
| Json.SortedAscending | src/lib/economy/service-contract.ts:42 | Entries end in ascending order of their keys |
| Json.SortedByCodeUnits | src/lib/economy/service-contract.ts:42 | Every two sorted keys are in that order |
| Json.ObjectText | src/lib/economy/service-contract.ts:42 | The text of an object has exactly its members, each key before the next: a proper beginning of it, or smaller in the first code unit that differs |
| Json.SortedHas | src/lib/economy/service-contract.ts:42 | Sorting neither loses nor adds an entry |
| ServiceSchema.AcceptsExactlyMatches | src/lib/economy/service-contract.ts:37-49 | Under an accepted schema, exactly the matching values within the byte limit are accepted |
| ServiceSchema.NothingMissing | src/lib/economy/service-contract.ts:46-48 | Matching against an accepted schema reads no missing field |
| ServiceSchema.MatchesMeans | src/lib/economy/service-contract.ts:46-48 | Against an accepted schema a value matches exactly if it is of its kind and: a string or array is no longer than allowed, a number finite, whole where asked and within its bounds, every item satisfies the item schema, every required name is there, every entry is declared and satisfies its declaration |
| ServiceSchema.MatchingIsSmall | src/lib/economy/service-contract.ts:19-40 | A value matching an accepted schema is within all limits on nesting, arrays, objects, keys and numbers |
| ServiceSchema.SameTextSameVerdict | src/lib/economy/service-contract.ts:41-49 | Values with the same canonical text, and so with the same hash, are accepted alike |
| ServiceSchema.ItemsMatchAll | src/lib/economy/service-contract.ts:47 | An array matches exactly when every item does |
| ServiceSchema.EntriesMatchAll | src/lib/economy/service-contract.ts:47 | An object's entries match exactly when every key is declared and every value matches what is declared for it |
| ServiceSchema.OnlyNamesMatch | src/lib/economy/service-contract.ts:21 | An accepted schema whose type is not a string matches nothing |
| ServiceSchema.ListTypeIsAccepted | src/lib/economy/service-contract.ts:21 | Such a schema exists |
| SchemaMatchability.AcceptsSomethingIffMatchable | src/lib/economy/service-contract.ts:19-48 | An accepted schema accepts some value exactly when its type is a plain string, its integers have one between their bounds, and every name an object requires has such a schema |
| SchemaMatchability.EmptyRangeIsAccepted | src/lib/economy/service-contract.ts:31-33 | The schema of an integer between 0.2 and 0.8 is accepted and matches nothing |
| SchemaLimits.PlainTypes | src/lib/economy/service-contract.ts:21-29 | A type alone is accepted exactly for string, number, integer, boolean and null |
| SchemaLimits.TypesAccepted | src/lib/economy/service-contract.ts:21-29 | Of values that are no names, exactly null and names wrapped in one-element lists pass as a type alone |
| SchemaLimits.VisitLimit | src/lib/economy/service-contract.ts:38 | A value passes exactly if it nests at most twelve deep, with at most a thousand items or entries, keys of one to 256 units, and finite numbers |
| SchemaLimits.Utf8LengthIsEncoded | src/lib/economy/service-contract.ts:39 | The byte limit counts the bytes of the UTF-8 text, half a pair alone being the replacement character |
| SchemaLimits.FieldsFit | src/lib/economy/service-contract.ts:19-34 | Every field of an accepted schema belongs to its type and is within its limit |
| SchemaLimits.TextLimit | src/lib/economy/service-contract.ts:30 | A string schema is accepted exactly with a limit up to 65536 |
| SchemaMatchability.FractionValue | src/lib/economy/service-contract.ts:47 | The number a decimal text stands for: digits behind a point are a fraction |
| SchemaMatchability.ExponentValue | src/lib/economy/service-contract.ts:47 | An exponent multiplies by a power of ten, a negative one divides |
| SchemaLimits.RequiredLimit | src/lib/economy/service-contract.ts:26 | Required names are accepted exactly as a list of distinct declared names |
| SchemaLimits.ListLimit | src/lib/economy/service-contract.ts:28 | An array schema is accepted exactly with an accepted item schema and at most a thousand items |
| SchemaLimits.RecordLimit | src/lib/economy/service-contract.ts:22-25 | An object schema is accepted exactly with at most fifty names of one to eighty units, each with an accepted schema |
| SchemaLimits.NestingLimit | src/lib/economy/service-contract.ts:19 | Schemas nest exactly up to eight deep |
| SchemaLimits.RangeLimit | src/lib/economy/service-contract.ts:31-33 | Bounds are accepted exactly if both are finite and do not cross |
| SchemaLimits.UnknownName | src/lib/economy/service-contract.ts:19-20 | A schema with a field beyond the nine names is refused |
| Base58.Encode | src/lib/hedera/identity.ts:18-24 | Both loops end and give the leading ones and the base-58 digits; an empty input throws |
| Base58.DecodeUndoesEncode | src/lib/hedera/identity.ts:18-24 | A decoder gives back every byte sequence, leading zero bytes included |
| Base58.EncodedIsInjective | src/lib/hedera/identity.ts:18-24 | Different digests have different texts |
| PriceIndex.Arpi | src/lib/economy/metrics.ts:12-16 | Throws exactly on an invalid basket; an index exactly when every component has a price |
| PriceIndex.IndexIsClose | src/lib/economy/metrics.ts:14-16 | The floored index is at most the exact one and more than the exact one minus two basis points |
| PriceIndex.IndexMonotone | src/lib/economy/metrics.ts:16 | No price rise lowers the index |
| PriceIndex.IndexUnordered | src/lib/economy/metrics.ts:16 | The order of the components does not matter |
| PriceIndex.IndexAtMultiple | src/lib/economy/metrics.ts:16 | At k times the baseline the index is exactly 10000 k |
| ClosedDay.Collect | src/lib/economy/measurements.ts:53-57 | Throws exactly on invalid or conflicting quotes; keeps each service once, up to the snapshot |
| ClosedDay.ByTimeSorts | src/lib/economy/measurements.ts:58-59 | The same quotes in time order |
| ClosedDay.ByTimeIsStable | src/lib/economy/measurements.ts:58-59 | Quotes of one second keep their indexed order |
| ClosedDay.BaselineCompletes | src/lib/economy/measurements.ts:60-63 | The basket is complete with the baseline quote and not before it |
| ClosedDay.LatestIsLast | src/lib/economy/measurements.ts:64-65 | A lookup gives the last comparable quote before the time, and nothing exactly when there is none |
| ClosedDay.QuotesExtend | src/lib/economy/measurements.ts:53-59 | A later snapshot of a longer history extends the quotes of the earlier one behind their end |
| ClosedDay.ClosedDayDefined | src/lib/economy/measurements.ts:60-73 | Every lookup of a closed day is defined, and its index is the exact one floored by less than two basis points; a day has a snapshot exactly when the basket was complete before it began |
| ClosedDay.ClosedDayMeaning | src/lib/economy/measurements.ts:60-73 | A day is closed exactly if it began after every category had been offered; it then quotes, for each category, the last price of its first offer before the day ended, against the last one when the basket was complete, and its index is the equally weighted one, floored by less than two basis points |
| ClosedDay.ClosedDaysStay | src/lib/economy/measurements.ts:53-74 | For every day that ended by a snapshot, index, quotes or absence stay the same under every extension by registrations no earlier than the snapshot |
| EventIndex.Indexer.IndexEconomy | src/lib/economy/indexer.ts:19-62 | One transaction: rows and cursor advance together or not at all; busy and unchanged exactly when they are; the cursor goes to the last final block, by at most 2000 blocks, or less far only where a range held more than ten thousand logs; without a computable snapshot nothing is stored |
| EventIndex.Indexer.ShrinkRange | src/lib/economy/indexer.ts:36-43 | The halving loop ends with all logs of a range that holds at most ten thousand of them or is one block, and each halving was needed |
| EventIndex.Indexer.InsertEvents | src/lib/economy/indexer.ts:47-62 | Exactly the decodable logs of the batch are added, none twice |
| EventIndex.Indexer.ReadEventHistory | src/lib/economy/event-history.ts:3-9 | Reading in pages gives the whole history in chain order at any size |
| EventIndex.ReadingGivesHistory | src/lib/economy/event-history.ts:6 | The stored rows in block and log order are the decodable finalized logs from the first block to the cursor |
| EventIndex.RunIsExact | src/lib/economy/indexer.ts:24-63 | That holds at every moment of every run of indexing calls |
| EventIndex.HistoryOnlyGrows | src/lib/economy/indexer.ts:24-63 | What was read once is the beginning of everything read later |

## Left out

- Locks are assumed to exclude other processes; stale-lock recovery (`scripts/process-lock.ts`), file-system internals and directory syncs are not modelled beyond atomic rename and exclusive creation.
- The chain is the two effects the purchaser relies on (approve sets the allowance, settle consumes its amount and marks the order) plus delivery attestations; a journaled submission lands at most once, possibly late. The Solidity contracts, reorganisations and the gap between the latest and the finalized block are not part of this model.
- HTTP, RPC, Circle CLI, Ledger, Hedera SDK, x402 and SQL drivers are steps that may throw, be lost or land late.
- Hashes, signatures and fingerprints are free constructors: equal hashes come from equal values. SHA, keccak, ECDSA and the text that is hashed are not modelled.
- zod shapes, regular expressions, URL and date parsing are preconditions; clocks are arbitrary inputs; addresses are ASCII where they are lowered.
- `Executor.Directory.LoadOrder`: the platform checks of `authenticate`, `preparePayment` and `assertActiveService`, and what `preflight` checks besides the policy versions, are waits that may throw, because they only read; `assertExecutorPolicy` is a single check over one snapshot.
- `Executor.Directory.HasOperation`: the per-operation lock is folded into "may throw".
- `Executor.Directory.RunEconomyExecutor`: promises no progress out of `acknowledging`, because the code gives none.
- `reconcile`: the paging search through Circle's history is one read that finds the original transaction or throws.
- `TokenPurchaseJournal.PurchaseFile.SignAndPay`: quote, token metadata and challenge checks are one step that may throw.
- `ProviderQueue.JobQueue.Claim`: gives away any queued job, where the platform takes the oldest.
- `ProviderWorker.Worker.ProcessRecord`: the checks of the paid request before the work are one step with a given outcome; worker and platform share one clock within a pass.
- `Ownership.ReadControllerBindings`: reads of one batch are taken in order rather than at once, so whether an address that is both near and at the end of a chain of 32 makes it throw depends on an order the model fixes.
- `Recovery.ProjectRecovery`: the rows it passes through for display are left out.
- `Production.Ledger.RecordProductionAccount`: one deployment; the evidence hash is the statement itself, so its uniqueness follows from the order id.
- `Engine.Run.AdvanceRun`: titles of the log are kept, texts, ids and timestamps are arbitrary; the wording of failures and the report text are left out; one call sees one instant of the clock; amounts are exact integers, so rounding of quotes beyond 2^53 in an approval proposal is not modelled.
- `RunStore.Store.Insert`: fresh random ids are assumed distinct. `NeonDemoStore` is not part of this model.
- Numbers are abstract in canonical JSON: a finite number is the text it prints as; that the printing of doubles is injective is taken from the language, and texts no double prints as are allowed too.
- `ServiceSchema.ListTypeIsAccepted`: an object whose own `toString` is not callable makes `String` throw; the model refuses such a schema instead.
- `PriceIndex.Arpi`: the other metrics (revenue, surplus, productivity, velocity, utilisation, inflation) and the basket identity are sums and ratios without further structure.
- `ClosedDay.ClosedDaysStay`: windows, agents and balances of the measurements are filters and sums of their own; only the price part is modelled.
- `EventIndex.Indexer.IndexEconomy`: one deployment; a node answers a range query in full or not at all; the projection after the read is one step that may throw.
- `Base58.Encode`: the other parts of the agent identifier (`canonicalAgentData`, `parameter`, `createUaid`) are bounded strings put together.
- React components, pages, routes, operator scripts, A2A negotiation, mirror-node proofs, readiness and evidence selection would add easy members only.
