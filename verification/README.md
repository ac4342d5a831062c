# Jaslyn-Net control plane: invariants of money, stock, queues, trails and graphs

The NestJS API keeps its state in PostgreSQL tables and changes it inside transactions. This project models the
services whose tables hold real invariants and proves those invariants for every run, retry and interleaving.

Each service is modelled twice. A pure function on table values says what a transaction does: which error it answers
with and which rows it writes. A class holds the tables as fields, and its methods run the transaction statement by
statement; each method is proved to leave exactly the tables, and return exactly the answer, that the function gives.
The invariants and the results over whole runs are lemmas about the function. What a single request means, the
conditions of each of its answers and the rows it leaves, is stated once more in the request's own terms (the lemmas
called `…IsAsRequested` and the `…Meaning` and `…Format` modules), so that neither form can drift from it. A run is
any finite sequence of operations, so a failed request, a retry, a worker that crashes between two statements and a
worker that carries on after its lock was taken over are all runs.

| file | what it covers |
|---|---|
| `Common.dfy`, `Arithmetic.dfy`, `Text.dfy` | results and errors, sums over rows, rounding, splitting text |
| `Inventory.dfy`, `StockLaws.dfy`, `StockRequests.dfy` | stock movements, average cost, purchase orders and receiving |
| `Ledger.dfy`, `Payables.dfy`, `PayableLaws.dfy` | double entry, supplier invoices and their payments, the payable control account |
| `Finance.dfy`, `FinanceLaws.dfy`, `SettlementLaws.dfy` | customer payment settlement, invoice balances and lines, refunds |
| `Wallets.dfy`, `Saga.dfy`, `Renewals.dfy`, `SagaLaws.dfy`, `SagaRefunds.dfy`, `SagaPaid.dfy`, `SagaOwed.dfy`, `SagaSteps.dfy`, `SagaGaps.dfy`, `CommerceRequests.dfy` | wallets and the renewal saga: claim, debit, confirm, compensate, reconcile |
| `AuditChain.dfy`, `AuditLaws.dfy`, `Metadata.dfy` | the hash-chained logs, their two verifiers, what metadata is kept |
| `Automation.dfy`, `AutomationLaws.dfy`, `RuleMeaning.dfy` | automation rules over domain events |
| `Queues.dfy`, `QueueTable.dfy`, `QueueRequests.dfy` | notification, domain-event and webhook queues |
| `FieldJobs.dfy`, `FieldLaws.dfy`, `FieldRequests.dfy` | field jobs and the offline sync batch |
| `Access.dfy`, `AccessLaws.dfy`, `AccessRequests.dfy` | access bindings, service states, the expiry reconciliation |
| `TenantForest.dfy` | reseller relationships and the recursive cycle check |
| `Cidr.dfy`, `Ipam.dfy`, `IpamRequests.dfy` | CIDR blocks, address pools and allocation |
| `Forecast.dfy` | the capacity forecast |
| `SmsPaths.dfy`, `SmsBody.dfy` | nested request fields of an SMS provider |
| `Base64Url.dfy`, `Envelope.dfy`, `EnvelopeFormat.dfy` | the network credential envelope and its keyring |

Facts about the code that the proofs turned up, each with a lemma below:

- A compensation refunds the newest PURCHASE entry that references the renewal's purchase. That is the renewal's own
  debit unless a manual PURCHASE entry names the purchase, or a worker whose lock was taken over stores its purchase on
  a schedule that has moved on to another execution (the update tests only `status='PROCESSING'`). `SagaGaps` has a run
  for each that refunds the wrong amount; `SagaRefunds.RefundsAreFaithfulIff` says of any run whether it happens.
- A wallet entry may be written by hand under a key the saga uses for itself. A refund without a debit comes from such
  an entry and from nothing else (`SagaLaws.RefundsAreBackedIff`).
- A renewal that was refunded is claimed again with its old debit and can complete without being paid for
  (`SagaGaps.RefundedRenewalCompletes`); `SagaPaid.CompletionsArePaidIff` says when no renewal does.
- Adding an invoice line is three transactions. A request cut off after the INSERT leaves a total that misses the line,
  and a settlement after the check puts a line on a PAID invoice (`FinanceLaws.CutRequestLeavesTotal`,
  `LateLineOnPaidInvoice`); `TotalsFollowLinesIff` says when a total is that of its lines.
- The first total written from an invoice's lines replaces the one it was issued with and can fall below what was paid.
  Nothing else can put the amount paid above the total (`FinanceLaws.PaidStaysWithinIff`).
- Relationship requests and pool creations check and insert in separate statements. Two at once can close a cycle
  (`TenantForest.CrossedRequestsMakeCycle`) or overlap (`Ipam.CrossedRequestsOverlap`); `ForestIff` and `DisjointIff`
  say when they do not.
- The receive function answers a known key before it reads the order or the line. A key used for another line of the
  order, or by a hand-posted receipt that names the order, is taken for a replay, and nothing is received
  (`StockLaws.AcceptedDeliversIff`).
- An automation attempt that is cut off after queueing webhooks queues them again; alerts and runs are never doubled.
  `AutomationLaws.HooksAreEmissions` counts the rows, and `WebhooksOnceIff` says when they are those of one attempt.
- A webhook row whose worker dies stays DELIVERING for good, and only such a row does (`Queues.DeliveryMovesIffHeld`).
- A DELIVERED webhook row whose update is answered with an error is written back to RETRY and delivered again
  (`Queues.DeliveredTwice`). No other finished row ever changes (`Queues.TerminalMovesIffHeld`).
- Offline changes follow the job transition table; manual updates do not.
- The two chain verifiers differ on one case: an empty log whose head has sequence 0 and another hash than genesis.
- Saving SMS settings checks each field path alone, but the request carries all three texts only if no path extends
  another.

## Model

| member | source | states |
|---|---|---|
| `Inventory.StockTables.PostStockMovement` | apps/api/src/procurement/procurement.service.ts:161-193 | a stock movement answers and changes items and movements as specified, replays and every refusal included |
| `Inventory.StockTables.AddPurchaseOrderLine` | apps/api/src/procurement/procurement.service.ts:63-82 | a line is added to a DRAFT order and the order's three totals become those of its lines |
| `Inventory.StockTables.ReceivePurchaseOrderLine` | apps/api/src/procurement/procurement-workflow.service.ts:67-101 | receiving posts the movement, blends the average, raises the line and sets the order's status, or refuses and changes nothing |
| `Inventory.StockTables.InsertReceipt` | apps/api/src/procurement/procurement-workflow.service.ts:82-87 | a received quantity is recorded as a movement with the blended average, as any stock movement is |
| `Inventory.CountOpen` | apps/api/src/procurement/procurement-workflow.service.ts:90-91 | no line is counted open exactly when every line is fully received |
| `Inventory.StockTables.RequestPurchaseOrderApproval` | apps/api/src/procurement/procurement-workflow.service.ts:103-107 | only a DRAFT order with lines and a positive total moves to approval |
| `Inventory.StockTables.ApprovePurchaseOrder` | apps/api/src/procurement/procurement-workflow.service.ts:108-113 | only an order pending approval is approved |
| `StockLaws.BlendIsBetween` | apps/api/src/procurement/procurement.service.ts:178-184 | the new average makes value additive, is never negative and never above both the old average and the incoming cost |
| `StockLaws.ValueIsConserved` | apps/api/src/procurement/procurement.service.ts:161-193 | in every run quantity is the sum of the deltas and never negative, quantity × average is the sum of delta × recorded cost, and a positive average is at most the cost of some receipt or return |
| `StockLaws.OrdersFollowDeliveries` | apps/api/src/procurement/procurement-workflow.service.ts:67-101 | in every run received never exceeds ordered and equals what was posted for that line, totals are those of the lines, and an order is RECEIVED exactly when every line is full |
| `StockLaws.TotalIsNetPlusTax` | apps/api/src/procurement/procurement.service.ts:63-82 | an order's total is its subtotal plus its tax |
| `StockLaws.OrdersAdvance` | apps/api/src/procurement/procurement-workflow.service.ts:67-113 | past DRAFT an order's lines and totals are frozen, receipts only grow and the status never goes back |
| `StockRequests.ReceiptsCostTheirLine` | apps/api/src/procurement/procurement-workflow.service.ts:67-101 | in every run each movement the receive function wrote has its order line's cost, its order's currency and the item of the line's code |
| `StockRequests.ReceiptsNeedApproval` | apps/api/src/procurement/procurement-workflow.service.ts:67-113 | in every run an order past DRAFT was submitted, and one that can receive or has received was approved after that |
| `StockRequests.ReceivedIsFull` | apps/api/src/procurement/procurement-workflow.service.ts:90-92 | in every run an order has received something exactly when it is PARTIALLY_RECEIVED or RECEIVED, and RECEIVED exactly when no line lacks anything |
| `StockRequests.MovementIsAsRequested` | apps/api/src/procurement/procurement.service.ts:161-193 | a movement under a new key: the condition of each answer, the row stored, incoming at the given cost and outgoing at the average it leaves unchanged, and what stays |
| `StockRequests.RepeatedMovementIsCompared` | apps/api/src/procurement/procurement.service.ts:169-175 | under a known key nothing changes, and the row is the answer exactly when it is the same movement, costs of issues and adjustments apart |
| `StockRequests.ReceiptIsAsRequested` | apps/api/src/procurement/procurement-workflow.service.ts:67-101 | a receipt under a new key: the condition of each answer, and the movement, line and quantity it changes |
| `StockRequests.LineIsAsRequested` | apps/api/src/procurement/procurement.service.ts:63-82 | a line: the condition of each answer, and the net, tax and sum it adds to the order |
| `StockRequests.ApprovalIsAsRequested` | apps/api/src/procurement/procurement-workflow.service.ts:103-113 | submission and approval: when they are accepted, and that they change the status alone |
| `StockLaws.PostReplays` | apps/api/src/procurement/procurement.service.ts:169-175 | an accepted movement sent again at any later time is answered with its own row and changes nothing |
| `StockLaws.ReceiveReplays` | apps/api/src/procurement/procurement-workflow.service.ts:72-73 | an accepted receipt sent again at any later time is answered with its own row and changes nothing |
| `StockLaws.ReplayIgnoresTheLine` | apps/api/src/procurement/procurement-workflow.service.ts:72-73 | an accepted receipt sent again for any line is answered with the same row and changes nothing; if the key was new or that line's, the row is no delivery to the other line |
| `StockLaws.AcceptedDeliversIff` | apps/api/src/procurement/procurement-workflow.service.ts:67-101 | the row an accepted receive answers with was written for the line and order it names exactly when its key is new or was written for that line; otherwise nothing changes |
| `StockLaws.HandmadeReceiptAnswersForOrder` | apps/api/src/procurement/procurement-workflow.service.ts:72-73 | a run in which a hand-posted receipt makes receiving on a DRAFT order without lines succeed |
| `Ledger.LedgerTables.PostTransaction` | apps/api/src/payments/payments.service.ts:137-168 | a posting inserts its transaction unless known, and one debit and one credit unless it has entries |
| `Ledger.PostKeeps` | apps/api/src/payments/payments.service.ts:137-168 | references stay unique and every transaction balanced with two entries; a known reference posts nothing; a new one moves exactly its amount between its two accounts |
| `Payables.PayableTables.CreateSupplierInvoice` | apps/api/src/procurement/procurement.service.ts:91-136 | an invoice is checked, stored and posted to expense and payables as specified |
| `Payables.PayableTables.RecordSupplierInvoicePayment` | apps/api/src/procurement/procurement-workflow.service.ts:10-51 | a payment replays or is checked against the open balance, raises the amount paid and posts to payables and cash |
| `Payables.CodesDiffer` | apps/api/src/procurement/procurement.service.ts:105-124 | payable account codes tell currencies apart and never coincide with expense or supplier-cash codes |
| `Payables.SettlementAvoidsPayables` | apps/api/src/payments/payments.service.ts:121-122 | customer settlements post to two different accounts, neither of them a payable one |
| `Payables.ControlAccountAgrees` | apps/api/src/procurement/procurement-workflow.service.ts:15-43 | in every run and currency the payable credit balance is the sum of the open supplier invoice balances |
| `Payables.PaymentsExplainInvoices` | apps/api/src/procurement/procurement-workflow.service.ts:15-43 | each supplier invoice's amount paid is the sum of its payments, at most its total, and its status says which |
| `Payables.EveryTransactionBalances` | apps/api/src/procurement/procurement.service.ts:105-124 | across the three posting sites every transaction has two entries and equal debits and credits |
| `PayableLaws.InvoiceIsAsRequested` | apps/api/src/procurement/procurement.service.ts:91-136 | an invoice: the condition of each answer, and its row with net and tax as its total |
| `PayableLaws.PaymentIsAsRequested` | apps/api/src/procurement/procurement-workflow.service.ts:10-51 | a payment under a new key: the condition of each answer, its row, and what it changes of its invoice |
| `PayableLaws.PaymentReplays` | apps/api/src/procurement/procurement-workflow.service.ts:15-17 | after any later operations an accepted key changes nothing and is answered with its row exactly for the same payment |
| `PayableLaws.InvoicePosts` | apps/api/src/procurement/procurement.service.ts:105-124 | an accepted invoice raises ACCOUNTS_PAYABLE:<currency> and PROCUREMENT:<currency> by net and tax, and no other account |
| `PayableLaws.PaymentPosts` | apps/api/src/procurement/procurement-workflow.service.ts:25-43 | an accepted payment lowers ACCOUNTS_PAYABLE:<currency> and CASH:AP:<currency> by its amount, and no other account |
| `PayableLaws.SettlementPosts` | apps/api/src/payments/payments.service.ts:119-168 | the first settlement of a payment debits CASH:<provider>:<currency> and credits REVENUE:WIFI:<currency>, and no other account |
| `PayableLaws.AccountsFollowRequests` | apps/api/src/procurement/procurement.service.ts:105-124 | in every run and currency payables are what was billed, tax included, less what was paid; expenses what was billed; supplier cash what was paid, less what a provider named AP brought in |
| `Finance.FinanceTables.RecordVerifiedSettlement` | apps/api/src/payments/payments.service.ts:102-188 | a settlement verifies the payment, posts once and credits the invoices of its purchase as specified |
| `Finance.FinanceTables.CreditInvoices` | apps/api/src/payments/payments.service.ts:170-182 | the bulk update credits every non-void invoice of the purchase with what was received, up to its total |
| `Finance.FinanceTables.AddInvoiceLine` | apps/api/src/finance/finance.service.ts:25-35 | run without a break, the check, the INSERT of the rounded line and the UPDATE of the total leave the tables as specified |
| `Finance.FinanceTables.InsertInvoiceLine` | apps/api/src/finance/finance.service.ts:31 | the second statement stores the line, whatever the invoice has become since the check |
| `Finance.FinanceTables.TotalInvoice` | apps/api/src/finance/finance.service.ts:32 | the third statement makes the total the sum of the lines stored by then |
| `Finance.FinanceTables.RecordRefundRequest` | apps/api/src/finance/finance.service.ts:138-179 | a refund replays under its key or is held against what the live refunds leave of the payment |
| `Finance.FinanceTables.RecordRefundApproval` | apps/api/src/finance/finance.service.ts:180-187 | only a REQUESTED refund is approved |
| `FinanceLaws.RefundsAreBounded` | apps/api/src/finance/finance.service.ts:138-187 | over any interleaving of requests, retries, approvals and provider answers, live refunds never sum above the payment |
| `FinanceLaws.RefundReplays` | apps/api/src/finance/finance.service.ts:146-152 | a granted key answers the same refund and changes nothing, and is refused for any other payment or amount |
| `FinanceLaws.RefundReplaysLater` | apps/api/src/finance/finance.service.ts:138-179 | after any later operations a granted key changes nothing, whoever uses it, and answers its refund exactly when its own payment and amount are asked for and the payment is PAID |
| `FinanceLaws.SettledOnce` | apps/api/src/payments/payments.service.ts:137-168 | in every run a payment has at most one transaction, and a transaction of a payment holds one debit and one credit of its amount |
| `FinanceLaws.SettledForGood` | apps/api/src/payments/payments.service.ts:102-188 | once a payment is settled, it has exactly one transaction after any later operations: the balanced one it was answered with |
| `FinanceLaws.SettlementReplays` | apps/api/src/payments/payments.service.ts:102-188 | settling again at any later time at which the payment is PAID answers with the same transaction and changes neither payments nor books |
| `SettlementLaws.SettlementsDebitCash` | apps/api/src/payments/payments.service.ts:119-168 | in every run a payment's transaction has exactly two entries, CASH:<provider>:<currency> debited and REVENUE:WIFI:<currency> credited with its amount, each text cut to 64 characters |
| `SettlementLaws.RevenueIsSettled` | apps/api/src/payments/payments.service.ts:119-168 | in every run the revenue account of a currency holds the sum of the settled payments in it |
| `SettlementLaws.SettlementIsAsRequested` | apps/api/src/payments/payments.service.ts:102-118 | a settlement: when it is accepted, and what it leaves of payments, lines and refunds |
| `FinanceLaws.SettlingAgainChangesNothing` | apps/api/src/payments/payments.service.ts:102-188 | settling again with the same details returns the same transaction and the same tables |
| `FinanceLaws.SettlementSquaresInvoices` | apps/api/src/payments/payments.service.ts:170-182 | every non-void invoice of the purchase then holds the lesser of its total and what was received, with the matching status; all others are unchanged |
| `FinanceLaws.SettlementsCommute` | apps/api/src/payments/payments.service.ts:170-182 | the order in which two payments settle does not show in payments or invoices |
| `FinanceLaws.TotalsFollowLines` | apps/api/src/finance/finance.service.ts:25-35 | in every run an invoice with lines totals them unless one of its requests stands between its INSERT and its UPDATE |
| `FinanceLaws.LinesAreTotalAndUncounted` | apps/api/src/finance/finance.service.ts:25-35 | in every run the lines of an invoice sum to its total, once written from them, plus the lines inserted since that write |
| `FinanceLaws.TotalsFollowLinesIff` | apps/api/src/finance/finance.service.ts:25-35 | so a written total is never above the sum of the lines, and equal to it exactly when the lines inserted since amount to nothing |
| `FinanceLaws.CutRequestLeavesTotal` | apps/api/src/finance/finance.service.ts:31-32 | a run whose request is cut off after the INSERT ends with a line of 10 on a total of 100 |
| `FinanceLaws.LateLineOnPaidInvoice` | apps/api/src/finance/finance.service.ts:26-31 | a run whose settlement comes after the check ends with a new line on a PAID invoice, which the check refuses |
| `FinanceLaws.LineKeepsPaidWithinTotal` | apps/api/src/finance/finance.service.ts:32 | the UPDATE of a total keeps the amount paid within it exactly when the total had been written before or the lines cover what was paid |
| `FinanceLaws.PaidStaysWithinIff` | apps/api/src/finance/finance.service.ts:25-35 | amounts paid stay within totals throughout a run exactly when no first total was written below what was paid |
| `FinanceLaws.FirstLineCanUndercutPayment` | apps/api/src/finance/finance.service.ts:25-35 | a run outside that condition: 50 paid on an invoice of 100, then a first line of 10 |
| `SettlementLaws.RefundIsAsRequested` | apps/api/src/finance/finance.service.ts:138-179 | a refund under a new key: the condition of each answer, and its row in the payment's currency |
| `SettlementLaws.ApprovalIsAsRequested` | apps/api/src/finance/finance.service.ts:180-187 | an approval: when it is accepted, and that it changes the status alone |
| `SettlementLaws.InvoiceIsAsRequested` | apps/api/src/finance/finance.service.ts:44-63 | an invoice: when it is issued, and its row with a total within half a cent of net and tax |
| `SettlementLaws.LineIsAsRequested` | apps/api/src/finance/finance.service.ts:29-31 | a line is worth quantity times price plus tax, to a millionth |
| `SettlementLaws.LineCheckIsAsRequested` | apps/api/src/finance/finance.service.ts:25-29 | the check of a line request: the condition of each answer |
| `Wallets.CommerceTables.AddWalletEntry` | apps/api/src/customer-commerce/customer-commerce.service.ts:49-64 | an entry is refused, replayed under its key, or entered together with its signed effect on the balance |
| `Wallets.CommerceTables.DebitRenewal` | apps/api/src/customer-commerce/customer-commerce.service.ts:289-318 | the locked debit checks the wallet again and enters the debit with the balance, or rolls back |
| `Wallets.CommerceTables.ClaimRenewals` | apps/api/src/customer-commerce/customer-commerce.service.ts:186-222 | stale rows return to ACTIVE, then the picked rows that are due are claimed, keeping an unfinished execution's id |
| `Wallets.CommerceTables.RecordFailedRefund` | apps/api/src/customer-commerce/customer-commerce.service.ts:387-394 | one row an execution: a repeat reopens it and keeps its amount and attempts |
| `Wallets.CommerceTables.CompleteRenewal` | apps/api/src/customer-commerce/customer-commerce.service.ts:328-335 | a held schedule moves on by its days and forgets execution, purchase and failures |
| `Wallets.CommerceTables.MarkRenewalFailed` | apps/api/src/customer-commerce/customer-commerce.service.ts:400-407 | a held schedule counts a failure, keeps execution and purchase, and fails for good at the fifth |
| `Wallets.CommerceTables.KeepPurchase` | apps/api/src/customer-commerce/customer-commerce.service.ts:264-268 | a held schedule takes the purchase, whichever execution it is on |
| `Wallets.CommerceTables.ClaimCompensations` | apps/api/src/customer-commerce/customer-commerce.service.ts:104-146 | stale debts are reopened or given up, then the picked ones that are due are claimed and count an attempt |
| `Wallets.CommerceTables.SettleDebt` | apps/api/src/customer-commerce/customer-commerce.service.ts:158-163 | the debt is resolved, whatever its status |
| `Wallets.CommerceTables.PostponeDebt` | apps/api/src/customer-commerce/customer-commerce.service.ts:170-177 | the debt waits longer after each attempt, and is given up at the eighth |
| `CommerceRequests.EntryIsAsRequested` | apps/api/src/customer-commerce/customer-commerce.service.ts:49-64 | a wallet entry: the condition of each answer, and the row and signed effect of an accepted one |
| `CommerceRequests.DebitIsAsRequested` | apps/api/src/customer-commerce/customer-commerce.service.ts:289-318 | a renewal debit: when it is entered, and its PURCHASE row |
| `CommerceRequests.RecoveryFreesStaleClaims` | apps/api/src/customer-commerce/customer-commerce.service.ts:186-196 | exactly the claims older than ten minutes are freed, keeping their execution |
| `CommerceRequests.ClaimsTakeDue` | apps/api/src/customer-commerce/customer-commerce.service.ts:197-222 | exactly the picked schedules that are active, renewing and due are claimed, on their own execution or on an id drawn for them |
| `CommerceRequests.ScheduleEnds` | apps/api/src/customer-commerce/customer-commerce.service.ts:328-407 | what completing, failing and keeping a purchase do to a schedule, and that they do nothing unless it is PROCESSING |
| `CommerceRequests.RecoveryFreesStaleDebts` | apps/api/src/customer-commerce/customer-commerce.service.ts:108-117 | exactly the compensations taken up more than fifteen minutes ago are freed, or given up at eight tries |
| `CommerceRequests.ClaimsTakeOwed` | apps/api/src/customer-commerce/customer-commerce.service.ts:118-137 | exactly the picked compensations that are open, due and below eight tries are taken up |
| `CommerceRequests.DebtEnds` | apps/api/src/customer-commerce/customer-commerce.service.ts:158-177 | what settling and postponing do to a compensation |
| `SagaOwed.OweRecords` | apps/api/src/customer-commerce/customer-commerce.service.ts:387-394 | whenever the owe statement takes effect the execution has a row that waits; a new one names the worker's claim, a known one keeps its own, no other is touched |
| `SagaOwed.ResolvedIsRefunded` | apps/api/src/customer-commerce/customer-commerce.service.ts:147-163 | in every run an execution has at most one row, and a row is RESOLVED only with the execution's refund entered |
| `SagaOwed.OwedUntilRefunded` | apps/api/src/customer-commerce/customer-commerce.service.ts:104-180 | from the owe statement on, at any later moment the execution has one row of the amount recorded, still open unless the refund is entered |
| `SagaOwed.RetriesBackOff` | apps/api/src/customer-commerce/customer-commerce.service.ts:170-177 | a failed try waits between a minute and an hour, longer with each try, and the eighth is the last |
| `SagaSteps.ReadingSteps` | apps/api/src/customer-commerce/customer-commerce.service.ts:230-262 | reading the plan and the purchase store nothing; a missing purchase is created once and remembered as the execution's own; a failure goes to the catch block |
| `SagaSteps.KeepingSteps` | apps/api/src/customer-commerce/customer-commerce.service.ts:264-277 | the purchase is kept only on a PROCESSING schedule; the worker counts as debited exactly if an entry stands under its debit key |
| `SagaSteps.ChargingSteps` | apps/api/src/customer-commerce/customer-commerce.service.ts:279-319 | the wallet must be active and cover the amount; only a debit known to have succeeded makes the worker a debited one, and any other outcome is caught |
| `SagaSteps.ConcludingSteps` | apps/api/src/customer-commerce/customer-commerce.service.ts:321-335 | a confirmed renewal completes: a schedule still PROCESSING forgets its execution, becomes active and runs again later; any other is left alone |
| `SagaSteps.CompensatingSteps` | apps/api/src/customer-commerce/customer-commerce.service.ts:343-397 | a purchase settled or not found out about is not compensated; otherwise the newest PURCHASE entry's amount is refunded if positive, and a refund not known to have succeeded is owed |
| `SagaSteps.EndingSteps` | apps/api/src/customer-commerce/customer-commerce.service.ts:400-407 | a failure is counted on a schedule still PROCESSING, which keeps its execution and purchase, and the worker ends |
| `SagaSteps.CompensatorSteps` | apps/api/src/customer-commerce/customer-commerce.service.ts:147-179 | the row is resolved only after the refund entry; any failure postpones it by at least a minute, or gives up at the eighth try; nothing else moves |
| `SagaSteps.ClaimMakesWorker` | apps/api/src/customer-commerce/customer-commerce.service.ts:194-221 | exactly a due, renewable schedule is claimed; a kept execution is taken up again and a fresh id is drawn once |
| `SagaSteps.ClaimMakesCompensator` | apps/api/src/customer-commerce/customer-commerce.service.ts:118-137 | exactly an owed row that is due is claimed for what it says, and counts a try |
| `SagaSteps.SettingsAreAsRequested` | apps/api/src/customer-commerce/customer-commerce.service.ts:33-38 | a schedule is stored as asked for, and a change moves its time, status and renewal choice and keeps its execution and purchase |
| `Renewals.Prepare` | apps/api/src/customer-commerce/customer-commerce.service.ts:233-277 | reading the plan, keeping a purchase and looking up the debit take the worker's steps up to the point where it knows whether it is settled, debited or still to pay |
| `Renewals.Charge` | apps/api/src/customer-commerce/customer-commerce.service.ts:279-319 | the unlocked check and the locked debit take the worker's two steps, failing as they fail |
| `Renewals.Conclude` | apps/api/src/customer-commerce/customer-commerce.service.ts:321-335 | confirming and completing take the worker's steps |
| `Renewals.RefundOrOwe` | apps/api/src/customer-commerce/customer-commerce.service.ts:375-396 | entering the refund, or recording it as owed, takes the worker's steps |
| `Renewals.Compensate` | apps/api/src/customer-commerce/customer-commerce.service.ts:343-399 | the catch block of a debited renewal takes the worker's steps |
| `Renewals.ProcessRenewal` | apps/api/src/customer-commerce/customer-commerce.service.ts:230-414 | the loop body, whatever each statement meets, leaves the tables that the worker's steps leave and ends the worker |
| `Renewals.ProcessCompensation` | apps/api/src/customer-commerce/customer-commerce.service.ts:147-179 | the compensation loop body leaves the tables that the compensator's steps leave and ends it |
| `SagaLaws.BalancesReplay` | apps/api/src/customer-commerce/customer-commerce.service.ts:49-64 | in every run, whatever crashes and overtaken workers, each balance is non-negative and the signed sum of its entries, and keys are unique |
| `SagaLaws.KeysSeparate` | apps/api/src/customer-commerce/customer-commerce.service.ts:271-381 | debit and refund keys determine their execution and never coincide |
| `SagaLaws.RunSafe` | apps/api/src/customer-commerce/customer-commerce.service.ts:230-414 | in every run a worker that compensates, a recorded debt and a compensator have their execution's debit behind them |
| `SagaLaws.RefundsAreBackedIff` | apps/api/src/customer-commerce/customer-commerce.service.ts:49-397 | in a run every refund entry comes after its execution's debit entry exactly when no manual entry took a refund key whose debit key was free |
| `SagaLaws.AtMostOnce` | apps/api/src/customer-commerce/customer-commerce.service.ts:271-397 | in every run an execution has at most one debit and at most one refund |
| `SagaLaws.RefundsFollowDebits` | apps/api/src/customer-commerce/customer-commerce.service.ts:271-397 | in the runs of RefundsAreBackedIff an execution has no more refunds than debits |
| `SagaLaws.CompensationIsBounded` | apps/api/src/customer-commerce/customer-commerce.service.ts:104-180 | in every run a recorded debt's attempts count its claims exactly and never pass eight, however often it is reopened |
| `SagaRefunds.LatestIsOwn` | apps/api/src/customer-commerce/customer-commerce.service.ts:345-375 | while purchases belong to one execution, the compensating query reads the debit of the worker's own execution and amount |
| `SagaRefunds.RefundsAreFaithfulIff` | apps/api/src/customer-commerce/customer-commerce.service.ts:343-397 | throughout a run every refund entered, in preparation or owed gives back its execution's debit (amount, currency, wallet or customer) exactly when each compensating query that found an amount found that debit, and each manual entry under a refund key gave it back |
| `SagaRefunds.RefundsReturnDebits` | apps/api/src/customer-commerce/customer-commerce.service.ts:343-397 | so under that condition each refund entered gives back its execution's debit: same amount, currency and wallet |
| `SagaRefunds.DisciplinedRuns` | apps/api/src/customer-commerce/customer-commerce.service.ts:264-268 | the condition holds in every run whose manual entries keep off the saga's keys and purchases and whose overtaken workers keep no purchase |
| `SagaRefunds.RefundedCostsNothing` | apps/api/src/customer-commerce/customer-commerce.service.ts:343-397 | in disciplined runs the debit and refund entries of a refunded execution cancel in every wallet |
| `SagaRefunds.ReturnedCostsNothingIff` | apps/api/src/customer-commerce/customer-commerce.service.ts:49-64 | in any run a refund that gives back its debit cancels it in every wallet exactly when one of the two entries takes money out and the other adds it, or the amount is zero |
| `SagaGaps.ReservedKeyRefundsWithoutDebit` | apps/api/src/customer-commerce/customer-commerce.service.ts:56-60 | a run outside that condition: a top-up under a refund key of an execution that was never debited |
| `SagaGaps.OvertakenWorkerRefundsAnothersDebit` | apps/api/src/customer-commerce/customer-commerce.service.ts:264-268 | a run in which an overtaken worker stores its purchase ends with a debit of 10 refunded as 20 |
| `SagaGaps.NamesakePurchaseShrinksRefund` | apps/api/src/customer-commerce/customer-commerce.service.ts:353-361 | a run with a manual PURCHASE entry naming the purchase ends with a debit of 10 refunded as 3 |
| `SagaPaid.CompletionsArePaidIff` | apps/api/src/customer-commerce/customer-commerce.service.ts:270-335 | each renewal a run completes after confirming it has its debit entered and its refund key free exactly when none was confirmed after its refund or refunded between confirmation and completion |
| `SagaPaid.ConfirmedUnpaidIff` | apps/api/src/customer-commerce/customer-commerce.service.ts:270-335 | a confirmed renewal has its refund entered exactly when one of those two happened |
| `SagaGaps.RefundedRenewalCompletes` | apps/api/src/customer-commerce/customer-commerce.service.ts:367-407 | a run in which a renewal is refunded, claimed again, found debited, confirmed and moved to the next month |
| `AuditChain.VerifyFinancialAuditChain` | apps/api/src/procurement/procurement.service.ts:259-275 | the loop accepts exactly the intact logs that agree with the head, and reports the first entry that breaks the chain |
| `AuditLaws.FirstMismatchAgrees` | apps/api/src/audit/audit.service.ts:99-126 | the loop's mismatch is the first row the window query counts |
| `AuditLaws.FormsAgree` | apps/api/src/audit/audit.service.ts:99-126 | the window query counts no row exactly when the loop finds no mismatch |
| `AuditLaws.VerdictsAgree` | apps/api/src/audit/audit.service.ts:97-147 | the two verdicts differ exactly on an empty log whose head has sequence 0 and not the genesis hash |
| `AuditLaws.ReportCounts` | apps/api/src/audit/audit.service.ts:97-147 | the window query's report counts the rows, the bad ones by number, previous hash and own hash, and one more for a head that does not match |
| `AuditLaws.IntactIffChained` | apps/api/src/audit/audit.service.ts:99-126 | a log is intact exactly when it is the chain an honest writer builds from its payloads |
| `AuditLaws.LastHashDetermines` | apps/api/src/procurement/procurement.service.ts:259-275 | with an injective digest, intact logs of one length with one last hash are equal |
| `AuditLaws.HeadDeterminesLog` | apps/api/src/procurement/procurement.service.ts:259-275 | with an injective digest, two logs accepted against one head are equal |
| `AuditLaws.TamperingIsRejected` | apps/api/src/audit/audit.service.ts:97-147 | any log other than the accepted one is rejected against the same head |
| `Metadata.NothingSensitiveIsKept` | apps/api/src/audit/audit.service.ts:14-33 | kept metadata is bounded in depth, keys and items, and holds only the redaction under a sensitive key |
| `Metadata.IdempotentIffForeignFits` | apps/api/src/audit/audit.service.ts:21-33 | sanitizing twice changes nothing exactly when no kept non-JSON value has an over-long text |
| `Metadata.KeptAsItIsIffFits` | apps/api/src/audit/audit.service.ts:14-33 | metadata is kept as it is exactly when it is JSON within the four limits with redactions under its sensitive keys |
| `Automation.ValueAt` | apps/api/src/automation/automation.service.ts:57-64 | the loop finds the value the dotted path leads to through own fields of objects, or reports none |
| `Automation.EventTables.PerformActions` | apps/api/src/automation/automation.service.ts:104-120 | the actions run in order; an alert that exists is reported, not doubled |
| `Automation.EventTables.RunRules` | apps/api/src/automation/automation.service.ts:99-124 | an attempt skips rules with a run, performs matched rules and records every outcome |
| `RuleMeaning.LookupStands` | apps/api/src/automation/automation.service.ts:57-64 | what a path finds is the value at the end of a chain of own fields |
| `RuleMeaning.HoldsMet` | apps/api/src/automation/automation.service.ts:66-81 | a condition holds exactly when it is met, by a definition over values, numbers, substrings and elements alone |
| `RuleMeaning.OperatorsRelate` | apps/api/src/automation/automation.service.ts:69-74 | of two numbers gt is the negation of lte and lt of gte, only gte and lte hold of equal ones, and neq is the negation of eq |
| `RuleMeaning.ThresholdsAreMonotone` | apps/api/src/automation/automation.service.ts:71-74 | a higher number keeps gt and gte met, a lower one lt and lte |
| `RuleMeaning.AttemptFollowsConditions` | apps/api/src/automation/automation.service.ts:97-124 | after an attempt on a fresh event a rule's run is matched exactly when all its conditions are met, and its alert is there exactly when it also creates one |
| `RuleMeaning.AttemptAlertsSay` | apps/api/src/automation/automation.service.ts:106-112 | each alert has the severity and title of its rule's first CREATE_ALERT |
| `RuleMeaning.ActionsReport` | apps/api/src/automation/automation.service.ts:103-120 | what each action reports, in order |
| `AutomationLaws.CrashesDoNotShow` | apps/api/src/automation/automation.service.ts:97-129 | after attempts cut off at any statement or overlapping, an uninterrupted one leaves the alerts and outcomes it would have left alone |
| `AutomationLaws.OverlapDoesNotShow` | apps/api/src/automation/automation.service.ts:97-129 | as soon as one of any overlapping attempts ends, exactly those alerts and outcomes are there |
| `AutomationLaws.NeverTwice` | apps/api/src/automation/automation.service.ts:101-123 | at every moment a rule has at most one alert and one run for the event |
| `AutomationLaws.HooksAreEmissions` | apps/api/src/automation/automation.service.ts:112-118 | in every run the webhook rows of a rule are one for each endpoint subscribed at each EMIT_WEBHOOK statement that ran for it |
| `AutomationLaws.WebhooksAtLeastOnce` | apps/api/src/automation/automation.service.ts:112-118 | each EMIT_WEBHOOK statement of a recorded, matched rule has run at least once |
| `AutomationLaws.WebhooksOnceIff` | apps/api/src/automation/automation.service.ts:99-124 | while the same endpoints, at least one, are subscribed, a recorded rule's webhook rows are as many as one attempt alone queues exactly when each of its EMIT_WEBHOOK statements ran once |
| `AutomationLaws.WebhooksCanRepeat` | apps/api/src/automation/automation.service.ts:112-118 | a cut attempt and the next one can queue more webhook rows than one attempt alone |
| `Queues.RunKeeps` | apps/api/src/notifications/notifications.service.ts:182-275 | in every interleaving waiting rows have attempts below 8 and in-flight rows 1 to 8; a FAILED event and a DEAD webhook have exactly 8 |
| `Queues.EveryRunIsOk` | apps/api/src/notifications/notifications.service.ts:182-275 | so it is in every run from an empty queue |
| `Queues.TerminalIsAbsorbing` | apps/api/src/communication/communication.domain-events.ts:71-136 | a finished or failed row that no webhook worker holds never changes again, although the event claim selects FAILED |
| `Queues.TerminalMovesIffHeld` | apps/api/src/procurement/webhook-delivery.worker.ts:68-73 | a finished or failed row can change at all exactly as long as a webhook worker holds it |
| `Queues.DeliveredTwice` | apps/api/src/procurement/webhook-delivery.worker.ts:68-73 | a run that reaches such a row: its DELIVERED update commits, the answer is lost, RETRY overwrites it and it is claimed again |
| `Queues.AttemptsAreClaims` | apps/api/src/notifications/notifications.service.ts:182-327 | attempts is claims minus deferrals, so a row is claimed at most eight times net of deferrals |
| `Queues.AbandonedDeliveryIsStuck` | apps/api/src/procurement/webhook-delivery.worker.ts:49-75 | a delivering row without a live worker never changes again |
| `Queues.DeliveryMovesIffHeld` | apps/api/src/procurement/webhook-delivery.worker.ts:49-75 | a delivering row can change at all exactly as long as a live worker holds it |
| `Queues.WorkersAbandon` | apps/api/src/procurement/webhook-delivery.worker.ts:49-75 | a run that ends with such a row: a worker claims it and dies |
| `QueueRequests.ClaimTakesDue` | apps/api/src/notifications/notifications.service.ts:182-245 | a claim takes exactly the chosen rows whose time has come and, webhooks apart, whose attempts are not used up |
| `QueueRequests.RecoveryFreesStale` | apps/api/src/notifications/notifications.service.ts:247-263 | recovery frees exactly the rows whose lock is older than the age given, kept between a minute and a day |
| `QueueRequests.RowEnds` | apps/api/src/notifications/notifications.service.ts:265-311 | what finishing, rejecting, deferring and a crash do to a row, and when they may |
| `QueueRequests.FailuresWait` | apps/api/src/communication/communication.domain-events.ts:116-125 | how long a failed row waits in each queue, and that it has failed for good exactly at eight attempts |
| `QueueRequests.BackoffDoubles` | apps/api/src/procurement/webhook-delivery.worker.ts:70-73 | a delivery's retry comes after 15 seconds, then twice as long each time, up to an hour |
| `QueueRequests.OthersAreUntouched` | apps/api/src/notifications/notifications.service.ts:265-327 | an operation on one row touches no other |
| `QueueRequests.LimitIsSafe` | apps/api/src/notifications/notifications.service.ts:183 | a claim asks for 1 to 100 rows, and 25 if it does not say |
| `QueueTable.QueueRows.PickDue` | apps/api/src/notifications/notifications.service.ts:182-245 | a claim selects the first due, unlocked rows in order, all of them when below the limit |
| `QueueTable.QueueRows.ClaimDue` | apps/api/src/notifications/notifications.service.ts:182-245 | exactly the selected rows move in flight and count an attempt |
| `QueueTable.QueueRows.RecoverStale` | apps/api/src/notifications/notifications.service.ts:247-263 | rows whose lock is stale wait again, or fail when their attempts are used up |
| `QueueTable.QueueRows.DeferSms` | apps/api/src/notifications/notifications.service.ts:265-275 | an in-flight row waits again and gives its attempt back |
| `QueueTable.QueueRows.MarkDone` | apps/api/src/notifications/notifications.service.ts:291-300 | an in-flight row is done; a webhook row its worker holds is done whatever its status, and stays held if the worker does not learn so |
| `QueueTable.QueueRows.MarkPermanentlyFailed` | apps/api/src/notifications/notifications.service.ts:302-311 | an in-flight row fails at once |
| `QueueTable.QueueRows.MarkFailed` | apps/api/src/communication/communication.domain-events.ts:116-125 | a failed row waits again with the queue's own delay, or fails at eight attempts |
| `FieldJobs.FieldTables.AddJob` | apps/api/src/isp-operations/isp-operations.service.ts:108-122 | a job starts OPEN with its creation event |
| `FieldJobs.NewRow` | apps/api/src/isp-operations/isp-operations.service.ts:134-136 | a job update replaces exactly the given fields, and stamps, keeps or clears the completion time by the new status |
| `FieldJobs.FieldTables.ChangeJob` | apps/api/src/isp-operations/isp-operations.service.ts:124-141 | an update replaces the given fields and the completion time, and writes an event exactly when the status changes or a note is given, blank or not |
| `FieldJobs.FieldTables.ApplyOperation` | apps/api/src/isp-operations/isp-operations.service.ts:213-268 | a new offline operation is checked and has its effect, or is refused |
| `FieldJobs.FieldTables.ReceiveOperation` | apps/api/src/isp-operations/isp-operations.service.ts:195-278 | a known operation is replayed from its receipt, a new one applied and given a receipt |
| `FieldJobs.FieldTables.SyncOfflineOperations` | apps/api/src/isp-operations/isp-operations.service.ts:177-293 | a batch is applied in order and answered; a failing one leaves the tables as they were |
| `FieldLaws.SyncAnswersAll` | apps/api/src/isp-operations/isp-operations.service.ts:177-293 | accepted plus replayed is the batch length, answers follow the operations, and each is then on record |
| `FieldLaws.ResubmissionReplays` | apps/api/src/isp-operations/isp-operations.service.ts:177-293 | a batch sent again, at any later time and by anyone, replays every operation and changes nothing |
| `FieldLaws.SyncConcat` | apps/api/src/isp-operations/isp-operations.service.ts:177-293 | syncing a concatenation succeeds exactly when its parts do in order, with the same answers and tables up to audit rows |
| `FieldLaws.TrailsReplay` | apps/api/src/isp-operations/isp-operations.service.ts:108-253 | in every run events link previous to new status, the last equals the stored status, and a completion time stands exactly when COMPLETED |
| `FieldLaws.EveryRunReplays` | apps/api/src/isp-operations/isp-operations.service.ts:108-253 | so it is in every run from empty tables |
| `FieldLaws.ManualUpdateIgnoresTable` | apps/api/src/isp-operations/isp-operations.service.ts:124-141 | a manual update stays within the transition table exactly when its request does; it reopens a COMPLETED job exactly when asked, and then drops the completion time |
| `FieldLaws.SyncWalks` | apps/api/src/isp-operations/isp-operations.service.ts:236-253 | the statuses a sync writes for a job, one event after the other, are a walk of the transition table from its old status to its new one, never out of COMPLETED or CANCELED |
| `FieldRequests.TableFromItsEnd` | apps/api/src/isp-operations/isp-operations.service.ts:185-192 | what each status may come from |
| `FieldRequests.JobIsAsRequested` | apps/api/src/isp-operations/isp-operations.service.ts:108-122 | a new job and its event |
| `FieldRequests.UpdateIsAsRequested` | apps/api/src/isp-operations/isp-operations.service.ts:124-141 | a manual update: what it replaces, when it stamps, keeps or clears the completion time, and when it notes an event |
| `FieldRequests.OperationIsAsRequested` | apps/api/src/isp-operations/isp-operations.service.ts:213-268 | an offline operation: the condition of each answer, and the one thing each kind does |
| `FieldRequests.ReceiptIsAsRequested` | apps/api/src/isp-operations/isp-operations.service.ts:195-278 | a known operation is answered from its receipt exactly if job and kind agree; a new one is performed and leaves one |
| `FieldRequests.SyncIsAsRequested` | apps/api/src/isp-operations/isp-operations.service.ts:177-293 | a sync takes 1 to 100 operations, leaves nothing behind when it fails, and notes an audit row exactly when it accepted something new |
| `FieldRequests.FirstFailureDecides` | apps/api/src/isp-operations/isp-operations.service.ts:177-293 | the first operation that fails decides the batch's error |
| `Access.AccessTables.CreateAccessBinding` | apps/api/src/isp-operations/isp-operations.service.ts:28-38 | a binding starts PENDING under a unique username and refers to a known customer, router and package |
| `Access.AccessTables.ChangeAccessState` | apps/api/src/isp-operations/isp-operations.service.ts:40-88 | a state change sets the activation and suspension times and writes one event; the same state writes none |
| `Access.AccessTables.SetServiceState` | apps/api/src/isp-operations/customer-service-state.service.ts:25-87 | the state row is written and an event only when the state changes |
| `Access.AccessTables.ReconcileExpiry` | apps/api/src/isp-operations/isp-expiry.service.ts:65-125 | the three phases run in order, and the counts returned are those of the events written |
| `AccessLaws.ReconcileRows` | apps/api/src/isp-operations/isp-expiry.service.ts:65-125 | what the three phases together do to each binding and each service row |
| `AccessLaws.ReconcileIsCorrect` | apps/api/src/isp-operations/isp-expiry.service.ts:65-125 | afterwards no active binding or service has expired, active services carry their bindings' latest expiry, and only lapsed services without an active binding were suspended |
| `AccessLaws.ReconcileIsIdempotent` | apps/api/src/isp-operations/isp-expiry.service.ts:65-125 | running again at the same time changes nothing and emits no event |
| `AccessLaws.TrailsReplay` | apps/api/src/isp-operations/isp-expiry.service.ts:67-123 | across manual and expiry writers, both trails link and replay to the stored states, and a suspension time stands exactly when SUSPENDED |
| `AccessLaws.EveryRunReplays` | apps/api/src/isp-operations/isp-expiry.service.ts:67-123 | so it is in every run from empty tables |
| `AccessRequests.BindingIsAsRequested` | apps/api/src/isp-operations/isp-operations.service.ts:28-38 | a binding: the condition of each answer, and its row |
| `AccessRequests.StateIsAsRequested` | apps/api/src/isp-operations/isp-operations.service.ts:40-88 | a state change: what it stamps and clears, its event, and that nothing else changes |
| `AccessRequests.ActivationIsKept` | apps/api/src/isp-operations/isp-operations.service.ts:50-53 | in every run the first activation is never moved, and no binding is ACTIVE without one |
| `AccessRequests.ServiceIsAsRequested` | apps/api/src/isp-operations/customer-service-state.service.ts:25-52 | a service state: the condition of each answer, the customer's row, and when an event is noted |
| `AccessRequests.ExpiryFollowsTheClock` | apps/api/src/isp-operations/isp-expiry.service.ts:65-82 | the job expires exactly the active bindings whose expiry has come |
| `AccessRequests.SuspensionFollowsTheClock` | apps/api/src/isp-operations/isp-expiry.service.ts:84-121 | it suspends exactly the active services whose expiry has come and whose customer keeps no active binding |
| `AccessRequests.JobEventsAreItsOwn` | apps/api/src/isp-operations/isp-expiry.service.ts:67-121 | its events are marked as its own |
| `TenantForest.HierarchyTable.RequestParent` | apps/api/src/procurement/tenant-hierarchy.service.ts:15-30 | run without a break, a request is refused for self, unknown parent, cycle or existing relation, and otherwise adds a pending edge |
| `TenantForest.HierarchyTable.ApproveChild` | apps/api/src/procurement/tenant-hierarchy.service.ts:31-38 | only the named parent's pending relation becomes active |
| `TenantForest.ChainIsAncestors` | apps/api/src/procurement/tenant-hierarchy.service.ts:18-25 | on any table, cyclic or not, the recursive query ends with exactly the tenant and its ancestors |
| `TenantForest.CycleRefusedIff` | apps/api/src/procurement/tenant-hierarchy.service.ts:18-25 | the check refuses an edge exactly when it would close a cycle |
| `TenantForest.ForestIff` | apps/api/src/procurement/tenant-hierarchy.service.ts:15-38 | after any run of checks, inserts and approvals the live edges are acyclic exactly when each edge was added while its check would still have passed |
| `TenantForest.StaysForest` | apps/api/src/procurement/tenant-hierarchy.service.ts:15-38 | so requests that do not overlap keep the live edges acyclic |
| `TenantForest.EveryForestIff` | apps/api/src/procurement/tenant-hierarchy.service.ts:15-38 | in particular from a table without relationships |
| `TenantForest.CrossedRequestsMakeCycle` | apps/api/src/procurement/tenant-hierarchy.service.ts:18-27 | a run in which two tenants request each other at once and both edges are added |
| `TenantForest.RequestIsAsRequested` | apps/api/src/procurement/tenant-hierarchy.service.ts:15-30 | a request without a break: the condition of each answer, in terms of ancestors, and its row |
| `TenantForest.ApprovalIsAsRequested` | apps/api/src/procurement/tenant-hierarchy.service.ts:31-38 | an approval: when it is accepted, and its row |
| `Cidr.NestedOrDisjoint` | apps/api/src/ipam/ipam.service.ts:50-64 | an address of the narrower block lies in the wider one exactly when the blocks overlap |
| `Cidr.OverlapsIffShared` | apps/api/src/ipam/ipam.service.ts:50-64 | the overlap operator means that some address lies in both blocks |
| `IpamRequests.BlockIsRange` | apps/api/src/ipam/ipam.service.ts:50-64 | an address lies in a block exactly when it is one of its 2^(width - prefix) addresses from its base |
| `IpamRequests.BlocksAreAligned` | apps/api/src/ipam/ipam.service.ts:50-64 | a valid block starts at a multiple of its size among the 2^32 or 2^128 addresses of its family |
| `Ipam.IpamTables.AddPool` | apps/api/src/ipam/ipam.service.ts:50-94 | run without a break, a pool is added unless invalid, overlapping, with a foreign gateway or a taken name |
| `Ipam.IpamTables.AddInventory` | apps/api/src/ipam/ipam.service.ts:111-148 | an address is added inside its pool, not the gateway, and not twice |
| `Ipam.IpamTables.AllocateAddress` | apps/api/src/ipam/ipam.service.ts:150-210 | the named address or the least available one is given to the owner with its lease |
| `Ipam.IpamTables.ReleaseAddress` | apps/api/src/ipam/ipam.service.ts:212-221 | only an allocated address is released, and its owner fields are cleared |
| `Ipam.LeastFree` | apps/api/src/ipam/ipam.service.ts:150-198 | the chosen row is available and no available row of the pool has a lower address |
| `Ipam.RunKeeps` | apps/api/src/ipam/ipam.service.ts:50-221 | every run keeps gateways in their pools, addresses unique, in their pool and off the gateway, and owner fields empty unless ALLOCATED |
| `Ipam.EveryRunIsOk` | apps/api/src/ipam/ipam.service.ts:50-221 | so it is in every run from an empty plan |
| `Ipam.DisjointIff` | apps/api/src/ipam/ipam.service.ts:50-94 | after any run of checks and inserts the pools share no address exactly when each pool was added while its check would still have passed |
| `Ipam.PoolsStayDisjoint` | apps/api/src/ipam/ipam.service.ts:50-94 | so requests that do not overlap keep the pools apart |
| `Ipam.CrossedRequestsOverlap` | apps/api/src/ipam/ipam.service.ts:54-80 | a run in which two requests for one block pass their checks and both pools are added |
| `Ipam.InventoryIsConstant` | apps/api/src/ipam/ipam.service.ts:150-221 | allocations and releases never add, drop or move an address |
| `Ipam.TakesTheLeast` | apps/api/src/ipam/ipam.service.ts:150-198 | in a reachable plan an allocation without an address takes one strictly below every other available one |
| `Ipam.ReleaseUndoesAllocate` | apps/api/src/ipam/ipam.service.ts:150-221 | a release after an allocation restores every row but for the assignment kind |
| `IpamRequests.PoolIsAsRequested` | apps/api/src/ipam/ipam.service.ts:50-94 | a pool without a break: the condition of each answer, in terms of address ranges, and its row |
| `IpamRequests.AddressIsAsRequested` | apps/api/src/ipam/ipam.service.ts:111-148 | an address: the condition of each answer, and its row |
| `IpamRequests.NamedAllocationIsAsRequested` | apps/api/src/ipam/ipam.service.ts:150-210 | an allocation by address: the condition of each answer, and what the owner gets |
| `IpamRequests.AllocationIsAsRequested` | apps/api/src/ipam/ipam.service.ts:150-210 | an allocation without one: the condition of each answer, and what the owner gets |
| `IpamRequests.ReleaseIsAsRequested` | apps/api/src/ipam/ipam.service.ts:212-221 | a release: when it is accepted, and the row it leaves |
| `Forecast.GroupSamples` | apps/api/src/operations-intelligence/operations-intelligence.service.ts:51-52 | every key has one group, opened by its first row, with exactly its points in order |
| `Forecast.KeysSeparate` | apps/api/src/operations-intelligence/operations-intelligence.service.ts:52 | keys tell resources apart when no resource type contains the separator |
| `Forecast.SeparatorMatters` | apps/api/src/operations-intelligence/operations-intelligence.service.ts:52 | a resource type with the separator can share its key with another resource |
| `Forecast.Project` | apps/api/src/operations-intelligence/operations-intelligence.service.ts:53-60 | a projection needs three samples; it is the line after 30 days, clamped to a percentage, to two digits; the trend is that of the slope, which is answered to three digits; the days to 80 percent, given exactly when the line rises to it, are DaysTo80 to one |
| `Forecast.CapacityForecast` | apps/api/src/operations-intelligence/operations-intelligence.service.ts:47-63 | one answer a key, for a resource that was sampled, projecting the samples under the key, and every sample's key is answered |
| `Forecast.EachResourceIsAnswered` | apps/api/src/operations-intelligence/operations-intelligence.service.ts:47-63 | as no resource type contains the separator, each resource sampled has one answer, of exactly its own samples |
| `Forecast.DaysTo80` | apps/api/src/operations-intelligence/operations-intelligence.service.ts:59 | on that day the line through the last reading is at 80 percent |
| `Forecast.FiguresHaveDigits` | apps/api/src/operations-intelligence/operations-intelligence.service.ts:59 | the daily change has three digits, the projection two and the days one |
| `Arithmetic.ToFixed` | apps/api/src/operations-intelligence/operations-intelligence.service.ts:59 | rounding to a number of digits moves a figure by at most half a unit of the last |
| `Arithmetic.FixedMirrors` | apps/api/src/operations-intelligence/operations-intelligence.service.ts:59 | both signs are rounded alike, and what is not negative as in RoundTo |
| `Arithmetic.RoundedIsWhole` | apps/api/src/operations-intelligence/operations-intelligence.service.ts:59 | a rounded figure is a whole number of the last digit asked for |
| `Arithmetic.RoundTo` | apps/api/src/finance/finance.service.ts:30 | likewise for the rounding of invoice lines, with ties upwards |
| `Forecast.SlopeIsLeastSquares` | apps/api/src/operations-intelligence/operations-intelligence.service.ts:56-57 | with two distinct times no line has a smaller squared error than the computed slope through the means |
| `Forecast.CollinearIsExact` | apps/api/src/operations-intelligence/operations-intelligence.service.ts:56-57 | on collinear points the computed slope is the line's |
| `Forecast.SingleTime` | apps/api/src/operations-intelligence/operations-intelligence.service.ts:56-58 | with one distinct time the slope is 0 and the projection repeats the last reading, clamped and rounded |
| `Text.SplitJoin` | apps/api/src/common/secure-network-credentials.ts:71 | splitting undoes joining when no part contains the separator |
| `Text.JoinSplit` | apps/api/src/common/secure-network-credentials.ts:71 | joining undoes splitting, and no part contains the separator |
| `SmsBody.RequestBody.SetPath` | apps/api/src/notifications/sms-gateway.service.ts:206-210 | descending by reference and writing one field in place has, on the whole tree, the effect of the recursive definition |
| `SmsPaths.ReadSet` | apps/api/src/notifications/sms-gateway.service.ts:206-214 | reading the set path, or further, reads the value set |
| `SmsPaths.ReadUnrelated` | apps/api/src/notifications/sms-gateway.service.ts:206-214 | a path that is neither prefix nor extension reads what it did before |
| `SmsPaths.BodyCarriesAllIffUnrelated` | apps/api/src/notifications/sms-gateway.service.ts:193-194 | whatever the texts, all three are readable from the body exactly when the three paths are pairwise unrelated |
| `Base64Url.RoundTrip` | apps/api/src/common/secure-network-credentials.ts:67-94 | decoding undoes encoding, and an encoded text never contains the envelope's separator |
| `EnvelopeFormat.SymbolsAreTheAlphabet` | apps/api/src/common/secure-network-credentials.ts:67 | the alphabet is that of section 5 of RFC 4648, and reading also takes the two symbols of section 4 |
| `EnvelopeFormat.BitsComeHighFirst` | apps/api/src/common/secure-network-credentials.ts:67 | three bytes are four symbols with the high bits first, and one or two are two or three |
| `Envelope.ReadRing` | apps/api/src/common/secure-network-credentials.ts:28-42 | the loop accepts a ring exactly when every item is well formed and no id repeats, and returns its keys |
| `Envelope.LoadedOk` | apps/api/src/common/secure-network-credentials.ts:27-57 | a loaded keyring has distinct well-formed ids, 32-byte keys and an active id it holds |
| `Envelope.ListedKeyIsHeld` | apps/api/src/common/secure-network-credentials.ts:31-41 | a loaded keyring holds the key of every item listed, whatever else is listed or active |
| `Envelope.LegacyProvidesFirst` | apps/api/src/common/secure-network-credentials.ts:44-48 | the legacy setting provides key 1 unless the ring takes one of its two ids |
| `Envelope.RotationKeepsReadable` | apps/api/src/common/secure-network-credentials.ts:59-105 | what was encrypted under one configuration decrypts under any later one that still holds that key under that id |
| `Envelope.LegacyStaysReadable` | apps/api/src/common/secure-network-credentials.ts:78-80 | a version 1 envelope opens wherever its key is held as 1 |
| `EnvelopeFormat.KeysReadInPairs` | apps/api/src/common/secure-network-credentials.ts:33-37 | a key is 32 bytes from 64 hexadecimal digits, the high one of each pair first |
| `EnvelopeFormat.HexDigitsCount` | apps/api/src/common/secure-network-credentials.ts:33 | hexadecimal digits count from 0 to 15 in either case |
| `EnvelopeFormat.IdsAreWords` | apps/api/src/common/secure-network-credentials.ts:33 | a key id has 1 to 32 letters, digits, hyphens and underscores |
| `EnvelopeFormat.ItemsAreIdAndKey` | apps/api/src/common/secure-network-credentials.ts:28-42 | an item id:hex is that key; one without a colon, or nothing before it, is malformed |
| `EnvelopeFormat.SettingsAreTrimmed` | apps/api/src/common/secure-network-credentials.ts:23-28 | a setting counts without the blanks around it, and a missing one as empty |
| `EnvelopeFormat.ActiveKeyIsChosen` | apps/api/src/common/secure-network-credentials.ts:49-57 | the active key is the chosen one, or 1, or the first; without it the ring does not load |
| `EnvelopeFormat.LegacyKeyIsAdded` | apps/api/src/common/secure-network-credentials.ts:44-48 | the legacy key is added as legacy and as 1, where the ring leaves those ids free |
| `EnvelopeFormat.EnvelopeHasFiveParts` | apps/api/src/common/secure-network-credentials.ts:59-68 | an envelope is the version 2, the key id, iv, tag and ciphertext with dots between |
| `EnvelopeFormat.OnlyEnvelopesDecrypt` | apps/api/src/common/secure-network-credentials.ts:70-105 | what decrypts is a well-formed version 1 or 2 envelope whose key is held and opens it |

## Left out

- JavaScript numbers and database rounding: amounts, quantities and costs are exact reals; only the roundings the services write out (invoices, invoice lines, forecast figures) are modelled.
- Settlement compares amounts as numbers, where the code compares their texts; both sides come from one column at its call sites.
- Trimming and upper-casing of request texts (names, currencies, keys): texts are taken as already normalised, except in the keyring.
- Tenants: every state is one tenant's, since every statement filters by tenant.
- Row locks: a transaction is one step. Clashes that the unique indexes catch appear as the error they end in.
- The SQL migrations are not part of this model: what the tables forbid is known only from the error codes the services handle.
- Generated ids are row positions, or for renewal executions texts that are drawn at most once; purchases in the saga are ids only.
- Purchases in the saga: creating, reading and confirming one may succeed, fail, or take effect and still report failure; nothing is claimed about access after a compensated renewal.
- The order and limit of the renewal and reconciliation claims: any due rows may be claimed, in any order.
- Renewal notifications, audit rows, webhook rows beside business writes, and live session changes: they read no state modelled here.
- `createPurchaseOrder` and `createInventoryItem` only as the steps that add an empty order and an item; supplier checks are not part of this model.
- Payment intents, the payment webhook and its work items, promotions, commissions, disputes and manual ledger accounts: they would only add easy members.
- The automation receipt's own status and backoff, which follow the queue pattern; rule creation and its checks; Number(x) and String(x) in conditions are given functions.
- HTTP delivery, DNS and URL policy: delivery succeeds or fails.
- AES-GCM, JSON text and random bytes of the envelope: given functions with an inverse, stated as a condition of the lemmas; the version field is compared as text, and only blanks, tabs and line ends are trimmed.
- The digest of the audit chains: a given function, assumed injective only where a lemma says so; the triggers that write the chain are not part of this model.
- Fields that plain objects inherit (`toString` and the like) when a path is read, and integer-like keys that JavaScript would reorder.
- `normalizeTanzaniaPhone`, campaigns, listing and overview queries, branding, captive portal, bots and mini-apps: counting or simple row writes.
- Automation rules switched on, off or edited between two attempts at one event: every attempt meets the same rules in the same order.
- SagaRefunds.RefundedCostsNothing: holds of disciplined runs only; `SagaRefunds.ReturnedCostsNothingIff` has the exact condition for any run.
