# Verification model of a multi-tenant ledger API

This project models the financial and protocol core of the ledger and proves properties of it with
Dafny. `dafny verify dfyconfig.toml` checks everything.

| files | what they model |
|---|---|
| `AdvanceAllocation`, `BillingBooks`, `BillingStatement`, `BillingReports`, `BillingService`, `BillingRuns` | customer billing: the tables, the atomic effects of its transactions, the transactions themselves, the statement recomputed from events, and whole runs |
| `BillingRun` | the resumable batch of recurring invoices, worked on by several workers |
| `Installments` | billing cycles, cycle amounts, and the plan, assignment and generation steps around them |
| `ScheduleGraph`, `ScheduleEngine` | the critical-path scheduler: ordering, working calendar, forward and backward pass |
| `BoqControl` | versioned baselines with independent approval, certified measurements and reversals |
| `MeasuredBilling`, `ContractorAgreement`, `RunningContract` | the arithmetic of measured bills next to bills rounded one by one, and the life of an item-rate work agreement and of a contract billed without items: status, advances, bills, change orders, retention |
| `TaxEngine`, `TaxMeaning`, `TaxDocuments`, `SaleDocuments` | the tax calculation, what its figures owe to rates and selection, its replay, and documents priced with it, with the tax ledger over the life of a sale |
| `GroupCreation`, `GroupRuns` | creating a WhatsApp group: claim, remote request, callback inbox, reconciliation |
| `AssistantReplies`, `AssistantRuns` | assistant replies: quota, processing leases, hand-over to the provider |
| `Rounding`, `Sums`, `Runs`, `Outcomes` | whole-currency rounding, sums over tables, runs of a state machine, results |

How the source is rendered:

- A serializable transaction is one atomic step. Where the source makes several database or remote calls
  outside a transaction, each call is a step of its own, workers interleave freely, and a worker may stop
  between any two of its steps.
- Tables are sequences, and a row's id is its position (maps where rows are keyed or deleted). Money is an
  integer with the source's bound of 2147483647; quantities are thousandths, rates hundredths or basis
  points, dates day or month numbers, times milliseconds or seconds.
- `Math.round(a / b)` is `Round(a, b)`, the floor of a / b + 1/2 over exact integers.
- A thrown `ApiError` is an `Err` result; the state is then exactly what it was.

Results that differ from what one might expect of the code:

- The status `unknown` of a group never comes with a request id, so the branch of the reconciliation that
  accepts unknown rows is never used. A callback can therefore be lost although it was stored and reconciled
  (`GroupRuns.CallbackLost`). The rows that stay for good are exactly the ready ones, the unknown ones,
  and those left `creating` by a creator that stopped (`GroupRuns.StaysExactly`).
- `processReply` reads the attempt number in a second call after its claim. Two processors can therefore
  hold the same fence, and the failure of the first ends the attempt of the second
  (`AssistantRuns.StaleFailureWins`). The row that was read says which: it carries the processor's own
  lease exactly when the fence is its own (`AssistantRuns.LeaseTells`, `AssistantRuns.FenceExact`).
- The advance of an item-rate agreement is only paid while the rest of the work would pay it out, but a bill
  that recovers too little strands it (`ContractorAgreement.StrandingHappens`). `StrandsExactly` and
  `BillStrands` say exactly which bill does, by a comparison that can be made before it is submitted or
  approved. A stranded agreement can never be closed, so its retention is never released; every other
  agreement that was not rejected can (`ClosableExactly`, `StrandedForGood`).
- Without items, an advance is accepted up to the whole rest of the price although retention is held back
  from every bill. Below a retention of one half it can still be recovered, from bills too small to hold
  anything back (`RunningContract.AdvanceReachable`); at one half or more it can be out of reach until a
  change order raises the price (`RunningContract.WholeAdvanceLost`). `RunningContract.ClosableExactly` and
  `RunningContract.ClosableByRevision` give the exact conditions.
- The balance check of a refund never refuses because of anything billing does
  (`BillingBooks.RefundCovered`), but it does refuse after the account was emptied elsewhere
  (`BillingRuns.RefundRefused`).
- Nothing ever cancels a reply, so the exception for cancelled replies in the quota count is unused
  (`AssistantReplies.NoneCancelled`).

## Model

| member | source | states |
|---|---|---|
| AdvanceAllocation.Turn | src/modules/billing/billing.service.ts:62-68 | one turn of the nested loops moves the smaller of what payment k still holds and invoice j still asks, and that amount is the overlap of the two prefix-sum intervals; both sides and the running total move by exactly it |
| AdvanceAllocation.TurnLists | src/modules/billing/billing.service.ts:62-68 | seen on the whole lists, a turn changes one payment and one invoice and nothing else |
| AdvanceAllocation.NextLists | src/modules/billing/billing.service.ts:62-63 | going on to the next payment changes nothing: the closed form at the end of one row is the closed form at the start of the next |
| AdvanceAllocation.NeverBoth | src/modules/billing/billing.service.ts:62-68 | afterwards no payment holds credit while an invoice still asks: credit and dues never both remain |
| AdvanceAllocation.OldestFirst | src/modules/billing/billing.service.ts:57-68 | an invoice gets money only if every earlier one ends settled, and a payment is drawn on only if every earlier one ends used up |
| AdvanceAllocation.MovesTotal | src/modules/billing/billing.service.ts:61-70 | the amounts allocated add up to the smaller of total credit and total dues |
| AdvanceAllocation.Staircase | src/modules/billing/billing.service.ts:62-68 | every allocation is on a later payment or a later invoice than the one before it |
| AdvanceAllocation.MovesBound | src/modules/billing/billing.service.ts:62-68 | m payments and n invoices need at most m + n - 1 allocations |
| BillingBooks.IssueKeeps | src/modules/billing/billing.service.ts:72-86 | issuing an invoice keeps the books consistent: every incremental field still equals what its event rows add up to |
| BillingBooks.ReceiveKeeps | src/modules/billing/billing.service.ts:147-159 | receiving money keeps the books consistent, with the account holding what was collected and not refunded |
| BillingBooks.RequestKeeps | src/modules/billing/billing.service.ts:171-189 | an undecided request counts for nothing |
| BillingBooks.AllocateKeeps | src/modules/billing/billing.service.ts:46-55 | an allocation keeps: payment amount = remaining + refunded + live allocations, invoice paid amount = its live allocations, 0 <= paid <= net total <= 2147483647 |
| BillingBooks.RejectKeeps | src/modules/billing/billing.service.ts:190-203 | rejecting a request keeps the books consistent |
| BillingBooks.NoteKeeps | src/modules/billing/billing.service.ts:231-241 | debit notes, credit notes, waivers and write-offs keep the books consistent |
| BillingBooks.PayBackKeeps | src/modules/billing/billing.service.ts:205-215 | a refund keeps the books consistent: it leaves the payment and the account by the same amount |
| BillingBooks.MoveOutsideKeeps | src/modules/accounts/accounts.routes.ts:205-230 | money moved in or out of an account outside billing keeps the books consistent, refunds and receipts included |
| BillingBooks.RefundCovered | src/modules/billing/billing.service.ts:205-215 | an account that has not lost money outside billing covers every refund that the payment allows, so the balance check can only refuse for money moved elsewhere |
| BillingBooks.ChargeKeeps | src/modules/billing/billing.service.ts:253-262 | a late fee keeps the books consistent |
| BillingBooks.LateFeeMeans | src/modules/billing/billing.policy.ts:83-93 | an issued invoice without a fee that owes money is charged from the day after its grace days on, the fixed fee or the nearest whole amount to the percentage of what it owes, refused above 2147483647; no other invoice is |
| BillingBooks.CancelKeeps | src/modules/billing/billing.service.ts:220-230 | a cancellation keeps the books consistent: every payment gets back exactly what the invoice had drawn from it, and the invoice has no paid amount left |
| BillingStatement.DueTotal | src/modules/billing/billing.policy.ts:56-57 | over a customer's invoices, what is outstanding is what was charged, less what was allocated, less what approved adjustments took off |
| BillingStatement.AdvanceTotal | src/modules/billing/billing.service.ts:205-215 | over a customer's payments, what remains is what was received, less allocations, less refunds |
| BillingStatement.ClosingAgrees | src/modules/billing/billing.reports.ts:35-77 | in consistent books the statement recomputed from invoice, late-fee, payment and approved-adjustment events alone closes with outstanding invoices less unapplied payments, cancelled invoices included |
| BillingReports.SortSorts | src/modules/billing/billing.reports.ts:61 | the entries are put in (date, recording time, id) order and none is lost or repeated |
| BillingReports.SortTotal | src/modules/billing/billing.reports.ts:61 | the order of the entries changes no total |
| BillingReports.WindowMembers | src/modules/billing/billing.reports.ts:66-74 | the rows shown are exactly the entries inside the window |
| BillingReports.WindowInTime | src/modules/billing/billing.reports.ts:61-74 | the rows shown are in order of date, recording time and position |
| BillingReports.WindowTotal | src/modules/billing/billing.reports.ts:66-74 | closing balance = opening balance + the entries inside the window |
| BillingReports.RowsRun | src/modules/billing/billing.reports.ts:66-74 | in date order, each row's balance is the opening balance plus the rows up to it |
| BillingReports.CollectEntries | src/modules/billing/billing.reports.ts:51-60 | the pushes build exactly the events of the customer |
| BillingReports.Ledger | src/modules/billing/billing.reports.ts:35-77 | for any window: the rows, their running balances, the opening and the closing balance; without an upper date the closing balance is outstanding less advance |
| BillingReports.WindowsTile | src/modules/billing/billing.reports.ts:66-75 | a statement closes with what the statement starting the day after opens with |
| BillingRuns.EveryRun | src/modules/billing/billing.service.ts:46-269 | any sequence of issuing, receiving, requesting, allocating, rejecting, noting, refunding, cancelling, charging, and moving account money elsewhere, from empty tables, stays consistent throughout |
| BillingRuns.StatementAlwaysAgrees | src/modules/billing/billing.reports.ts:35-77 | in every reachable state every customer's statement agrees with the running fields |
| BillingRuns.EntriesShown | src/modules/billing/billing.reports.ts:51-60 | an entry is on the statement exactly when its row says so |
| BillingRuns.EntriesStay | src/modules/billing/billing.reports.ts:51-60 | history is never rewritten: an entry once on a statement stays on it with its date and amount, whatever is cancelled, refunded or corrected later |
| BillingRuns.OutsideChangesNoStatement | src/modules/billing/billing.reports.ts:35-77 | money moved outside billing changes no statement and no billing row |
| BillingRuns.RefundRefused | src/modules/billing/billing.service.ts:209-211 | a run in which a refund that the payment allows is refused: its account was emptied elsewhere |
| BillingRuns.ReachesKeeps | src/modules/billing/billing.service.ts:46-269 | whatever moves lead from consistent books to others, the books stay consistent and no statement loses an entry |
| BillingRuns.AdvanceReached | src/modules/billing/billing.service.ts:56-71 | the whole of applyAdvance is a sequence of single allocations |
| BillingRuns.FeesReached | src/modules/billing/billing.service.ts:249-269 | the late-fee loop is a sequence of single charges, however far it gets |
| BillingRuns.InvoiceIsRun | src/modules/billing/billing.service.ts:72-93 | an invoice with automatic advances is a run of moves |
| BillingRuns.CollectionIsRun | src/modules/billing/billing.service.ts:139-170 | a collection is a run of moves, whether it allocates as asked or oldest first |
| BillingService.OrderByDateOk | src/modules/billing/billing.service.ts:57-60 | the queries yield exactly the wanted rows, in date order |
| BillingService.MidwayStep | src/modules/billing/billing.service.ts:63-68 | after a turn of the loops the tables hold what the closed form says for that moment, rows written included |
| BillingService.AfterAdvance | src/modules/billing/billing.service.ts:56-71 | what each payment holds and each invoice asks after applyAdvance, in closed form |
| BillingService.AdvanceExhausts | src/modules/billing/billing.service.ts:56-71 | after applyAdvance the customer does not both hold credit and owe money |
| BillingService.AdvanceOldestFirst | src/modules/billing/billing.service.ts:60-68 | money reaches an issued invoice only if every issued invoice of the customer with an earlier due date ends with nothing outstanding |
| BillingService.AdvanceOldestPayment | src/modules/billing/billing.service.ts:57-68 | a payment is drawn on only if every open payment of the customer with an earlier payment date ends with nothing remaining |
| BillingService.Service.Allocate | src/modules/billing/billing.service.ts:46-55 | succeeds exactly when the invoice is issued, of the same customer, and both sides hold the amount; otherwise changes nothing |
| BillingService.Service.OfferPayment | src/modules/billing/billing.service.ts:63-69 | the inner loop takes the tables from the closed form before a payment to the one after it |
| BillingService.Service.ApplyAdvance | src/modules/billing/billing.service.ts:56-71 | the nested loops go through the open payments by payment date and the issued invoices by due date, and compute the closed form: final rows, allocations written, applied = min(total credit, total dues), applied + advance = total credit |
| BillingService.Service.InsertInvoice | src/modules/billing/billing.service.ts:72-93 | the invoice is added and, when the setting asks for it, advances are applied |
| BillingService.Service.Collect | src/modules/billing/billing.service.ts:139-170 | the payment enters the account and is allocated as asked or oldest first; exactly when it is refused and with which error, the books then staying as they were |
| BillingService.Service.CollectRequest | src/modules/billing/billing.service.ts:141-147 | a repeated request key gives the first payment back and changes nothing, the same key for another request is refused; otherwise exactly when the payment is taken and with which error it is refused |
| BillingService.Service.MoveOutside | src/modules/accounts/accounts.routes.ts:205-230 | a movement elsewhere happens exactly when the account can pay or hold it, and touches nothing but the account |
| BillingService.Service.AllocateAsked | src/modules/billing/billing.service.ts:160-163 | the requested allocations are made one after the other, failing where the first refused one fails |
| BillingService.Service.RequestAdjustment | src/modules/billing/billing.service.ts:171-189 | when a request is accepted and what it records; a cancellation asks for the net total of that moment |
| BillingService.Service.AdjustRequest | src/modules/billing/billing.service.ts:173-178 | a repeated request key gives the first row back, the same key for another request is refused; otherwise exactly when a row is recorded, and which |
| BillingService.Service.ReleaseAllocations | src/modules/billing/billing.service.ts:223-227 | the release loop marks the invoice's live allocations and returns to each payment exactly what they had drawn |
| BillingService.Service.DecideAdjustment | src/modules/billing/billing.service.ts:190-248 | for every kind, exactly when approval succeeds and the whole state it leads to; a second person decides, repeating a decision changes nothing, a refusal changes nothing |
| BillingService.Service.ChargeLateFee | src/modules/billing/billing.service.ts:253-262 | the transaction for one invoice: fee, no fee or refusal, and the state it leads to |
| BillingService.Service.ApplyLateFees | src/modules/billing/billing.service.ts:249-269 | the loop charges exactly the overdue invoices up to the first refused one and reports their number and sum |
| BillingRun.StepKeeps | src/modules/billing/billing.service.ts:290-329 | every database step keeps |results| = cursor, results[k] for ids[k], completed exactly at the end, and never takes back a result |
| BillingRun.EveryRun | src/modules/billing/billing.service.ts:290-329 | under any interleaving of workers, crashes included, the run keeps that shape and its results only grow |
| BillingRun.ErrorsAreReal | src/modules/billing/billing.service.ts:316-327 | an error recorded for item k was really met by a generation of item k: the re-read cursor keeps a late worker from recording it for another item |
| BillingRun.Batch.Generate | src/modules/billing/billing.service.ts:300-314 | the generation transaction |
| BillingRun.Batch.RecordError | src/modules/billing/billing.service.ts:316-326 | the transaction of the catch block |
| BillingRun.Batch.ProcessRun | src/modules/billing/billing.service.ts:290-329 | without interference `limit` iterations settle the next `limit` items in order, each with its own outcome |
| Installments.CycleInjective | src/modules/billing/billing.policy.ts:62-66 | a month is cycle k of an assignment exactly when it is the start month plus k intervals |
| Installments.EscalationMeans | src/modules/billing/billing.policy.ts:67-82 | with j whole escalation periods before it, a cycle costs the nearest whole amount to the plan amount times (1 + escalation) to the j, and is refused exactly when that is above 2147483647 |
| Installments.InstallmentsTotal | src/modules/billing/billing.policy.ts:67-79 | the installments are all positive and add up to the contract value exactly |
| Installments.PartOfTotal | src/modules/billing/billing.policy.ts:67-79 | some of them add up to less, unless they are all of them |
| Installments.TotalIsMoney | src/modules/billing/billing.service.ts:82-83 | for validated rates the total of a generated invoice is an amount the ledger can hold |
| Installments.InvoiceTotalMeans | src/modules/billing/billing.service.ts:82-83 | an invoice without configured rates comes to its line; otherwise to the payable amount of a sale taxed at the default terms |
| Installments.Generator.PriceCycle | src/modules/billing/billing.service.ts:112-134 | exactly which months of an assignment have an amount, and which: units times rate for a usage plan, the cycle amount otherwise |
| Installments.Generator.ValidatePlan | src/modules/billing/billing.policy.ts:16-33 | exactly the plans within the bounds of every field, with a count for installments alone and escalation for fixed plans alone |
| Installments.Generator.CreatePlan | src/modules/billing/billing.routes.ts:74-84 | exactly which plans are accepted, bounds included |
| Installments.Generator.UpdatePlan | src/modules/billing/billing.routes.ts:85-100 | an assigned plan's cycle, and the value and count of an installment contract, are frozen; other changes go through |
| Installments.Generator.Assign | src/modules/billing/billing.routes.ts:118-131 | an assignment needs an active customer and plan, an active unit if it names one, and an end not before its start |
| Installments.Generator.UpdateAssignment | src/modules/billing/billing.routes.ts:133-139 | suspending, ending and reopening keep plan and start; a new end is not before the start by the day, and an end the request does not name stays |
| Installments.Generator.Generate | src/modules/billing/billing.service.ts:108-138 | existing invoice, new invoice with the cycle's amount and its total after tax, or refusal, and exactly when each |
| Installments.Generator.BilledCycle | src/modules/billing/billing.service.ts:108-138 | an invoice of an installment assignment has its cycle's amount |
| Installments.Generator.ContractValue | src/modules/billing/billing.service.ts:108-138 | over any sequence of attempts the invoices never exceed the contract value, and reach it exactly when every cycle has been billed |
| Installments.Generator.BilledOnce | src/modules/billing/billing.service.ts:120-121 | a one-time plan is billed for one month at most |
| ScheduleGraph.ByIdHolds | src/modules/construction/construction.control.engine.ts:12 | the lookup knows exactly the listed tasks, each under its own id |
| ScheduleGraph.ChainFalls | src/modules/construction/construction.control.engine.ts:14-16 | places in a topological order fall along every dependency chain |
| ScheduleGraph.OrderMeansAcyclic | src/modules/construction/construction.control.engine.ts:13-17 | a topological order of all tasks rules out cycles and missing links |
| ScheduleGraph.Sorter.Visit | src/modules/construction/construction.control.engine.ts:14-16 | the depth-first visit terminates and places a task after everything it waits for; a cycle error means a real cycle, a missing error a real missing link |
| ScheduleGraph.Sorter.Place | src/modules/construction/construction.control.engine.ts:16 | placing a task whose predecessors are placed keeps the order topological |
| ScheduleGraph.OrderTasks | src/modules/construction/construction.control.engine.ts:12-17 | the order exists exactly when there is no cycle and no missing link, and then holds every task once, after all it waits for |
| ScheduleEngine.WorkDates | src/modules/construction/construction.control.engine.ts:9-10 | the working days from the anchor, in order, none left out, up to the horizon |
| ScheduleEngine.WorkdayMeans | src/modules/construction/construction.control.engine.ts:9-10 | whether a day is worked depends on its weekday, counted from 1 January 1970, a Thursday, and on the holidays |
| ScheduleEngine.Index | src/modules/construction/construction.control.engine.ts:11 | the first working day not before a date, or none |
| ScheduleEngine.OffsetMeans | src/modules/construction/construction.control.engine.ts:19 | the offset of a link asks exactly this: FS start after end, SS start after start, FF end after end, SF end after start, each by the lag |
| ScheduleEngine.StartOf | src/modules/construction/construction.control.engine.ts:21-22 | the least start that the release date and the placed predecessors allow |
| ScheduleEngine.ForwardBound | src/modules/construction/construction.control.engine.ts:21-24 | no feasible schedule starts a task before the forward pass does |
| ScheduleEngine.Forward | src/modules/construction/construction.control.engine.ts:20-24 | the forward pass yields the pointwise least schedule meeting every FS, SS, FF and SF link with lag, every not-before date and the anchor; it gives up only if no schedule fits the calendar |
| ScheduleEngine.LatestOf | src/modules/construction/construction.control.engine.ts:25-27 | the latest start that the finish and the successors allow |
| ScheduleEngine.BackwardBound | src/modules/construction/construction.control.engine.ts:25-28 | no schedule that is on time starts a task after the backward pass does |
| ScheduleEngine.Backward | src/modules/construction/construction.control.engine.ts:25-28 | the backward pass yields the pointwise greatest schedule with the same links and finish |
| ScheduleEngine.LatestAcceptable | src/modules/construction/construction.control.engine.ts:25-29 | the latest starts are themselves a feasible schedule, and no float is negative |
| ScheduleEngine.SomeCritical | src/modules/construction/construction.control.engine.ts:29 | some task is critical |
| ScheduleEngine.DelayedAcceptable | src/modules/construction/construction.control.engine.ts:18-29 | delaying everything by d days, but nothing past its latest start, stays feasible and on time |
| ScheduleEngine.FloatExact | src/modules/construction/construction.control.engine.ts:29 | a feasible schedule with the same finish starts the task at s if and only if s is between its earliest and latest start: past its float the finish moves |
| ScheduleEngine.CalculateSchedule | src/modules/construction/construction.control.engine.ts:7-30 | which error is raised when, and that the plan reports the earliest schedule with the latest one behind its floats |
| ScheduleEngine.HasRepeats | src/modules/construction/construction.control.engine.ts:12 | repeated task ids are found |
| BoqControl.CurrentIsHighest | src/modules/construction/construction.control.service.ts:13 | the approved version with the highest revision is the one approved last |
| BoqControl.NoForks | src/modules/construction/construction.control.service.ts:33-69 | two versions drawn up against the same baseline are never both approved |
| BoqControl.AppendVersionKeeps | src/modules/construction/construction.control.service.ts:38-46 | submitting keeps the chain: revisions grow and the current baseline stays |
| BoqControl.ApprovalMovesCurrent | src/modules/construction/construction.control.service.ts:53-54 | approving a version drawn up against the current baseline makes it current, with nothing approved after it |
| BoqControl.ApproveVersionKeeps | src/modules/construction/construction.control.service.ts:49-69 | approval keeps the linear chain, approver different from author |
| BoqControl.RejectVersionKeeps | src/modules/construction/construction.control.service.ts:49-52 | rejection changes no baseline |
| BoqControl.AcceptableWithin | src/modules/construction/construction.control.service.ts:18-22 | lines that pass validation keep certified work within them |
| BoqControl.AppendMeasurementKeeps | src/modules/construction/construction.control.service.ts:86-102 | an undecided measurement certifies nothing |
| BoqControl.ApproveMeasurementKeeps | src/modules/construction/construction.control.service.ts:103-114 | certifying keeps every line within 0..quantity and every source measurement reversed by no more than its own quantity |
| BoqControl.RejectMeasurementKeeps | src/modules/construction/construction.control.service.ts:103-105 | rejecting a measurement certifies nothing |
| BoqControl.Control.ApprovedVersion | src/modules/construction/construction.control.service.ts:13 | finds the current baseline |
| BoqControl.Control.Configure | src/modules/construction/construction.control.routes.ts:29-36 | saving the settings is refused for a stale revision, for progress without baselines and for procurement without receipt checks, and otherwise takes effect under the next revision |
| BoqControl.Control.CertifiedQuantity | src/modules/construction/construction.control.service.ts:74 | the certified total of a line |
| BoqControl.Control.Reversals | src/modules/construction/construction.control.service.ts:95 | what approved reversals have taken back from a measurement |
| BoqControl.Control.ValidateBoq | src/modules/construction/construction.control.service.ts:16-32 | accepts exactly: unique ids, certified work kept in unit, cost head and task, approved heads, no row moved to another head, priced within range |
| BoqControl.Control.NextRevision | src/modules/construction/construction.control.service.ts:45-46 | one more than the highest revision of the kind |
| BoqControl.Control.SubmitVersion | src/modules/construction/construction.control.service.ts:33-48 | accepted exactly with its feature switched on, against the current baseline and, for a BOQ, with acceptable lines; states the version added |
| BoqControl.Control.SyncRows | src/modules/construction/construction.control.service.ts:61-65 | afterwards the active rows are exactly the approved lines |
| BoqControl.Control.DecideVersion | src/modules/construction/construction.control.service.ts:49-69 | exactly when a decision succeeds, and the state it leads to; an approved version is the current one and its rows mirror its lines |
| BoqControl.Control.EditRow | src/modules/construction/construction.routes.ts:59-61 | rows are added or edited directly only while no BOQ is approved, on an approved head; an edited row is active and keeps its head |
| BoqControl.Control.SubmitMeasurement | src/modules/construction/construction.control.service.ts:86-102 | with progress switched on, accepted exactly within the line, and for a correction within what is left of its source; states the row added |
| BoqControl.Control.DecideMeasurement | src/modules/construction/construction.control.service.ts:103-114 | checked again against the current baseline and what was certified meanwhile; exactly when it succeeds, and the state it leads to |
| MeasuredBilling.ValueMonotone | src/modules/construction/construction-contractor.engine.ts:17-21 | more completed work is never worth less |
| MeasuredBilling.MeasuredMeans | src/modules/construction/construction-contractor.engine.ts:15-31 | line i of a measurement says where the quantity of item i was and is, and what both are worth to the nearest whole amount |
| MeasuredBilling.LinesTotal | src/modules/construction/construction-contractor.engine.ts:22-31 | the current amounts of a measurement add up to the growth of the cumulative value, for any two sets of quantities |
| MeasuredBilling.DriftBound | src/modules/construction/construction.policy.ts:39-41 | retention rounded bill by bill differs from retention rounded once by at most half a unit per bill plus one half |
| MeasuredBilling.DriftGrows | src/modules/construction/construction.policy.ts:39-41 | and it really drifts: 2n bills of 10 at 5% are n units off |
| MeasuredBilling.RunningBillPayable | src/modules/construction/construction.policy.ts:28-43 | without advance recovery a running bill within the contract is never refused |
| MeasuredBilling.MeasuredTotalsExact | src/modules/construction/construction-contractor.engine.ts:33-39 | with the retention held for the certified amount, retention is between 0 and the current amount, and totals are refused exactly for a recovery beyond the advance or beyond what the bill pays |
| MeasuredBilling.TotalsMean | src/modules/construction/construction-contractor.engine.ts:33-39 | accepted totals account for the growth, the retention to the cumulative amount and the recovery |
| ContractorAgreement.AgreementTotal | src/modules/construction/construction-contractor.engine.ts:18-21 | an agreement is accepted exactly with distinct items, each worth something, worth no more than the ledger holds, and its total is the value of all quantities |
| ContractorAgreement.StepKeeps | src/modules/construction/construction.service.ts:50-63 | every review, status change, bill, decision, advance and release keeps the contract row equal to what its chained bills say, with net payables + retention + recoveries = certified amount |
| ContractorAgreement.EveryRun | src/modules/construction/construction.service.ts:50-119 | every sequence of attempts, allowed or refused, stays within that |
| ContractorAgreement.SubmitExact | src/modules/construction/construction-contractor.service.ts:22-33 | a bill is accepted exactly on an active agreement with none pending, for growing quantities, a recovery within the advance, and recovery and deduction within what it pays: no rounding ever stands in the way |
| ContractorAgreement.ApproveExact | src/modules/construction/construction.service.ts:50-63 | a pending bill still verifies and prices the same whatever happened since: an independent approval is refused only while the agreement is not active |
| ContractorAgreement.PaysAtMost | src/modules/construction/construction-contractor.engine.ts:33-39 | no acceptable bill pays more than the rest of the work, and the final one pays exactly that |
| ContractorAgreement.PendingPays | src/modules/construction/construction-contractor.engine.ts:33-39 | what a pending bill pays is what its quantities pay, less its recovery |
| ContractorAgreement.StrandsExactly | src/modules/construction/construction.service.ts:50-63 | an advance becomes stranded, never to be recovered, exactly by the approval of a bill that pays out more than the rest of the work has to spare over the advance |
| ContractorAgreement.BillStrands | src/modules/construction/construction-contractor.service.ts:22-33 | the same, to be checked before a bill is submitted: it will strand the advance exactly when it recovers less than what the work after it cannot pay |
| ContractorAgreement.StrandedForGood | src/modules/construction/construction.routes.ts:81-83 | no later run closes a stranded agreement or releases its retention |
| ContractorAgreement.ClosableExactly | src/modules/construction/construction.routes.ts:81-83 | some continuation closes an agreement if and only if it was not rejected and its advance is not stranded |
| ContractorAgreement.StrandingHappens | src/modules/construction/construction.service.ts:50-63 | two units at 100 with an advance of 200: a first bill for one unit that recovers nothing strands it, and nothing closes it afterwards |
| ContractorAgreement.ItemsAddUp | src/modules/construction/construction-contractor.engine.ts:22-31 | for every item, the current amounts on the approved bills add up to the value of its certified quantity |
| ContractorAgreement.LinesAddUp | src/modules/construction/construction-contractor.engine.ts:22-31 | the lines of every approved bill add up to what it certifies, and start where the bill before ended |
| ContractorAgreement.PathIndependent | src/modules/construction/construction-contractor.engine.ts:15-39 | certified amount, retention, every item's billed amount, and everything paid or recovered depend on the quantities completed, not on the bills that got there |
| ContractorAgreement.Contract.constructor | src/modules/construction/construction-contractor.service.ts:10-15 | a new agreement has nothing certified, nothing paid and waits for review |
| ContractorAgreement.Contract.ReviewAgreement | src/modules/construction/construction-contractor.service.ts:16-21 | somebody else reviews it, once; repeating the decision changes nothing |
| ContractorAgreement.Contract.ChangeStatus | src/modules/construction/construction.routes.ts:81-83 | exactly when an agreement is activated, suspended or closed; a stranded one is never closed |
| ContractorAgreement.Contract.MeasureWork | src/modules/construction/construction-contractor.engine.ts:22-31 | accepts exactly growing quantities within the agreement with some progress, and returns one line per item, with quantities and values before and after, that add up to the growth of the value |
| ContractorAgreement.Contract.SubmitBill | src/modules/construction/construction-contractor.service.ts:22-33 | exactly when a bill is accepted, the quantities and values on each of its lines, and what it pays |
| ContractorAgreement.Contract.ApproveBill | src/modules/construction/construction.service.ts:50-63 | exactly when it succeeds and the whole row it writes back; afterwards the advance is stranded exactly when the bill paid more than the rest of the work had to spare |
| ContractorAgreement.Contract.VerifyBill | src/modules/construction/construction-contractor.engine.ts:40-46 | accepts exactly the bills whose quantities, lines and totals still follow from the contract |
| ContractorAgreement.Contract.RejectBill | src/modules/construction/construction.service.ts:46-50 | rejection only removes the pending bill, and needs somebody else |
| ContractorAgreement.Contract.PayAdvance | src/modules/construction/construction.service.ts:107-114 | an advance is paid exactly while the agreement is active and the rest of the work still pays it out, so it never strands itself |
| ContractorAgreement.Contract.ReleaseRetention | src/modules/construction/construction.service.ts:116-119 | retention is released exactly from a closed agreement, up to what is held, and never from a stranded one |
| RunningContract.StepKeeps | src/modules/construction/construction.service.ts:50-80 | every bill, decision, change order, advance, release and status change keeps net payables + retention + recoveries = certified amount, within the price |
| RunningContract.EveryRun | src/modules/construction/construction.service.ts:50-119 | every sequence of attempts stays within that |
| RunningContract.SubmitExact | src/modules/construction/construction.policy.ts:28-43 | a running bill is accepted exactly on an active contract, for more certified work within the price, a recovery within the advance, and recovery and deduction within what it pays |
| RunningContract.ApproveExact | src/modules/construction/construction.service.ts:50-63 | a pending bill still comes to what it said exactly while nothing else was certified and no change order took its work away |
| RunningContract.FirstPays | src/modules/construction/construction.policy.ts:39-41 | the least bill that pays anything out after retention, in closed form; every smaller one pays nothing |
| RunningContract.PayoutBound | src/modules/construction/construction.policy.ts:39-41 | no bill pays out more than one unit for each such least amount, whatever the rounding does |
| RunningContract.ClosableExactly | src/modules/construction/construction.routes.ts:81-83 | without change orders some continuation closes a contract if and only if no advance is outstanding, or the rest of the work is at least the least paying bill for every unit that is |
| RunningContract.ClosableByRevision | src/modules/construction/construction.service.ts:71-80 | with change orders, if and only if the price can still grow that far |
| RunningContract.AdvanceReachable | src/modules/construction/construction.service.ts:107-114 | below a retention of one half every advance that is accepted can still be recovered when it is paid |
| RunningContract.WholeAdvanceLost | src/modules/construction/construction.service.ts:107-114 | at one half or more an advance of the whole price is accepted, and without a change order no continuation closes the contract |
| RunningContract.Contract.constructor | src/modules/construction/construction.routes.ts:78-80 | a new contract is active with nothing certified |
| RunningContract.Contract.ChangeStatus | src/modules/construction/construction.routes.ts:81-83 | a contract is closed exactly with everything certified and recovered, and may be reopened |
| RunningContract.Contract.SubmitBill | src/modules/construction/construction.routes.ts:85-95 | exactly when a running bill is accepted, what it pays, and the row added |
| RunningContract.Contract.DecideBill | src/modules/construction/construction.service.ts:43-63 | exactly when a decision succeeds and the state it leads to, a repeated one changing nothing; afterwards the advance can be recovered exactly when the work left is enough for it |
| RunningContract.Contract.ApproveChange | src/modules/construction/construction.service.ts:71-80 | a change order takes effect exactly on an active contract, within the ledger and not below certified work or advances paid |
| RunningContract.Contract.PayAdvance | src/modules/construction/construction.service.ts:107-115 | exactly when an advance is paid, and that below a retention of one half it can be recovered |
| RunningContract.Contract.ReleaseRetention | src/modules/construction/construction.service.ts:116-119 | retention is released exactly from a closed contract, up to what is held |
| TaxEngine.DiscountShares | src/modules/business-setup/contract.ts:118-121 | cumulative rounding gives each line a share between 0 and its amount, and the shares add up to the discount |
| TaxEngine.ExtractUndoesAddition | src/modules/business-setup/contract.ts:123-124 | extracting from base + rounded tax gives back the base, for every base and rate up to 100% |
| TaxEngine.AdditionAfterExtraction | src/modules/business-setup/contract.ts:123-124 | extracting and adding back misses the price by at most one |
| TaxEngine.LinesOk | src/modules/business-setup/contract.ts:118-127 | after the lines the breakdown adds up to tax and VAT base, and inclusive prices come out at amounts less discount |
| TaxEngine.ChargedOk | src/modules/business-setup/contract.ts:129-134 | charges keep that and add their amounts to the subtotal |
| TaxEngine.WithholdingApart | src/modules/business-setup/contract.ts:135-137 | with unique ids the withholding group displaces no added one |
| TaxEngine.BreakdownDistinct | src/modules/business-setup/contract.ts:116-137 | for validated rates a breakdown has one group per rate |
| TaxEngine.TaxConserves | src/modules/business-setup/contract.ts:101-142 | a computed snapshot conserves: breakdown = tax and VAT base, gross exact, withholding at most the subtotal, payable at least the tax |
| TaxMeaning.ResolveMeans | src/modules/business-setup/contract.ts:102-105 | rate, withholding, price mode and the rate of every line are the ones selected, or the configured default for what the selection leaves open |
| TaxMeaning.TaxExplained | src/modules/business-setup/contract.ts:101-142 | every figure of a snapshot is owed to its lines, charges and rates: each line of its discounted amount at the rate of its terms, the nearest whole tax to base times rate (or the nearest base for inclusive prices), each charge likewise, each group the sum of its entries, withholding the nearest to the subtotal times its rate |
| TaxMeaning.ExplainedIsFair | src/modules/business-setup/contract.ts:116-137 | hence for an added group of n entries |amount * 10000 - base * rate| <= n * 10000, half of that for exclusive prices, and for the withheld group 2 * |amount * 10000 - subtotal * rate| <= 10000 |
| TaxMeaning.AcceptedWhen | src/modules/business-setup/contract.ts:106-139 | a calculation is refused for a negative amount, a discount above the lines, charges too many or too large, or a rate that is not usable, and otherwise only if lines and charges come to more than half of what the ledger holds |
| TaxDocuments.TaxLines | src/modules/business-setup/contract.ts:118-127 | the loop over the lines computes its specification |
| TaxDocuments.TaxCharges | src/modules/business-setup/contract.ts:129-134 | the loop over the charges computes its specification |
| TaxDocuments.CalculateTax | src/modules/business-setup/contract.ts:101-142 | the whole calculation, errors included: terms from selection and defaults, and for validated rates figures that conserve, are owed to lines, charges and rates, and lie within the stated distance of each rate |
| TaxDocuments.SnapshotKeeps | src/modules/business-setup/contract.ts:140-141 | a snapshot keeps exactly the usable rates that the document, its withholding or a line of the selection names |
| TaxDocuments.KeptComputes | src/modules/business-setup/contract.ts:140-141 | keeping any part of the rates that has all the terms use changes no figure |
| TaxDocuments.Replay | src/modules/business-setup/service.ts:29-34 | a snapshot saved under one kind of document and replayed with its own selection under any kind (a quotation that became a sale) gives the same figures, breakdown and terms under any later setup; of the kept rates it keeps exactly those that the terms use |
| TaxDocuments.RecoveredComputes | src/modules/business-setup/service.ts:29-34 | the rates recovered from a breakdown compute the same totals, for validated rates |
| TaxDocuments.ReplayFromBreakdown | src/modules/business-setup/service.ts:29-34 | a snapshot that kept no rates replays from its breakdown to the same figures and terms |
| TaxDocuments.DocumentTaxConserves | src/modules/business-setup/service.ts:22-45 | whichever way a document gets its snapshot, from new terms or replayed from kept rates or from a breakdown, edited or not, it conserves, lies within the stated distance of its rates, has one group per rate and can be replayed again |
| TaxDocuments.FormerRatesKept | src/modules/business-setup/service.ts:29-34 | a document sent back with exactly the terms of its snapshot is taxed the same under any setup; with other terms, or none, it is taxed like a new one |
| TaxDocuments.TaxGate | src/modules/business-setup/service.ts:35-44 | with configured rates a tax by hand and a selection against another revision are refused, and under locked defaults only an administrator gets other terms than the default ones |
| TaxDocuments.TaxByHand | src/modules/business-setup/service.ts:22-35 | without rates or selection the tax is entered by hand, and a fixed tax from before is kept unless a charge is to bear VAT |
| SaleDocuments.PostedEntries | src/modules/business-setup/service.ts:46-50 | exactly which entries a posting adds |
| SaleDocuments.PostTwice | src/modules/business-setup/service.ts:46-50 | posting the same snapshot again changes nothing |
| SaleDocuments.PriceMeans | src/modules/accounting/accounting.routes.ts:206-209 | without a snapshot a total is lines and charges less discount plus the tax by hand; with one it is the payable amount of a quotation or sale; it is what the client expected, if that was said |
| SaleDocuments.PricedByHand | src/modules/accounting/workflow.ts:18-28 | without rates exactly: discount within the lines, a positive total, total and subtotal within 2147483647, and the expected total |
| SaleDocuments.PriceAgain | src/modules/accounting/accounting.routes.ts:244-247 | editing without touching the tax terms keeps the price whatever became of the rates |
| SaleDocuments.FixedAgain | src/modules/accounting/accounting.routes.ts:244-247 | editing a document from before rates were configured keeps its tax by hand |
| SaleDocuments.NextStatusMeans | src/modules/accounting/workflow.ts:42-54 | exactly the fifteen transitions of quotations, orders and sales, and no cancellation of a paid sale |
| SaleDocuments.PriceGivesOk | src/modules/accounting/accounting.routes.ts:206-209 | every price a document can get sets its total to the payable amount and its tax to the added groups, one per rate |
| SaleDocuments.LedgerMeansTax | src/modules/business-setup/service.ts:46-50 | a document's entries per rate are its snapshot while issued, net to zero once cancelled, and are none before |
| SaleDocuments.LedgerMeansGroups | src/modules/business-setup/service.ts:46-50 | an entry of an issued sale has kind, amount and base of a breakdown group of its rate, and a rate without an entry has no group with an amount |
| SaleDocuments.LedgerMeansTotal | src/modules/business-setup/service.ts:46-50 | in every state of the books the added rates of an issued sale net to exactly the tax in its total, and those of any other document to nothing |
| SaleDocuments.IssuePosts | src/modules/accounting/accounting.routes.ts:271 | after issuing the ledger shows exactly the snapshot |
| SaleDocuments.CancelReverses | src/modules/accounting/accounting.routes.ts:271 | after cancelling every entry has its negative |
| SaleDocuments.PayKeeps | src/modules/accounting/accounting.routes.ts:316-331 | a payment keeps: payments add up to the paid amount, at most the total |
| SaleDocuments.Office.PostTax | src/modules/business-setup/service.ts:46-50 | the upsert loop computes the posting |
| SaleDocuments.Office.CreateDraft | src/modules/accounting/accounting.routes.ts:185-219 | a repeated request key gives the first document back; otherwise exactly when a draft is made, and with which total, tax and snapshot |
| SaleDocuments.Office.Edit | src/modules/accounting/accounting.routes.ts:223-255 | exactly which documents can be edited, priced again on top of the snapshot they hold; an edited acceptance has to be given again |
| SaleDocuments.Office.ChangeStatus | src/modules/accounting/accounting.routes.ts:257-277 | exactly the allowed transitions, with tax posted on issue and reversed on cancelling an issued sale; a paid sale is never cancelled |
| SaleDocuments.Office.Convert | src/modules/accounting/accounting.routes.ts:279-304 | exactly when a document is converted, at most once, a retry returning the first conversion; the draft takes total, tax and snapshot over |
| SaleDocuments.Office.Pay | src/modules/accounting/accounting.routes.ts:306-336 | only an issued sale, never beyond the receivable or what the account can hold, once per request key with all its particulars |
| GroupCreation.SaveLosesNothing | src/core/whatsapp/managed-whatsapp.service.ts:106-108 | saving the request id loses no callback that came earlier |
| GroupCreation.ClaimKeeps | src/core/whatsapp/managed-whatsapp.service.ts:62-77 | a claim is made with every earlier request settled, and leaves one creator at most |
| GroupCreation.AppliedKeeps | src/core/whatsapp/managed-whatsapp.service.ts:163-168 | applying an event settles the request or makes the group ready with the event's group |
| GroupRuns.EveryRun | src/core/whatsapp/managed-whatsapp.service.ts:53-169 | the invariant holds in every interleaving of creators, callbacks and refreshes, crashes included |
| GroupRuns.SentOnlyWhenSettled | src/core/whatsapp/managed-whatsapp.service.ts:59-98 | a creation request goes out only if every earlier one was answered by a status from 400 to 499 other than 408, or has a stored callback that says it failed |
| GroupRuns.NoCallbackLost | src/core/whatsapp/managed-whatsapp.service.ts:106-169 | once creator and callback handler have both reconciled a request, the row is ready or failed, or the request was reported failed and has been replaced |
| GroupCreation.ReconciledMeans | src/core/whatsapp/managed-whatsapp.service.ts:147-169 | what an uninterrupted reconciliation does, and the only case in which it gives up |
| GroupRuns.SettledForGood | src/core/whatsapp/managed-whatsapp.service.ts:61-106 | a ready group never changes; a row left unknown, or left creating by a creator that stopped, never changes either and sends nothing more |
| GroupRuns.StaysExactly | src/core/whatsapp/managed-whatsapp.service.ts:61-169 | a row stays as it is whatever anybody does if and only if it is ready, unknown, or left creating by a creator that stopped: every other row some continuation changes |
| GroupRuns.CallbackLost | src/core/whatsapp/managed-whatsapp.service.ts:86-169 | a run in which the group is created, its callback stored with group and invitation and reconciled to the end, and the row stays unknown for good because the answer was lost |
| GroupRuns.ClaimOnce | src/core/whatsapp/managed-whatsapp.service.ts:68-77 | two callers that saw the same failed row, or no row, do not both claim it |
| GroupRuns.RefreshMeans | src/core/whatsapp/managed-whatsapp.service.ts:22-28 | refreshing reconciles exactly a row that names a request and is pending or unknown |
| GroupRuns.WritesAreLater | src/core/whatsapp/managed-whatsapp.service.ts:68-77 | every write to the row gives it a later version, so the compare-and-set sees it |
| GroupCreation.Platform.OpenRequest | src/core/whatsapp/managed-whatsapp.service.ts:59-61 | only a missing or failed row starts a creation |
| GroupCreation.Platform.ClaimRow | src/core/whatsapp/managed-whatsapp.service.ts:62-77 | the compare-and-set claim, or the unique create |
| GroupCreation.Platform.Post | src/core/whatsapp/managed-whatsapp.service.ts:79-105 | the remote request and its response, as it came |
| GroupCreation.Platform.SaveAnswer | src/core/whatsapp/managed-whatsapp.service.ts:86-106 | the row is failed exactly after a status from 400 to 499 other than 408, pending with the request exactly after a status from 200 to 299 with a request id, and unknown otherwise |
| GroupCreation.Platform.StoreEvent | src/core/whatsapp/managed-whatsapp.service.ts:129-142 | which events are stored; the first one for a request stays |
| GroupCreation.Platform.Reconcile | src/core/whatsapp/managed-whatsapp.service.ts:147-169 | the five steps together |
| AssistantReplies.BeginKeeps | src/modules/assistant/assistant.service.ts:57 | a claim starts an attempt no other claim started, and at most the third |
| AssistantReplies.HandKeeps | src/modules/assistant/assistant.worker.ts:30-33 | a hand-over is the first for its reply |
| AssistantReplies.StepKeeps | src/modules/assistant/assistant.service.ts:31-80 | every step keeps the invariant and takes no reply back |
| AssistantRuns.EveryRun | src/modules/assistant/assistant.worker.ts:9-43 | the invariant holds in every interleaving, crashes included |
| AssistantRuns.HandedAtMostOnce | src/modules/assistant/assistant.worker.ts:30-35 | a reply is handed to the provider at most once, with the text stored for it |
| AssistantRuns.AttemptsBounded | src/modules/assistant/assistant.service.ts:57 | nobody attempts a reply more than three times |
| AssistantRuns.NeverOverwritten | src/modules/assistant/assistant.service.ts:72-75 | an answered reply keeps its text and attempts whatever stale processors do; only a refusal before sending removes it |
| AssistantRuns.QuotaHolds | src/modules/assistant/assistant.service.ts:48-52 | replies that count never exceed the highest limit under which one was reserved |
| AssistantRuns.LeaseTells | src/modules/assistant/assistant.service.ts:57-62 | whatever happens after a claim, while its reply is still being processed it is on the attempt of that claim exactly when the lease is the one the claim wrote, and otherwise on a later attempt under a later lease |
| AssistantRuns.FenceExact | src/modules/assistant/assistant.service.ts:62-75 | a worker can tell from the lease on the row it reads back: some continuation lets it settle an attempt that another claim started if and only if that row is being processed under a lease it did not write |
| AssistantRuns.StaleFailureWins | src/modules/assistant/assistant.service.ts:57-75 | a run in which it does: the fence is read after the claim, so the failure of an expired processor ends the next one's attempt |
| AssistantReplies.ProcessedMeans | src/modules/assistant/assistant.service.ts:55-80 | an undisturbed processReply, in statuses: an answer makes a WhatsApp reply ready and a chat reply completed, no answer fails it, either way with one more attempt of at most three and no lease; any other reply stays, but fails when attempts and lease have run out |
| AssistantReplies.DeliveredMeans | src/modules/assistant/assistant.worker.ts:21-35 | what an undisturbed delivery does to the reply and to what was handed over |
| AssistantReplies.Desk.ReserveReply | src/modules/assistant/assistant.service.ts:32-53 | the same request returns the same reply, another one with its key is refused, and a new one needs room in the quota |
| AssistantReplies.Desk.ClaimReply | src/modules/assistant/assistant.service.ts:57 | the conditional claim |
| AssistantReplies.Desk.FailExhausted | src/modules/assistant/assistant.service.ts:58-61 | a reply out of attempts and lease fails |
| AssistantReplies.Desk.Settle | src/modules/assistant/assistant.service.ts:72-75 | the fenced update |
| AssistantReplies.Desk.ProcessReply | src/modules/assistant/assistant.service.ts:55-80 | the steps of processReply together come to the same statuses, text, attempts and lease |
| AssistantReplies.Desk.HandleRow | src/modules/assistant/assistant.worker.ts:17-20 | expire, deliver or process a picked row |
| AssistantReplies.Desk.RefuseReply | src/modules/assistant/assistant.worker.ts:22-29 | a reply whose sender lost access is refused before it is sent |
| AssistantReplies.Desk.ClaimForSending | src/modules/assistant/assistant.worker.ts:30-31 | one worker gets to send |
| AssistantReplies.JobMeans | src/modules/assistant/assistant.worker.ts:14-41 | what the job makes of a row it picked, in statuses: expired after 23 hours or three attempts, otherwise processed, and if ready then sent and completed, left with unknown delivery, or refused and cleared of its text |
| AssistantReplies.QueuedJob | src/modules/assistant/assistant.worker.ts:14-41 | a queued reply in time that gets an answer, with access and a provider that is reached, is handed over once with that answer and ends completed, or with unknown delivery |
| AssistantRuns.PickedMeans | src/modules/assistant/assistant.worker.ts:14 | the job picks exactly WhatsApp replies that are queued, ready, or processing under a lease that has run out |
| AssistantRuns.KeptNinetyDays | src/modules/assistant/assistant.worker.ts:11-12 | no reply disappears before it is ninety days old |
| AssistantReplies.Desk.RunJob | src/modules/assistant/assistant.worker.ts:14-41 | the transactions for one picked row come to the same statuses and hand-overs |
| AssistantReplies.Desk.RunJobs | src/modules/assistant/assistant.worker.ts:14-41 | the loop over picked rows hands over at most one message per row and takes nothing back |
| Rounding.RoundNearest | src/modules/billing/billing.policy.ts:81 | Math.round(a / b) is the only integer within one half of a / b, ties going up |
| Rounding.ScaleGap | src/modules/business-setup/contract.ts:120 | scaling by a factor in 0..1 and rounding is monotone and expands no gap between integers |

## Left out

- Routing, request parsing, authentication, roles and menus, HTTP status texts, audit rows, notifications and messages, PDF, mail, object storage and the model calls themselves.
- The database: transactions are taken to be atomic, and retries of serialization failures are not modelled.
- IEEE floating point: `Math.round` of a quotient of doubles is taken over exact integers, and escalation uses exact powers.
- Row ids are table positions, so the tie-break by random id in a query's order becomes the order of insertion.
- `scheduleFraction`, `progressSnapshot`, `priceBoq` resources, `compareBoq`, `report`, `aging`, reminders and dashboards: percentages and listings that keep no state; of `priceBoq` only the bound on a line's amount is kept.
- Completion certificates, which carry no quantity, and coordinated scope changes beyond the id that ties a version to one.
- Change orders are modelled at their approval, for the price of a contract; their request, and changes to budgets, are not.
- BillingBooks.MoveOutsideKeeps: a movement that would make the balance negative does not happen here; the adjustment route compares the balance before its transaction, so two at once could.
- BillingReports.SortSorts: entries of the same day and time are ordered by kind and position, where the source compares their id strings.
- BillingService.Service.InsertInvoice: takes the total as given; the tax snapshot and its posting are modelled with documents in TaxDocuments and SaleDocuments.
- BillingService.Service.Collect: request keys and the customer are handled before it, in BillingService.Service.CollectRequest.
- BillingService.Service.RequestAdjustment: request keys and the customer are handled before it, in BillingService.Service.AdjustRequest.
- BillingService.Service.DecideAdjustment: the tax reversal of a cancelled invoice is left out; SaleDocuments models posting and reversal.
- BillingService.Service.ApplyLateFees: selects the invoices as they are when it starts; invoices issued meanwhile by others are not modelled.
- BillingRun.Batch.ProcessRun: states the outcome of a loop that nobody interferes with; interleavings are covered by BillingRun.EveryRun.
- Installments.Generator.Generate: the units of the month's meter reading and the tax setup are parameters; posting the tax is modelled with sales in SaleDocuments.
- ScheduleEngine.CalculateSchedule: days are unbounded numbers, so the end of the four-digit calendar is not modelled.
- BoqControl.Control.ValidateBoq: leaves out the checks of work contexts and material recipes.
- BoqControl.Control.SubmitVersion: leaves out request keys; a schedule version keeps only the settings revision it was computed with, its plan is modelled in ScheduleEngine.
- BoqControl.Control.DecideVersion: leaves out the checks of work contexts.
- BoqControl.Control.SubmitMeasurement: leaves out evidence files, schedule tasks that a measurement names, and request keys.
- ContractorAgreement.Contract.constructor: the agreement's cost head, contractor, evidence files and request key are left out.
- ContractorAgreement.Contract.ReviewAgreement: leaves out that head, contractor and evidence files are still there; the total cannot have changed because terms are constant.
- ContractorAgreement.ApproveExact: evidence files that disappeared and site output that changed can also refuse an approval; they are left out.
- ContractorAgreement.Contract.SubmitBill: the wastage deduction is an amount; evidence files, verified site output, the check of the head and request keys are left out.
- ContractorAgreement.Contract.ApproveBill: leaves out the evidence files and site output checked again, and the return of a bill that was approved before; paying out an approved bill is not modelled.
- ContractorAgreement.Contract.RejectBill: leaves out the return of a bill that was rejected before.
- ContractorAgreement.Contract.PayAdvance: leaves out the account it is paid from and request keys.
- ContractorAgreement.Contract.ReleaseRetention: leaves out the account it is paid from and request keys.
- RunningContract.Contract.constructor: cost head, contractor and request key are left out.
- RunningContract.Contract.SubmitBill: the wastage deduction is an amount; request keys are left out.
- RunningContract.Contract.DecideBill: releasing wastage from a rejected bill and paying out an approved one are not modelled.
- RunningContract.Contract.ApproveChange: the request, its author and its other decisions are left out.
- RunningContract.Contract.PayAdvance: leaves out the account it is paid from and request keys.
- RunningContract.Contract.ReleaseRetention: leaves out the account it is paid from and request keys.
- BillingService.Service.MoveOutside: stands for a movement checked in one step, see BillingBooks.MoveOutsideKeeps.
- SaleDocuments.Office.CreateDraft: customers, persons, referrers, items and presentation are left out, and a line is its amount.
- SaleDocuments.Office.Edit: customers, persons, referrers, items and presentation are left out, and a line is its amount.
- SaleDocuments.Office.ChangeStatus: leaves out stock movements.
- GroupCreation.Platform.ClaimRow: update times are a counter, so two writes within the same millisecond are told apart.
- GroupCreation.Platform.StoreEvent: request ids that the provider gave to other projects are not modelled; they never match the row.
- AssistantReplies.Desk.ReserveReply: eligibility and the limit are parameters, attachments are part of the prompt.
- AssistantRuns.NeverOverwritten: texts that the action service stores again under its own request keys are not modelled.
