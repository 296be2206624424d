# ForgeERP: verified model of the event log, its projections and its job system

ForgeERP keeps every business fact in one append-only log. Commands are decided optimistically
against that log, read models are caches over it kept by per-stream cursors, and background jobs
run beside it in a claim/execute/retry protocol. This project models these parts in Dafny and
proves what holds over whole runs: of interleaved dispatchers, of arbitrary delivery sequences,
of several executors on one job store, and of a replay that pages through a growing log.

## How the model is laid out

| file | models |
|---|---|
| `Core.dfy`, `Sums.dfy`, `Sorting.dfy` | identifiers, machine integers, expected versions; sums over maps and sequences; the stable sort |
| `EventStore.dfy` | the in-memory event store |
| `Dispatcher.dfy`, `Publication.dfy` | the dispatch pipeline as methods, and as a transition system of many interleaved clients; what they put on the bus |
| `Inventory.dfy`, `Invoicing.dfy`, `Ledger.dfy`, `Purchasing.dfy`, `Sales.dfy` | the aggregates: decisions, evolution, reachable states |
| `Payloads.dfy`, `Erp.dfy`, `ErpDispatch.dfy` | the typed events that share the log; the aggregates plugged into the dispatcher; what the pipeline answers to each command |
| `CursorProjection.dfy` | the cursor discipline shared by the stock, invoice, aging and open-invoice projections, and their rebuild |
| `StockView.dfy`, `InvoiceViews.dfy` | what those projections show |
| `AccountBalances.dfy` | the account balances |
| `CustomerBalances.dfy`, `CustomerCounts.dfy`, `CustomerTurnover.dfy`, `CustomerTotals.dfy`, `CustomerRebuild.dfy`, `CustomerExamples.dfy` | the customer balances: amounts owed, counts, totals invoiced and paid, the open-invoice summary against them, the rebuild, and runs over healthy logs that go wrong |
| `Jobs.dfy`, `JobStore.dfy`, `Executors.dfy` | the job life cycle, the store, and several executors interleaved |
| `Replay.dfy`, `SteadyReplay.dfy`, `GrowingReplay.dfy` | paged queries, the loading loop and the replay; over a store that does not change; over one that grows meanwhile |

Objects the source updates in place are classes whose methods are proved against functions on
values; the properties are then proved of those functions. A `Job` is a value because the store and
the executors clone it in and out of their maps. Interleavings are sequences of steps, one step per
access to shared state, so a statement over all step sequences is a statement over all schedules.

A log is *healthy* when every stream is numbered 1..n and is a history its aggregate's `handle`
accepted event by event. `Erp.EveryRunIsHealthy` proves that every interleaved run of the dispatcher
leaves a healthy log, so the theorems that assume a healthy log hold of whatever the system stores.
A delivery is *faithful* when every delivered envelope is a stored event; order, repetition and loss
are unrestricted.

## Where a natural claim needs a condition

- A projection accepts any positive number as a stream's first event, and publication happens after
  the append lock is released. The row equals the fold of events 1..cursor exactly when event 1 was
  the first one delivered (`StockView.RowExactIffFirstFirst`); `Erp.LatePublicationSpoilsRow` is a
  run of two dispatchers after which it was not.
- An accepted invoice total is the exact sum only modulo 2^64; it is the exact sum exactly when every
  line fits 64 bits (`Invoicing.AcceptedTotal`, with `Invoicing.TruncatedTotal` as the example).
- The customer results assume, as the stock row does, that event 1 of an invoice is received before
  its others; registrations are free at any time. Outstanding amounts equal what the invoice
  aggregates on record owe exactly when the sums fit 64 bits, no registration moves an invoice that
  still owes to another customer, and no void finds a blanked record of one
  (`CustomerBalances.BalancesExactIff`). `CustomerExamples.OwedBeyond64Bits` and
  `CustomerExamples.LateRegistrationMisplaces` are the failing runs. If registrations hit only
  invoices that owe nothing, such as those not yet issued, only the 64 bits remain
  (`CustomerBalances.SettledExactIffFits`).
- The counts of open invoices are exact exactly when they fit 32 bits, no registration moves an open
  invoice, no payment is settled by a blanked record alone, and no void hits a paid invoice of a
  customer that still has an open one (`CustomerCounts.CountsExactIff`, with
  `CustomerExamples.CountDropsTwice`).
- Rebuilding customer balances clears the invoice records of all tenants: tenants that were not
  rebuilt lose every later payment (`CustomerRebuild.RebuildLosesOtherTenants`). For the tenants that
  were rebuilt, whatever other tenants the projection holds, the rebuilt amount of a customer is the
  live one exactly when the invoices recorded under it owe what those issued for it as sales order
  owe (`CustomerRebuild.LiveEqualsRebuiltIff`), so always when no customer was registered
  (`CustomerRebuild.LiveEqualsRebuilt`); `CustomerExamples.RebuildForgetsRegistration` is a run in
  which one was.
- Each query sorts what the hash map lists anew, so tied events may change places between queries
  even if the store does not change. Over an unchanging store the paging loop ends exactly when the
  32-bit offset can reach the total (`SteadyReplay.StopsIff`). It never skips an event exactly when
  no two tied events stand on the two sides of a page boundary (`SteadyReplay.LoadsAllIff`, with
  `SteadyReplay.TiesCanBeSkipped`). Its pages are then a listing of the store exactly when the
  offset does not wrap (`SteadyReplay.PagesAreAListing`).
- Over a growing store without ties nothing stored before loading began is skipped. A replay succeeds
  exactly when every stream was loaded without a gap from its first loaded event on
  (`GrowingReplay.ReplaySucceedsIff`). If time strictly increases along each stream it always does,
  and restores a prefix at least as long as at the start (`GrowingReplay.GrowingReplayRestores`); a
  backdated event can make it fail (`GrowingReplay.BackdatedEventStopsReplay`).

## Where the code and its comments differ

The model follows the code.

- `JobStatus::DeadLettered` is commented as moved to the dead-letter queue, but only the `Failure`
  path moves the job; after an exhausted `RetryNow`, `RetryAfter` or missing handler it stays in the
  live map with that status.
- `max_attempts` is commented as a number of retries, but it bounds executions: a job runs at most
  `max(1, max_attempts)` times in all.
- The customer projection's comments ask for a registered customer before an invoice is issued;
  without one the code books the invoice under its sales order.
- `handle_issue` promises to report an overflowing total, but the amount of a single line beyond 64
  bits is cut silently by `as u64` before it is added.

## Assumptions

- Machine integers wrap as in a build without overflow checks; `usize` and the sequence numbers of
  streams are unbounded.
- Commands carry the tenant and id of the stream they are dispatched to: the create and issue handlers
  do not compare them.
- Job ids are fresh at enqueue, and jobs are enqueued as `Job::new` makes them.
- Locks are never poisoned, and the clock is an input. One poll of the job store reads it once.
- The iteration order of hash maps is arbitrary.

## Model

| member | source | states |
|---|---|---|
| `EventStore.AppendKeepsNumbering` | crates/infra/src/event_store/in_memory.rs:34-116 | an accepted append keeps every stream numbered 1..n, of one type and under its own key |
| `EventStore.InMemoryEventStore.Append` | crates/infra/src/event_store/in_memory.rs:34-116 | refusals (mixed batch, stale version, other type) change no stream and report the first mismatch; an accepted batch is numbered on from the current version and touches only its stream |
| `EventStore.InMemoryEventStore.FirstMismatch` | crates/infra/src/event_store/in_memory.rs:43-64 | a batch passes if and only if all its events share one stream and type; otherwise the first mismatch is reported |
| `EventStore.VerdictIs` | crates/infra/src/event_store/in_memory.rs:78-93 | an append is refused for a stale version first, then for another aggregate type; without an expected version only for the type |
| `EventStore.MismatchIs` | crates/infra/src/event_store/in_memory.rs:48-64 | a batch event off the stream is reported as another tenant, another aggregate or another type, in that order |
| `EventStore.InMemoryEventStore.Write` | crates/infra/src/event_store/in_memory.rs:95-115 | the batch is numbered on from the version of the stream and appended to it, no other stream changing |
| `EventStore.InMemoryEventStore.LoadStream` | crates/infra/src/event_store/in_memory.rs:118-135 | the stored stream, empty if it was never written |
| `Dispatcher.FaultFreeIsSorted` | crates/infra/src/command_dispatcher.rs:284-317 | a loaded stream passes validation if and only if all events carry its key and the numbers strictly increase from above zero |
| `Dispatcher.FaultIsFirst` | crates/infra/src/command_dispatcher.rs:284-317 | the fault reported is that of the first misfit: isolation for a foreign event, a bad number otherwise |
| `Dispatcher.ValidateLoadedStream` | crates/infra/src/command_dispatcher.rs:284-317 | the loop reports the first fault of the stream, if there is one |
| `Dispatcher.ApplyHistory` | crates/infra/src/command_dispatcher.rs:319-337 | sorting and applying a validated stream is the plain fold; a payload that does not deserialize fails it |
| `Dispatcher.EventBus.PublishAll` | crates/infra/src/command_dispatcher.rs:267-274 | all events are published in order, or exactly as many as the bus takes before it fails |
| `Dispatcher.Dispatch` | crates/infra/src/command_dispatcher.rs:225-277 | an undisturbed dispatch commits the atomic outcome and publishes it in order; a refused one changes neither store nor bus; a failing bus leaves the events stored and a prefix published |
| `Dispatcher.VersionDeterminesHistory` | crates/infra/src/command_dispatcher.rs:280-282 | on gap-free streams that only grow, equal versions imply equal histories |
| `Dispatcher.CommitIsAtomic` | crates/infra/src/command_dispatcher.rs:232-264 | a batch that passes the version check was decided on exactly the stream it extends, whatever happened since it was loaded |
| `Dispatcher.StepKeepsInvariant` | crates/infra/src/command_dispatcher.rs:225-277 | every load, decide, append and publish step of any client keeps the log, the clients' views of it and the bus consistent |
| `Dispatcher.RunKeepsInvariant` | crates/infra/src/command_dispatcher.rs:225-277 | the invariant holds after every interleaving of any number of clients, every stream being cut into batches accepted one after another |
| `Dispatcher.EveryRunIsSerializable` | crates/infra/src/command_dispatcher.rs:225-277 | after every interleaving the store is what the committed commands give when dispatched one at a time; commits to one stream start from strictly increasing versions, so of those that loaded the same version at most one commits; only stored events are published |
| `Publication.StepBalances` | crates/infra/src/command_dispatcher.rs:225-277 | every step stores exactly what it owes to the bus, and only a bus failure gives up what is owed |
| `Publication.PublishedAtMostOnce` | crates/infra/src/command_dispatcher.rs:267-274 | in every interleaving a stored event is published at most once, and nothing else is |
| `Publication.PublishedIsTheLog` | crates/infra/src/command_dispatcher.rs:267-274 | if the bus never fails, then whenever all clients are idle the bus holds exactly the stored events, each once |
| `Erp.DecisionReachesNext` | crates/core/src/aggregate.rs:212-249 | whatever a handler accepts extends its aggregate's accepted history by exactly one event and the state it leads to |
| `ErpDispatch.DispatchAnswers` | crates/infra/src/command_dispatcher.rs:225-277 | on every healthy log and for every command, undisturbed: another type's command fails to rehydrate; otherwise the command is refused with the reason the stream's history gives, or commits exactly one event, next in number, at the command's time, that does what the command says |
| `ErpDispatch.CommittedIffCalledFor` | crates/infra/src/command_dispatcher.rs:225-277 | after every interleaved run a command dispatched undisturbed by an idle client is committed if and only if the history of its stream calls for it |
| `Erp.EveryRunIsHealthy` | crates/infra/src/command_dispatcher.rs:225-277 | every interleaved run over all five aggregates leaves gap-free streams that are accepted histories |
| `Erp.StockFollowsEveryRun` | crates/infra/src/projections/inventory_stock.rs:180-258 | for every run and every delivery of its publications, event 1 first, the row shows the non-negative true sum of the deltas up to the cursor |
| `Erp.BooksBalanceInEveryRun` | crates/infra/src/projections/accounting.rs:178-242 | for every run and every delivery of its publications, a tenant's account balances sum to zero |
| `Erp.LatePublicationSpoilsRow` | crates/infra/src/command_dispatcher.rs:267-274 | a run of two dispatchers that publish in the opposite order of their commits, after which the caught-up stock row is wrong |
| `Inventory.InventoryItem.Evolve` | crates/inventory/src/item.rs:146-162 | the object evolves as the specified state does |
| `Inventory.StockIsTrueStock` | crates/inventory/src/item.rs:146-227 | in every reachable item the stock is the unbounded sum of the accepted deltas and lies in 0..2^63-1; the creation comes first and once |
| `Inventory.AdjustAcceptedIff` | crates/inventory/src/item.rs:205-227 | with wrapping addition a non-zero delta is accepted if and only if the true sum lies in 0..2^63-1 |
| `Inventory.CreateAcceptedIff` | crates/inventory/src/item.rs:190-203 | a creation is accepted if and only if nothing happened before and the name is not blank |
| `Inventory.AnswerIs` | crates/inventory/src/item.rs:164-227 | on every reachable item each command is accepted, or refused with the error its history calls for |
| `Inventory.CommandDoes` | crates/inventory/src/item.rs:190-227 | an accepted command yields one event at its time that extends the accepted history: a creation sets the name, an adjustment moves the stock by exactly its delta |
| `Inventory.ForeignIsRefused` | crates/inventory/src/item.rs:173-188 | an adjustment of another tenant or item is refused |
| `Invoicing.LineAmountNeverOverflows` | crates/invoicing/src/invoice.rs:293-311 | the 128-bit multiplication and the positivity check cannot fail on a line with positive quantity and price |
| `Invoicing.AcceptedTotal` | crates/invoicing/src/invoice.rs:293-316 | an accepted total is congruent to the exact sum modulo 2^64, and equal to it if and only if every line fits 64 bits |
| `Invoicing.FittingLinesAcceptedIff` | crates/invoicing/src/invoice.rs:293-316 | lists of positive lines that fit 64 bits are accepted, with their exact sum, exactly when the sum fits; otherwise the overflow is reported |
| `Invoicing.TotalAcceptedIff` | crates/invoicing/src/invoice.rs:293-316 | a line list is accepted if and only if all lines are positive and their amounts modulo 2^64 sum below 2^64, with that sum as total |
| `Invoicing.TruncatedTotal` | crates/invoicing/src/invoice.rs:314-316 | a line of two units priced 2^63 is accepted with total zero |
| `Invoicing.ComputeTotal` | crates/invoicing/src/invoice.rs:291-316 | the accumulating loop returns the specified total or the first failing line's error |
| `Invoicing.Invoice.Evolve` | crates/invoicing/src/invoice.rs:228-253 | the object evolves as the specified state does |
| `Invoicing.Invoice.Issue` | crates/invoicing/src/invoice.rs:282-327 | the loop version of the decision equals the specified decision |
| `Invoicing.ReachableInvoice` | crates/invoicing/src/invoice.rs:228-253 | in every reachable invoice paid is the sum of the accepted payments and at most the total; a non-void one with a positive total is Paid if and only if they are equal; the issue comes first and once, a void last |
| `Invoicing.AcceptedIff` | crates/invoicing/src/invoice.rs:282-386 | exactly when an issue, a payment or a void is accepted, in terms of the invoice's history |
| `Invoicing.TotalRefusal` | crates/invoicing/src/invoice.rs:293-316 | a refused line list reports the overflow if it comes before the first line that is not positive, and that line otherwise |
| `Invoicing.AnswerIs` | crates/invoicing/src/invoice.rs:255-386 | on every reachable invoice each command is accepted, or refused with the error its history calls for |
| `Invoicing.CommandDoes` | crates/invoicing/src/invoice.rs:282-386 | an accepted command yields one event at its time that extends the accepted history: an issue sets its lines, order, due date and their residue total; a payment adds exactly its amount; a void changes the status only |
| `Invoicing.ForeignIsRefused` | crates/invoicing/src/invoice.rs:265-280 | a payment or void of another tenant or invoice is refused |
| `Invoicing.VoidIsFinal` | crates/invoicing/src/invoice.rs:329-386 | no command is accepted on a void invoice |
| `Ledger.TotalsFitI128` | crates/accounting/src/ledger.rs:190-205 | the two 128-bit totals of fewer than 2^64 positive lines cannot overflow |
| `Ledger.LedgerRoot.Evolve` | crates/accounting/src/ledger.rs:152-164 | the object evolves as the specified state does |
| `Ledger.LedgerRoot.Post` | crates/accounting/src/ledger.rs:184-217 | the accumulating loop decides as specified: positive lines with equal debits and credits, and the error otherwise |
| `Ledger.ReachableLedger` | crates/accounting/src/ledger.rs:152-217 | every entry of a reachable ledger is balanced and belongs to it |
| `Ledger.PostAcceptedIff` | crates/accounting/src/ledger.rs:184-217 | on a reachable ledger an entry is accepted if and only if it is balanced |
| `Ledger.AnswerIs` | crates/accounting/src/ledger.rs:184-217 | on every reachable ledger an entry of its own is accepted, or refused with the error its lines call for |
| `Ledger.CommandDoes` | crates/accounting/src/ledger.rs:209-217 | an accepted entry is recorded as one event with the command's entry id, lines, description and time |
| `Ledger.ForeignIsRefused` | crates/accounting/src/ledger.rs:174-182 | a ledger with entries refuses those of another tenant |
| `Purchasing.PurchaseOrder.Evolve` | crates/purchasing/src/order.rs:225-254 | the object evolves as the specified state does |
| `Purchasing.ReachableOrder` | crates/purchasing/src/order.rs:225-254 | in every reachable order the lines are the lines ever added, positive, numbered 1..n below 2^32, and present once approved |
| `Purchasing.LinesFrozenAfterDraft` | crates/purchasing/src/order.rs:302-358 | along every run the status never moves back and the lines never change once the order left Draft |
| `Purchasing.StatusNeverMovesBack` | crates/purchasing/src/order.rs:225-254 | between any two points of a history the status does not move back |
| `Purchasing.ReceivedIsWhatWasApproved` | crates/purchasing/src/order.rs:360-394 | a receipt follows the approval and carries exactly the lines added before it |
| `Purchasing.AcceptedIff` | crates/purchasing/src/order.rs:284-394 | exactly when each command is accepted, in terms of the order's history |
| `Purchasing.AnswerIs` | crates/purchasing/src/order.rs:256-394 | on every reachable order each command is accepted, or refused with the error its history calls for |
| `Purchasing.CommandDoes` | crates/purchasing/src/order.rs:284-394 | an accepted command yields one event at its time that extends the accepted history and makes of the order what the command says: supplier, appended product and quantity, approval, receipt of the lines |
| `Purchasing.ForeignIsRefused` | crates/purchasing/src/order.rs:267-282 | a command of another tenant or order is refused |
| `Sales.SalesOrder.Evolve` | crates/sales/src/order.rs:222-250 | the object evolves as the specified state does |
| `Sales.ReachableOrder` | crates/sales/src/order.rs:222-250 | in every reachable order the lines are the lines ever added, positive in quantity and price, numbered 1..n below 2^32, and present past Draft |
| `Sales.LinesFrozenAfterDraft` | crates/sales/src/order.rs:295-379 | along every run the status never moves back and the lines never change once the order left Draft |
| `Sales.AcceptedIff` | crates/sales/src/order.rs:280-379 | exactly when each command is accepted, in terms of the order's history |
| `Sales.AnswerIs` | crates/sales/src/order.rs:252-379 | on every reachable order each command is accepted, or refused with the error its history calls for |
| `Sales.CommandDoes` | crates/sales/src/order.rs:280-379 | an accepted command yields one event at its time that extends the accepted history and makes of the order what the command says: appended product, quantity and price, confirmation, invoicing |
| `Sales.ForeignIsRefused` | crates/sales/src/order.rs:263-278 | a command of another tenant or order is refused |
| `CursorProjection.DeliveredStretch` | crates/infra/src/projections/inventory_stock.rs:180-258 | for every delivery sequence, duplicated, reordered and lossy, a row is the fold of the unbroken stretch from the first event delivered for its stream to its cursor |
| `CursorProjection.RowIsPrefixFold` | crates/infra/src/projections/inventory_stock.rs:180-258 | if event 1 is delivered before the stream's others, the row always equals the fold of events 1..cursor |
| `CursorProjection.CursorNeverDecreases` | crates/infra/src/projections/inventory_stock.rs:198-215 | a cursor never moves back, whatever is delivered |
| `CursorProjection.PassedIsIgnored` | crates/infra/src/projections/inventory_stock.rs:180-200 | an envelope of another type or with a number already passed changes nothing |
| `CursorProjection.GapIsRefused` | crates/infra/src/projections/inventory_stock.rs:190-207 | number 0 and a gap are refused, and both numbers are reported |
| `CursorProjection.NewsIsChecked` | crates/infra/src/projections/inventory_stock.rs:202-228 | the next number, or any first one, is applied if and only if the payload passes the checks, and the failed check is reported |
| `CursorProjection.InOrderDeliveriesSuffice` | crates/infra/src/projections/inventory_stock.rs:198-215 | if events 1..n of a stream appear in order among the deliveries, whatever lies between, the cursor reaches n |
| `CursorProjection.SameCursors` | crates/infra/src/projections/invoices.rs:154-195 | projections of one aggregate type have equal cursors after equal deliveries |
| `CursorProjection.JournalIsCovered` | crates/infra/src/projections/inventory_stock.rs:198-215 | the envelopes that take effect are exactly the stored events between first delivery and cursor, each once |
| `CursorProjection.RebuildRestores` | crates/infra/src/projections/inventory_stock.rs:261-295 | rebuilding from any permutation with any repetition of the complete streams succeeds, gives each stream the fold of its whole history, and leaves absent tenants untouched |
| `CursorProjection.LiveEqualsRebuilt` | crates/infra/src/projections/inventory_stock.rs:261-295 | a live model that has caught up, event 1 first, has the row and cursor a rebuild gives |
| `CursorProjection.Projection.ApplyEnvelope` | crates/infra/src/projections/inventory_stock.rs:180-258 | the object writes the row and cursor as specified; a refused envelope changes nothing |
| `CursorProjection.Projection.RebuildFromScratch` | crates/infra/src/projections/inventory_stock.rs:261-295 | clear, sort and apply until the first failure, as specified |
| `StockView.RowShowsAggregate` | crates/infra/src/projections/inventory_stock.rs:225-254 | on every accepted history the row shows the aggregate's name and stock, which is the true sum: no addition wraps |
| `StockView.RowExactIffFirstFirst` | crates/infra/src/projections/inventory_stock.rs:198-254 | the row equals the fold of events 1..cursor if and only if event 1 was the first one delivered for the stream |
| `StockView.AppliedIff` | crates/infra/src/projections/inventory_stock.rs:208-228 | a new envelope is taken if and only if it carries an event of its own tenant and item, and the refusal says why not |
| `StockView.HeadlessQuantity` | crates/infra/src/projections/inventory_stock.rs:243-251 | a stretch without the creation shows a nameless row with the wrapped sum of its deltas |
| `InvoiceViews.ViewsAgree` | crates/infra/src/projections/invoicing.rs:233-280 | on every accepted history the aggregate, the invoice, aging and open-invoice rows agree on invoice, sales order, amounts, status, lines and due date; the open view shows zero once void |
| `InvoiceViews.LiveViewsAgree` | crates/infra/src/projections/open_invoices.rs:247-344 | the agreement holds for every delivery sequence that starts the invoice with event 1 |
| `InvoiceViews.AppliedIff` | crates/infra/src/projections/open_invoices.rs:247-293 | each view takes a new envelope if and only if it carries an invoice event of its own tenant and stream, and says why not |
| `InvoiceViews.HeadlessViews` | crates/infra/src/projections/invoices.rs:212-241 | of a stretch without the issue the invoice and aging views show a settled or void invoice of nothing, the open view nothing |
| `AccountBalances.BalanceIsJournalSum` | crates/infra/src/projections/accounting.rs:178-242 | whatever is delivered, a balance is the debits minus credits the effective entries posted to its code, repeated codes included |
| `AccountBalances.EqualCursorsEqualBalances` | crates/infra/src/projections/accounting.rs:218-238 | balances depend only on how far each ledger stream was applied, not on how the streams were interleaved |
| `AccountBalances.LiveEqualsRebuilt` | crates/infra/src/projections/accounting.rs:244-273 | live balances that have caught up equal those rebuilt from any permutation with any repetition of the complete streams |
| `AccountBalances.BooksBalance` | crates/infra/src/projections/accounting.rs:178-242 | over accepted entries, however delivered, each tenant's balances sum to zero |
| `AccountBalances.AccountIsFirstPosted` | crates/infra/src/projections/accounting.rs:217-238 | whatever is delivered, an account exists once a line names its code, and carries the name and kind that first line gave |
| `AccountBalances.AppliedIff` | crates/infra/src/projections/accounting.rs:204-215 | a new envelope is taken if and only if it carries an entry of its own tenant, and the refusal says why not |
| `AccountBalances.AccountBalancesProjection.ApplyEnvelope` | crates/infra/src/projections/accounting.rs:178-242 | the line loop posts every line and advances the cursor as specified; a refused envelope changes nothing |
| `AccountBalances.AccountBalancesProjection.RebuildFromScratch` | crates/infra/src/projections/accounting.rs:244-273 | clear, sort and apply until the first failure, as specified |
| `CustomerBalances.RunTracks` | crates/infra/src/projections/customer_balances.rs:317-396 | in every run, event 1 of each invoice first, the record of an applied invoice carries the aggregate's amounts or was blanked by a registration |
| `CustomerBalances.UpdateKeepsExact` | crates/infra/src/projections/customer_balances.rs:317-396 | one event keeps its party's exact amount exact if and only if the new amount fits 64 bits and a void finds the due on record; no payment saturates |
| `CustomerBalances.BalancesExactIff` | crates/infra/src/projections/customer_balances.rs:230-396 | for every run over accepted histories, event 1 of each invoice first, invoices and registrations interleaved at will: after every action each outstanding amount is the sum of total less paid over the non-void invoice aggregates on record, if and only if those sums always fit 64 bits and every action is safe |
| `CustomerBalances.NothingSaturates` | crates/infra/src/projections/customer_balances.rs:362-389 | along such an exact run no subtraction for a payment or a void saturates |
| `CustomerBalances.SettledExactIffFits` | crates/infra/src/projections/customer_balances.rs:230-396 | if registrations hit only invoices that owe nothing, the amounts are exact after every action if and only if they fit 64 bits |
| `CustomerCounts.CountsExactIff` | crates/infra/src/projections/customer_balances.rs:230-396 | for every such run the counts are the numbers of open invoice aggregates on record after every action, if and only if they fit 32 bits and every action is safe for the counts |
| `CustomerTurnover.TurnoverExactIff` | crates/infra/src/projections/customer_balances.rs:317-370 | for every such run the totals invoiced and paid of every customer are, modulo 2^64, the sums of totals and payments over the invoice aggregates on record after every action, if and only if no registration moves a billed invoice to another customer |
| `CustomerTurnover.RunKeepsNames` | crates/infra/src/projections/customer_balances.rs:317-340 | in every run each balance carries the customer it is kept under |
| `CustomerTurnover.RunMirrors` | crates/infra/src/projections/customer_balances.rs:317-396 | if customers are registered before the first event of their invoice, each record carries its invoice's amounts and status |
| `CustomerTurnover.AppliedIff` | crates/infra/src/projections/customer_balances.rs:270-292 | a new envelope is taken if and only if it carries an invoice event of its own tenant, and the refusal says why not |
| `CustomerTotals.OpenTotalIsCustomerTotal` | crates/infra/src/projections/open_invoices.rs:227-244 | per tenant, voids included, over an exact run: the open-invoice amounts for the same deliveries sum to the customers' outstanding amounts, and the 64-bit total of the summary equals it if and only if it fits |
| `CustomerExamples.PaidThenVoided` | crates/invoicing/src/invoice.rs:369-386 | the handlers accept issue, full payment and void of one invoice |
| `CustomerExamples.CountDropsTwice` | crates/infra/src/projections/customer_balances.rs:365-390 | an orderly run over a healthy log: two invoices issued, one of them paid and voided, and the count is zero while one invoice is open |
| `CustomerExamples.OwedBeyond64Bits` | crates/infra/src/projections/customer_balances.rs:337-339 | an orderly run over a healthy log: two invoices of 2^63 leave an outstanding amount of zero while 2^64 is owed |
| `CustomerExamples.LateRegistrationMisplaces` | crates/infra/src/projections/customer_balances.rs:230-247 | an orderly run over a healthy log: a customer registered after the issue owes 5 and shows 0, the sales order shows 5 and owes 0 |
| `CustomerBalances.CustomerBalancesProjection.RegisterInvoiceCustomer` | crates/infra/src/projections/customer_balances.rs:230-247 | the invoice's record is replaced by a blank one of the customer |
| `CustomerBalances.CustomerBalancesProjection.ApplyEnvelope` | crates/infra/src/projections/customer_balances.rs:253-400 | the object updates records, balances and cursor as specified; a refused envelope changes nothing |
| `CustomerRebuild.RebuildFromScratch` | crates/infra/src/projections/customer_balances.rs:403-438 | clears the tenants' balances and cursors and every record, sorts, and applies until the first failure |
| `CustomerRebuild.RebuildLosesOtherTenants` | crates/infra/src/projections/customer_balances.rs:420-422 | after a rebuild any payment or void of a tenant that was not rebuilt is acknowledged but changes no balance |
| `CustomerRebuild.RebuildIsRun` | crates/infra/src/projections/customer_balances.rs:403-438 | whatever other tenants the projection holds, a rebuild from the complete streams of some tenants succeeds and gives these tenants what an orderly run from nothing to the end of every invoice gives |
| `CustomerRebuild.LiveEqualsRebuiltIff` | crates/infra/src/projections/customer_balances.rs:403-438 | a caught-up live projection, registrations included, shows a customer the rebuilt amount if and only if the invoices recorded under it owe what those issued for it as sales order owe |
| `CustomerRebuild.LiveEqualsRebuilt` | crates/infra/src/projections/customer_balances.rs:403-438 | without registered customers the live outstanding amounts, once caught up, equal the rebuilt ones, other tenants present or not |
| `CustomerExamples.RebuildForgetsRegistration` | crates/infra/src/projections/customer_balances.rs:420-422 | an orderly run over a healthy log with a registered customer, whose amount a complete rebuild moves to the sales order |
| `Jobs.ClaimSpends` | crates/infra/src/jobs/types.rs:320-324 | a claim spends one unit of the job's budget, and the attempt counter does not wrap |
| `Jobs.ExecutionSettles` | crates/infra/src/jobs/types.rs:327-369 | an execution appends one record, keeps status, counter and history coherent, and exhausts the job exactly when it fails with no budget left |
| `Jobs.RetriedWhenDue` | crates/infra/src/jobs/executor.rs:302-334 | a job waits for a retry exactly when it failed with budget left, and is ready from its due time on: at once, after the requested delay, or after the backoff |
| `Jobs.ExecutionRecords` | crates/infra/src/jobs/types.rs:327-352 | an execution appends the record of its attempt number, its times and its success, and keeps the job's identity, age and policy |
| `JobStore.InMemoryJobStore.Enqueue` | crates/infra/src/jobs/store.rs:114-122 | inserts the job, or refuses a known id and changes nothing |
| `JobStore.InMemoryJobStore.Update` | crates/infra/src/jobs/store.rs:133-140 | replaces a known job, or refuses and changes nothing |
| `JobStore.InMemoryJobStore.ClaimNext` | crates/infra/src/jobs/store.rs:142-168 | returns nothing if and only if no job is pending or failed, due, and of the filter's tenant; otherwise one of the oldest such jobs, marked as running, whatever order the map lists them in |
| `JobStore.InMemoryJobStore.DeadLetterJob` | crates/infra/src/jobs/store.rs:211-225 | moves the job from the live map to the dead letters |
| `JobStore.InMemoryJobStore.RetryDeadLetter` | crates/infra/src/jobs/store.rs:244-267 | puts a dead letter of the tenant back as a pending job without history; refuses an unknown id or another tenant and changes nothing |
| `JobStore.RevivedIsNew` | crates/infra/src/jobs/store.rs:257-263 | a revived job is new and ready at once, and keeps its id, tenant, age and policy |
| `JobStore.InMemoryJobStore.DeleteDeadLetter` | crates/infra/src/jobs/store.rs:269-280 | removes a dead letter of the tenant; refuses an unknown id or another tenant and changes nothing |
| `JobStore.InMemoryJobStore.Stats` | crates/infra/src/jobs/store.rs:282-309 | the two counting loops give the six counters, whatever the iteration order, and these add up to the tenant's number of jobs |
| `JobStore.StatsAddUp` | crates/infra/src/jobs/store.rs:282-309 | the counters of live and dead-lettered jobs add up to the number of the tenant's jobs |
| `Executors.StepKeepsSound` | crates/infra/src/jobs/executor.rs:210-334 | every poll, write-back, burial, enqueue, retry and delete keeps jobs exclusive, current, coherent and in one map |
| `Executors.EveryRunIsSound` | crates/infra/src/jobs/executor.rs:210-334 | in every interleaving no job is held twice or forgotten while running, the stored copy of a held job is its holder's, every id lies in exactly one map, and histories are numbered 1, 2, 3 with success only last |
| `Executors.OthersUntouched` | crates/infra/src/jobs/store.rs:133-140 | no step of another executor or client changes a held job or its stored copy, so no write-back overwrites foreign work |
| `Executors.ClaimsBalance` | crates/infra/src/jobs/executor.rs:232-334 | in every run the claims made, the budget left and the budget forfeited by success equal the budget at the start and that granted by enqueues and retries |
| `Executors.ClaimsAreBounded` | crates/infra/src/jobs/executor.rs:232-334 | without enqueues and retries a run makes at most the sum of `max(1, max_attempts) - attempt` claims |
| `Executors.AttemptsCountClaims` | crates/infra/src/jobs/types.rs:320-324 | over any run that neither retries nor deletes it, a job's attempt counter grows by its number of claims |
| `Executors.FailingJobRunsOut` | crates/infra/src/jobs/types.rs:342-369 | an enqueued job that ends without success was claimed exactly `max(1, max_attempts)` times, with one numbered failure record for each |
| `Executors.PassedOverIsPaid` | crates/infra/src/jobs/store.rs:142-168 | while a ready job is passed over, each poll that could serve it is paid for by the budget of a job created no later |
| `Executors.NeverStarved` | crates/infra/src/jobs/store.rs:142-168 | a ready job is claimed before the polls that could serve it outnumber the remaining attempts of the older jobs, with any number of executors and immediate retries |
| `Executors.RetryIsClaimed` | crates/infra/src/jobs/executor.rs:302-334 | a job that failed with attempts left is claimed again once it is due, before the polls that could serve it outnumber the remaining attempts of the older jobs |
| `Executors.RetryRevives` | crates/infra/src/jobs/store.rs:244-267 | a retried dead letter waits as a new job, ready at once, with its full allowance |
| `Executors.OnlyFailureIsBuried` | crates/infra/src/jobs/executor.rs:288-334 | an execution leads on to the dead letters if and only if its result is `Failure` and no attempts are left; exhausted otherwise, the job stays in the live map as dead-lettered |
| `Executors.StatsCountArrivals` | crates/infra/src/jobs/store.rs:114-122 | over every run a tenant's counters change in sum by +1 per enqueue and -1 per deleted dead letter and by nothing else |
| `Executors.ExecuteJob` | crates/infra/src/jobs/executor.rs:288-334 | one execution writes back the executed job and moves it to the dead letters only after a final `Failure`; it touches nothing if the job is not stored |
| `Executors.ExecutorLoop` | crates/infra/src/jobs/executor.rs:210-286 | the loop takes exactly steps of the protocol, one claim per processed job, within the budgets; its statistics are the completed and the exhausted jobs by which the store has grown, and the failures are the rest |
| `Replay.NewPagination` | crates/infra/src/event_store/query.rs:31-36 | the limit is capped at 1000 and otherwise kept, 50 by default; the offset is kept, 0 by default |
| `Replay.QueryEvents` | crates/infra/src/event_store/in_memory.rs:139-217 | a query returns the asked slice of a list that holds, exactly once and in time order, every event of the tenant with the type, aggregate and time interval asked for |
| `Replay.PagesHold` | crates/infra/src/event_store/in_memory.rs:139-217 | over all pages of a query, of any size, an event appears if and only if the tenant stored it and it has the type, the aggregate and a time within the interval asked for |
| `Replay.FilterIsSubsequence` | crates/infra/src/event_store/in_memory.rs:162-190 | the listing of a filtered query is the subsequence of an unfiltered listing |
| `Replay.ListingOrder` | crates/infra/src/event_store/in_memory.rs:193-199 | a listing goes back in time, and events of one instant follow their numbers |
| `Replay.PageReports` | crates/infra/src/event_store/in_memory.rs:201-216 | a page reports the total, holds at most the limit, and announces more exactly when some follow, short of 32-bit overflow |
| `Replay.LoadEvents` | crates/infra/src/projections/replay.rs:217-252 | the paging loop stops at the first query that reports no more and returns the wanted types of the pages read |
| `Replay.RunReplay` | crates/infra/src/projections/replay.rs:196-330 | load, clear the tenant, sort into stream order and apply until the first failure; a dry run changes nothing |
| `Replay.AheadIsLoaded` | crates/infra/src/projections/replay.rs:217-252 | if no event moves to an earlier place between queries, one that stands at or beyond the offset of some query has been loaded when the loop stops, offset wrap-around included |
| `SteadyReplay.SamePlaces` | crates/infra/src/event_store/in_memory.rs:193-199 | two listings of one store have tied events at equal places |
| `SteadyReplay.StopsIff` | crates/infra/src/projections/replay.rs:246-251 | over an unchanging store, whatever listing each query sees, the loop stops if and only if the tenant has at most 2^32 - 8 events |
| `SteadyReplay.CleanCutsLoadAll` | crates/infra/src/projections/replay.rs:217-252 | if no tied events stand on the two sides of a page boundary, every event has been loaded when the loop stops, whatever listing each query saw |
| `SteadyReplay.LoadsAllIff` | crates/infra/src/projections/replay.rs:217-252 | over an unchanging store of at most 4294967000 events, every choice of listings loads every event if and only if no tied events stand on the two sides of a page boundary |
| `SteadyReplay.PagesAreAListing` | crates/infra/src/projections/replay.rs:217-252 | with such boundaries the concatenated pages hold every event once and in time order, if and only if there are at most 4294967000 events |
| `SteadyReplay.PagesAreTheList` | crates/infra/src/projections/replay.rs:217-252 | without ties the concatenated pages are the full list, if and only if it has at most 4294967000 events |
| `SteadyReplay.TiesCanBeSkipped` | crates/infra/src/projections/replay.rs:217-252 | a store of 1001 tied events and listings of it for which the loop stops without having loaded one of them |
| `SteadyReplay.ReplayRestoresTenant` | crates/infra/src/projections/replay.rs:217-330 | over an unchanging store with such boundaries a replay that stops succeeds and gives the tenant the rows and cursors of its whole history, whatever listing each query saw, other tenants keeping theirs |
| `GrowingReplay.RankRises` | crates/infra/src/event_store/in_memory.rs:193-199 | without ties an element of a sorted list has no earlier place in a larger one |
| `GrowingReplay.GrowingStoreIsCovered` | crates/infra/src/projections/replay.rs:217-252 | while the store only grows and has no ties, no event stored before loading began is skipped |
| `GrowingReplay.LoadedWithPredecessors` | crates/infra/src/projections/replay.rs:217-252 | if moreover time strictly increases along each stream, no event is loaded without its predecessors, those stored meanwhile included |
| `GrowingReplay.GrowingReplayRestores` | crates/infra/src/projections/replay.rs:217-330 | then a replay that stops succeeds and gives each stream of the tenant the row and cursor of a prefix between the stream at the start and the stream at the end |
| `GrowingReplay.GapStopsReplay` | crates/infra/src/projections/replay.rs:284-330 | a stream loaded with a gap after one of its events makes the replay fail |
| `GrowingReplay.ReplaySucceedsIff` | crates/infra/src/projections/replay.rs:284-330 | a replay succeeds if and only if every stream was loaded without a gap from its first loaded event on |
| `GrowingReplay.BackdatedEventStopsReplay` | crates/infra/src/projections/replay.rs:217-330 | a store that only grows and has no ties, and a backdated event appended while it is loaded, for which the replay fails |

## Left out

- JSON: payloads are typed values, and a payload of another aggregate's type stands for one that does not deserialize; event ids, event type names and schema versions do not appear.
- Error messages: errors are the variants without their texts.
- Envelopes: an envelope has the fields of the stored event it was made from, so stored events stand for both.
- `Job.updated_at`, kind, payload and error texts: carried along unchanged by everything modelled.
- Job values are not objects: the in-place updates of a job are functions on values, because the store hands out clones; aliasing does not arise.
- PostgreSQL, Redis and the persistent cursor store: their semantics are outside the code; the in-memory store and cursors carry the same contract.
- A crash between the row update and the cursor update: applying an envelope is one step.
- `execute_one`: it counts a second attempt on a job that was already claimed; the executor loop does not use it.
- `delay_for_attempt`: floating-point arithmetic; the backoff is an arbitrary non-negative value.
- `get_handler` and handler bodies: a handler is an arbitrary choice of result, including no handler.
- `mark_cancelled`, and the `get` and list queries of the job store: nothing modelled calls them, and they change nothing else.
- Clocks: time is an input, so `days_outstanding` and `is_overdue` do not appear.
- `OpenInvoicesSummary.count`: paid and void rows are kept, so it does not count open invoices.
- Replay progress, cancellation and its handle: reporting and control around the loop.
- `event_type` filter and the single-event queries: the other filters are modelled; replay uses none.
- AccountBalances.LiveEqualsRebuilt: balances only; the name and kind of an account are those first seen (`AccountBalances.AccountIsFirstPosted`), which a rebuild may see in another order.
- Ledger.LedgerRoot.Post: the 128-bit totals are unbounded integers; `Ledger.TotalsFitI128` shows that fewer than 2^64 lines cannot overflow them. Account balances are unbounded in the same way.
- Inventory.StockIsTrueStock: the version counter of an item is unbounded, as those of the other aggregates are.
- Inventory valuation: unit costs are set outside the log, so a rebuild is not meant to restore them.
- The single-cursor runner in crates/events, the saga, the API, the desktop application, authentication, parties, products and observability.
