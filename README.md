# Ingestion, reconciliation and checkout core of the JustGo backend

This project models, in Dafny, the sequential core of the NestJS backend of
the JustGo platform. The core has six parts:

- **Lock and idempotency gate.** `CacheService` wraps a Redis store whose keys
  expire; its `setNx` is an atomic set-if-absent. `IdempotencyGuard` uses it to
  turn a client key into a duplicate filter with a 24-hour replay window.
- **Entity reconciler.** `CatalogService` upserts products and guards stock rows
  by the ERP's source timestamp. `PriceService` upserts prices by arrival order
  and looks them up.
- **ERP feed and fan-out.** `ErpMockService` is the feed double, with a failure
  switch. `ErpSyncService.triggerFullSync` fetches products, then stock, then
  prices, and queues one job per record. `ErpSyncProcessor` dispatches each job
  by its name.
- **Dead-letter recovery.** `DlqService` lists failed jobs and re-queues one by
  hand, at most three times.
- **Sales.** `SalesService` makes a sale from a closed session, from an offline
  upload, or from a direct checkout. The payment webhook marks a sale PAID and
  queues its export.
- **Carts.** `SessionService` opens or resumes a session, merges items into its
  cart, and closes it.

The modelling choices:

- Each source file is one module.
- A service whose methods update a table is a class. The table is a field: a
  `map` keyed by the table's unique index, or a `seq` whose positions are the
  row ids. Methods take the form the source code has, and are proved against
  pure functions (`…Outcome`, `Reconcile`, `Reprice`, `Acquire`, `SyncPlan`).
  Lemmas about those functions carry the properties that span several calls.
- Exceptions are the `Err` side of a `Result`.
- Clocks are an explicit `now` parameter.
- Money and quantities are `real`.
- An absent optional field, or one JavaScript reads as false, is `None`.

Where the test text and the code disagree, the model follows the code.
`startSession` resumes the customer's ACTIVE session in the store. The unit
test in apps/backend/src/modules/session/tests/session.service.spec.ts:59-63
expects a Conflict instead.

## Model

| member | source | states |
|---|---|---|
| Cache.Acquire | apps/backend/src/modules/common/services/cache.service.ts:37-42 | set-if-absent succeeds exactly when the key is not live; a success stores the value with expiry now+ttl; a refusal leaves the store unchanged; every other key is untouched |
| Cache.AcquireExclusive | apps/backend/src/modules/common/services/cache.service.ts:28-42 | of two acquisitions of one key within the first's window, at most one succeeds; if the key was free, the first wins and the second changes nothing |
| Cache.DeleteFreesKey | apps/backend/src/modules/common/services/cache.service.ts:52-54 | after the key is deleted, the next set-if-absent on it succeeds |
| Cache.CacheService.Get | apps/backend/src/modules/common/services/cache.service.ts:13-21 | an absent or expired key, or an empty string, reads as null; otherwise the stored value; a store error is raised |
| Cache.CacheService.Set | apps/backend/src/modules/common/services/cache.service.ts:23-26 | overwrites unconditionally with a fresh expiry now+ttl; a store error leaves the keyspace unchanged |
| Cache.CacheService.SetNx | apps/backend/src/modules/common/services/cache.service.ts:37-50 | the outcome and the new keyspace are those of Acquire; true iff the key was free; false leaves the store unchanged; a store error is raised, never turned into true or false |
| Cache.CacheService.Del | apps/backend/src/modules/common/services/cache.service.ts:52-54 | the key is absent afterwards and no other key changes |
| Idempotency.ClientKey | apps/backend/src/modules/common/guards/idempotency.guard.ts:14-16 | a non-empty header key wins over the body key; there is no key exactly when both are missing or empty |
| Idempotency.LockKey | apps/backend/src/modules/common/guards/idempotency.guard.ts:18 | the lock key is the prefix "IDEMPOTENCY:" followed by the client key |
| Idempotency.LockKeyInjective | apps/backend/src/modules/common/guards/idempotency.guard.ts:18 | distinct client keys never share a lock key |
| Idempotency.AuditFor | apps/backend/src/modules/common/guards/idempotency.guard.ts:22-27 | the stored audit record carries the request's path, method and ip, and the time |
| Idempotency.Admit | apps/backend/src/modules/common/guards/idempotency.guard.ts:14-39 | with no key, the request passes and the store is untouched; otherwise it passes iff the lock key is free, which stores the audit record for 86400 s; otherwise Conflict and no change |
| Idempotency.ReplayWithinWindowIsConflict | apps/backend/src/modules/common/guards/idempotency.guard.ts:12-40 | the lock is never released: after an admitted request, the same key is a Conflict until the TTL runs out |
| Idempotency.ReplayAfterWindowIsAdmitted | apps/backend/src/modules/common/guards/idempotency.guard.ts:19-30 | once 86400 s have passed, the same key is admitted again |
| Idempotency.IdempotencyGuard.CanActivate | apps/backend/src/modules/common/guards/idempotency.guard.ts:12-40 | with no key, true and the cache is untouched; otherwise the verdict and the new keyspace are Admit's; a store error propagates |
| Catalog.ProductOf | apps/backend/src/modules/catalog/services/catalog.service.ts:18-25 | every field of the entity built by create comes from the DTO; this is also what saveProduct returns |
| Catalog.Upsert | apps/backend/src/modules/catalog/services/catalog.service.ts:17-26 | a new code stores the DTO's row; on an existing code, code, name, uom and isActive come from the DTO, and description and barcode come from the DTO when it has them, otherwise they keep their stored values |
| Catalog.UpsertIdempotent | apps/backend/src/modules/catalog/services/catalog.service.ts:17-26 | syncing the same product twice leaves the row the first sync left |
| Catalog.OmittedFieldsSurvive | apps/backend/src/modules/catalog/services/catalog.service.ts:17-26 | a description or barcode once stored survives a later sync that omits it; a DTO with both optional fields overwrites the whole row |
| Catalog.Reconcile | apps/backend/src/modules/catalog/services/catalog.service.ts:39-61 | a missing row is inserted with the event's quantity and time; an event not newer than the stored source time (a null one reads as epoch 0) leaves the row unchanged; a newer one takes quantity and time; the stored time becomes max(old, incoming) |
| Catalog.ReconcileIdempotent | apps/backend/src/modules/catalog/services/catalog.service.ts:46-50 | delivering the same stock event twice has the effect of delivering it once |
| Catalog.ReconcileOrderIndependent | apps/backend/src/modules/catalog/services/catalog.service.ts:42-53 | two events with different source times leave the same row in either arrival order |
| Catalog.StaleEventAfterNewer | apps/backend/src/modules/catalog/services/catalog.service.ts:43-53 | an older event arriving after a newer one changes nothing |
| Catalog.CatalogService.SaveProduct | apps/backend/src/modules/catalog/services/catalog.service.ts:17-27 | an upsert by code with no ordering guard: the row becomes Upsert of the row found, so omitted optional fields keep their stored values; the entity built from the DTO is returned; stock untouched; the foreign-key invariant is kept |
| Catalog.CatalogService.UpdateStock | apps/backend/src/modules/catalog/services/catalog.service.ts:29-64 | an unknown product raises and writes nothing; otherwise exactly the (product, warehouse) row becomes Reconcile of the row found; one row per key; no stock key is lost |
| Pricing.Reprice | apps/backend/src/modules/catalog/services/price.service.ts:31-45 | rate and currency always come from the DTO; validFrom is replaced only when supplied; the source time is the local clock, not the DTO |
| Pricing.LastArrivalWins | apps/backend/src/modules/catalog/services/price.service.ts:31-35 | prices have no source-time guard: of two events for one key, the later arrival decides the rate |
| Pricing.PriceService.GetPrice | apps/backend/src/modules/catalog/services/price.service.ts:49-62 | null iff no row exists for (product, list); otherwise that row's price and currency, with the product's name |
| Pricing.PriceService.SavePrice | apps/backend/src/modules/catalog/services/price.service.ts:17-48 | an unknown product raises and writes nothing; otherwise exactly the (product, list) row becomes Reprice of the row found, and getPrice then reads back the DTO's rate and currency |
| Queue.IndexOfJob | apps/backend/src/modules/erp/services/dlq.service.ts:26 | finds a job carrying the id, or reports that none does |
| Queue.IndexOfJobUnique | apps/backend/src/modules/erp/services/dlq.service.ts:26 | with distinct ids, the lookup finds the one job with that id |
| Queue.Accepted | apps/backend/src/modules/erp/services/erp-sync.service.ts:27-54 | of k writes in a row, how many go through before the connection drops: all of them iff the budget allows k, otherwise exactly what was left |
| Queue.JobQueue.GetJob | apps/backend/src/modules/erp/services/dlq.service.ts:26-30 | the stored job with this id, or none when no job carries it |
| Queue.JobQueue.UpdateData | apps/backend/src/modules/erp/services/dlq.service.ts:51 | while Redis accepts writes, replaces that job's data only and spends one write; once the connection has dropped, raises and changes nothing; ids and the add log are unchanged |
| Queue.JobQueue.Retry | apps/backend/src/modules/erp/services/dlq.service.ts:57 | while Redis accepts writes, moves that job back to waiting, spends one write and changes nothing else; once the connection has dropped, raises and changes nothing |
| Queue.JobQueue.Add | apps/backend/src/modules/erp/services/erp-sync.service.ts:28-31 | while Redis accepts writes, appends exactly one (name, data, options) request to the add log and spends one write; once the connection has dropped, raises and the log is unchanged |
| ErpMock.Restamp | apps/backend/src/modules/erp/services/erp-mock.service.ts:39-44 | the same number of entries, each with the same product, warehouse and quantity; only updatedAt is replaced by the fetch time |
| ErpMock.ErpMockService.constructor | apps/backend/src/modules/erp/services/erp-mock.service.ts:7-23 | the failure switch starts off; products COC-350 "Coca Cola 350ml" (barcode 789123456) and AGU-500 "Agua 500ml" (789999999), both UN and active; stock 100 and 50 in LOJA_01; Standard Selling prices 5.50 and 3.00 BRL; every stamp the creation time |
| ErpMock.ErpMockService.SimulateFailure | apps/backend/src/modules/erp/services/erp-mock.service.ts:28-31 | sets the switch to the given value |
| ErpMock.ErpMockService.FetchProducts | apps/backend/src/modules/erp/services/erp-mock.service.ts:33-37 | raises while the switch is on; otherwise the stored list as it is |
| ErpMock.ErpMockService.FetchStock | apps/backend/src/modules/erp/services/erp-mock.service.ts:39-44 | raises while the switch is on; otherwise the stored list restamped, the stored list itself left as it was |
| ErpMock.ErpMockService.FetchPrices | apps/backend/src/modules/erp/services/erp-mock.service.ts:46-50 | raises while the switch is on; otherwise the stored list as it is |
| ErpMock.ErpMockService.CheckFailure | apps/backend/src/modules/erp/services/erp-mock.service.ts:52-56 | raises exactly while the switch is on |
| ErpSync.ProductJobs | apps/backend/src/modules/erp/services/erp-sync.service.ts:27-32 | one product-update job per product, in order, with id "product-{code}" and removal on completion |
| ErpSync.StockJobs | apps/backend/src/modules/erp/services/erp-sync.service.ts:38-43 | one stock-update job per stock entry, in order, with id "stock-{product}-{warehouse}" |
| ErpSync.PriceJobs | apps/backend/src/modules/erp/services/erp-sync.service.ts:49-54 | one price-update job per price, in order, with id "price-{product}-{list}" |
| ErpSync.SyncPlan | apps/backend/src/modules/erp/services/erp-sync.service.ts:19-61 | the cycle ends normally iff all three fetches succeed; a failed products fetch queues nothing and passes its error on; a failed stock fetch keeps exactly the product jobs |
| ErpSync.SyncPlanByStages | apps/backend/src/modules/erp/services/erp-sync.service.ts:27-54 | once products are fetched, the cycle is their jobs followed by the stock stage and then the price stage |
| ErpSync.SyncRun | apps/backend/src/modules/erp/services/erp-sync.service.ts:27-60 | against a queue whose connection may drop, the jobs that go out are the plan's first Accepted ones; a cut ends the cycle with the store error; with no cut the run is the plan |
| ErpSync.SyncRunCutWithin | apps/backend/src/modules/erp/services/erp-sync.service.ts:27-32 | a drop inside the product stage leaves only the product jobs accepted before it, and the error |
| ErpSync.SyncRunAfterStage | apps/backend/src/modules/erp/services/erp-sync.service.ts:27-54 | a stage whose adds all went through is followed by the rest of the cycle run against what is left of the budget |
| ErpSync.SyncStagesOrdered | apps/backend/src/modules/erp/services/erp-sync.service.ts:23-54 | in every cycle, each product job precedes each stock job, and each stock job precedes each price job |
| ErpSync.SyncRunStagesOrdered | apps/backend/src/modules/erp/services/erp-sync.service.ts:23-60 | a dropped connection cuts the cycle short but never reorders it: products, then stock, then prices |
| ErpSync.SyncCompleteCycle | apps/backend/src/modules/erp/services/erp-sync.service.ts:27-54 | a complete cycle ends normally, with \|products\|+\|stocks\|+\|prices\| jobs, each carrying its record unchanged, its derived id, and removeOnComplete |
| ErpSync.SyncAbortsOnFailure | apps/backend/src/modules/erp/services/erp-sync.service.ts:22-60 | a failed products fetch queues nothing and rethrows; a later failure keeps the earlier stages' jobs and adds none after |
| ErpSync.ProductJobIdInjective | apps/backend/src/modules/erp/services/erp-sync.service.ts:29 | product job ids identify their product code |
| ErpSync.StockJobIdAmbiguous | apps/backend/src/modules/erp/services/erp-sync.service.ts:40 | stock job ids do not identify their key: ("COC-350", "LOJA") and ("COC", "350-LOJA") get the same id |
| ErpSync.ErpSyncService.TriggerFullSync | apps/backend/src/modules/erp/services/erp-sync.service.ts:19-61 | the jobs added and the outcome are SyncRun of SyncPlan, over what the feed answers at each stage (including a failure switch flipped between stages) and the writes Redis still accepts; the budget spent is the number of jobs added; the feed's switch ends as the last flip the cycle reached set it |
| ErpSync.ErpSyncService.ProductStageRun | apps/backend/src/modules/erp/services/erp-sync.service.ts:27-60 | once products are fetched, the cycle adds SyncRun of their jobs followed by the stock and price stages; the switch ends as the last flip reached set it |
| ErpSync.ErpSyncService.StockAndPriceStages | apps/backend/src/modules/erp/services/erp-sync.service.ts:34-60 | the stock and price stages add SyncRun of StockStage, over the fetches at the flip points; the switch ends at the price flip if the price stage was reached, otherwise at the stock flip |
| ErpSync.ErpSyncService.PriceStageRun | apps/backend/src/modules/erp/services/erp-sync.service.ts:45-60 | the price stage adds SyncRun of PriceStage, over the fetch at its flip point, and leaves the switch as that flip set it |
| ErpSync.ErpSyncService.EnqueueProducts | apps/backend/src/modules/erp/services/erp-sync.service.ts:27-32 | the product loop adds the first Accepted of ProductJobs, in order, and raises exactly when an add is rejected |
| ErpSync.ErpSyncService.EnqueueStocks | apps/backend/src/modules/erp/services/erp-sync.service.ts:38-43 | the stock loop adds the first Accepted of StockJobs, in order, and raises exactly when an add is rejected |
| ErpSync.ErpSyncService.EnqueuePrices | apps/backend/src/modules/erp/services/erp-sync.service.ts:49-54 | the price loop adds the first Accepted of PriceJobs, in order, and raises exactly when an add is rejected |
| ErpProcessor.SyncPlanJobsWellFormed | apps/backend/src/modules/erp/services/erp-sync.service.ts:27-54 | every job a sync cycle queues carries the payload its name announces, which is what the worker's casts assume |
| ErpProcessor.ErpSyncProcessor.Process | apps/backend/src/modules/erp/processors/erp-sync.processor.ts:19-33 | product-update upserts the product as Upsert does, stock-update reconciles the stock row, price-update saves the price; only that handler's table changes and its error propagates; any other name changes nothing and returns normally |
| ErpProcessor.ErpSyncProcessor.HandleProductUpdate | apps/backend/src/modules/erp/processors/erp-sync.processor.ts:35-39 | calls saveProduct with the job's DTO: the product row becomes Upsert of the row found |
| ErpProcessor.ErpSyncProcessor.HandleStockUpdate | apps/backend/src/modules/erp/processors/erp-sync.processor.ts:41-45 | calls updateStock with the job's DTO and passes on its error |
| ErpProcessor.ErpSyncProcessor.HandlePriceUpdate | apps/backend/src/modules/erp/processors/erp-sync.processor.ts:47-51 | calls savePrice with the job's DTO and passes on its error |
| Dlq.ViewOf | apps/backend/src/modules/erp/services/dlq.service.ts:14-22 | a job's row in the failed list; an absent retry count reads as 0 |
| Dlq.FailedJobs | apps/backend/src/modules/erp/services/dlq.service.ts:12-23 | every listed row is a failed job, and every failed job is listed |
| Dlq.StampRetry | apps/backend/src/modules/erp/services/dlq.service.ts:44-49 | the payload is kept, the count becomes old+1, and lastRetryBy/lastRetryAt record who retried and when |
| Dlq.RetryStep | apps/backend/src/modules/erp/services/dlq.service.ts:32-57 | a job not failed is refused; a job at MAX_MANUAL_RETRIES=3 is refused; otherwise its data is stamped and it returns to waiting |
| Dlq.RetryOutcome | apps/backend/src/modules/erp/services/dlq.service.ts:25-64 | NotFound iff no job has the id; a refusal by RetryStep leaves every job unchanged; with both writes accepted, only that job becomes RetryStep's and the answer is "queued" with the id ("unknown" if empty); a drop before updateData changes nothing; a drop between updateData and retry leaves the stamped data on a job still failed, with the store error |
| Dlq.ReplayCountsRetries | apps/backend/src/modules/erp/services/dlq.service.ts:38-57 | over any history of failures, operator retries and retries interrupted after updateData, each stamp adds one to the stored count, re-queues never exceed stamps, and stamps never exceed max(0, 3 - initial count) |
| Dlq.AtMostThreeManualRetries | apps/backend/src/modules/erp/services/dlq.service.ts:8 | a job never retried by hand can be retried successfully at most three times over its life |
| Dlq.InterruptedRetrySpendsLimit | apps/backend/src/modules/erp/services/dlq.service.ts:44-57 | a job at two manual retries whose retry is interrupted after the data write can never be re-queued by hand again |
| Dlq.ReplayExtends | apps/backend/src/modules/erp/services/dlq.service.ts:38-57 | later events only add to the stamp and re-queue counts, and re-queue no more often than they stamp |
| Dlq.DlqService.RetryJob | apps/backend/src/modules/erp/services/dlq.service.ts:25-64 | writes the stamped data, then re-queues; the answer and the new job store are RetryOutcome's for the writes Redis still accepts; a retry that passes its checks spends the writes that went through (at most two), any other spends none; the add log is untouched |
| Sessions.FindLine | apps/backend/src/modules/session/services/session.service.ts:53 | the first cart line for the product, or none |
| Sessions.CartTotal | apps/backend/src/modules/session/services/session.service.ts:93-95 | the reduce of line totals from 0: a one-line cart totals that line, and lines with no negative total give a total that is not negative |
| Sessions.CartTotalConcat | apps/backend/src/modules/session/services/session.service.ts:93-95 | the reduce is a plain sum: a cart split in two totals the sum of the two parts |
| Sessions.CartTotalAppend | apps/backend/src/modules/session/services/session.service.ts:93-95 | pushing a line adds its total to the cart sum |
| Sessions.CartTotalUpdate | apps/backend/src/modules/session/services/session.service.ts:93-95 | replacing one line changes the cart sum by the difference of the two line totals |
| Sessions.AddToCart | apps/backend/src/modules/session/services/session.service.ts:53-72 | a product in the cart keeps one line, its quantity grown, unit price refreshed, total quantity·price, name unchanged, other lines untouched; a new product appends one line priced unitPrice·quantity; one line per product is kept |
| Sessions.AddToCartTotal | apps/backend/src/modules/session/services/session.service.ts:53-74 | the new cart sum is the old sum with the product's line total replaced, or increased by price·quantity for a new line |
| Sessions.MergeLine | apps/backend/src/modules/session/services/session.service.ts:53-72 | the in-place update of the line, or the push, leaves AddToCart's cart |
| Sessions.ActiveSessionOf | apps/backend/src/modules/session/services/session.service.ts:18-20 | the ACTIVE session of (customer, store), or a guarantee that there is none |
| Sessions.StartOutcome | apps/backend/src/modules/session/services/session.service.ts:16-37 | an existing ACTIVE session is resumed with the table unchanged; otherwise one ACTIVE session is appended with an empty cart and total 0 |
| Sessions.StartSessionResumes | apps/backend/src/modules/session/services/session.service.ts:18-25 | starting twice, one call after the other, opens one session: the second call returns the first's session and changes nothing |
| Sessions.ActiveUnique | apps/backend/src/modules/session/services/session.service.ts:18-25 | under the table invariants, which hold while startSession calls do not overlap, a customer has at most one ACTIVE session per store |
| Sessions.StartPreserves | apps/backend/src/modules/session/services/session.service.ts:16-37 | a startSession run on its own keeps the table invariants, including one ACTIVE session per (customer, store); overlapping calls are not covered |
| Sessions.AddItemOutcome | apps/backend/src/modules/session/services/session.service.ts:39-76 | succeeds iff the session is the caller's, ACTIVE and priced; NotFound unless id and customer match; refused unless ACTIVE; NotFound when the Standard price is missing, with the cart unchanged; otherwise only that session changes, to AddToCart's cart and its sum as the total |
| Sessions.AddItemPreserves | apps/backend/src/modules/session/services/session.service.ts:74 | after addItem, every total still equals the sum of its cart's lines, and all other invariants hold |
| Sessions.CloseOutcome | apps/backend/src/modules/session/services/session.service.ts:78-87 | succeeds iff the session is the caller's, ACTIVE and non-empty; the same lookup and ACTIVE check; an empty cart is refused; otherwise the session becomes CLOSED with its cart and total unchanged |
| Sessions.ClosePreserves | apps/backend/src/modules/session/services/session.service.ts:78-87 | closing keeps the invariants, and a closed session refuses further items |
| Sessions.SessionService.StartSession | apps/backend/src/modules/session/services/session.service.ts:16-37 | the returned session and the new table are StartOutcome's |
| Sessions.SessionService.AddItem | apps/backend/src/modules/session/services/session.service.ts:39-76 | the answer and the new table are AddItemOutcome's, for the price getPrice gives for the "Standard" list |
| Sessions.SessionService.CloseSession | apps/backend/src/modules/session/services/session.service.ts:78-87 | the answer and the new table are CloseOutcome's |
| Sessions.SessionService.GetSession | apps/backend/src/modules/session/services/session.service.ts:89-91 | the row with that id, whoever owns it, and null exactly when there is none |
| Sales.FindSale | apps/backend/src/modules/sales/entities/sale.entity.ts:15-21 | the sale carrying the session id or the offline id, the two unique keys that findOne searches by at sales.service.ts lines 50 and 87, or a guarantee that none does |
| Sales.ItemsSum | apps/backend/src/modules/sales/services/sales.service.ts:80 | the reduce of unitPrice·quantity from 0: a one-line upload sums that line, and lines with no negative price or quantity give a sum that is not negative |
| Sales.ItemsSumConcat | apps/backend/src/modules/sales/services/sales.service.ts:80 | the reduce is a plain sum: an upload split in two sums to the sum of the two parts |
| Sales.CartSnapshot | apps/backend/src/modules/sales/services/sales.service.ts:62 | the sale's items are the session's cart lines, one for one |
| Sales.OfflineSnapshot | apps/backend/src/modules/sales/services/sales.service.ts:98 | the sale's items are the uploaded lines, one for one |
| Sales.CheckoutSnapshot | apps/backend/src/modules/sales/services/sales.service.ts:167 | the sale's items are the priced lines, one for one |
| Sales.FromSessionOutcome | apps/backend/src/modules/sales/services/sales.service.ts:30-69 | succeeds iff the session exists, is the caller's and is CLOSED; a missing session is NotFound; another user's, or one not CLOSED, is refused; an existing sale for the session is returned unchanged; otherwise one CREATED sale copies store, customer, total and cart |
| Sales.FromSessionIdempotent | apps/backend/src/modules/sales/services/sales.service.ts:49-53 | converting a session twice makes one sale: the second call returns the first's sale and changes nothing |
| Sales.SessionSaleUnique | apps/backend/src/modules/sales/entities/sale.entity.ts:15-17 | under the table invariants, a session has at most one sale |
| Sales.FromSessionPreserves | apps/backend/src/modules/sales/entities/sale.entity.ts:15-21 | createSaleFromSession keeps ids and the unique session and offline indexes |
| Sales.OfflineOutcome | apps/backend/src/modules/sales/services/sales.service.ts:78-105 | succeeds iff \|Σ unitPrice·quantity − total\| <= 0.05; a mismatch is refused before the offline id is looked up; an existing offline id returns that sale unchanged; otherwise one CREATED sale with the upload's total, items and time |
| Sales.OfflineIdempotent | apps/backend/src/modules/sales/services/sales.service.ts:86-90 | a re-upload under the same offline id, once the first has finished, gets the first sale and changes nothing |
| Sales.OfflineSaleUnique | apps/backend/src/modules/sales/entities/sale.entity.ts:19-21 | under the table invariants, an offline id has at most one sale |
| Sales.OfflinePreserves | apps/backend/src/modules/sales/entities/sale.entity.ts:15-21 | syncOfflineSale keeps ids and both unique indexes |
| Sales.ConfirmOutcome | apps/backend/src/modules/sales/services/sales.service.ts:107-133 | a missing sale is NotFound; PAID returns unchanged with no job; CANCELLED is refused; a CREATED or PENDING_PAYMENT sale always becomes PAID with the webhook meta, and then either exactly one erpnext-sync-invoice job {saleId} is added and the sale returned, or the add is rejected, no job is added and the store error is raised |
| Sales.ConfirmTwiceEnqueuesOnce | apps/backend/src/modules/sales/services/sales.service.ts:111-129 | a webhook delivered twice, one delivery after the other, makes at most one export job and the second delivery changes nothing and answers as the first; a CREATED or PENDING_PAYMENT sale whose add goes through gets exactly one job and is PAID |
| Sales.RejectedExportIsNeverRetried | apps/backend/src/modules/sales/services/sales.service.ts:111-131 | when the export add is rejected the sale is still saved PAID, and every later delivery of the webhook takes the PAID early return, so the export job is never added |
| Sales.RedeliverPaid | apps/backend/src/modules/sales/services/sales.service.ts:112-115 | any number of deliveries for a sale already PAID change nothing and add no job |
| Sales.ConfirmPreserves | apps/backend/src/modules/sales/entities/sale.entity.ts:15-21 | confirmPayment keeps ids and both unique indexes |
| Sales.FirstOverstocked | apps/backend/src/modules/sales/services/sales.service.ts:147-149 | the first item above 999 units, or a guarantee that none is |
| Sales.CheckoutLines | apps/backend/src/modules/sales/services/sales.service.ts:152-158 | one priced line per item, in order |
| Sales.PriceCheckout | apps/backend/src/modules/sales/services/sales.service.ts:138-159 | fails iff some quantity exceeds 999, naming the first such product; otherwise every line is priced at 10, with total 10·quantity, and the total is the sum of the lines |
| Sales.CheckoutOutcome | apps/backend/src/modules/sales/services/sales.service.ts:161-195 | a refused item writes nothing; otherwise one PENDING_PAYMENT sale at STORE-001 for the caller (GUEST if anonymous), holding the priced lines, totalling them, stamped now; with the PIX charge as payment meta, or, when the gateway failed, BadRequest "Payment generation failed" after the sale is saved |
| Sales.CheckoutPreserves | apps/backend/src/modules/sales/entities/sale.entity.ts:15-21 | processDirectCheckout keeps ids and both unique indexes |
| Sales.SalesService.CreateSaleFromSession | apps/backend/src/modules/sales/services/sales.service.ts:30-69 | the answer and the new table are FromSessionOutcome's, for the session getSession finds |
| Sales.SalesService.GetSale | apps/backend/src/modules/sales/services/sales.service.ts:71-76 | a missing sale is NotFound; another customer's is refused; the owner gets exactly that row |
| Sales.SalesService.SyncOfflineSale | apps/backend/src/modules/sales/services/sales.service.ts:78-105 | the answer and the new table are OfflineOutcome's |
| Sales.SalesService.ConfirmPayment | apps/backend/src/modules/sales/services/sales.service.ts:107-133 | the sale is saved before the export add; the answer, the new table and the jobs appended are ConfirmOutcome's with the queue up exactly while Redis accepts writes |
| Sales.SalesService.ProcessDirectCheckout | apps/backend/src/modules/sales/services/sales.service.ts:135-195 | the answer and the new table are CheckoutOutcome's, for the pricing loop's result and the gateway's answer |

## Left out

- ErpProcessor.ErpSyncProcessor.Process: requires that a known job name carries the matching payload. The source casts `job.data` without checking it, so what a mismatched payload does there is not modelled. ErpProcessor.SyncPlanJobsWellFormed proves that the sync cycle only queues matching payloads.
- ErpSync.ErpSyncService.TriggerFullSync: other requests may run between the awaits of a sync cycle. The only interleaving modelled is a flip of the feed's failure switch before the stock fetch and before the price fetch.
- Queue.JobQueue.Retry: only the move back to waiting is modelled. The library's other effects of `retry()` (attempt counters, failure reason) are not.
- Dlq.FailedJobs: lists the failed jobs in store order. The order in which the library returns them is not specified in the source.
- Sales.SalesService.ProcessDirectCheckout: the payment gateway call (payment.service.ts, the Mercado Pago SDK) is not part of this model. Its answer is a parameter: the charge, or `None` when generatePix failed, which it always reports as BadRequest "Payment generation failed".
- Sales.SalesService.CreateSaleFromSession: the database transaction is one atomic step here. Isolation between concurrent requests is not modelled.
- Concurrent requests: each service call runs to completion before the next one starts. The source reads and then writes with awaits in between, and three promises hold only for calls that do not overlap:
  - Sessions.SessionService.StartSession, Sessions.StartPreserves, Sessions.ActiveUnique and Sessions.StartSessionResumes: the session table has only a non-unique index on customerId (session.entity.ts:25). Two overlapping startSession calls can both find no ACTIVE session and both insert one, so "one ACTIVE session per (customer, store)" is not an invariant of the table under concurrency.
  - Sales.SalesService.SyncOfflineSale and Sales.OfflineIdempotent: an overlapping duplicate upload passes the lookup and then fails on the unique offlineId index, raising an error instead of returning the first sale.
  - Sales.SalesService.ConfirmPayment and Sales.ConfirmTwiceEnqueuesOnce: two overlapping webhook deliveries can both pass the PAID check, and both then save the sale and add an erpnext-sync-invoice job.
- Queue internals: delivery to workers, concurrency, automatic retry and backoff, and deduplication by job id all happen inside the library. They are not modelled, so nothing is claimed about duplicate job ids.
- Queue writes: each queue carries a budget of writes Redis still accepts before its connection drops (`None` is unlimited). Reads of the queue (`getFailed`, `getJob`) are taken to answer.
- Database writes: repository saves and transactions are taken to succeed; only the queue's and the cache's store can fail.
- Redis: JSON serialisation of stored values is left out; an object is kept as a value. Expiry uses an explicit `now`, not a wall clock. A store that does not answer is the `reachable` flag.
- Dates: ISO 8601 strings and `new Date(...)` are integer timestamps. The export processor's payload date, and the `addedAt`, `createdAt` and `lastRetryAt` stamps, are the `now` parameter.
- Floating point: money, quantities and the 0.05 tolerance are exact reals, so rounding of JavaScript numbers and of the decimal(10,2) columns is not modelled.
- Ids: database uuids are row positions (`nat`). Job ids are strings.
- Every optional field that `||` or `!value` tests is `Option` in the model, and an omitted optional DTO property (undefined) is `None`; an explicit null sent in a product DTO, which the save would write, is not told apart from an omitted one; JavaScript values that read as false (null, undefined, "") are `None` or the empty string.
- `seedTestProduct` (sales.service.ts:197-234): fixture seeding.
- The sales export processor only sleeps and logs.
- Logging and metrics everywhere.
- Controllers, modules, authentication, biometry, the mobile and PDV clients, and the Python service: routing, wiring and UI outside the core.
