# Verified model of the shop backend

A Dafny model of the e-commerce backend's state machines: orders, stock, returns and payments; the
outbox of accepted orders and the product sync with the Bero accounting system; subscription time;
and the sales reports. Everything is stated over all inputs and all runs.

## How it is built

- The database tables are fields of a class (`Database`, `ProductTables`, `BillingTables`). The service
  methods update those fields in place, in the order the Python code does, and put saved values back where
  the request is rolled back. Each method is proved equal to a specification function from the tables before
  to the tables after. Where the code loops, that function speaks of totals per product, first failing checks
  or outcomes by position; where the code is a few checks and one write it says the same on values, and what
  that means for callers is stated by lemmas (`StoreAccounts`, `OrderLifecycle`, `SyncCommits`).
- What those functions compute is fixed a second time, in the fields of the tables and without naming them: when an
  order is accepted and what it costs (`OrderTerms`), what every call on an order does in every reachable state
  (`OrderMoves`), the outcome of every event and the invoice id it ends with (`OutboxOutcomes`), which payment a
  webhook is about and what it does (`WebhookOutcomes`), what becomes of invoices (`BillingPapers`) and the columns a
  sync writes (`SyncDetails`). `OrderProgress` says that concurrent orders not only stay safe but go through when they
  should, and `TenantIsolation` that a call made for one store touches no other.
- A run is any sequence of calls (`ShopRuns`, `SubscriptionGate`), any sequence of webhook deliveries
  (`WebhookRedelivery`) or any interleaving of order transactions (`ConcurrentOrders`, `RestockRace`). The main
  theorems are about runs. Passes over the outbox occur in runs whole, cut short by an exception, and with their
  commit lost.
- Row ids are positions in their table. Money is `real`, time is `int` in seconds, days are numbered. A store id
  of 0 in the request context means that no store was selected, as in the code's truth tests.
- What comes from outside is a parameter: the clock, the rows a limited query returns when several orders are
  possible, the product a lookup by sku finds, which products of a feed can be parsed, and what the remote does:
  whether it takes the sale, and, independently, whether its answer gets through, with which status code, and with
  a body that is empty, cannot be decoded, decodes to something that is not an object, or is a document.

## What the proofs found

- Whatever the remote does and answers, the sales it took for an event plus the falsely confirmed one number one if
  the event is SENT and none otherwise, plus the sales the shop does not know of: those answered undecodably, not at
  all, or with a code of 400 or more, and those of a pass that was never committed (`SentMeansInvoicedOnce`). So the
  number is right if and only if as many are unknown as are falsely confirmed. If the answers that arrive tell the
  truth, that means: no undecodable answer, no lost answer, no lost pass (`TruthfulAnswersSuffice`). `GarbledExample`,
  `LostAnswerExample`, `RefusedButTakenExample` and `LostPassExample` are runs that make two sales of one order, and
  `ConfirmedNotTakenExample` is one that makes none.
- A confirmation whose body decodes to something that is not an object leaves its event SENT with no attempt counted
  and no invoice id, and ends the pass (`NonObjectExample`).
- An exception at the first event of a pass leaves the whole queue as it was if and only if it comes before that
  event is marked SENT (`ExceptionBlocksTheQueue`). `PassLeaves` and `DrainLaw` count what leaves the queue for every
  batch and every behaviour of the remote; without exceptions the queue drains (`DrainEmptiesTheQueue`).
- The approval of a return reads stock rows without a lock, and its write undoes whatever happened to the row since:
  orders taken in between leave units too many (`UnlockedRestock`), which can then be sold although they do not exist
  (`OversoldExample`); cancellations and other approvals in between are lost (`RowsInARace`, `TwoApprovalsExample`).
- When a sync by request commits can be told before it runs (`CommitsIffClear`).
- The background sync commits what each store got to before an exception, while a sync by request commits the whole
  feed or nothing (`CommittedJob`, `CommittedSync`).
- An upgrade drops the time a subscription has left, a payment keeps it (`UpgradeDropsTimeLeft`).
- A failure webhook reopens a payment that already succeeded, and the next copy of the success extends the
  subscription again (`FailureReopensExample`). `ExtendedOnceUnlessReopened` says exactly when.
- Plan durations are not validated. The closed form of the end date holds for all of them; the paid intervals follow
  one another, for all payment times, if and only if no length but the last is negative (`OrderNeedsLengths`).
- The comment in `TRANSITIONS` calls DELIVERED terminating; the review of a return moves it to RETURNED. The model
  follows the code, and the history theorem counts that edge.
- OUT_FOR_DELIVERY to RETURNED puts nothing back in stock; in the ledger such an order keeps holding its units.
- Whatever the remote answers, an event that is SENT has one confirming post, and its invoice id is the one that post
  brought, or none if the body was no object (`InvoiceIdIsThatOfTheSale`).
- The gate is open for paid time and, until the next sweep, for time that has just run out (`GateAtAnyMoment`).

## Model

| member | source | states |
|---|---|---|
| OrderService.TakeLine | app/modules/orders/services/order_service.py:45-107 | one line passes or fails with exactly the check that fails first, given what earlier lines took; if it passes, stock is what it was at the start minus the demand so far |
| OrderService.TakeLines | app/modules/orders/services/order_service.py:44-107 | the whole loop fails with the error of the first failing line, or leaves the stock minus all demand together with the priced items, the product subtotal and the shipping per unit |
| OrderService.CreateOrder | app/modules/orders/services/order_service.py:38-154 | the in-place creation with rollback equals the specification by verdict and totals, of which AcceptedIff, RefusedBecause, OneLineMore, StoreFeeOnce and NewOrderTerms say what it means in the catalogue's fields |
| StockRefinement.AcceptsIffTotalsFit | app/modules/orders/services/order_service.py:44-127 | checking stock line by line accepts if and only if every line is fine by itself, each product's total over all lines is in stock, and the store and its minimum agree |
| StockRefinement.CreateOrderRefinesTotals | app/modules/orders/services/order_service.py:38-154 | acceptance iff the totals fit; then every product loses exactly its total and nothing but one order is added; a rejection at any line changes nothing |
| OrderTerms.AcceptedIff | app/modules/orders/services/order_service.py:44-127 | an order is accepted if and only if it names something, every line's product is there, active, visible, of the store, within its cap and asked for in a positive quantity, each product's total is in the store's stock, and the store exists and its minimum is met by the line totals |
| OrderTerms.RefusedBecause | app/modules/orders/services/order_service.py:44-127 | a refused order changes nothing, and its error says what is wrong with the first line that does not pass, or with the order once all lines pass |
| OrderTerms.DemandAdds | app/modules/orders/services/order_service.py:83-91 | what two baskets ask of a product together is what they ask apart; with DemandOfOne this fixes the totals the stock is checked against |
| OrderTerms.OneLineMore | app/modules/orders/services/order_service.py:93-100 | one more line adds exactly its price times quantity if its product ships free or has no positive fee, and its fee times quantity besides otherwise |
| OrderTerms.StoreFeeOnce | app/modules/orders/services/order_service.py:129-143 | the store's fee is in the total once, if and only if it is positive |
| OrderTerms.FreeShippingExample | app/modules/orders/services/order_service.py:97-100 | two units at 10.0 that ship free cost 20.0 although the product names a fee |
| OrderTerms.NewOrderTerms | app/modules/orders/services/order_service.py:139-154 | a new order is the next one, pending, unpaid, without history, of the customer and the store, with the lines asked for and the money facts of NewOrderMoney |
| StockRefinement.StockNeverNegative | app/modules/orders/services/order_service.py:83-90 | no run of calls drives stock below zero unless an adjustment sets it there |
| ConcurrentOrders.StepKeeps | app/modules/orders/services/order_service.py:71-91 | any step of any transaction keeps: taken rows are locked, the lines taken still pass against the committed stock, and the committed stock is that of the serial run |
| ConcurrentOrders.InterleavingsAreSerial | app/modules/orders/services/order_service.py:71-91 | every interleaving of any number of transactions, aborts included, leaves the stock of running the committed ones serially in commit order, all accepted; stock stays non-negative |
| OrderProgress.LineStepIsExact | app/modules/orders/services/order_service.py:71-91 | a line waits exactly if another transaction holds its row and nothing shows to be wrong before the row is read; otherwise it goes on and locks its row exactly if it passes against the committed stock, and gives up if not |
| OrderProgress.FinishedHoldNothing | app/modules/orders/services/order_service.py:71-91 | in every schedule a row is locked only for a transaction that is running and has written it |
| OrderProgress.AloneGoesThrough | app/modules/orders/services/order_service.py:44-127 | after any schedule, once nobody else is under way, an order that has not begun commits exactly if it is accepted against the committed stock, and gives up otherwise |
| RestockRace.RowsInARace | app/modules/orders/routers/order_router.py:420-439 | in any interleaving of orders, cancellations and approvals, at any moment, every stock row is what the committed changes would leave one after the other, less what the approvals' writes undid |
| RestockRace.UnlockedRestock | app/modules/orders/routers/order_router.py:420-439 | one approval among any other calls leaves the row off by what happened between its read and its write, in every later state; if that was orders only, there are as many units too many as they took, and the row is right if and only if none of them has the product |
| RestockRace.WriteKeepsOrders | app/modules/orders/routers/order_router.py:428-430 | the write waits for the row, so no order under way is disturbed by it |
| RestockRace.FreeRowsAreWritten | app/modules/orders/routers/order_router.py:428-430 | a write waits for nothing but the row: an approval then writes what it read plus its units, a cancellation adds its units to what is there |
| RestockRace.LostUpdateExample | app/modules/orders/routers/order_router.py:420-439 | a schedule with an order in between after which the row holds six units where four should be |
| RestockRace.OversoldExample | app/modules/orders/routers/order_router.py:420-439 | the same schedule with an order for all six let in afterwards, so that eight of six were sold |
| RestockRace.TwoApprovalsExample | app/modules/orders/routers/order_router.py:420-439 | two approvals of a unit each, both read before either writes, put back one unit |
| OrderService.Restock | app/modules/orders/services/order_service.py:170-192 | putting items back row by row adds each product's total, inserting missing rows; it conflicts exactly when a row belongs to another store or would be inserted twice in the session |
| OrderMoves.RestockConflictsExactly | app/modules/orders/services/order_service.py:170-192 | putting back conflicts if and only if a row belongs to another store or a product without a row comes in two lines |
| OrderService.UpdateStatus | app/modules/orders/services/order_service.py:156-223 | the in-place change of status, history, stock and outbox with rollback equals its specification, of which MovesAreExactly says what it means in every reachable state |
| OrderMoves.MovesAreExactly | app/modules/orders/services/order_service.py:156-223 | in every reachable state a caller who sees the order moves it if and only if the pair of statuses is one of the ten written out; then the order has the new status and a history row naming who moved it, no other order changes, the goods are back iff it was cancelled, and one pending event stamped with the time of the call is added iff it was accepted in a connected store; otherwise the error names both statuses and nothing changes |
| OrderMoves.CanBeCancelled | app/modules/orders/services/order_service.py:17-26 | in every reachable state a pending, accepted, preparing or ready order can be cancelled, and all its quantities are back in stock then |
| OrderMoves.UnseenIsNotMoved | app/modules/orders/services/order_service.py:156-159 | an order that is not there or belongs to a store other than the selected one is not found, and nothing changes |
| OrderService.EnqueueOrderAccepted | app/modules/integrations/bero_service.py:322-351 | one pending event for a connected store's order, none if there is one already |
| OrderLifecycle.ReturnAskedOnce | app/modules/orders/routers/order_router.py:223-257 | once a request was let in it stays with the order and its customer, and in every later state nobody can ask for a return of that order again |
| OrderMoves.ReturnIsLetInIff | app/modules/orders/routers/order_router.py:223-257 | exactly the customer of a delivered order or a super admin gets a request in, once; it is pending and names the order, its store and its customer; each refusal says why |
| OrderLifecycle.RequestCanBeApproved | app/modules/orders/routers/order_router.py:404-443 | in every reachable state, a request that was just let in can be approved, which returns the order |
| ReturnRouter.ReviewReturnRequest | app/modules/orders/routers/order_router.py:382-474 | a pending request gets the verdict; an approval also puts the goods back and moves the order, or everything is undone |
| OrderMoves.ReviewsAreExactly | app/modules/orders/routers/order_router.py:390-453 | in every reachable state a review goes through if and only if a super admin, or an owner or admin of the request's store, who sees it decides a pending request; the request gets the verdict, an approval returns the order with its history row and puts its goods back, any other verdict touches neither; every refusal says why and changes nothing |
| ShopInvariants.ApprovalFindsDelivered | app/modules/orders/routers/order_router.py:404-443 | an approval that goes through always starts from a delivered order, although nothing checks it |
| ShopInvariants.Keeps | app/modules/orders/services/order_service.py:156-223 | every call keeps the invariant of orders, rows, returns, payments and events together |
| OrderLifecycle.HistoryIsAChain | app/modules/orders/services/order_service.py:17-26 | in every reachable state an order's history is a chain from PENDING to its status along the ten moves written out or the approval edge, a rank falls strictly along it, at most 6 rows |
| OrderLifecycle.RunGrows | app/modules/orders/services/order_service.py:161-168 | along every run orders keep store, customer, items and total, histories only grow, cancelled and returned orders never move, attempts never fall, SENT events never change |
| OrderLifecycle.ReturnMachine | app/modules/orders/routers/order_router.py:239-256 | in every reachable state: at most one request per order, pending and rejected ones go with delivered orders, and approved means exactly returned by approval |
| OrderLifecycle.ApprovedStaysReturned | app/modules/orders/routers/order_router.py:415-443 | an approved order is RETURNED in every later state |
| OrderLifecycle.RestockNeverConflicts | app/modules/orders/services/order_service.py:172-192 | in every reachable state an order's goods can be put back without a missing, doubled or foreign inventory row |
| StockLedger.Conservation | app/modules/orders/services/order_service.py:83-91 | in every reachable state, per product: stock on hand plus quantities in orders not put back equals initial stock plus adjustments |
| StockLedger.PutsBackItsQuantities | app/modules/orders/routers/order_router.py:420-439 | a call that puts an order back adds exactly that order's quantity of each product |
| StockLedger.PutBackExactlyOnce | app/modules/orders/services/order_service.py:170-192 | over any run an order is put back exactly once if it is cancelled or has an approved return, and never otherwise |
| OrderLifecycle.PaymentAskedOnce | app/modules/payments/services/payment_service.py:12-29 | once a payment was created it stays with its order, for exactly the order's total, and in every later state no second payment of that order is let in |
| OrderLifecycle.CompletingPays | app/modules/payments/services/payment_service.py:31-45 | completing a payment marks its order paid, and it is paid in every later state; PaidIffCompleted says that nothing else does |
| OrderMoves.PaymentIsLetInIff | app/modules/payments/services/payment_service.py:12-29 | exactly the first payment of an order that the caller sees is let in, pending, for the order's total and store |
| OrderMoves.PaymentsAreExactly | app/modules/payments/services/payment_service.py:31-45 | in every reachable state exactly a payment that the caller sees is changed: it has the status asked for, or its old one if none was sent, and its order is paid afterwards if and only if it was before or the payment is completed; no other payment or order changes |
| OrderMoves.PaidIffCompleted | app/modules/payments/services/payment_service.py:31-45 | in every reachable state an order is paid if and only if some call of the run left its payment completed, so a new order is unpaid and no other call pays it |
| OrderLifecycle.PaymentsAgree | app/modules/payments/services/payment_service.py:12-45 | in every reachable state: at most one payment per order, of exactly its total, and completed implies paid |
| OrderLifecycle.NewOrderMoney | app/modules/orders/services/order_service.py:93-145 | an accepted request makes a non-empty single-store order with positive quantities, catalogue prices, line totals, the store minimum met, and as its total the line totals, the fee of every unit that does not ship free and has a positive fee, and the store's positive fee once |
| OrderLifecycle.EveryOrderIsPriced | app/modules/orders/services/order_service.py:93-145 | every order of every reachable state still has the money facts it was created with, against the catalogue of the call that created it |
| OrderLifecycle.OneEventPerAcceptance | app/modules/integrations/bero_service.py:330-351 | in every reachable state: at most one event per order, and only if its history holds PENDING to ACCEPTED |
| TenantIsolation.CallsStayInTheirStore | app/core/base_repository.py:14-24 | in every reachable state a call made for a store changes and adds orders, requests, payments, stock rows and events of that store only |
| BeroOutbox.BuildItems | app/modules/integrations/bero_service.py:401-418 | the invoice lines exist if and only if every line's product is mapped |
| BeroOutbox.HandleEvent | app/modules/integrations/bero_service.py:367-445 | one event handled in place equals the specification whose outcomes PassOutcomes writes out, and the method says exactly when an exception leaves the loop, before the mark or after it |
| BeroOutbox.ProcessOutbox | app/modules/integrations/bero_service.py:353-447 | the loop equals handling the batch up to and including the first event that raises |
| OutboxTheorems.BatchExists | app/modules/integrations/bero_service.py:355-364 | the query of at most 50 eligible events, oldest first, always has an answer |
| OutboxTheorems.CutPass | app/background/tasks.py:78-87 | a pass, cut short or not, leaves exactly the outcomes of the events it got to and every other event untouched; the event that raised is untouched if and only if the exception came before the mark, and otherwise is SENT and nothing else |
| OutboxOutcomes.PassOutcomes | app/modules/integrations/bero_service.py:367-445 | a pass gets to all events up to and including the first that stops it, and gives each its outcome written out field by field: postponed by 300 seconds with its reason, by the back-off after a refusal with its code, untouched, marked SENT alone, or SENT with the invoice id of the body; no other event changes |
| OutboxOutcomes.BackoffDoubles | app/modules/integrations/bero_service.py:433-438 | the wait after a refusal is 2, 4, 8, 16, 32 minutes and then an hour, doubling every time until then |
| OutboxOutcomes.OldestGetIn | app/modules/integrations/bero_service.py:355-364 | a due event is in the batch whenever at most fifty due events are as old or older, so nobody is passed over for younger ones |
| OutboxOutcomes.OlderComeFirst | app/modules/integrations/bero_service.py:360-367 | a due event older than one the pass gets to is got to before it |
| OutboxTheorems.PassLeaves | app/modules/integrations/bero_service.py:353-447 | for every batch and whatever the remote does, exactly the settled events leave the queue: those before the exception, and the one that raised if it was marked; all of the batch leaves iff all settled, none iff none |
| OutboxTheorems.DrainLaw | app/modules/integrations/bero_service.py:353-447 | over any passes at a fixed clock the queue shrinks by the number of settled events, so it is empty iff that is all of them |
| OutboxTheorems.SmoothPassRemoves | app/modules/integrations/bero_service.py:353-447 | a pass without exceptions takes exactly min(50, n) of n eligible events out and attempts each of them once |
| OutboxTheorems.DrainEmptiesTheQueue | app/modules/integrations/bero_service.py:353-447 | at a fixed clock k such passes leave max(0, n - 50k) eligible; when 50k reaches n none is left, each was attempted exactly once, nothing else changed |
| OutboxTheorems.ExceptionBlocksTheQueue | app/modules/integrations/bero_service.py:432-442 | a pass changes no event if and only if its first event reaches the POST and raises before the mark |
| OutboxHistory.SentMeansInvoicedOnce | app/modules/integrations/bero_service.py:432-445 | over every run, lost passes included, and whatever the remote does and answers: sales taken for an event plus falsely confirmed ones number one if it is SENT and none otherwise, plus the unknown ones (undecodable, unanswered, refused but taken, uncommitted); the number is right if and only if as many are unknown as falsely confirmed |
| OutboxOutcomes.InvoiceIdIsThatOfTheSale | app/modules/integrations/bero_service.py:440-444 | over every run, an event is SENT if and only if the log has a confirming post for it, which is the only one, and its invoice id is that of this post's document, empty for an empty body and none for a body that is no object; any other event has none |
| OutboxHistory.TruthfulAnswersSuffice | app/modules/integrations/bero_service.py:432-445 | if the stored answers below 400 are exactly those of sales taken, the number is right if and only if no sale met an undecodable answer, a lost answer or a lost pass |
| OutboxHistory.UnmarkedIsPostedAgain | app/modules/integrations/bero_service.py:432-440 | any event of any batch whose sale was taken with a reply that does not mark it is back in the queue once the back-off is over, and the next pass that gets to it and is taken makes a second sale |
| OutboxExamples.GarbledExample | app/modules/integrations/bero_service.py:440-445 | a run from an empty shop in which an undecodable answer makes two sales of one order |
| OutboxExamples.LostAnswerExample | app/modules/integrations/bero_service.py:432-432 | the same when the remote took the sale and its answer was lost |
| OutboxExamples.RefusedButTakenExample | app/modules/integrations/bero_service.py:433-438 | the same when the remote took the sale and the answer was a 504 |
| OutboxExamples.ConfirmedNotTakenExample | app/modules/integrations/bero_service.py:440-445 | a run in which a 200 for a sale that was not taken leaves the event SENT without one |
| OutboxExamples.LostPassExample | app/background/tasks.py:78-87 | the same when the pass that heard of the acceptance was not committed |
| OutboxExamples.NonObjectExample | app/modules/integrations/bero_service.py:440-445 | a run that leaves an event SENT with no attempt and no invoice id |
| OutboxHistory.EveryInvoiceIsComplete | app/modules/integrations/bero_service.py:387-432 | every invoice ever posted has the lines of the order in order with the mapped ids of the moment of the pass that sent it, quantities and prices, and its total is the order's total, its lines plus the shipping charged at creation |
| SyncTheorems.MappedFeedIgnoresLookups | app/modules/integrations/bero_service.py:201-221 | when every fed product parses and is mapped, a sync commits to the same tables whatever the lookups by sku would find, and adds no row and no product |
| BeroSync.ProductTables.WriteProduct | app/modules/integrations/bero_service.py:223-249 | the product and its stock row afterwards, created or overwritten |
| BeroSync.ProductTables.UpsertProduct | app/modules/integrations/bero_service.py:190-268 | the in-place upsert equals its specification, including what queries can see before a flush |
| SyncDetails.OneProduct | app/modules/integrations/bero_service.py:195-266 | a product of the feed goes to the mapped product, or else to the one of the store with its sku, or else to a new one, which has the feed's name, price, quantity, origin and sku, keeping its own sku if the feed has none; its mapping row has barcode, sku and the time of the sync, and no other row changes |
| SyncDetails.WhyOneFails | app/modules/integrations/bero_service.py:190-221 | a product without an id is passed over; one that cannot be parsed, or is unmapped with an ambiguous sku, raises exactly that; a broken key needs a stock row not flushed yet |
| SyncDetails.TwiceInARow | app/modules/integrations/bero_service.py:201-262 | an unmapped id that comes twice in a row gets two mapping rows, so that the sync cannot be committed |
| SyncDetails.FoundAfterCreation | app/modules/integrations/bero_service.py:223-247 | creating a product flushes what was added before, so the id is found again and keeps its one row |
| BeroSync.ProductTables.SyncProducts | app/modules/integrations/bero_service.py:270-287 | the products up to the first that raises are brought in, with what raised and the count of products with an id |
| BeroSync.ProductTables.SyncBeroNow | app/modules/stores/routers/store_router.py:459-470 | a sync by request commits the whole feed or changes nothing |
| BeroSync.ProductTables.RunIncrementalSync | app/background/tasks.py:59-75 | the job goes through all stores in one session, keeps what each got to before an exception, and commits all of that or nothing |
| SyncCommits.CommitsIffClear | app/modules/integrations/bero_service.py:190-287 | a sync by request of a feed with distinct ids commits if and only if every product parses, no needed lookup is ambiguous, the mapping is one-to-one, and the unmapped products go to products that are neither mapped yet nor shared, all told before it runs |
| SyncTheorems.CommittedSync | app/modules/integrations/bero_service.py:190-287 | a committed sync of a feed with distinct ids keeps the mapping one-to-one, adds only rows of the store for fed ids, gives each fed id's product the feed's name, price, sku and quantity, and adds or changes no other product, stock row or mapping, whatever the sku lookups found |
| SyncDetails.SyncStampsItsRows | app/modules/integrations/bero_service.py:251-266 | after a committed sync every mapping row of a fed id has the time of the sync |
| SyncDetails.ReportsIdentified | app/modules/integrations/bero_service.py:277-287 | the number reported is that of the products with an id |
| SyncTheorems.SyncIsIdempotent | app/modules/integrations/bero_service.py:190-287 | the same feed again commits, creates no row and changes nothing but timestamps |
| SyncJob.CommittedJob | app/background/tasks.py:59-75 | what the job commits is, for every store, exactly the products before the one that stopped its turn, which only one that cannot be parsed or has an ambiguous sku can do; the mapping is one-to-one, everything else is as it was, and one store's exception costs no other store anything |
| SyncJob.JobOfOneStore | app/background/tasks.py:59-75 | with one connected store the job does what a sync by request does, except that a product which cannot be parsed or is ambiguous costs only the products from there on |
| StoreAccounts.AnyCall | app/modules/subscriptions/services/subscription_service.py:36-149 | any call on the tables turns every store's account (none, or plan, status, start, end and trial end of its row) into exactly what the call makes of it: trial, upgrade, activation, invoice, webhook, deletion and sweep touch no other store and leave one subscription per store |
| StoreAccounts.AccountsOverRuns | app/core/deps.py:147-155 | over every run from empty tables the first-match lookup amounts to one account per store kept call by call, and gate and end date are those of the account |
| SubscriptionEffects.OneTrialPerStore | app/modules/subscriptions/services/subscription_service.py:36-45 | once a store has a subscription, no run without a deletion ever gives it another trial |
| SubscriptionEffects.UpgradeDropsTimeLeft | app/modules/subscriptions/services/subscription_service.py:68-85 | a payment for the same plan at the same moment ends later than an upgrade by exactly the time that was left |
| SubscriptionService.BillingTables.HandleInvoicePayment | app/modules/subscriptions/services/subscription_service.py:101-116 | invoice paid and subscription activated, or neither |
| BillingPapers.InvoiceIsMarkedPaid | app/modules/subscriptions/services/subscription_service.py:101-116 | an invoice goes through if and only if it exists, its subscription exists and has a known plan; then it is paid at the time of the call, no other paper changes, and its store has the plan's days from now; each failure says why and changes nothing |
| BillingPapers.SubscriptionAnswers | app/modules/subscriptions/services/subscription_service.py:68-149 | what upgrades, activations, suspensions and deletions answer, in the order of their checks, and that a refused one changes nothing |
| BillingPapers.OnlySubscriptionsChange | app/modules/subscriptions/services/subscription_service.py:36-99 | trials, upgrades, activations and sweeps touch nothing but subscriptions |
| SubscriptionEffects.DeletionTakesItsPapers | app/modules/subscriptions/services/subscription_service.py:138-149 | a deletion takes exactly the invoices and payments of the subscription along and frees its store to start a trial again |
| SubscriptionService.BillingTables.CheckExpiredSubscriptions | app/background/tasks.py:12-27 | exactly the active and trial subscriptions that have run out become suspended |
| SubscriptionService.BillingTables.HandleWebhook | app/modules/payments/services/subscription_payment_service.py:82-126 | a webhook handled in place, with its rollback, equals the specification of which AnyWebhook says what it does to every row |
| WebhookOutcomes.LookupFindsIt | app/modules/payments/services/subscription_payment_service.py:107-116 | told from the rows: an event is about row i if and only if its id names the existing row i, or its id names no row and i is the only row with its intent; the lookup raises if and only if the id names no row and two rows have the intent, and finds nothing if and only if there is no such row |
| WebhookOutcomes.AnyWebhook | app/modules/payments/services/subscription_payment_service.py:82-126 | an unknown provider and an ambiguous event raise and leave no trace; a forged event and one about no row leave their log entry alone; any other marks the one row it is about as its kind says, with the time of the call for a success, changes no other payment, and is logged with that row, or raises for an unknown plan and leaves no trace |
| WebhookOutcomes.EffectiveIsAbout | app/modules/payments/services/subscription_payment_service.py:107-126 | the events the redelivery theorems count are the genuine ones that report a failure, or a success for a known plan, of the row they are about |
| SubscriptionService.BillingTables.ProcessSuccess | app/modules/payments/services/subscription_payment_service.py:128-161 | a succeeded payment is left alone; any other is marked and extends or creates the subscription |
| WebhookRedelivery.ExtendsWhatItTurns | app/modules/payments/services/subscription_payment_service.py:120-167 | a webhook changes subscriptions only if it turns a payment to succeeded, and then extends exactly the one of that payment's store; failures and repeats change none |
| Renewals.ClosedForm | app/modules/payments/services/subscription_payment_service.py:146-161 | after any purchases the end date is the maximum of the old end plus everything bought and, over i, the i-th time plus everything bought from i on |
| Renewals.PaidIntervals | app/modules/payments/services/subscription_payment_service.py:146-161 | for all durations: each paid interval has the length paid for, starts no earlier than its payment and the one before stops, and exactly there unless its payment came later |
| Renewals.OrderNeedsLengths | app/modules/subscriptions/models.py:28-29 | whatever the old end and the payment times, every interval lies after the old end and all earlier ones, if and only if no length but the last is negative |
| WebhookRedelivery.StatusIsLatestEvent | app/modules/payments/services/subscription_payment_service.py:120-167 | after any deliveries a payment counts as succeeded exactly if its latest effective event was a success, or there was none and it was before |
| WebhookRedelivery.OnlyKeptMatter | app/modules/payments/services/subscription_payment_service.py:128-167 | any deliveries, failures included, leave the subscriptions and payments of those that found their payment unpaid |
| WebhookRedelivery.FirstDeliveriesSuffice | app/modules/payments/services/subscription_payment_service.py:128-161 | without failures, any duplication and interleaving leaves the accounts of each payment's first delivery alone |
| WebhookRedelivery.EndIsThatOfPurchases | app/modules/payments/services/subscription_payment_service.py:128-161 | after any deliveries each store's end date is that of its purchases in order, each payment bought once as long as it counts as paid |
| WebhookRedelivery.EndInClosedForm | app/modules/payments/services/subscription_payment_service.py:128-161 | after any deliveries, duplicates and failures included, a store's end date is the maximum of the old end plus everything bought and, over i, the i-th purchase time plus everything bought from i on |
| WebhookRedelivery.ExtendedOnceUnlessReopened | app/modules/payments/services/subscription_payment_service.py:128-167 | for any payment, counting the turns of its row to succeeded in the tables, each of which extended a subscription, and one more if it was paid before: at least one iff it was ever paid, more than one iff a failure came between being paid and a success |
| WebhookRedelivery.FailureReopensPayment | app/modules/payments/services/subscription_payment_service.py:163-167 | for any payment not paid yet, success, failure, success extends twice |
| WebhookRedelivery.FailureReopensExample | app/modules/payments/services/subscription_payment_service.py:163-167 | concrete books in which one purchase of a day buys two |
| SubscriptionGate.PaidTimeIsNeverLocked | app/core/deps.py:147-155 | in every run, a store with a subscription that has not run out passes the gate |
| SubscriptionGate.GateAtAnyMoment | app/core/deps.py:147-155 | at any moment the gate is open if and only if the time is paid or the subscription has run out since the last sweep |
| SubscriptionGate.GateAgreesAfterSweep | app/background/tasks.py:12-27 | right after a sweep the gate is open if and only if the store has a subscription ending later |
| SalesReports.FillDays | app/modules/stores/routers/store_router.py:233-248 | the dictionary has every day of the series, with its total if the query had a row and zero otherwise |
| SalesReports.DashboardSales | app/modules/stores/routers/store_router.py:218-252 | for 1 to 90 days: one entry per consecutive day up to today with that day's total, adding up to the window's plain total |
| SalesReports.EachOrderCountsOnce | app/modules/stores/routers/store_router.py:235-244 | an order of the store within the days counts once with its amount, and one of another store or another day makes no difference, to totals and counts |
| SalesReports.DashboardAddsUp | app/modules/stores/routers/store_router.py:232-251 | for any length, daily totals of consecutive days add up to the total of the window |
| SalesReports.WeeklySales | app/modules/stores/routers/store_router.py:297-324 | four buckets with sales and order counts of their day ranges |
| SalesReports.BucketsPartition | app/modules/stores/routers/store_router.py:297-302 | for any window the buckets are disjoint and cover exactly its first min(days, 4 * max(1, days div 4)) days, all but at most three |
| SalesReports.BucketsAddUp | app/modules/stores/routers/store_router.py:269-324 | bucket sales and counts are those of the window minus those of its last at most three days |

## Left out

- Routing, authentication, validation of request bodies, uploads, notifications, QR codes, messages and notes: no part of the state machines. The role checks inside the return review are modelled.
- The stored row objects are values in tables, so aliasing between two loaded copies of a row is not modelled; neither are two rows found by a lookup whose uniqueness the theorems establish.
- Concurrency is modelled for order creation, and for putting goods back by approvals and cancellations against it and each other; every other call is one atomic step, although order rows are not locked in the code. In the runs of the shop approvals and cancellations are atomic too.
- Passes over the outbox do not overlap: the scheduler runs one instance of a job per process, and two processes with a scheduler each are not modelled.
- Deleting a user, which cascades to the user's orders: the runs assume that orders, their items, return requests and payments stay.
- An exception while an event's token is decoded, which ends a pass like any exception before the mark.
- Order items are taken in the order they were created in; the relationship declares no order.
- NULL quantities, NULL store ids of products and non-numeric settings, which the column types or coercions rule out.
- Rounding of floats, and the mixing of naive and aware timestamps.
- The catalogue, connections, mappings and stock adjustments change arbitrarily between calls in the runs of the shop; their own endpoints are not modelled, except that a product named by an order item cannot be deleted.
- The product sync and the order machine are separate models: a sync acts on the shop as an arbitrary settings edit and stock adjustment.
- `connect` and its strategies, slugs of created products, and how feed fields are parsed; whether a product can be parsed is part of the feed.
- BeroSync.ProductTables.UpsertProduct: does not model which product a sku lookup finds but allows any product of the store, because queries see flushed skus while the session holds newer ones.
- BeroOutbox.ProcessOutbox: does not return the number of sent events, which is only written to a log; the stored payload of an event, which is never read back, is left out too.
- SubscriptionService.BillingTables.DeleteSubscription: does not remove the webhook log entries of the deleted payments.
- The admin override of a subscription status, which breaks the machine on purpose; starting a payment with a provider, provider signatures and the Stripe client.
- Category distribution, top products, visits, dashboards of counts, couriers, cart, support, roles, audit: single queries or easy one-branch facts.
