# Verified models of the shop backend

This project models the parts of the shop backend that move money, consent and stock, and proves what
they are supposed to guarantee. `dafny verify dfyconfig.toml` checks all of it.

Each protocol is a step system: a state that holds the rows of every service involved, a step for every
transaction, remote call, crash or answer, and runs that interleave steps in any order. The safety files
prove an invariant of every step, the theorem files what follows for every run, the request files what each
request writes and when it is refused, and the progress files what can still be reached from every reachable
state. Beside them, classes and methods do the row-level work in the form the services do it (guarded
updates, loops over rows, running totals), each proved equal to the function the step system uses.

- **West pocket** (`Split`, `PaymentBills*`, `PaymentStore`, `WestPocket*`). A pocket is split, published,
  collected and settled, or cancelled. A worker bills one member at a time in another service and may stop
  anywhere; a call it gave up may still be carried out later. Safety rests on the source lock with the
  state check inside it, the job lock, the bill versions and on publishing never being entered twice.
- **Face profiles** (`FaceProfile*`). Enrollment, replacement and revocation with the enrollment version as
  a fence, and a provider that holds persons and may fail before or after taking effect.
- **Spot orders** (`SpotOrder*`). Orders, stock and ledger in one service and bills in another, with calls
  inside transactions that may still be rolled back, and that may be carried out after that.
- **Errand group buy** (`Errand`, `ErrandSafety`, `ErrandTheorems`, `ErrandTotals`, `ErrandFrozen`,
  `ErrandCompletion`, `ErrandOffers`, `ErrandProgress`, `ErrandRequests`, `ErrandStore`, `ErrandNotify`).
  Demands are split into a captain's task, bought, distributed and paid for.
- **Errand payments** (`ErrandPayments*`). The errand tables together with the bills of the other service:
  drafts read before the task is locked, bills created one by one, and callbacks that may be lost.
- **Errand amounts** (`ErrandAmounts*`). What those bills are made out for: each call is for the amount of its
  draft, and the drafts may be out of date by the time the task is collected for.
- **Errand bills** (`ErrandBilling*`, `ErrandCollectingView`, `ErrandBuyerView`). The same bill computed
  three ways, in Go's int32 and int64.
- **Algorithms**: `LikePattern` (escaping for LIKE), `Base64`, `CursorToken` and `PocketListing` (signed
  page tokens and paging), `Snowflake` (ids from an unruly clock), `MatchFaces` (face suggestions).

## What the code does not guarantee

Where a property one would expect fails, the model follows the code, a lemma gives a concrete input or run,
and another says exactly when the property does hold.

- A cancel call the worker gave up on can be carried out after payment was sent back and a second
  cancellation was refused: the pocket returns to collecting with closed bills (`LateCancelCloses`,
  `LiveRunsIff`, `NoAbandonIsLive`).
- Retrying an enrollment whose cleanup has already run can leave a person at the provider for good, because
  the cleanup row is found by its key and not queued again (`RetryLeavesOrphan`, `TrackedRunsIff`).
- An errand task completed without bills updates only rows that are pending payment or completed, so all its
  items stay distributing for ever (`RunWithoutBills`, `WithoutBillsStrands`). It happens exactly when nobody
  but the captain had a positive share when the drafts were read (`WithoutBillsIff`).
- The callback for confirmed payments completes the errand task alone, and only billed payers are ever
  confirmed: the item of the captain, or of a buyer who was given nothing, stays pending payment for ever
  (`RunByCallback`, `StaysBehind`). It completes every item exactly when no purchaser is the captain and every
  one was given something (`CallbackIff`, `CallbackSharesIff`).
- The drafts of an errand task's bills are read before the task is locked, and a price or share that changes
  after that is not noticed: the buyer is billed at the old price (`StalePrice`). The bills are right exactly
  when everybody who owes something owed as much when the drafts were read (`BillsAreRightIff`). If the attempt
  breaks off instead, its bills stay, and every later attempt at other amounts is refused (`BlockedRetry`,
  `CollectsIff`).
- The required quantity of a group is summed in int32 without a check. A total beyond it can be accepted as a
  small one (`OverflowedTask`); it is right exactly when the plain sum is an int32 (`RequiredIsExactIff`), and
  a selection is accepted exactly when every plain sum wraps to a positive number (`CreateTaskAcceptedIff`).
- A payer's running int64 total can wrap all the way round, so that a small bill is made where the
  captain's view refuses the same rows (`WrappedBill`, `FailuresAgreeIff`).

## Assumptions

- A database transaction with its row locks is one step; a call to another service is a step of its own.
- `updated_at` in an update guard is a version nobody has seen before.
- A session advisory lock is exclusive while a job runs and is released by a crash.
- A provider call takes effect, if at all, before it returns.
- Serial ids are not used again after a rollback.
- In `ErrandPayments` a payment confirmation is carried out in one step; `Errand` also allows everything
  between its read and its write.
- A Go map is iterated in one fixed order where the order of the rows written is visible
  (`CreateTask`), and in the order of first appearance where it is not (`Send`).

## Model

| member | source | states |
|---|---|---|
| `Split.SplitMembers` | internal/service/westpocketservice/internal/westpocket/domain.go:74-98 | the shares, the own share and the receivable that the specification gives, or its error; the input order is not touched |
| `Split.AssignShares` | internal/service/westpocketservice/internal/westpocket/domain.go:87-98 | the in-place loop writes base plus one cent for the first remainder rows, and stops at a repeated or non-positive id |
| `Split.SplitIsFair` | internal/service/westpocketservice/internal/westpocket/domain.go:74-98 | shares sum to the total, are at least one cent, fall by user id, differ by at most a cent; own share plus receivable is the total |
| `Split.SplitKeepsRows` | internal/service/westpocketservice/internal/westpocket/domain.go:74-98 | the result holds exactly the given rows with new shares |
| `Split.SplitIgnoresOrder` | internal/service/westpocketservice/internal/westpocket/domain.go:74-98 | the outcome, success or error, depends only on which rows are given |
| `Split.SplitAcceptsIff` | internal/service/westpocketservice/internal/westpocket/domain.go:74-98 | a split is accepted exactly for 2 to 50 members, a cent each at least, and distinct positive ids |
| `PaymentBillsTheorems.ServeAllKeeps` | internal/service/paymentservice/internal/service/bill.go:114-455 | every sequence of creates, cancellations, reads and guarded writes keeps one bill per debt and the versions ordered |
| `PaymentBillsTheorems.NeverTwoBills` | internal/service/paymentservice/internal/service/west_pocket.go:79-132 | after any sequence of requests a debt has at most one live bill, and a pocket member at most one bill ever |
| `PaymentBillsTheorems.RowOutlives` | internal/service/paymentservice/internal/repository/bill.go:62-175 | over any sequence a row keeps its columns, a completed or closed one does not change at all, and an equal version means an equal row |
| `PaymentBillsTheorems.ClosedForGood` | internal/service/paymentservice/internal/service/west_pocket.go:79-132 | once a pocket member's bill is closed no sequence of requests leads to a live one |
| `PaymentBillsTheorems.RepeatedCreate` | internal/service/paymentservice/internal/service/bill.go:351-406 | a create repeated any number of requests later answers the first bill and adds no row while that bill is not closed; once it is closed a pocket's create fails |
| `PaymentBillsTheorems.CreateIff` | internal/service/paymentservice/internal/service/bill.go:351-406 | a create is refused for an order without two different users or with a negative amount; a row in the way is its answer if it is live and says the same and fails it otherwise; and if there is none exactly the unpaid bill asked for is added |
| `PaymentBillsTheorems.CancelTaskCloses` | internal/service/paymentservice/internal/repository/bill.go:111-140 | cancelling a task closes its bills that are not completed, and touches no other |
| `PaymentBillsTheorems.StaleNeverWrites` | internal/service/paymentservice/internal/repository/bill.go:62-98 | a user who read a row before somebody else wrote or closed it never writes it, whatever requests come in between |
| `PaymentBillsTheorems.OnlyItsRequestMoves` | internal/service/paymentservice/internal/service/bill.go:114-455 | a bill is submitted only by its payment, completed only by its confirmation, reopened only by sending it back and closed only by a cancellation; a serial number changes no status |
| `PaymentBillsTheorems.FreshWrite` | internal/service/paymentservice/internal/service/bill.go:302-345 | a user who has just read a bill in the status the request is for writes exactly the status that request leaves, under a later version, and no other row |
| `PaymentBillsTheorems.CancelForOrderIff` | internal/service/paymentservice/internal/repository/bill.go:111-140 | cancelling is refused exactly when the payment is confirmed; otherwise no live bill is left, nobody else is touched, and repeating it changes nothing |
| `PaymentBillsTheorems.CancelPocketIff` | internal/service/paymentservice/internal/repository/west_pocket.go:42-61 | refused, changing nothing, once a bill was submitted or completed; otherwise every bill of the pocket and no other is closed, and no later sequence reopens one or gives its payer a live one |
| `PaymentStore.BillTable.Find` | internal/service/paymentservice/internal/repository/west_pocket.go:29-38 | the first row of the source and payer, or none if no row matches |
| `PaymentStore.BillTable.Create` | internal/service/paymentservice/internal/service/west_pocket.go:79-132 | the state check, search and insert leave the table and give the answer of the model, and nothing changes if the pocket does not allow the bill |
| `PaymentStore.BillTable.CancelUnpaid` | internal/service/paymentservice/internal/repository/west_pocket.go:42-61 | the loop over the rows closes every bill or none, as the model says |
| `PaymentStore.BillTable.UpdateStatus` | internal/service/paymentservice/internal/repository/bill.go:62-98 | a row is written exactly when the version is the one read and it is not closed |
| `PaymentStore.Validate` | internal/service/paymentservice/internal/service/west_pocket.go:43-63 | accepts exactly a positive share of a member other than the owner, payable to the owner, in the wanted state |
| `WestPocketSafety.StepKeeps` | internal/service/westpocketservice/internal/westpocket/worker.go:214-340 | every step of owner, worker, paymentservice, payer, payee and refresh keeps the protocol invariant |
| `WestPocketSafety.RunsKeep` | internal/service/westpocketservice/internal/westpocket/worker.go:59-144 | the invariant holds in every state of every interleaving, crashes and abandoned calls included |
| `WestPocketTheorems.CancelledIsFinal` | internal/service/westpocketservice/internal/westpocket/worker.go:290-340 | a cancelled pocket has every bill closed for ever, and no late publisher inserts one |
| `WestPocketTheorems.AllOrNothing` | internal/service/paymentservice/internal/repository/west_pocket.go:42-61 | in every reachable state either no bill is closed or all are, and then the table is final |
| `WestPocketTheorems.CollectingIsBilled` | internal/service/westpocketservice/internal/westpocket/worker.go:214-275 | while collecting or settled every member but the owner has exactly one bill for the frozen share, and together they are the receivable |
| `WestPocketTheorems.SettlementConserves` | internal/service/westpocketservice/internal/westpocket/worker.go:783-833 | settled implies every bill completed, and what was paid plus the own share is the total; that a paid pocket does settle is PaidPocketSettles |
| `WestPocketProgress.PaidPocketSettles` | internal/service/westpocketservice/internal/westpocket/worker.go:783-833 | from every reachable collecting state whose bills are all completed one undisturbed refresh ends settled, with bills, members and shares unchanged |
| `WestPocketProgress.SettleStepIff` | internal/service/westpocketservice/internal/westpocket/worker.go:826-830 | a refresh that read every bill completed settles the pocket exactly when it is still collecting, however late it writes |
| `WestPocketProgress.CollectingCanSettleIff` | internal/service/westpocketservice/internal/westpocket/worker.go:783-833 | a reachable collecting pocket can still be paid and settled exactly when none of its bills is closed |
| `WestPocketProgress.BillCanComplete` | internal/service/paymentservice/internal/service/bill.go:180-231 | while the pocket collects, payer and payee can complete any bill that is not closed, without touching another |
| `WestPocketProgress.PublishCanFinish` | internal/service/westpocketservice/internal/westpocket/worker.go:214-275 | from every reachable publishing state an undisturbed worker ends collecting with everybody billed for the frozen share, whatever calls and bills an earlier worker left |
| `WestPocketProgress.CancelCanFinish` | internal/service/westpocketservice/internal/westpocket/worker.go:290-340 | from every reachable cancelling state an undisturbed worker ends cancelled with every bill closed, exactly when nobody has paid, and collecting with every bill as it was otherwise |
| `WestPocketProgress.CancelRequestEnds` | internal/service/westpocketservice/internal/westpocket/service.go:463-495 | from every reachable draft, publishing or collecting pocket a run that starts with the owner's request ends that way |
| `WestPocketProgress.OnlyTheOwnerActs` | internal/service/westpocketservice/internal/westpocket/service.go:121-140 | a request by anybody else, or with a revision that is not the current one, changes nothing |
| `WestPocketRequests.EditsIff` | internal/service/westpocketservice/internal/westpocket/service.go:189-335 | a draft is edited exactly by its owner at the current revision, to a positive total or to 1 to 50 different users, listed once each by rising id, and the edit changes that one thing |
| `WestPocketRequests.StaleRequestIsRefused` | internal/service/westpocketservice/internal/westpocket/service.go:142-147 | whatever happens between the owner's look and the request: if it changed anything the owner saw, the request changes nothing |
| `WestPocketRequests.CallsAreAskedFor` | internal/service/westpocketservice/internal/westpocket/worker.go:222-249 | a bill is asked for only while publishing, of a member other than the owner and for the frozen share, and a cancellation only while cancelling |
| `WestPocketProgress.DraftPublishesIff` | internal/service/westpocketservice/internal/westpocket/service.go:369-461 | a new pocket publishes exactly for 2 to 50 different users and a cent each, and then divides the total among exactly them |
| `WestPocketProgress.WholeLife` | internal/service/westpocketservice/internal/westpocket/worker.go:59-144 | for every such total and list of users a run leads from the new pocket to a settled one in which what was paid plus the own share is the total asked for |
| `WestPocketTheorems.PublishedIsFrozen` | internal/service/westpocketservice/internal/westpocket/service.go:369-461 | from Publish on members, shares and total never change and publishing is never entered again |
| `WestPocketTheorems.StepFreezes` | internal/service/westpocketservice/internal/westpocket/service.go:121-140 | one step moves the status only forward and keeps a published deal as it is |
| `WestPocketTheorems.BillsAdvance` | internal/service/paymentservice/internal/service/bill.go:114-301 | no step closes a submitted or completed bill or moves a bill outside its life cycle |
| `WestPocketTheorems.CompletedIsFinal` | internal/service/paymentservice/internal/service/bill.go:180-231 | a completed bill is never written again |
| `WestPocketTheorems.ClosingIsJustified` | internal/service/paymentservice/internal/repository/west_pocket.go:42-61 | bills close only together, by an authorized cancel call, and only if all were unpaid |
| `WestPocketTheorems.ReturnIsJustified` | internal/service/westpocketservice/internal/westpocket/worker.go:290-340 | a refused cancellation returns only a published pocket to collecting and leaves every bill as it was |
| `WestPocketTheorems.UnpublishedCancelEnds` | internal/service/westpocketservice/internal/westpocket/worker.go:290-340 | a cancel issued while bills were still being created can never end in collecting |
| `WestPocketTheorems.PublishingAndSettledAreLive` | internal/service/westpocketservice/internal/westpocket/worker.go:214-340 | a publishing or settled pocket never has a closed bill |
| `WestPocketTheorems.LiveStepIff` | internal/service/westpocketservice/internal/westpocket/worker.go:290-340 | a step brings a closed bill to a publishing, collecting or settled pocket exactly when it is a late cancel call on a collecting pocket nobody has paid, or the return of a refused worker after another cancel call has closed the bills |
| `WestPocketTheorems.LiveRunsIff` | internal/service/westpocketservice/internal/westpocket/worker.go:290-340 | a run keeps live pockets free of closed bills exactly when it takes none of these steps |
| `WestPocketTheorems.NoAbandonIsLive` | internal/service/westpocketservice/internal/westpocket/worker.go:290-340 | as long as no unanswered cancel call is given up, no live pocket ever has a closed bill |
| `WestPocketTheorems.PairedSums` | internal/service/westpocketservice/internal/westpocket/worker.go:783-833 | bills paired one to one with the members who owe sum to what the owner is owed |
| `WestPocketLateCancel.LateCancelCloses` | internal/service/westpocketservice/internal/westpocket/worker.go:290-340 | a run from a new pocket to a collecting one whose only bill is closed |
| `WestPocketWorker.Collection.PublishJob` | internal/service/westpocketservice/internal/westpocket/worker.go:214-275 | the loop over the members, with any steps of others before, during and after each call, ends with the pocket no longer publishing, a call without a bill, or a collecting pocket exactly billed |
| `WestPocketWorker.Collection.BillMember` | internal/service/westpocketservice/internal/westpocket/worker.go:222-249 | one turn re-reads the status, asks for the bill, checks and links the answer |
| `WestPocketWorker.Collection.TakeAnswer` | internal/service/westpocketservice/internal/westpocket/worker.go:234-248 | the worker takes the bill it was answered with, or gives up without one |
| `WestPocketWorker.Collection.CancelJob` | internal/service/westpocketservice/internal/westpocket/worker.go:290-340 | ends cancelled with every bill closed, collecting with every bill in place, or undecided without a verdict |
| `WestPocketWorker.Collection.ActOnVerdict` | internal/service/westpocketservice/internal/westpocket/worker.go:299-341 | a refusal reopens, an acceptance cancels |
| `WestPocketWorker.CreatedMatches` | internal/service/westpocketservice/internal/westpocket/worker.go:238-243 | a bill the call answered with always passes the worker's check of source, payer, payee and amount |
| `FaceProfileSafety.StepKeeps` | internal/service/westpocketservice/internal/westpocket/worker.go:343-508 | every request, worker step, provider failure, retry and crash keeps the invariant of profile, samples, jobs and provider |
| `FaceProfileSafety.RunsKeep` | internal/service/westpocketservice/internal/westpocket/worker.go:343-508 | the invariant holds in every state of every run |
| `FaceProfileTheorems.RevokedIsErased` | internal/service/westpocketservice/internal/westpocket/worker.go:454-508 | a revoked profile has no person left at the provider |
| `FaceProfileTheorems.ActiveIsPresent` | internal/service/westpocketservice/internal/westpocket/worker.go:343-418 | the person of an active profile is at the provider and consent stands: no failed replacement, stale rerun or cleanup deletes it |
| `FaceProfileTheorems.RevocationIsFinal` | internal/service/westpocketservice/internal/westpocket/assets.go:501-545 | after a revocation request only an enrollment requested later can make the profile active |
| `FaceProfileTheorems.ErasedForever` | internal/service/westpocketservice/internal/westpocket/worker.go:454-508 | none of the persons a revoked profile ever had comes back |
| `FaceProfileTheorems.RevocationCanFinish` | internal/service/westpocketservice/internal/westpocket/worker.go:454-508 | from every reachable revoking state some run of the worker erases the provider |
| `FaceProfileProgress.RevocationRequest` | internal/service/westpocketservice/internal/westpocket/assets.go:501-545 | in every reachable state a request at the current revision leaves the profile revoking, without consent, at a version above every sample's and with its job queued; any other changes nothing |
| `FaceProfileProgress.RevocationRequestEnds` | internal/service/westpocketservice/internal/westpocket/worker.go:454-508 | from every reachable state with a profile a run that starts with the request ends revoked, without consent and with nobody at the provider |
| `FaceProfileProgress.EnrollmentRequest` | internal/service/westpocketservice/internal/westpocket/assets.go:380-499 | an accepted enrollment adds one sample at a version above every other, the consent and its job, and an active profile keeps its person meanwhile; a refused one changes nothing |
| `FaceProfileProgress.EnrollmentRequestEnds` | internal/service/westpocketservice/internal/westpocket/worker.go:343-418 | whenever an enrollment may be requested, a run that starts with the request ends active with the new person and nobody else at the provider |
| `FaceProfileProgress.GivingUp` | internal/service/westpocketservice/internal/westpocket/worker.go:146-202 | giving an enrollment up fails a pending profile, keeps the person in use and the consent, and leaves its job to a retry |
| `FaceProfileProgress.RetryEnds` | internal/service/westpocketservice/internal/westpocket/service.go:536-558 | the current enrollment, once given up, can be retried to its end |
| `FaceProfileProgress.RetryIff` | internal/service/westpocketservice/internal/westpocket/service.go:536-558 | a retry queues again exactly an enrollment that was given up, is still the current one and is not withdrawn, and changes nothing otherwise |
| `FaceProfileProgress.CleanupCanFinish` | internal/service/westpocketservice/internal/westpocket/worker.go:1016-1043 | a queued cleanup of a person who is not in use can be carried out, and leaves exactly that person gone and that sample rejected |
| `FaceProfileProgress.StaleRequestIsRefused` | internal/service/westpocketservice/internal/westpocket/assets.go:501-545 | whatever happens between the user's look and a replacement or revocation: if it changed the profile, other than by failing, the request changes nothing |
| `FaceProfileSamples.SamplesAgree` | internal/service/westpocketservice/internal/westpocket/worker.go:343-508 | in every reachable state only the person of the profile has a sample in use, an active one has, and all samples of a revoked profile are deleted or rejected |
| `FaceProfileTheorems.QuiescentIsClean` | internal/service/westpocketservice/internal/westpocket/worker.go:1016-1043 | when no job is left to do and nobody was lost track of, the provider holds nobody but the person of an active profile |
| `FaceProfileTheorems.TrackedStepIff` | internal/service/westpocketservice/internal/westpocket/worker.go:146-202 | a step loses track of a person exactly when it gives up an enrollment whose cleanup row exists but is no longer queued, and the person is left to that enrollment alone |
| `FaceProfileTheorems.TrackedRunsIff` | internal/service/westpocketservice/internal/westpocket/service.go:536-558 | a run leaves no person behind exactly when it never takes such a step |
| `FaceProfileTheorems.NoRetryIsTracked` | internal/service/westpocketservice/internal/westpocket/worker.go:146-202 | without retries nobody is ever left behind, whatever fails or crashes |
| `FaceProfileOrphan.RetryLeavesOrphan` | internal/service/westpocketservice/internal/westpocket/service.go:536-558 | a run with one retry that ends with nothing to do and a person left at the provider |
| `FaceProfileStore.ProfileStore.Enroll` | internal/service/westpocketservice/internal/westpocket/assets.go:380-499 | every field: status, version, revision, person, sample, consent and job; refused, changing nothing, exactly for a revoking profile, a wrong revision, or a first enrollment of one that is pending or active |
| `FaceProfileStore.ProfileStore.Revoke` | internal/service/westpocketservice/internal/westpocket/assets.go:501-545 | every field: revoking, the version above all others, the next revision, the person kept, the consent withdrawn and the job queued; refused, changing nothing, exactly without a profile or for a wrong revision |
| `FaceProfileStore.ProfileStore.FinishEnrollmentCleanup` | internal/service/westpocketservice/internal/westpocket/worker.go:420-452 | the loop deletes every replaced person and marks its sample |
| `FaceProfileStore.CleanupTakesSteps` | internal/service/westpocketservice/internal/westpocket/worker.go:420-452 | the undisturbed loop is what the model's single steps, between which anything may happen, add up to |
| `SpotOrdersSafety.StepKeeps` | internal/service/spotservice/internal/service/spot_order.go:190-313 | every step of buyers, sellers, payments, reconciliation and rollbacks keeps the invariant over both services, remote calls carried out after their transaction was rolled back included |
| `SpotOrdersSafety.RunsKeep` | internal/service/spotservice/internal/service/spot_order.go:159-373 | the invariant holds in every state of every interleaving |
| `SpotOrdersTheorems.OrdersAndBillsAgree` | internal/service/spotservice/internal/service/spot_order_payment.go:73-119 | an order bought from another seller has exactly one bill, over unit price times quantity, completed once the order is paid and closed once it is cancelled |
| `SpotOrdersDeals.StepDeals` | internal/service/spotservice/internal/service/spot_order.go:949-955 | every step keeps: the total of each order, committed or not, is unit price times quantity and an int32, and each ledger entry fits its order |
| `SpotOrdersDeals.RunsDeal` | internal/service/spotservice/internal/service/spot_order.go:949-955 | this holds in every state of every run |
| `SpotOrdersProgress.TakeItemPrices` | internal/service/spotservice/internal/service/spot_order.go:447 | whatever else is going on, an item that is taken becomes an order at the price its listing has at that moment, times the quantity |
| `SpotOrdersProgress.PurchaseIff` | internal/service/spotservice/internal/service/spot_order.go:532-568 | an undisturbed purchase succeeds exactly when the listing is open, has the stock and the amount is an int32, with the order, stock and bill it then leaves; otherwise no listing, order or bill changes |
| `SpotOrdersProgress.SellerWrites` | internal/service/spotservice/internal/service/spot_goods.go:279-321 | stock, price and closing are written exactly by the seller of a listing that is open, free and as last seen, and nothing else of it changes |
| `SpotOrdersRequests.PublishingIff` | internal/service/spotservice/internal/service/spot_goods.go:199-212 | a listing with its first entry is added exactly for a price and 1 to 999 units, open and as given |
| `SpotOrdersRequests.TakeItemIff` | internal/service/spotservice/internal/service/spot_order.go:570-636 | an item is taken exactly from an open listing that has the stock, less what the same purchase took before, has not changed since it was seen, and fits an int32; any other ends the whole purchase, and nothing is written before the commit |
| `SpotOrdersRequests.PurchaseCommitsIff` | internal/service/spotservice/internal/service/spot_order.go:532-568 | all or nothing: a purchase is written exactly once every item was taken and every bill made, with all of its orders, stocks and entries at once |
| `SpotOrdersRequests.BeginningIff` | internal/service/spotservice/internal/service/spot_order.go:190-313 | an order is cancelled or completed only at the request of its purchaser, who has seen it as it is, in a status that allows it and while nobody else works on it |
| `SpotOrdersRequests.StaleSellerIsRefused` | internal/service/spotservice/internal/service/spot_goods.go:279-321 | whatever happens between a seller's look and the request, a sale included: if it changed the listing, the request changes nothing |
| `SpotOrdersRequests.StalePurchaserIsRefused` | internal/service/spotservice/internal/repository/spot_order.go:240-286 | the same for a purchaser and an order |
| `SpotOrdersProgress.PaymentIsNoticed` | internal/service/spotservice/internal/service/spot_order_payment.go:17-71 | once the bill is completed one undisturbed reconciliation marks the order paid, and nothing else |
| `SpotOrdersProgress.CanCompleteIff` | internal/service/spotservice/internal/service/spot_order.go:346-373 | a reachable pending or paid order that nobody holds can be paid and completed exactly when its bill is not closed |
| `SpotOrdersProgress.CancelReturnsStock` | internal/service/spotservice/internal/service/spot_order.go:229-271 | cancelling gives the quantity back to the listing unless it is delisted, and touches no other listing or order |
| `SpotOrdersTheorems.OrderAdvances` | internal/service/spotservice/internal/repository/spot_order.go:240-286 | an order keeps its columns, its status moves only forward, and a completed or cancelled one is final |
| `SpotOrdersTheorems.BillsGrowStep` | internal/service/paymentservice/internal/repository/bill.go:62-175 | rows are only added, and completed and closed bills are never written |
| `SpotOrdersTheorems.CancelledIsFinal` | internal/service/spotservice/internal/service/spot_order.go:190-313 | a cancelled order and its closed bill stay so, also when a confirmation raced, an earlier cancellation was rolled back half way, or a given-up call arrives late |
| `SpotOrdersTheorems.CompletedIsFinal` | internal/service/spotservice/internal/service/spot_order.go:346-373 | a completed order and the completed bill it was paid with stay so |
| `SpotOrdersTheorems.AbandonedForever` | internal/service/spotservice/internal/service/spot_order.go:532-568 | the id of a rolled back purchase never becomes an order again |
| `SpotOrdersTheorems.RollbackAbandons` | internal/service/spotservice/internal/service/spot_order.go:638-667 | a bill left behind by a rolled back purchase belongs to such an id |
| `SpotOrdersTheorems.StockIsItsLedger` | internal/service/spotservice/internal/service/spot_goods.go:279-321 | stock is at least -1 and, below zero read as zero, the sum of its ledger; each order has one lock entry and at most one cancel entry, and that only if cancelled; every such entry is over the order's listing and quantity |
| `SpotOrdersTheorems.CancelSucceedsIff` | internal/service/spotservice/internal/service/spot_order.go:190-210 | a pending order can be cancelled exactly when its bill is not completed, also after a half-done cancellation |
| `SpotOrderStore.Listing.constructor` | internal/service/spotservice/internal/service/spot_goods.go:199-212 | publishing writes the first ledger entry |
| `SpotOrderStore.Listing.Adjust` | internal/service/spotservice/internal/service/spot_goods.go:279-321 | the new stock or -1 for delisted, with the ledger entry that keeps the balance; refused exactly for a closed listing, a bad value, or zero on a delisted one |
| `SpotOrderStore.Listing.Take` | internal/service/spotservice/internal/service/spot_order.go:570-636 | stock is taken with its lock entry exactly when there is enough |
| `SpotOrderStore.Listing.Release` | internal/service/spotservice/internal/service/spot_order.go:229-271 | stock goes back with its cancel entry, unless the listing is delisted |
| `SpotOrderStore.OrderTable.ListPending` | internal/service/spotservice/internal/repository/spot_order_payment.go:14-39 | the first due rows after an id, none skipped, in id order |
| `SpotOrderStore.OrderTable.SyncPending` | internal/service/spotservice/internal/service/spot_order_payment.go:17-71 | with a fresh fetch of bills for every batch, the loop marks exactly the due orders whose bill is completed in the fetch of the batch they fall into, or stops at a bill that is missing or not the order's own |
| `SpotOrderStore.OrderTable.SyncBatch` | internal/service/spotservice/internal/service/spot_order_payment.go:43-68 | after a batch everything up to its last row is reconciled |
| `ErrandSafety.StepKeeps` | internal/service/errandservice/internal/service/errand_task.go:74-118 | every step of requesters, captains and payment confirmations keeps the invariant of demands, items, tasks and assignments |
| `ErrandSafety.RunsKeep` | internal/service/errandservice/internal/service/errand_task.go:74-2648 | the invariant holds in every state of every run |
| `ErrandTheorems.PhasesAgree` | internal/service/errandservice/internal/repository/errand_task.go:444-473 | the task, the demand and the item of an assignment are in the same phase; while collecting an item is pending payment or completed |
| `ErrandTheorems.AssignedOnce` | internal/service/errandservice/internal/repository/errand_task_payment.go:714-768 | an open or cancelled item has no assignment, any other exactly one, and an item is in its demand's phase |
| `ErrandTheorems.SplitKeepsItems` | internal/service/errandservice/internal/service/errand_task.go:422-518 | creating a task loses, duplicates and alters no item and takes a demand apart exactly along the selection |
| `ErrandOffers.CreateAddsIff` | internal/service/errandservice/internal/service/demand.go:42-109 | in every reachable state: accepted exactly for sound drafts, adding the demand and for each draft one item with its product, quantity, fee and price, written out by field |
| `ErrandOffers.ReplaceAddsIff` | internal/service/errandservice/internal/service/demand.go:527-589 | accepted exactly for the requester's own open demand and sound drafts: its items go, one comes for each draft, and no other changes |
| `ErrandOffers.CancelDemandIff` | internal/service/errandservice/internal/service/demand.go:442-487 | accepted exactly for the requester's own open demand, which is cancelled with all of its items and no other |
| `ErrandOffers.OffersLast` | internal/service/errandservice/internal/service/errand_task.go:422-518 | over every run an item keeps requester, store, product, quantity, fee and price, and an id that is gone is not used again |
| `ErrandOffers.OfferLasts` | internal/service/errandservice/internal/service/errand_task.go:396-420 | in every later state the assignment of an item has the purchaser, fee and product of the item as it was first asked for |
| `ErrandOffers.DraftLasts` | internal/service/errandservice/internal/service/demand.go:92 | the fee, product, quantity and price of the k-th draft are those of its item and its assignment in every state of every run |
| `ErrandProgress.TaskStarts` | internal/service/errandservice/internal/service/errand_task.go:74-119 | an accepted selection starts one shopping task of the captain, with one undecided row for each selected item and nothing bought or priced |
| `ErrandProgress.ShoppingCanFinish` | internal/service/errandservice/internal/service/errand_task.go:1259-1297 | from every reachable state of a shopping task, whatever was bought within the totals and whatever it cost, accepted saves record exactly that and take the task to distribution |
| `ErrandProgress.CancelGivesBack` | internal/service/errandservice/internal/service/errand_task.go:2587-2648 | accepted exactly for the captain's own unfinished task: every unpaid item and its demand are open again without a row, and paid ones stay |
| `ErrandRequests.RecordingIff` | internal/service/errandservice/internal/service/errand_task.go:645-675 | a purchase is recorded, or taken back, exactly by the captain while shopping and up to what is required, and nothing else is written |
| `ErrandRequests.PricingIff` | internal/service/errandservice/internal/service/errand_task.go:1170-1194 | a price is recorded exactly by the captain, after shopping and until the distribution is over, and none but zero of something not bought |
| `ErrandRequests.SharingIff` | internal/service/errandservice/internal/service/errand_task.go:1420-1468 | a share is recorded, or taken back, exactly by the captain while distributing, up to what was asked for, and only if all shares of the product then sum to at most what was bought |
| `ErrandRequests.HandingOverIff` | internal/service/errandservice/internal/service/errand_task.go:823-847 | in every reachable state shopping is closed exactly by the captain, once everything is recorded; the items of the task and no others move on |
| `ErrandRequests.DistributingIff` | internal/service/errandservice/internal/service/errand_task.go:1259-1297 | distribution is opened exactly by the captain, with a packaging fee, once everything bought is priced; the items of the task and no others move on |
| `ErrandRequests.CollectingIff` | internal/service/errandservice/internal/service/errand_task.go:1641-1707 | collecting starts exactly when everything is shared out and every billed payer owes something; each row that is owed for carries its payer's bill, and no other is written |
| `ErrandTheorems.QuantitiesHold` | internal/service/errandservice/internal/service/errand_task.go:1743-1769 | in every reachable state, cancelled tasks included, distributed is at most purchased and purchased at most required; while not cancelled required is the int32 sum of what the assigned items ask for; from collecting on purchased and distributed are equal, and what was bought is priced |
| `ErrandTheorems.SharesHold` | internal/service/errandservice/internal/service/errand_task.go:1494-1544 | no share exceeds its demand, and from collecting on every share is decided |
| `ErrandTheorems.DistributionCanFinish` | internal/service/errandservice/internal/service/errand_task.go:1420-1543 | from every reachable distributing state a sequence of accepted saves completes the distribution and changes nothing else |
| `ErrandTotals.RequiredIsExactIff` | internal/service/errandservice/internal/service/errand_task.go:351 | in every reachable state the total of a task item that is not cancelled is what its rows ask for exactly when that sum is an int32 |
| `ErrandTotals.CreateTaskAcceptedIff` | internal/service/errandservice/internal/service/errand_task.go:333-359 | a selection of open rows is accepted exactly when every product's plain sum leaves a positive int32 modulo 2^32 |
| `ErrandTotals.OverflowedTask` | internal/service/errandservice/internal/service/errand_task.go:333-359 | a run from the empty tables in which a task of 2^32 + 1 units of a product is accepted with one unit to buy |
| `ErrandFrozen.FrozenStep` | internal/service/errandservice/internal/service/errand_task.go:1641-1707 | one step of anybody adds nothing to and changes nothing in a task that collects or is past that, and drops rows only by cancelling it |
| `ErrandFrozen.FrozenRuns` | internal/service/errandservice/internal/service/errand_task.go:1641-1707 | from collecting on, over every run: captain, packaging fee, purchases and prices are the same for ever, no task item or row joins; while not cancelled the rows with shares and bills are exactly the same, and what a cancellation keeps stays as it is |
| `ErrandCompletion.StuckForever` | internal/service/errandservice/internal/repository/errand_task_payment.go:405-443 | an item left distributing or pending payment under a completed task, with no confirmation that has read it still to be applied, keeps its phase over every run |
| `ErrandCompletion.WithoutBillsStrands` | internal/service/errandservice/internal/service/errand_task.go:1923-1966 | after a completion without bills every item of the task is distributing for ever |
| `ErrandPaymentsSafety.AfterFollows` | internal/service/errandservice/internal/service/grouptrade_internal.go:24-124 | every move of the system with drafts, bills and callbacks does to the errand tables what zero, one or two steps of the errand model do |
| `ErrandPaymentsSafety.MoveKeeps` | internal/service/paymentservice/internal/service/bill.go:457-509 | every read of drafts, bill, transition, payment, confirmation and callback, lost callbacks included, keeps the invariant over both services |
| `ErrandPaymentsSafety.MovesKeep` | internal/service/paymentservice/internal/service/bill.go:457-509 | the invariant holds in every state of every interleaving |
| `ErrandPaymentsTheorems.Reachable` | internal/service/errandservice/internal/service/errand_task.go:1869-1920 | the invariant the results about payments start from holds in every state reached from the empty tables |
| `ErrandPaymentsTheorems.WithoutBillsIff` | internal/service/errandservice/internal/service/errand_task.go:1607-1639 | whatever happens between reading the drafts and the transition, it completes the task without bills exactly when nobody but the captain had a positive share when they were read, and the task is then the caller's, distributing and fully distributed |
| `ErrandPaymentsTheorems.CollectedIff` | internal/service/errandservice/internal/service/grouptrade_internal.go:24-93 | while collecting, in every reachable state, all items are completed exactly when the confirmation of every purchaser was carried out |
| `ErrandPaymentsTheorems.CallbackIff` | internal/service/errandservice/internal/service/grouptrade_internal.go:96-124 | in every reachable state, with every bill of the task paid and its confirmation carried out, the callback completes the task, and all its items are completed exactly when every purchaser in it has a bill |
| `ErrandPaymentsTheorems.CallbackSharesIff` | internal/service/errandservice/internal/repository/errand_task_payment.go:126-149 | if the drafts still say who owes, that is exactly when no purchaser in the task is its captain and every one was given something |
| `ErrandPaymentsTheorems.CompletionIff` | internal/service/errandservice/internal/service/errand_task.go:1607-1639 | every way a task becomes completed: by the captain with all items, by a transition without drafts with none, by the callback with all exactly when every purchaser's confirmation was carried out |
| `ErrandPaymentsProgress.MovesLink` | internal/service/errandservice/internal/service/errand_task.go:1869-1920 | in every state of every sequence of moves the bill bound to a row is a bill of that task and purchaser, payable to the captain |
| `ErrandPaymentsProgress.CaptainCompletesIff` | internal/service/errandservice/internal/service/errand_task.go:2277-2340 | a reachable collecting task can be paid and completed by its captain, with every item, exactly when every row that has to be paid for carries a bill |
| `ErrandPaymentsProgress.ClosingIff` | internal/service/errandservice/internal/service/errand_task.go:2678-2699 | the bills of a task are closed exactly once it is cancelled: those unpaid or submitted, and no other |
| `ErrandPaymentsCallbacks.BillsGoToTheCaptain` | internal/service/errandservice/internal/service/errand_task.go:1869-1920 | in every reachable state every bill is one of an existing task and payable to its captain |
| `ErrandPaymentsCallbacks.TellingIff` | internal/service/errandservice/internal/service/grouptrade_internal.go:24-93 | being told of a payment has an effect exactly while the task collects from the payer; a completed task is counted all the same, and any other is left alone |
| `ErrandPaymentsCallbacks.CountingIff` | internal/service/paymentservice/internal/service/bill.go:457-509 | a payment that was carried out counts exactly when no bill of its task is open |
| `ErrandPaymentsCallbacks.CallbackNeedsPayment` | internal/service/errandservice/internal/service/grouptrade_internal.go:96-124 | whatever calls are lost or late, a callback completes a task only while it collects and after a time at which no bill of it was open |
| `ErrandAmounts.AllKeepDrafts` | internal/service/errandservice/internal/service/errand_task.go:1869-1920 | in every state of every sequence of moves each bill of a transition's call is a bill of its task and payer over the amount of the payer's draft |
| `ErrandAmounts.DraftsNameTheCaptain` | internal/service/errandservice/internal/service/errand_task.go:1969-2024 | every draft is for a purchaser other than the captain who was given something, payable to the captain, over all that purchaser owes |
| `ErrandAmountsTheorems.TransitionBills` | internal/service/errandservice/internal/service/errand_task.go:1680-1689 | an accepted transition puts on every row that is owed for the bill over its purchaser's drafted amount, and none on those of a purchaser who was not drafted |
| `ErrandAmountsTheorems.BillsAreRightIff` | internal/service/errandservice/internal/service/errand_task.go:1607-1639 | whatever happens before and between, the bills of a task that is then collected for are over what its purchasers owe exactly when whoever owes something already owed as much when the drafts were read |
| `ErrandAmountsRuns.StalePrice` | internal/service/errandservice/internal/service/errand_task.go:1114-1144 | a run from the empty tables to a collecting task whose buyer owes 200 cents and is billed 100, because the price was corrected after the drafts were read |
| `ErrandAmountsProgress.CollectsIff` | internal/service/errandservice/internal/service/errand_task.go:1607-1639 | from every reachable state ready to collect, an undisturbed attempt starts the collection exactly when no live bill of an earlier attempt is over another amount |
| `ErrandAmountsRuns.BlockedRetry` | internal/service/paymentservice/internal/service/bill.go:351-406 | a run from the empty tables to a task that is ready to collect and whose captain is refused, because an attempt that broke off billed the old price |
| `ErrandPaymentsTheorems.StaysBehind` | internal/service/errandservice/internal/repository/task.go:48-98 | an item of a completed task keeps its phase over every sequence of moves: what is pending under it is never paid for |
| `ErrandPaymentsRuns.RunWithoutBills` | internal/service/errandservice/internal/service/errand_task.go:1923-1966 | a run from the empty tables to a task completed without bills whose two items are both distributing |
| `ErrandPaymentsRuns.RunByCallback` | internal/service/errandservice/internal/service/grouptrade_internal.go:96-124 | a run from the empty tables to a task with every bill paid and confirmed, completed by the callback while the captain's own item is pending payment |
| `ErrandStore.ErrandTables.CreateDemand` | internal/service/errandservice/internal/service/demand.go:42-109 | inserts the demand and one item per draft with its product, quantity, fee and price, exactly for acceptable drafts |
| `ErrandStore.ErrandTables.ReplaceDemand` | internal/service/errandservice/internal/service/demand.go:527-589 | replaces the item rows as a whole by one per draft with its product, quantity, fee and price, exactly for an own open demand |
| `ErrandStore.ErrandTables.BuildGroups` | internal/service/errandservice/internal/service/errand_task.go:333-359 | the grouping loop yields each product once with its int32 sum |
| `ErrandStore.ErrandTables.InsertTaskItems` | internal/service/errandservice/internal/service/errand_task.go:361-394 | one task item per group |
| `ErrandStore.ErrandTables.BuildAssignments` | internal/service/errandservice/internal/service/errand_task.go:396-420 | one assignment per selected row, pointing at its product's task item |
| `ErrandStore.ErrandTables.SyncDemands` | internal/service/errandservice/internal/service/errand_task.go:422-462 | the loop over the demands moves whole ones on and splits partly selected ones, as the model says at once |
| `ErrandStore.SyncSingleDemand` | internal/service/errandservice/internal/service/errand_task.go:464-518 | one demand: moved on as a whole, or split off with exactly its selected rows |
| `ErrandStore.ErrandTables.CreateTask` | internal/service/errandservice/internal/service/errand_task.go:74-119 | the whole transaction is the model's step, and a refused one changes nothing |
| `ErrandStore.ErrandTables.MovePhase` | internal/service/errandservice/internal/repository/errand_task_payment.go:84-124 | the two bulk updates move exactly the linked demands and assigned items that are in the given phases |
| `ErrandStore.ErrandTables.ToPendingDistributing` | internal/service/errandservice/internal/service/errand_task.go:823-847 | accepted exactly for the own shopping task with every item handled |
| `ErrandStore.ErrandTables.ToDistributing` | internal/service/errandservice/internal/service/errand_task.go:1259-1297 | accepted exactly for the own pending task with every bought item priced |
| `ErrandStore.ErrandTables.DistributedSum` | internal/service/errandservice/internal/repository/errand_task.go:773-783 | the sum of the shares of one task item |
| `ErrandStore.ErrandTables.SaveDistributed` | internal/service/errandservice/internal/service/errand_task.go:1420-1468 | a share is saved or undone as the model's step, and a refused save changes nothing |
| `ErrandStore.ErrandTables.BindBills` | internal/service/errandservice/internal/service/errand_task.go:1680-1689 | the loop over the drafts writes each payer's bill id, and fails exactly when some payer has nothing to pay for |
| `ErrandStore.BindPayer` | internal/service/errandservice/internal/repository/errand_task_payment.go:151-178 | the rows of one payer with a positive share, and how many were affected |
| `ErrandStore.ErrandTables.ToCollecting` | internal/service/errandservice/internal/service/errand_task.go:1641-1707 | the whole transaction is the model's step, and a refused one changes nothing |
| `ErrandStore.ErrandTables.ReadConfirm` | internal/service/errandservice/internal/service/grouptrade_internal.go:24-75 | the loop collects exactly the item ids of the payer's assignments |
| `ErrandStore.ErrandTables.ApplyConfirm` | internal/service/errandservice/internal/repository/task.go:48-98 | items first, then exactly the demands with nothing left to pay |
| `ErrandStore.ErrandTables.CancelTask` | internal/service/errandservice/internal/service/errand_task.go:2587-2648 | reopens what is not settled and deletes exactly the assignments of reopened items |
| `ErrandStore.ErrandTables.Reopen` | internal/service/errandservice/internal/repository/errand_task_payment.go:714-755 | the linked demands and assigned items that are neither completed nor cancelled go back to open |
| `ErrandBilling.BuildDrafts` | internal/service/errandservice/internal/service/errand_task.go:1969-2024 | one draft per payer in order of appearance, for the payer's sum over all rows plus the share, read in int64; an error exactly when one does not fit an int32 |
| `ErrandBilling.AddRow` | internal/service/errandservice/internal/service/errand_task.go:1980-2001 | reading a row keeps every accumulator equal to the int64 reading of the payer's sum |
| `ErrandBillingSums.PayersExact` | internal/service/errandservice/internal/service/errand_task.go:1977-1994 | every payer appears exactly once |
| `ErrandBillingSums.OrderWithinPayerIsImmaterial` | internal/service/errandservice/internal/repository/errand_task_payment.go:227-257 | the same rows sorted by payer give the same payers in the same order with the same sums |
| `ErrandBillingSums.PayersOweEverything` | internal/service/errandservice/internal/service/errand_task.go:1969-2024 | the payers together owe every row exactly once |
| `ErrandBillingSums.CeilDivideBounds` | internal/service/errandservice/internal/service/errand_task.go:2241-2246 | n equal shares collect at least the fee and less than one cent per payer more |
| `ErrandBillingSums.BillsCoverTheTask` | internal/service/errandservice/internal/service/errand_task.go:1969-2024 | the bills together are all rows plus the packaging fee plus at most n - 1 cents, if each payer's total fits an int64 |
| `ErrandCollectingView.BuildCollecting` | internal/service/errandservice/internal/service/errand_task.go:2078-2194 | each payer's lines and sums, with the share on the first line; an error exactly when a line or a sum does not fit an int32 |
| `ErrandCollectingView.GroupRows` | internal/service/errandservice/internal/service/errand_task.go:2087-2102 | every payer's group is exactly the payer's rows in order |
| `ErrandCollectingView.SumGroup` | internal/service/errandservice/internal/service/errand_task.go:2118-2162 | the running sums of a group, and whether all its lines fit |
| `ErrandBillingTheorems.GroupFitsIff` | internal/service/errandservice/internal/service/errand_task.go:2118-2178 | a payer's view is accepted exactly when all the payer owes is an int32 |
| `ErrandBillingTheorems.ColumnsAddUp` | internal/service/errandservice/internal/service/errand_task.go:2118-2178 | in an accepted view each line prices its own row, product and service columns are the sums of their own lines, packaging is the share, and the total is the three columns |
| `ErrandBillingTheorems.DraftsMatchCollecting` | internal/service/errandservice/internal/service/errand_task.go:1969-2194 | bills and view list the same payers with the same amounts, which are the plain totals, for any order within a payer |
| `ErrandBillingTheorems.FailuresAgreeIff` | internal/service/errandservice/internal/service/errand_task.go:1969-2194 | both fail for the same inputs and with the same error, except exactly when every total is an int32 modulo 2^64 and some total is 2^64 or more |
| `ErrandBillingTheorems.WrappedBill` | internal/service/errandservice/internal/service/errand_task.go:2001 | four rows of one payer that are billed six cents while the view refuses them |
| `ErrandBuyerView.BuildProductItems` | internal/service/errandservice/internal/service/buyer_order.go:330-417 | subtotals with the share once, totals, and final totals exactly when every item is distributed and, if any was received, priced |
| `ErrandBuyerView.ShowItem` | internal/service/errandservice/internal/service/buyer_order.go:353-383 | the distributed quantity and actual price, or the requested and estimated ones until they are known |
| `ErrandBuyerView.LoadShare` | internal/service/errandservice/internal/service/buyer_order.go:301-328 | the share of the fee over all distinct payers, or nothing for a buyer with nothing to pay for |
| `ErrandBuyerView.SubtotalsSumToTheBill` | internal/service/errandservice/internal/service/buyer_order.go:330-417 | the lines of a buyer's only, fully distributed demand sum to the buyer's bill |
| `ErrandBuyerView.TotalsMatchTheBill` | internal/service/errandservice/internal/service/buyer_order.go:330-417 | if the bill is an int32 the view succeeds and its final totals plus the share are the bill |
| `ErrandBuyerView.NoBillNoSubtotals` | internal/service/errandservice/internal/service/buyer_order.go:301-328 | a buyer who received nothing is charged nothing, packaging included |
| `ErrandBuyerView.ColumnsMatchTheCaptains` | internal/service/errandservice/internal/service/buyer_order.go:330-417 | once everything is decided, the goods and the fees the buyer is shown are those of the captain's view of that payer, each for itself |
| `ErrandBuyerView.OriginIsWhatWasAskedFor` | internal/service/errandservice/internal/service/buyer_order.go:330-417 | the original total is what the lines show before anything is distributed or priced, less fees and share, and the same at any later time |
| `ErrandNotify.HandOut` | internal/service/errandservice/internal/service/errand_task.go:950-979 | the greedy loop tells exactly the requests that get less than they asked for, in order, and what is left over |
| `ErrandNotify.Send` | internal/service/errandservice/internal/service/errand_task.go:939-982 | the notices sent are exactly those of every item |
| `ErrandNotify.HandsOutExactly` | internal/service/errandservice/internal/service/errand_task.go:950-956 | what is handed out is what was bought, or all that was asked for if less, and nobody gets more than asked for |
| `ErrandNotify.FirstComeFirstServed` | internal/service/errandservice/internal/service/errand_task.go:950-956 | whoever gets anything comes after requests met in full |
| `ErrandNotify.ToldExactlyTheShort` | internal/service/errandservice/internal/service/errand_task.go:957-960 | a reachable requester is told exactly when the requests up to theirs exceed what was bought |
| `ErrandNotify.NoticesAre` | internal/service/errandservice/internal/service/errand_task.go:950-979 | a notice names the request, what it asked for and what it gets, for exactly the requests that are told |
| `LikePattern.EscapedMatchesItself` | internal/service/userservice/internal/repository/user.go:29-31 | an escaped query matches itself character by character and nothing else |
| `LikePattern.PatternMeansContains` | internal/service/userservice/internal/repository/user.go:18-31 | the pattern matches a name exactly when the name contains the query, up to case |
| `LikePattern.UnescapedFindsEverything` | internal/service/userservice/internal/repository/user.go:29-31 | without the escape an underscore would find every non-empty name |
| `Base64.DecodeInvertsEncode` | internal/service/westpocketservice/internal/westpocket/queries.go:23 | decoding unpadded base64url gives back the bytes, and no encoding holds a dot |
| `CursorToken.CursorRoundTrip` | internal/service/westpocketservice/internal/westpocket/queries.go:19-56 | a token gives back its id for the actor and scope it was made for, colons in the scope included, and is refused for any other |
| `CursorToken.CursorIsInjective` | internal/service/westpocketservice/internal/westpocket/queries.go:19-24 | two actors, ids or scopes never share a token |
| `CursorToken.AcceptedIsSigned` | internal/service/westpocketservice/internal/westpocket/queries.go:26-56 | whatever is accepted carries the code of data naming the actor, the scope and the id returned |
| `CursorToken.DecimalRoundTrip` | internal/service/westpocketservice/internal/westpocket/queries.go:52 | parsing a formatted int64 gives it back, and it holds no colon |
| `PocketListing.WalkNeverRepeats` | internal/service/westpocketservice/internal/westpocket/queries.go:58-105 | following the tokens no token is refused and ids strictly fall across all pages, however the table changes |
| `PocketListing.WalkMissesNothing` | internal/service/westpocketservice/internal/westpocket/queries.go:58-105 | a pocket that matches throughout is returned by a walk that ends |
| `PocketListing.WalkIsComplete` | internal/service/westpocketservice/internal/westpocket/queries.go:58-105 | over an unchanging table the pages are exactly the matching pockets in falling id order, and the walk ends |
| `PocketListing.PageIs` | internal/service/westpocketservice/internal/westpocket/queries.go:58-105 | a page shows the first of what is left, as many as asked for or 20, and says that there is more exactly when there is |
| `PocketListing.OwnersSeeTheirs` | internal/service/westpocketservice/internal/westpocket/queries.go:79-92 | an owner's walk over an unchanging table returns exactly the own pockets, drafts included, of the status asked for |
| `PocketListing.MembersSeeTheirs` | internal/service/westpocketservice/internal/westpocket/queries.go:79-92 | a member's walk returns exactly the pockets the member is in that are not drafts, of the status asked for |
| `PocketListing.TokensStayInTheirListing` | internal/service/westpocketservice/internal/westpocket/queries.go:58-79 | a token is accepted exactly by the same actor, perspective and status |
| `Snowflake.Generator.NextID` | internal/pkg/idgen/snowflake.go:103-139 | the id, error and new fields that the specification gives for any clock readings |
| `Snowflake.Generator.WaitNext` | internal/pkg/idgen/snowflake.go:205-212 | reads the clock up to the first reading after the last millisecond |
| `Snowflake.NextAdvances` | internal/pkg/idgen/snowflake.go:103-139 | an id that is handed out comes strictly after the one before and is what is remembered; a failed call changes nothing |
| `Snowflake.JumpBack` | internal/pkg/idgen/snowflake.go:103-139 | a clock back by at most five seconds is read once more, which gives an id as if nothing had happened if it has caught up; otherwise, and after a larger jump, the call fails |
| `Snowflake.SequenceCounts` | internal/pkg/idgen/snowflake.go:103-139 | the sequence starts at zero with every millisecond and counts within it; when its 4096 numbers are used up the call waits for the first reading of a later one |
| `Snowflake.IdsIncrease` | internal/pkg/idgen/snowflake.go:103-139 | for every clock trace the ids of one generator strictly increase while the elapsed time fits 41 bits |
| `Snowflake.WorkersNeverCollide` | internal/pkg/idgen/snowflake.go:135-139 | generators with different worker ids never hand out the same id, at any time |
| `Snowflake.LowBitsDecode` | internal/pkg/idgen/snowflake.go:16-28 | worker and sequence can always be read back from an id, and the time up to 2^42 milliseconds |
| `Snowflake.TimeDecodesIff` | internal/pkg/idgen/snowflake.go:16-28 | the elapsed time is read back exactly if and only if it fits 41 bits |
| `Snowflake.SameIdIff` | internal/pkg/idgen/snowflake.go:135-139 | two ids are equal exactly for the same worker, the same sequence number and times a multiple of 2^42 milliseconds apart |
| `Snowflake.OrderBreaks` | internal/pkg/idgen/snowflake.go:135-139 | the id after the last one that fits is negative |
| `MatchFaces.MatchAll` | internal/service/westpocketservice/internal/westpocket/worker.go:628-669 | every face on its own, then what was suggested more than once taken back; the result is the one SuggestedIffWins and StatusIff speak of |
| `MatchFaces.MatchEach` | internal/service/westpocketservice/internal/westpocket/worker.go:629-660 | the array filled face by face, and the counts of each suggested user |
| `MatchFaces.SuggestedIff` | internal/service/westpocketservice/internal/westpocket/worker.go:628-669 | a user is suggested for a face exactly when clear for it and for no other face; what clear means for the candidates is ClearIff |
| `MatchFaces.ClearIff` | internal/service/westpocketservice/internal/westpocket/worker.go:652-655 | a face has a clear candidate exactly when one of its mapped candidates reaches the threshold and is at least the margin above every other, in whatever order they come |
| `MatchFaces.SuggestedIffWins` | internal/service/westpocketservice/internal/westpocket/worker.go:628-669 | for a positive margin a user is suggested for a face exactly when one of the user's persons reaches the threshold and the margin above every other mapped candidate on a face that is not of low quality, and on no other face |
| `MatchFaces.StatusIff` | internal/service/westpocketservice/internal/westpocket/worker.go:628-669 | a usable face is matched exactly when it has a suggestion, ambiguous otherwise, and shows its best mapped score; any other keeps its own status |
| `MatchFaces.NobodyTwice` | internal/service/westpocketservice/internal/westpocket/worker.go:661-667 | no user is suggested for two faces |
| `MatchFaces.SuggestionsAreClear` | internal/service/westpocketservice/internal/westpocket/worker.go:645-658 | a suggestion has the top score, at least the threshold and the margin above every other mapped candidate, on a face that is not of low quality |
| `MatchFaces.DroppedOnlyForRivals` | internal/service/westpocketservice/internal/westpocket/worker.go:661-667 | a clear candidate is dropped only when another face is clear for the same user |

## Left out

- Handlers, conversion to and from messages, configuration, logging, health checks and authorization that enables no step.
- Object storage, image decoding, the face provider's own recognition, messaging and login: only success or failure of the calls the protocols make.
- Encryption, the strength of the HMAC (any function stands for it), random codes and UUIDs.
- Catalog, address and QR code maintenance, full-text search, Redis sessions and limits: no state worth an invariant.
- Request deduplication, job rows, leases and backoff of the west pocket: a job may start at any time, which covers every schedule they allow.
- Mirrored `bill_status` columns, notifications and reminders of the west pocket, and its photos and albums.
- Version and deadline comparisons in the errand service: they only refuse requests, so dropping them allows more runs.
- The amounts of errand bills in `ErrandPayments`: a bill is created for any amount there; `ErrandAmounts` fixes the amounts, and every result about the wider system holds of it too.
- The order in which the payers of a task are billed: it is that of the table, not of the payers' ids, which changes no amount (`OrderWithinPayerIsImmaterial`).
- More than one sample per enrollment: a person is created and deleted as a whole.
- The step systems hold one pocket, one face profile, or all rows of one service as values; update in place is modelled only by the classes, where each method is one transaction.
- MatchFaces.MatchAll: scores, threshold and margin are reals; rounding and NaN are not modelled, because they are not what the matching rests on.
- LikePattern.PatternMeansContains: case is folded one character at a time by any function; foldings that change the length of a text are not modelled.
- ErrandBillingSums.BillsCoverTheTask: requires every payer's total to fit an int64, because the bills wrap beyond it, as WrappedBill shows.
- ErrandBillingTheorems.FailuresAgreeIff: lists of more than 2^32 rows are excluded, where the view's own sums would wrap.
- PocketListing.WalkMissesNothing: a pocket whose match changes during the walk may or may not be returned.
- Snowflake.Generator.NextID: the mutex is not modelled, because one call is one step; the sleeps are readings the clock may skip.
