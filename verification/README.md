# Seat-sale engine: a Dafny model and its proofs

The server keeps one in-memory database and about fifteen handlers in different files write it. A seat moves through
ON_SALE, HELD, RESERVED, OWNED, IN_RESALE_POOL and ADMITTED (and ADMIN_HOLD); every handler relies on invariants the
others must keep. This project models those handlers and proves what holds over whole runs of them, together with the
protocols around them: the payment route that awaits its provider, the waiting room, the native booking session, the
save queue, the hash-chained ledger, the retry runners, the two kinds of admission code, inventory regeneration and
the show ranking.

`dafny verify dfyconfig.toml` checks the whole project.

## How it is organised

* `SaleTypes`, `Holds`, `Commerce`, `Inventory` give each handler's meaning as a function from the database it finds to
  the database and answer it leaves (`Reply`). An exception leaves the database as the handler left it.
  `DoublePrice` is the double arithmetic behind prices and fees.
* `Database`, `HoldsEngine`, `CommerceEngine`, `InventoryEngine`, `PaymentEngine` are the handlers as the server runs
  them: methods that edit one shared object in place, with its loops and early exits. Each is proved to leave exactly
  the state its function describes. `SaleServer` serves requests with them, one or a whole run, and keeps the invariant.
* `SaleSteps` makes every handler a step; `SaleInvariant` states the invariant; `SaleSeats`, `SaleResale`, `SaleSales`,
  `SaleInventory` prove it edit by edit, `SaleHandlers` handler by handler; `SaleProgress` proves what no step takes
  back; `SaleOrders` what one purchase does; `SaleRoundTrips` what one call grants and a later one
  undoes; `SaleRuns` states the results over runs, `GroupBookings` those about group requests; `SaleFrames` says which
  handlers touch the lists of events and requests; `SaleOwners` ties every owner to the transactions.
* `HoldAnswers`, `PurchaseAnswers`, `ResaleAnswers`, `InventoryAnswers` and `ConsoleAnswers` say of each of these handlers
  exactly when it succeeds and what it leaves, in plain numbers and over the records alone, without the functions the
  handlers are made of, and `Refusals` which error they answer otherwise; `RoomAnswers`, `SessionAnswers`, `RetryAnswers`, `MobileQrAnswers` and `DynamicQrAnswers` do the
  same for the systems below.
* `PaymentRoute` is the TossPayments route as a two-phase protocol interleaved with every other handler;
  `PosterUpload` is the admin update that awaits between its checks and its effect, and `EventCreation` runs such
  updates and creations interleaved with one another and every other handler. `GateRuns` runs the mobile codes and the
  sale handlers on one database; `SharedRecords` shows what other files do to records the sale handlers rely on.
* `WaitingRoom`, `BookingSession`, `SaveQueue`, `AuditLedger`, `RetryReceipts`, `MobileQr`, `DynamicQr`, `Ranking`
  are systems of their own, each with its state, its steps or methods, and its runs. `StableSort` and `Prelude` are
  shared vocabulary.

## Choices that keep the statements true of the code

* One clock reading per step. Clocks are nondecreasing over a run where a property needs it (waiting room, codes,
  retry runner); the sale engine's results hold for any clock readings.
* Arrays that are only pushed to are sequences and a record's id is its position, which is what a fresh id amounts to.
  A ticket's id is the tuple that `stableId` hashes. Hashes and keyed signatures are parameters, injective where a
  property needs it. Money is `int`. The upper price bound is computed as IEEE 754 doubles compute it; for the fee and
  the lower bound doubles give the exact ceiling.
* Zones come from normalized payloads: distinct ids, one transfer per ticket (`backend/admin-event-content.js:180-196`).
  Accounts created later start with an empty balance.
* A run starts in any state that satisfies the invariant; the empty database is one.
* `booking-session.js` keeps single-seat records in the same array as `booking-holds.js`; the two are modelled as separate
  systems, and so is the dynamic-QR gate. Runs of the sale handlers leave them out; what they do to the same records is in
  `SharedRecords`. The mobile gate's effect on the ticket is one of the sale engine's steps (`Admit`), which `GateRuns`
  proves.

## Where the code falls short of what it is for

* A captured payment can be lost. Two requests under one retry key can both be waiting for the provider with different
  TossPayments keys; when both are confirmed, the second is answered as a replay of the first and its money is recorded
  neither as a sale nor as a refund to make. The same goes for a payment the provider captured for another amount than
  it was asked for: that exception is thrown outside the block that records refunds
  (`backend/tosspayments.js:66-80`). `LostExactlyWhen` gives the exact condition, `CapturedKeyCanBeLost` a run, and
  `NoCapturedKeyIsLost` shows that nothing is ever lost when a retry key always carries the same request and the
  provider captures the amount it was asked for.
* A sale update with a poster checks its inventory before the upload is awaited and applies it afterwards without
  looking again. `SafeAfterUploadIffStillUsable` gives the exact condition, `UploadCanStrandATicket` a run that leaves a
  sold ticket on a date that no longer exists, and `StrandedTicketIsHalfSold` how that run goes on: a resale that pays
  the seller and moves the ticket before it fails. Without a poster the update is one step and the problem cannot arise.
* A new event always comes with a poster, and its id is only looked up before the upload. Two operators who create the
  same event with different schedules both succeed; the second record is never found, and its tickets may name dates and
  zones the first does not have. `CreationIsSoundIffRoom` gives the exact condition, `CreationsCanCollide` a run, and
  `SoundIffNoClash` shows that overlapping creations and updates are the only way soundness is lost.
* The upper price bound of the shop's own zone at 121000 won and 7 percent is 129471, a won more than seven percent:
  `CapIsExactOrOneMore` gives the exact condition, `StockPriceOfR` this instance.
* The mobile gate does not look at a ticket's owner, so within its twenty seconds a code admits whoever showed it even
  if the ticket has been resold meanwhile: `LetsInOwnerIffNotResold` gives the exact condition in terms of the recorded
  matches and reversals, `FormerOwnerCanBeAdmitted` a run of the handlers.
* An error is answered after a save whose rejection is swallowed, so what the error tells of can be lost in a crash, a
  captured payment's refund notice included; the same holds for a success whose own save rejects.
  `ChangesSurviveCrashIffSaved` gives the exact condition, `ErrorAnswerCanBeLost` a run.
* Who enters the waiting room again after an admission has run out gets the old entry back, now EXPIRED, and no place in
  the queue; only a second attempt makes a new entry. `EnteredIsLiveIff` gives the exact condition.
* The native booking session closes a lapsed web hold without opening its seats. They stay HELD for good: no handler
  frees, sells or drops them (`SessionExpiryKeepsClaimsIff`, `ClosedSeatStaysHeld`).
* A web request for a hold reconciles every ACTIVE hold; at a lapsed native one it dies of a TypeError, because that has
  no list of tickets. Each failing request closes one of them (`SweepFailsIffNativeDue`).
* The dynamic-QR gate does not look at a ticket's status: it admits a ticket that is on resale, whose pool stays OPEN, and
  the next buyer gets an OWNED ticket for a seat that has been entered (`AdmissionKeepsInvIff`, `EnteredTicketIsResold`).
* Renewing a native hold leaves the expiry of its draft behind, so a draft is AWAITING_PAYMENT past its own expiry
  (`RenewalLeavesDraftBehind`).
* The seven days of a retry key run from the call that was carried out; an answer from its receipt does not renew them
  (`RetentionIsNotRenewed`).
* A reversal records a platform fee of 0, so a reversed match's fee stays in the fee total
  (`backend/admin.js:1026`); the gross and settlement totals are reversed exactly.

## Model

| member | source | states |
|---|---|---|
| SaleHandlers.StepKeeps | backend/commerce.js:93-553 | any handler, on any input, whether it answers or throws, keeps the invariant tying tickets to holds, drafts, pools, transactions, balances and events |
| SaleRuns.EveryStateSound | backend/commerce.js:93-553 | the invariant and one order per retry key hold in every state of every run |
| SaleRuns.ClaimsAreExclusive | backend/booking-holds.js:139-264 | in every state of a run of the sale handlers a ticket is HELD exactly when one ACTIVE hold lists it and RESERVED exactly when one PENDING_PAYMENT draft does, with that claim's id and expiry; never two claims |
| SaleRuns.ClaimsAreShort | backend/booking-holds.js:243-390 | a hold expires under ten minutes from its creation, a draft under twenty minutes from its hold's, extension included |
| SaleRuns.RefusedSeatIsTaken | backend/booking-holds.js:199-205 | SEAT_ALREADY_HELD is only answered for a seat that is sold, reserved, held back, or in an ACTIVE hold with time left |
| SaleSeats.SweepIsExact | backend/booking-holds.js:139-168 | the sweep closes exactly the ACTIVE holds past their expiry, puts exactly the seats they hold back on sale, and touches nothing else |
| SaleSeats.SweepIsComplete | backend/booking-holds.js:199-199 | after the sweep over ACTIVE holds none of them has lapsed |
| SaleRoundTrips.GrantedHoldIsExact | backend/booking-holds.js:170-230 | a granted hold is for one to four distinct seats of one performance, all open after the sweep, lasts five minutes and is marked on its seats and no other |
| SaleRoundTrips.HoldThenRelease | backend/booking-holds.js:266-281 | releasing a hold, in time or after its expiry, gives back exactly the tickets it took |
| SaleRoundTrips.DraftIsExact | backend/booking-holds.js:316-362 | a draft comes from the user's own live hold, takes exactly its seats at face value plus 2000 each for ten minutes, and ends the hold |
| SaleRoundTrips.CancelFreesSeats | backend/booking-holds.js:285-303 | cancelling a pending draft, in time or too late, puts exactly its seats back on sale |
| SaleRoundTrips.ListThenCancel | backend/commerce.js:428-447 | listing and cancelling leaves tickets, accounts and transactions as they were |
| SaleRoundTrips.ExtensionIsExact | backend/booking-holds.js:243-264 | an extension is granted once, to the caller's live hold, and moves it and each of its seats to five minutes from now |
| SaleRoundTrips.MatchIsExact | backend/commerce.js:456-513 | a match pays the seller exactly the price, makes the buyer the owner, records price and fee, and touches no other ticket or balance |
| SaleRoundTrips.DrawPicksABuyer | backend/commerce.js:515-531 | whatever the seed, a draw is won by someone who joined, never by the seller |
| SaleRoundTrips.JoinedOnce | backend/commerce.js:412-426 | joining puts a buyer behind the earlier ones, once |
| SaleRoundTrips.OperatorClosesLikeSeller | backend/admin.js:1043-1057 | closing an OPEN pool as operator or as seller has the same effect on tickets, pools, accounts and transactions |
| SaleRoundTrips.BatchIsExact | backend/admin.js:960-977 | a status batch sets each listed ticket to what its last row says and changes nothing else |
| SaleRoundTrips.InvoiceAddsFaces | backend/group-booking.js:340-346 | an institution's invoice is the sum of the face values, where none is zero |
| SaleRoundTrips.ApprovalIsExact | backend/group-booking.js:305-369 | an approval hands over exactly the agreed number of distinct open seats of the requested zone and performance to a new institutional owner, and no others |
| SaleRoundTrips.FeeRoundsUp | backend/commerce.js:462-464 | the resale fee is the least amount that is at least a twentieth of the price, also as doubles compute it |
| SaleRoundTrips.BoundsRoundUp | backend/admin.js:625-627 | the lower price bound is half the face value, rounded up; the upper one is face value plus the zone's percentage, rounded up, or one won more exactly when the percentage comes out whole and the rounding error of the computed factor shows |
| HoldAnswers.NewHoldAnswers | backend/booking-holds.js:170-230 | a hold is granted exactly if the account may act and asks for one to four distinct seats of one named performance, each on sale or held by a hold that has run out, and the event of the first is bookable with its zone |
| HoldAnswers.NewHoldLeaves | backend/booking-holds.js:199-230 | field by field what a granted hold leaves of every hold and ticket: five minutes from now on its seats, holds that had run out EXPIRED and their seats open, all else as before |
| HoldAnswers.ReadHoldAnswers | backend/booking-holds.js:232-241 | a hold is shown exactly to its user, and is EXPIRED with its seats open from then on if it has run out |
| HoldAnswers.ReleaseAnswers | backend/booking-holds.js:266-281 | a release succeeds exactly for the hold's user: RELEASED in time, EXPIRED when it had run out, unchanged when it was over before; its HELD seats open and nothing else changes |
| HoldAnswers.ExtensionAnswers | backend/booking-holds.js:243-264 | an extension succeeds exactly for the hold's user, in time and the first time; hold and seats then run five minutes from now |
| HoldAnswers.DraftAnswers | backend/booking-holds.js:316-362 | a draft is made exactly for the hold's user, who may act, in time, if its tickets exist; its total, its seats and the CONVERTED hold, field by field |
| HoldAnswers.ReadDraftAnswers | backend/booking-holds.js:364-373 | a draft is shown exactly to its user, and is EXPIRED with its seats open from then on if it has run out |
| HoldAnswers.CancelDraftAnswers | backend/booking-holds.js:375-390 | a cancellation succeeds exactly for the draft's user: CANCELLED in time, EXPIRED when it had run out, unchanged when it was over before |
| PurchaseAnswers.BuyAnswers | backend/commerce.js:36-173 | the first purchase of a seat under its retry key succeeds exactly if the account exists, is not banned, is verified and names a method, and the seat stands in a bookable event and is on sale or the buyer's own live one-seat hold or draft; all it leaves, field by field |
| PurchaseAnswers.BuyGroupAnswers | backend/commerce.js:183-303 | the first group order under its key succeeds exactly if the buyer may buy and asks for one to 96 distinct seats on sale, of one performance of a bookable event |
| PurchaseAnswers.BuyGroupTickets | backend/commerce.js:305-320 | every seat of the order is the buyer's and OWNED, and no other ticket changes |
| PurchaseAnswers.BuyGroupRecords | backend/commerce.js:226-355 | seat by seat the transaction recorded: face value plus an equal share of what was approved beyond the faces, the last seat taking the remainder |
| PurchaseAnswers.BuyGroupLeavesRest | backend/commerce.js:259-359 | a group order touches tickets, transactions and ledger only |
| PurchaseAnswers.RetryAnswers | backend/commerce.js:82-113 | in a reachable state a used retry key answers with the first order if the request is the same, else with IDEMPOTENCY_CONFLICT, and changes nothing |
| PurchaseAnswers.RetryIff | backend/commerce.js:102-113 | in any state at all a retry gets the first order again exactly if it asks for the same as the transactions it answers for, all of them for a group order, and their tickets still have event, zone and date |
| PurchaseAnswers.BeginAnswers | backend/api-router.js:1055-1090 | the provider is asked for money exactly if no order was made under the key and the seat is bookable and on sale or the user's own live one-seat hold or draft; the amount is the face value plus 2000 or the draft's total |
| PurchaseAnswers.BeginGroupAnswers | backend/api-router.js:1001-1011 | for several seats exactly if they are all open together, at their face values plus 2000 each |
| PurchaseAnswers.OwnHoldCanBePaid | backend/api-router.js:1072-1078 | a seat one has just taken a hold on can be paid for, at face value plus 2000, as long as the hold lasts |
| ResaleAnswers.ListAnswers | backend/commerce.js:361-410 | a ticket is listed exactly if its owner may act, it is OWNED, not an institution's, transferable and the price is within its bounds; ticket, pool and ledger entry it leaves |
| ResaleAnswers.JoinAnswers | backend/commerce.js:412-426 | an OPEN pool is joined exactly by an account that may act and is not the seller, behind the earlier buyers, once |
| ResaleAnswers.CancelListingAnswers | backend/commerce.js:428-447 | in a sound state a listing is cancelled exactly by its seller while the pool is OPEN |
| ResaleAnswers.MatchAnswers | backend/commerce.js:456-513 | in a sound state a match succeeds exactly if the buyer is verified, the seller may act and the method resolves; seller's balance, ticket, pool, transaction and ledger entry, field by field |
| ResaleAnswers.DrawAnswers | backend/commerce.js:515-531 | a draw matches the joined buyer at the seed's place, exactly if that buyer and the seller may act |
| ResaleAnswers.BuyResaleAnswers | backend/commerce.js:533-553 | a direct purchase succeeds exactly for a verified account that is not the seller, while the pool is OPEN, and matches it |
| ResaleAnswers.OperatorCancelAnswers | backend/admin.js:979-1057 | an operator closes exactly the pools not yet CANCELED; a MATCHED one is unwound with the price clawed back and the buyer's refund recorded in the buyer's name |
| InventoryAnswers.SeatsAsTold | backend/catalog.js:27-43 | the seats of an event zone by zone: the fixed VIP, R and S layouts, and as many numbered ones as any other zone says, or twelve |
| InventoryAnswers.LabelReadsBack | backend/catalog.js:27-33 | a seat's number reads back from its label, which has at least two digits and a leading zero exactly below ten; so no two seats of a zone share a label |
| InventoryAnswers.UpdateSaleAnswers | backend/admin.js:576-631 | an update goes through exactly if the event exists, has one to 2000 seats in each zone and at most 10000 over its dates, and nothing transacted loses its place; the event is then as submitted, has exactly its tickets, and each unclaimed one costs what its zone says in what was submitted |
| InventoryAnswers.UploadAnswers | backend/admin.js:592-631 | an update with a poster goes on to the upload exactly under the same conditions, and what is applied after it is the event as submitted then, whatever the database has become |
| InventoryAnswers.UpdateVenueAnswers | backend/admin.js:558-574 | a venue update goes through exactly if the event exists, and changes its venue, no ticket's fields and no other event |
| InventoryAnswers.CreateEventAnswers | backend/admin.js:364-404 | with nothing in between a creation goes through exactly if its id is free and it is not too large; the event is as submitted with one open ticket per date and seat |
| ConsoleAnswers.BatchAnswers | backend/admin.js:946-977 | a status batch is carried out exactly if it has rows, each asking for ON_SALE or ADMIN_HOLD of an existing, unowned ticket in one of these; tickets and ledger afterwards |
| ConsoleAnswers.ApproveAnswers | backend/group-booking.js:305-369 | a request is approved exactly if it is undecided, the agreed count is allowed, its place is bookable and as many seats are open; it gets the first of them in the ticket array, with the invoice, account and record it leaves |
| ConsoleAnswers.RejectAnswers | backend/group-booking.js:371-386 | a request is rejected exactly if it is undecided |
| ConsoleAnswers.AdmitAnswers | backend/mobile-ticket-qr.js:131-137 | exactly an OWNED ticket is admitted, its use logged in its owner's name |
| Refusals.HoldRefusals | backend/booking-holds.js:170-211 | which error a refused hold gets, and exactly when: account, request, a seat not there or not free, event |
| Refusals.BuyRefusals | backend/commerce.js:36-119 | which error a refused first purchase gets, and exactly when: account, identity, method, ticket, claim, event |
| Refusals.BuyGroupRefusals | backend/commerce.js:183-303 | the same for a group order before its seats are looked at, and for seats of several performances |
| Refusals.ListRefusals | backend/commerce.js:361-386 | which error a refused listing gets, and exactly when |
| Refusals.PoolRefusals | backend/commerce.js:412-553 | when joining, buying from, drawing, withdrawing or closing a pool is refused for the pool's sake, with which error |
| DoublePrice.CapIsExactOrOneMore | backend/catalog.js:120-120 | `Math.ceil(faceValue * (1 + resaleFeeRate))` in doubles is the exact bound or one more, one more exactly when the exact product is whole and the computed one lies above it by more than half the spacing of doubles |
| DoublePrice.StockPriceOfR | backend/catalog-data.js:71-71 | the shop's own zone at 121000 won and 7 percent gets 129471 where the exact bound is 129470 |
| DoublePrice.StockPriceOfVip | backend/catalog-data.js:70-70 | its zone at 154000 won and 8 percent gets the exact bound |
| DoublePrice.FeeIsExact | backend/commerce.js:462-464 | `Math.ceil(price * 0.05)` in doubles is always the exact ceiling |
| SaleRuns.NoOversell | backend/commerce.js:93-359 | a ticket gets at most one primary allocation in a whole run, exactly one when it has an owner; an owner is missing exactly in ON_SALE, HELD, RESERVED and ADMIN_HOLD |
| SaleRuns.NothingIsTakenBack | backend/commerce.js:93-553 | transactions and ledger entries of any state are a prefix of those of any later one; a ticket once owned stays owned; an institutional ticket's owner never changes |
| SaleProgress.StepProgress | backend/commerce.js:93-553 | one step appends only; PRIMARY transactions come from purchases alone, refund notices from the payment route alone |
| SaleRuns.AdmissionIsFinal | backend/mobile-ticket-qr.js:114-139 | an ADMITTED ticket stays ADMITTED with the same owner over any run in which no operator reverses the match that sold it |
| SaleRuns.ResaleIsSound | backend/commerce.js:361-553 | in every state of a run of the sale handlers a ticket is IN_RESALE_POOL exactly when one OPEN pool names it, seller is owner, price within bounds, buyers distinct without the seller; transferCount is the number of MATCHED pools; never two live pools |
| SaleHandlers.MatchNeverStopsHalfway | backend/commerce.js:456-513 | where the invariant holds a match that fails changes nothing: its mid-body date lookup always succeeds |
| SaleRuns.MatchIsAtomic | backend/commerce.js:466-480 | the same in every state of every run |
| SaleRuns.FailuresLeaveSalesAlone | backend/booking-holds.js:139-369 | a handler that throws leaves the database exactly as it was, except that a refused hold has swept the holds, a refused extension or draft has reconciled the hold it names, and a refused direct resale purchase may have joined its buyer |
| SaleOwners.OwnersAreRecorded | backend/commerce.js:93-553 | in every state of every run a ticket's owner is the recipient of its latest transaction (a purchase, group booking or match names the buyer, a reversal the seller), and a ticket without one has no owner |
| SaleOwners.SoldThenOnlyResold | backend/commerce.js:456-513 | once a ticket has an owner, every later transaction about it is a match or its reversal |
| SharedRecords.SessionExpiryKeepsClaimsIff | backend/booking-session.js:5-17 | expiry by the native session keeps the sale invariant if and only if no ACTIVE web hold with a seat has lapsed |
| SharedRecords.ClosedSeatStaysHeld | backend/booking-session.js:10-16 | the seats of a web hold it closed stay HELD and unsold in every state of every later run of the sale handlers |
| SharedRecords.SweepFailsIffNativeDue | backend/booking-holds.js:139-157 | the sweep before a web hold fails if and only if a lapsed native hold is still ACTIVE, and a failing sweep closes exactly one of them |
| SharedRecords.GateIgnoresStatus | backend/admission-qr.js:137-174 | the dynamic gate decides the same whatever the ticket's status, and leaves the ticket of an accepted code ADMITTED |
| SharedRecords.AdmissionKeepsInvIff | backend/admission-qr.js:163-167 | admitting an owned ticket keeps the sale invariant if and only if it is not IN_RESALE_POOL |
| SharedRecords.EnteredTicketIsResold | backend/commerce.js:533-553 | in any sound state the ticket of an OPEN pool can be admitted and then sold: the buyer's direct purchase succeeds and the ticket is OWNED again |
| SharedRecords.ListedSeatCanBeEntered | backend/admission-qr.js:146-167 | a concrete sound state with such a ticket |
| SaleRuns.ReversalRestores | backend/admin.js:979-1057 | reversing a MATCHED pool never meets an OPEN one, returns the ticket to the seller with transferCount 0, and takes exactly the match's money out of the balance and the totals, fees untouched |
| SaleRuns.MatchThenReverse | backend/admin.js:992-1031 | a match and its reversal leave all balances, the ticket, and the gross and settlement totals as before |
| SaleRuns.MoneyIsConserved | backend/admin.js:273-287 | each balance is its opening value plus the transfers naming the user as seller; the summary counts exactly the primary sales and the matches that stand |
| SaleOrders.SplitIsExact | backend/commerce.js:226-236 | the amounts of a split order sum to exactly the approved total, for negative and indivisible surpluses too |
| SaleOrders.SplitIsEven | backend/commerce.js:226-236 | extras differ by less than the number of seats, and the last seat's is never the smaller |
| SaleOrders.UnrepricedSeatsPayFaceAndFee | backend/commerce.js:259-359 | without repricing each seat of a group order is recorded at face value plus 2000 |
| SaleOrders.PurchaseIsAtomic | backend/commerce.js:93-359 | a purchase that throws or replays leaves the database exactly as it was |
| SaleOrders.PurchaseIsComplete | backend/commerce.js:93-359 | a first successful purchase makes every requested seat the buyer's, records one transaction and one ledger entry per seat in order, sums to the approved amount, and touches no other ticket |
| SaleOrders.StepKeepsKeys | backend/commerce.js:82-91 | however often a retry key returns, all transactions under it belong to one order for one request |
| SaleSales.AllocateSeatsTickets | backend/commerce.js:305-320 | after n rounds of the group loop exactly the first n seats are the buyer's |
| SaleSales.AllocateSeatsRecords | backend/commerce.js:323-355 | after n rounds exactly n transactions and ledger entries were appended, in order |
| SaleSales.AssignGroupKeeps | backend/group-booking.js:305-369 | bulk assignment to an institution keeps the invariant |
| SaleSales.AvailableSeats | backend/group-booking.js:312-317 | the inventory filter yields each matching ON_SALE ticket once and no other |
| PaymentRoute.RunKeeps | backend/api-router.js:967-1118 | under any interleaving of Begin, Finish and other handlers, poster changes being uninterrupted, the sale invariant holds, each captured key is where its payment's ending says, and no two payments share a captured key |
| PaymentRoute.CapturedKeysArePlaced | backend/api-router.js:1013-1117 | in such a run, once its payment has finished, a captured key is on PRIMARY transactions for exactly the request's seats and the amount fixed at Begin, or in one refund notice for them, never both; only a late replay and an amount mismatch have neither |
| PaymentRoute.LostExactlyWhen | backend/tosspayments.js:66-80 | in every state of such a run, a captured key ends nowhere if and only if another amount was captured than was asked for, or the buyer may still buy and the same request was allocated under its retry key while the provider was awaited |
| PaymentRoute.LostExactlyOnLateReplay | backend/api-router.js:1024-1048 | in such a run, of the keys confirmed for the right amount, exactly those of a late replay end nowhere |
| PaymentRoute.LostMeansLateReplay | backend/api-router.js:1091-1117 | a key is recorded nowhere exactly when its payment ended as a late replay or in an amount mismatch |
| PaymentRoute.UndisturbedPaymentBuys | backend/api-router.js:1001-1117 | what Begin lets through Finish sells: if nothing touched the database meanwhile, a confirmed payment settles exactly when its buyer may buy and the claim on its seat, if it needs one, has not lapsed |
| PaymentRoute.CapturedKeyCanBeLost | backend/api-router.js:1051-1117 | a concrete run from a sound database in which a captured key ends in no transaction and no refund notice |
| PaymentRoute.NoCapturedKeyIsLost | backend/api-router.js:967-1118 | if a retry key always carries the same request and the provider confirms a key at most once and for the amount asked for, every captured key of a finished payment is in exactly one place |
| PaymentRoute.ReplayAnswers | backend/commerce.js:102-113 | in a reachable state a replay answers whenever the buyer passes: the tickets of the first order still have event, zone and date |
| PaymentEngine.BeginPayment | backend/api-router.js:1001-1011 | changes nothing; lets a request through exactly if no order was made under its retry key and its seats stand in a bookable event and are on sale, one to 96 of one performance, or for a single one the buyer's own live one-seat hold or draft, and then fixes the amount: faces plus 2000 per seat of one performance, or the draft's total |
| PaymentEngine.FinishPayment | backend/api-router.js:1024-1048 | buys with the amount fixed at Begin, and on any exception appends one refund notice |
| PosterUpload.SafeAfterUploadIffStillUsable | backend/admin.js:592-631 | an update applied after its poster upload keeps the database sound if and only if the inventory check would still pass then |
| PosterUpload.UploadCanStrandATicket | backend/admin.js:592-594 | a concrete run in which the checked update strands a ticket bought during the upload |
| PosterUpload.StrandedMatchStopsHalfway | backend/commerce.js:466-472 | a match of such a ticket credits the seller and moves the ticket, then throws, with pool, transactions and ledger unchanged |
| PosterUpload.StrandedTicketIsHalfSold | backend/commerce.js:533-553 | the run goes on: the stranded ticket is listed and bought directly, the answer is EVENT_DATE_NOT_FOUND, the seller is paid, the ticket has the new owner, the pool is still OPEN and no transaction records it |
| EventCreation.CreationIsSoundIffRoom | backend/admin.js:364-409 | a creation resumed after its poster upload keeps the invariant if and only if its id is still free or the event that took it has every date and zone of the new one |
| EventCreation.SoundIffNoClash | backend/admin.js:364-409 | over any run of creations and updates that overlap one another and every other handler, every state so far satisfies the invariant with one record per event if and only if no change that resumed had been overtaken |
| EventCreation.CreationsCanCollide | backend/admin.js:370-398 | a concrete run: two creations of one event with different schedules both pass the check, and the second leaves a ticket on a date the event does not have |
| SaleFrames.OnlyCreationAddsEvents | backend/admin.js:364-409 | no handler but event creation adds or removes an event |
| GroupBookings.DecisionsAreFinal | backend/group-booking.js:305-386 | between any two states of a run every request still asks for the same, and a decided one stays decided as it was |
| GroupBookings.PendingUntilDecided | backend/group-booking.js:305-386 | a request is PENDING in exactly those states of a run before which nobody approved or rejected it with success |
| GroupBookings.DecidedOnce | backend/group-booking.js:305-386 | after a request has been approved or rejected every later attempt to do either is refused as already reviewed |
| GroupBookings.SubmissionRecords | backend/group-booking.js:256-284 | a request is accepted exactly when its event, date and zone exist and its headcount is allowed, and is recorded as PENDING |
| GroupBookings.LateRequestIsHarmless | backend/group-booking.js:256-284 | recording a request after its file was stored keeps the invariant whatever happened meanwhile, and while its date or zone is missing an approval changes nothing |
| SaleServer.Serve | backend/api-router.js:944-1118 | one request served in place is exactly the step of its handler and keeps the invariant |
| SaleServer.ServeAll | backend/api-router.js:944-1118 | a whole sequence of requests leaves the database where the run of their steps leads, in a sound state, and each answer is that of its step |
| Inventory.EnumerationsAgree | backend/admin.js:429-442 | a seat the catalog would mint is exactly a seat the admin console would keep |
| Inventory.SeatsHaveZones | backend/catalog.js:35-43 | the seats of an event name only zones it has |
| Inventory.EnsureTicketsResult | backend/catalog.js:94-131 | minting never throws, alters and loses nothing, and leaves one ticket per date and seat, new ones open at their zone's price |
| Inventory.EnsureTicketsIdempotent | backend/catalog.js:94-131 | minting twice mints nothing the second time |
| Inventory.EventRegenerates | backend/admin.js:465-478 | drop, reprice and mint leave exactly one ticket per date and seat plus the retained transactional ones, with nothing sold, held or reserved altered |
| Inventory.CheckIsExact | backend/admin.js:444-463 | an update leaves every ticket on an existing zone and date if and only if the inventory check passes in the state it is applied to |
| SaleHandlers.UpdatedEventIsExact | backend/admin.js:588-631 | after a successful sale update the event's tickets are one per date and seat plus those transacted, priced by their zones, and all on existing zones and dates; what the event is made of the input is `InventoryAnswers.UpdateSaleAnswers` |
| SaleRuns.InventoryIsSound | backend/admin.js:425-478 | in every state of a run in which no creation or poster upload is interrupted, the ticket array holds each ticket once and each names an existing event, date and zone |
| HoldsEngine.ReleaseHeld | backend/booking-holds.js:139-148 | the release loop puts exactly the hold's own HELD seats back on sale |
| HoldsEngine.Sweep | backend/booking-holds.js:199-199 | the sweep loop reconciles every hold in turn |
| HoldsEngine.CreateSeatHold | backend/booking-holds.js:170-230 | the handler as run: checks in order, sweep, then the marking loop and the push |
| HoldsEngine.RequireOwnHold | backend/booking-holds.js:232-237 | an expired hold is closed before the caller sees it |
| HoldsEngine.ExtendSeatHold | backend/booking-holds.js:243-264 | one extension of five minutes from now, on the hold and each of its tickets |
| HoldsEngine.ReleaseSeatHold | backend/booking-holds.js:266-281 | the handler as run; whose hold it takes and how it ends is `HoldAnswers.ReleaseAnswers` |
| HoldsEngine.ReleaseReserved | backend/booking-holds.js:285-294 | the release loop puts exactly the draft's own RESERVED seats back on sale |
| HoldsEngine.CreateReservationDraft | backend/booking-holds.js:316-362 | converts an ACTIVE hold: total is faces plus 2000 per seat, each seat RESERVED for the draft |
| HoldsEngine.RequireOwnDraft | backend/booking-holds.js:364-369 | an expired draft is closed and its seats released when its owner touches it |
| HoldsEngine.CancelReservationDraft | backend/booking-holds.js:375-390 | a pending draft is cancelled and its seats go back on sale |
| HoldsEngine.TotalFace | backend/booking-holds.js:329-334 | adds up the face values, or reports the first missing ticket |
| CommerceEngine.BuyPrimary | backend/commerce.js:93-173 | the handler as run: replay, claim, ticket, claim closed, transaction, ledger; when it sells is `PurchaseAnswers.BuyAnswers` |
| CommerceEngine.BuyPrimaryGroup | backend/commerce.js:259-359 | the handler as run: every check before the first mutation, then the loop; when it sells is `PurchaseAnswers.BuyGroupAnswers` |
| CommerceEngine.ListForResale | backend/commerce.js:361-410 | opens a pool for an OWNED, transferable ticket within its price bounds |
| CommerceEngine.JoinPool | backend/commerce.js:412-426 | adds a buyer once, never the seller |
| CommerceEngine.CancelResaleListing | backend/commerce.js:428-447 | closes the seller's OPEN pool and gives the ticket back |
| CommerceEngine.CompleteResaleMatch | backend/commerce.js:456-513 | the match as run, with the date lookup after money and ticket have moved |
| CommerceEngine.DrawPool | backend/commerce.js:515-531 | matches the buyer the seed picks |
| CommerceEngine.PurchaseResale | backend/commerce.js:533-553 | joins the buyer and matches at once |
| CommerceEngine.AdminCancelResalePool | backend/admin.js:979-1057 | closes an OPEN pool or unwinds a MATCHED one |
| CommerceEngine.UpdateTicketStatuses | backend/admin.js:960-977 | validates every row before the loop applies the first |
| CommerceEngine.AdmitAtGate | backend/mobile-ticket-qr.js:132-137 | an OWNED ticket is ADMITTED and the use is logged |
| CommerceEngine.ApproveGroupBooking | backend/group-booking.js:305-369 | assigns the first open seats of the zone to a new institutional buyer and invoices their face values |
| InventoryEngine.EnsureTicketsForEvent | backend/catalog.js:94-131 | the nested minting loops, never failing; `changed` exactly when a ticket was minted |
| InventoryEngine.RemoveStaleOpenTickets | backend/admin.js:465-478 | keeps exactly other events' tickets, tickets on active seats, and transactional ones |
| InventoryEngine.RepriceTickets | backend/admin.js:619-630 | the loop reprices exactly the event's unsold ON_SALE and ADMIN_HOLD tickets of known zones |
| InventoryEngine.UpdateEventSale | backend/admin.js:576-631 | the update as run, without a poster; what it installs is `InventoryAnswers.UpdateSaleAnswers` |
| InventoryEngine.UpdateEventVenue | backend/admin.js:558-574 | the venue update as run |
| InventoryEngine.FinishCreation | backend/admin.js:380-404 | the part of a creation after the upload, as run: the record is pushed without another look at its id, and its tickets are minted |
| InventoryEngine.CreateEvent | backend/admin.js:364-404 | both parts with nothing in between: a new event is recorded and gets its tickets |
| WaitingRoom.RoomIsAlwaysFull | backend/booking-holds.js:33-62 | in every state each performance has at most 50 ADMITTED, exactly 50 while anyone waits, one live entry per user, and nobody admitted past someone waiting |
| WaitingRoom.AdmissionIsFifo | backend/booking-holds.js:42-52 | for any entries, whoever still waits after a reconciliation did not arrive strictly before anyone it admitted |
| WaitingRoom.PositionNeverRises | backend/booking-holds.js:57-62 | an entry's reported position never rises over a run |
| RoomAnswers.ReconcileAnswers | backend/booking-holds.js:33-55 | entry by entry, for any entries: an ADMITTED one of the performance is EXPIRED afterwards exactly if its window is over; a WAITING one is let in, until ten minutes from now, exactly if fewer than fifty stay or wait before it; any other is as it was |
| RoomAnswers.EnterAnswers | backend/booking-holds.js:76-108 | entering takes the user's first live entry for the performance, else appends a new one |
| RoomAnswers.GetAnswers | backend/booking-holds.js:110-121 | an entry is shown exactly to its user |
| RoomAnswers.LeaveAnswers | backend/booking-holds.js:123-135 | leaving succeeds exactly for the entry's user; a WAITING or ADMITTED entry is LEFT |
| RoomAnswers.PositionAnswers | backend/booking-holds.js:57-62 | the position is one more than the number of those waiting since strictly before, 0 for who does not wait |
| RoomAnswers.EnteredIsLiveIff | backend/booking-holds.js:84-103 | who enters is waiting or in afterwards exactly if the entry taken is not an ADMITTED one whose window is over |
| WaitingRoom.Room.ReconcileQueue | backend/booking-holds.js:33-55 | lapse, count, sort, admit from the front, as run; what that does to each entry is `RoomAnswers.ReconcileAnswers` |
| WaitingRoom.Room.EnterQueue | backend/booking-holds.js:76-108 | reuses a live entry or appends one, then reconciles |
| WaitingRoom.Room.GetQueueEntry | backend/booking-holds.js:117-121 | reconciles before reporting |
| WaitingRoom.Room.LeaveQueue | backend/booking-holds.js:123-135 | a live entry leaves and its place is filled at once |
| StableSort.SortOrders | backend/booking-holds.js:43-45 | the sort keeps exactly the given positions, in key order, ties in original order |
| BookingSession.OneActiveHoldPerTicket | backend/booking-session.js:130-166 | in every state no ticket has two ACTIVE holds, and revisions stamped on holds strictly increase |
| BookingSession.RevisionNamesTheHolds | backend/booking-session.js:5-17 | two states of one run with the same revision have the same ACTIVE holds on the same seats |
| BookingSession.SelectableMeansHoldable | backend/booking-session.js:95-166 | under the revision a SELECTABLE seat was shown with, createHold succeeds exactly when the ticket is still there and on sale; SEAT_ALREADY_HELD means its own status changed |
| BookingSession.DraftsFollowHolds | backend/booking-session.js:200-244 | in every state a draft is for its hold's seat and user, expires no later than it, and is EXPIRED only once the hold is over |
| BookingSession.LookTellsTheHold | backend/booking-session.js:237-244 | over any run a draft that has just been looked at is AWAITING_PAYMENT exactly when its hold is ACTIVE |
| BookingSession.RenewalLeavesDraftBehind | backend/booking-session.js:168-229 | over any run a draft's expiry is still its hold's exactly if the hold has not been renewed since the draft was made, and earlier otherwise |
| SessionAnswers.ExpiryAnswers | backend/booking-session.js:5-17 | exactly the READY queues and ACTIVE holds that have run out expire, and the revision moves on by the number of those holds |
| SessionAnswers.JoinAnswers | backend/booking-session.js:65-89 | a queue of ten minutes for any performance there is |
| SessionAnswers.SeatsAnswers | backend/booking-session.js:95-128 | the seats are shown, with the revision, exactly to whom has an open queue for the performance |
| SessionAnswers.ShownAnswers | backend/booking-session.js:105-127 | when a seat is shown as unavailable, held by you, or selectable |
| SessionAnswers.HoldAnswers | backend/booking-session.js:130-166 | a seat is held exactly under an open queue for its performance and the present revision, if it is on sale and nobody's; for five minutes, under the next revision |
| SessionAnswers.RenewAnswers | backend/booking-session.js:168-181 | a renewal succeeds exactly for the hold's user, in time, and adds five minutes to what is left |
| SessionAnswers.ReleaseAnswers | backend/booking-session.js:183-198 | a release succeeds exactly for the hold's user, and ends the hold with a new revision exactly if it is ACTIVE with time left |
| SessionAnswers.DraftAnswers | backend/booking-session.js:200-229 | a draft is made exactly for the user of a running hold whose ticket exists, at its face value, until the hold runs out |
| SessionAnswers.ReadDraftAnswers | backend/booking-session.js:237-244 | a draft is shown exactly to its user, and EXPIRED exactly if it awaited payment and its hold is over |
| BookingSession.Desk.ExpireAll | backend/booking-session.js:5-17 | the expiry loops; each lapsed hold moves the revision on by one |
| BookingSession.Desk.CreateSeatHold | backend/booking-session.js:130-166 | the handler as run |
| BookingSession.Desk.RenewSeatHold | backend/booking-session.js:168-181 | five minutes from the later of now and the old expiry; revision unchanged |
| BookingSession.Desk.ReleaseSeatHold | backend/booking-session.js:183-198 | an ACTIVE hold is released and moves the revision on |
| BookingSession.Desk.CreateReservationDraft | backend/booking-session.js:200-229 | a draft for an ACTIVE hold at the ticket's face value, expiring with the hold |
| BookingSession.Desk.LookAtDraft | backend/booking-session.js:237-244 | a draft whose hold is no longer ACTIVE is expired |
| SaveQueue.FileNeverTornOrOlder | backend/persistence.js:16-31 | under any schedule of calls, failures and crashes the file is one complete snapshot some call took, never torn, never older than it was |
| SaveQueue.ResolvedSavesAreDurable | backend/persistence.js:18-31 | from the moment a save resolves the file holds its snapshot or a later one |
| SaveQueue.SuccessfulAnswersAreDurable | backend/http-handler.js:57-79 | what a client has been told succeeded is in the file from then on, across crashes |
| SaveQueue.KeptIffCovered | backend/http-handler.js:57-88 | in every state, whatever a request was or will be answered, the file has its changes exactly when it made none since the process started or a save called after them has resolved |
| SaveQueue.ChangesSurviveCrashIffSaved | backend/http-handler.js:86-89 | for any schedule up to a crash: the file has a request's changes at every later moment if and only if a save of its process called after them had resolved; a successful answer implies it, an error answer does not |
| SaveQueue.ErrorAnswerCanBeLost | backend/api-router.js:1035-1047 | a concrete run: a failed allocation appends a refund notice, the write of the save rejects, the client gets the error, the process crashes and the notice is gone |
| SaveQueue.HeadCanResolve | backend/persistence.js:18-31 | in every state whose queue is not empty, if the file system does not fail, four steps later the file holds the head job's snapshot and its promise is resolved |
| SaveQueue.SuccessIffSaved | backend/http-handler.js:57-79 | a request whose handler returned can be answered with success exactly from when the save it awaits has resolved |
| SaveQueue.ErrorsStayErrors | backend/http-handler.js:57-92 | over any schedule without a crash a request that has gone the error way is never answered with success, and no answer changes |
| SaveQueue.SecondSaveMeansError | backend/http-handler.js:86-89 | a second save puts the request on the error way, waiting for that save |
| AuditLedger.Ledger.Append | backend/persistence.js:52-65 | appends an entry linked to the last hash; a ledger built by calls stays so |
| AuditLedger.Ledger.Verify | backend/persistence.js:67-81 | accepts exactly the chained ledgers and otherwise names the first entry that breaks the chain |
| AuditLedger.BuiltLedgersVerify | backend/persistence.js:52-81 | every ledger built by appending verifies, entry i with index i |
| AuditLedger.EntriesTellTheCalls | backend/persistence.js:52-65 | entry i holds what the ith call brought, under the hash of the entry before it, with the digest of all that |
| AuditLedger.EarlierLedgersArePrefixes | backend/persistence.js:52-65 | an earlier ledger is a prefix of a later one |
| AuditLedger.LastHashFixesTheLedger | backend/persistence.js:67-81 | two verifying ledgers with the same last hash are identical, length included |
| AuditLedger.EditsAreNoticed | backend/persistence.js:67-81 | a verifying ledger is the one that was built exactly when it ends in the same hash |
| RetryReceipts.RetriesAreInvisible | backend/idempotent-mutation.js:11-39 | erasing any calls that repeat the key and payload of a call carried out within the retention before them leaves the same database and the same answers to the calls kept, although every call prunes |
| RetryReceipts.RepetitionsAreInvisible | backend/idempotent-mutation.js:11-39 | the same for erasing all calls that repeat a kept call that succeeded within the retention |
| RetryReceipts.ReplayMeansRetry | backend/idempotent-mutation.js:13-26 | in every state of every run the runner answers from a receipt exactly the calls that repeat the key and payload of a call carried out within the retention |
| RetryReceipts.RetentionIsNotRenewed | backend/idempotent-mutation.js:13-26 | a concrete run: of three equal calls five days apart the first and the third are carried out |
| RetryReceipts.RepetitionIsReplay | backend/idempotent-mutation.js:13-26 | a repetition of an executed call within the retention window, with any calls between, is a replay with the stored response |
| RetryReceipts.SameAnswerForSevenDays | backend/idempotent-mutation.js:1-26 | under the seven-day runner a repetition of a successful call changes nothing but pruning and gets the very same answer |
| RetryReceipts.SameAnswerForever | backend/idempotency.js:17-42 | the runner whose records never expire answers any later repetition of a successful call with the decoded record of its response, changing nothing |
| RetryReceipts.ConflictChangesNothing | backend/idempotent-mutation.js:22-24 | a retry key reused for another payload changes nothing but pruning |
| RetryReceipts.FailureLeavesNoReceipt | backend/idempotent-mutation.js:28-37 | a handler that fails leaves no receipt |
| RetryAnswers.MetReceiptAnswers | backend/idempotent-mutation.js:13-26 | a call that meets a receipt of its key not older than the retention never reaches the handler: stored response or conflict, and only stale receipts go |
| RetryAnswers.UnmetCallAnswers | backend/idempotent-mutation.js:28-38 | any other call under a key reaches it; what the handler did to the database stays, whether it succeeded or failed, and a success alone leaves a receipt, of this call |
| RetryAnswers.KeylessCallAnswers | backend/idempotent-mutation.js:11-13 | a call without a key bypasses the receipts of the seven-day runner |
| RetryAnswers.RunnersAsTold | backend/idempotency.js:17-42 | the one runner keeps receipts for seven days, the other for good |
| RetryReceipts.Backend.Execute | backend/idempotency.js:17-42 | the runner as run: prune, find, replay or conflict, else call, store and answer |
| MobileQr.AtMostOneValidToken | backend/mobile-ticket-qr.js:72-87 | in every state a ticket has at most one VALID token |
| MobileQr.AcceptedCodeIsNewest | backend/mobile-ticket-qr.js:114-139 | an accepted code is the newest issued for its ticket, exactly as signed, under twenty seconds old, for an OWNED ticket; it is then USED and the ticket ADMITTED |
| MobileQr.NewestCodeIsAccepted | backend/mobile-ticket-qr.js:114-139 | every such code is accepted |
| MobileQr.TokenConsumedOnce | backend/mobile-ticket-qr.js:125-136 | a token accepted once is never accepted again in the run |
| MobileQr.AcceptedForOwnerIffUnsold | backend/mobile-ticket-qr.js:114-139 | over a run, the code a gate accepts is the present owner's if and only if the ticket belongs to whom it belonged to when the code was issued; no other code was issued for it in between |
| MobileQrAnswers.IssueAnswers | backend/mobile-ticket-qr.js:62-87 | a code is issued exactly to the owner of an OWNED ticket on a trusted device; the ticket's VALID tokens are REVOKED, the new one lasts twenty seconds |
| MobileQrAnswers.RevokeAnswers | backend/mobile-ticket-qr.js:89-102 | a revocation succeeds exactly for the owner and takes exactly the owner's VALID tokens of the ticket |
| MobileQrAnswers.ScanAnswers | backend/mobile-ticket-qr.js:114-139 | the gate accepts exactly a genuine code, neither used nor revoked, with time left, of an OWNED ticket; every refusal named, and all it leaves |
| GateRuns.RunProjects | backend/mobile-ticket-qr.js:131-137 | over any run of codes and sale handlers on one database the codes go through a run of their own system, an accepted scan being the sale engine's admission |
| GateRuns.LetsInOwnerIffNotResold | backend/mobile-ticket-qr.js:114-139 | over any such run, between the issue of an accepted code and its scan the ticket was only matched or given back by reversals, and the code is the present owner's if and only if there was no such transaction or the last one names the code's own user |
| GateRuns.FormerOwnerCanBeAdmitted | backend/mobile-ticket-qr.js:131-136 | a concrete run of issue, listing, direct resale and scan in which the former owner is let in |
| MobileQr.CodeDesk.RevokeTokens | backend/mobile-ticket-qr.js:73-75 | the loop revokes exactly the ticket's VALID tokens |
| MobileQr.CodeDesk.IssueCode | backend/mobile-ticket-qr.js:62-87 | the handler as run |
| MobileQr.CodeDesk.RevokeCode | backend/mobile-ticket-qr.js:89-102 | revokes the caller's own VALID tokens of the ticket |
| MobileQr.CodeDesk.ScanCode | backend/mobile-ticket-qr.js:114-139 | the gate as run, in its order of checks |
| DynamicQr.AcceptedOnce | backend/admission-qr.js:137-194 | a ticket is let in at most once across all gates and codes |
| DynamicQr.UsedStaysUsed | backend/admission.js:76-94 | a USED credential never leaves USED and the record of its use is never overwritten |
| DynamicQr.LaterScansReportTheFirst | backend/admission-qr.js:155-193 | a later scan of the consumed code before its expiry reports alreadyUsed with the first gate's id and time |
| DynamicQr.OnlyAcceptanceUses | backend/admission-qr.js:163-174 | a credential becomes USED exactly by an accepted scan |
| DynamicQrAnswers.ShowAnswers | backend/admission.js:96-117 | the virtual ticket is shown exactly to the owner of a ticket of a performance there is |
| DynamicQrAnswers.IssueAnswers | backend/admission-qr.js:29-135 | a code is issued exactly to the owner of an OWNED ticket, in an emergency or with no operator's hold, in the app, attested, on a trusted device, risk satisfied and doors open; credential and code it leaves |
| DynamicQrAnswers.ScanAnswers | backend/admission-qr.js:137-174 | a gate lets in exactly the ticket's current code, not used up, for an event the gate is for; the other verdicts and all it leaves |
| DynamicQrAnswers.ReportAnswers | backend/admission-qr.js:188-194 | a scan of a used code names the time and gate of its use, the credential's where it has them |
| DynamicQr.AdmissionDesk.EnsureAdmissionCredential | backend/admission.js:57-94 | creates or refreshes a credential, sparing USED, and lifts the hold when the owner changed |
| DynamicQr.AdmissionDesk.ShowVirtual | backend/admission.js:96-117 | refreshes the credential and shows no code |
| DynamicQr.AdmissionDesk.IssueCode | backend/admission-qr.js:29-135 | the handler as run, with the credential reset before the later checks |
| DynamicQr.AdmissionDesk.ScanCode | backend/admission-qr.js:137-194 | the gate as run |
| Ranking.RankShows | src/data/ranking.ts:8-30 | the slot-filling loops compute the ranking |
| Ranking.RankIsComplete | src/data/ranking.ts:8-30 | distinct shows yield min(n, slots) of them, without repeats |
| Ranking.PinnedShowsSitInTheirSlots | src/data/ranking.ts:12-18 | with enough shows, the first show pinned to a slot sits exactly there |
| Ranking.DemandDecides | src/data/ranking.ts:20-27 | the shows placed by demand appear in nonincreasing soldCount |
| Ranking.TiesKeepTheirOrder | src/data/ranking.ts:20-27 | of two shows placed by demand that sold equally well the one first in the list comes first |
| Ranking.NobodyIsOverlooked | src/data/ranking.ts:20-29 | no omitted show outsells one placed by demand, and none that holds a slot is omitted |

## Left out

- HTTP parsing, routing, sessions, rate limits, static files, the user interface, payload validation and string normalization: plumbing, or wide and shallow.
- Provider calls and cryptography: only "confirmed under this key, with this method", "captured under this key for another amount" or "not confirmed" is kept.
- Display fields, audit payloads and timestamps that no decision reads.
- Admission credentials created by a purchase or match, and the credential and code edits of a reversal: not part of the sale database here; credentials have their own system in `DynamicQr`.
- `directTransferAttempt`, seller applications, support, watchlist, devices, admin accounts and mobile administration: one-branch workflows.
- Startup migration: a run starts in a state that already satisfies the invariant.
- The retry runners around the hold, draft, queue, booking-session and mobile-code handlers are modelled once, in `RetryReceipts`; a replayed call changes none of those systems, so their runs are over executed calls. The runner's digests are taken as injective in their joined parts.
- InventoryEngine.CreateEvent: does not suspend between its check and its effect, because a method runs to its end; `EventCreation` interleaves the two parts.
- The file-storing await of a group booking request is not a step of the runs; `GroupBookings.LateRequestIsHarmless` says what recording it late does.
- Floating point beyond ten trillion won and rates above 100 percent: the code itself allows face values up to ten million won and rates of 6, 7 and 8 percent.
- `mobile-lifecycle.js`: a third copy of the receipt runner over the same handlers.
- Inventory.EnsureTicketsResult: a zone is looked up by its first match; the code's map keeps the last one, which is the same zone because ids are distinct.
- SaveQueue.FileNeverTornOrOlder: a rename that fails is taken not to have happened, and one process writes the file at a time.
- DynamicQr.AcceptedOnce: speaks of runs of `virtualQr`, `issueQr` and `verifyQr`; a reversal of a match by an operator, which gives an admitted ticket back, is outside those runs.
