/** Primary sales and official resale (backend/commerce.js), and its reversal by an operator (backend/admin.js). */
module Commerce {
  import opened Prelude
  import opened SaleTypes
  import opened Holds

  datatype PaymentMethod = CreditCard | SimplePay | BankTransfer | BankDeposit | Mobile

  // --------------------------------------------------------------------------------- idempotency

  predicate SameKey(tx: Transaction, idem: Idempotency) {
    tx.Primary? && tx.idem.Some? && tx.idem.value.group == idem.group
    && tx.idem.value.userId == idem.userId && tx.idem.value.key == idem.key
  }

  /** Position of the first transaction made under this idempotency key. */
  function FindKey(txs: seq<Transaction>, idem: Idempotency): (r: Option<nat>)
    ensures r.Some? ==> r.value < |txs| && SameKey(txs[r.value], idem)
    ensures r.Some? ==> forall j :: 0 <= j < r.value ==> !SameKey(txs[j], idem)
    ensures r.None? ==> forall j :: 0 <= j < |txs| ==> !SameKey(txs[j], idem)
  {
    if txs == [] then None
    else
      var last := |txs| - 1;
      var earlier := FindKey(txs[..last], idem);
      if earlier.Some? then earlier
      else if SameKey(txs[last], idem) then Some(last)
      else None
  }

  /** `findIdempotentPurchase`: the order already made under the key, or a conflict with another request. */
  function FindReplay(db: Db, idem: Option<Idempotency>): Result<Option<nat>, Error> {
    if idem.None? then Ok(None)
    else
      var found := FindKey(db.txs, idem.value);
      if found.None? then Ok(None)
      else if db.txs[found.value].idem != idem then Err(IdempotencyConflict)
      else if idem.value.group && exists j :: 0 <= j < |db.txs| && SameKey(db.txs[j], idem.value) && db.txs[j].idem != idem
      then Err(IdempotencyConflict)
      else Ok(found)
  }

  // ------------------------------------------------------------------------------- purchasability

  function CheckContext(db: Db, id: TicketId): Option<Error> {
    if id !in db.tickets then Some(TicketNotFound)
    else if id.eventId !in db.events then Some(EventNotFound)
    else if FindZone(db.events[id.eventId].zones, id.zoneId).None? then Some(ZoneNotFound)
    else if id.dateId !in db.events[id.eventId].dates then Some(EventDateNotFound)
    else None
  }

  datatype Claim = Claim(hold: Option<HoldId>, draft: Option<DraftId>)

  predicate OwnSingleSeatHold(db: Db, id: TicketId, userId: UserId, now: int)
    requires id in db.tickets
  {
    var t := db.tickets[id];
    t.status == Held && t.heldBy.Some? && t.heldBy.value < |db.holds|
    && var hold := db.holds[t.heldBy.value];
       hold.userId == userId && hold.status.HoldActive? && hold.ticketIds == [id] && !IsPast(hold.expiresAt, now)
  }

  predicate OwnSingleSeatDraft(db: Db, id: TicketId, userId: UserId, d: DraftId, now: int)
    requires id in db.tickets
  {
    var t := db.tickets[id];
    t.status == Reserved && d < |db.drafts| && t.reservationId == Some(d)
    && var draft := db.drafts[d];
       draft.userId == userId && draft.status.PendingPayment? && draft.ticketIds == [id] && !IsPast(draft.expiresAt, now)
  }

  function AssertPurchasable(db: Db, id: TicketId, userId: UserId, allowHold: bool, draftId: Option<DraftId>, now: int)
    : (r: Result<Claim, Error>)
  {
    var context := CheckContext(db, id);
    if context.Some? then Err(context.value)
    else
      var hold := if allowHold && OwnSingleSeatHold(db, id, userId, now) then db.tickets[id].heldBy else None;
      var draft := if draftId.Some? && OwnSingleSeatDraft(db, id, userId, draftId.value, now) then draftId else None;
      if db.tickets[id].status != OnSale && hold.None? && draft.None? then Err(TicketNotAvailable)
      else if !db.events[id.eventId].bookable then Err(EventNotOnSale)
      else Ok(Claim(hold, draft))
  }

  // ------------------------------------------------------------------------------ primary purchase

  datatype Purchase = Purchase(
    userId: UserId,
    ticketIds: seq<TicketId>,
    payment: Option<PaymentMethod>,
    pg: Option<TossKey>,
    key: Option<string>,
    requestMethod: string,
    approved: Option<int>,
    allowHold: bool,
    draftId: Option<DraftId>)

  function IdemOf(p: Purchase, group: bool): Option<Idempotency> {
    if p.key.None? || p.key.value == "" then None
    else Some(Idempotency(group, p.userId, p.key.value, (set id | id in p.ticketIds), p.requestMethod))
  }

  function Allocated(t: Ticket, userId: UserId): Ticket {
    t.(ownerId := Some(userId), status := Owned, heldBy := None, holdExpiresAt := None,
       reservationId := None, reservationExpiresAt := None)
  }

  /** One seat changes hands for the first time: ticket, claim, transaction and ledger entry together. */
  function Allocate(db: Db, id: TicketId, claim: Claim, tx: Transaction): Db
    requires id in db.tickets && tx.Primary?
    requires claim.hold.Some? ==> claim.hold.value < |db.holds|
    requires claim.draft.Some? ==> claim.draft.value < |db.drafts|
  {
    db.(tickets := db.tickets[id := Allocated(db.tickets[id], tx.userId)],
        holds := if claim.hold.Some? then SetHoldStatus(db.holds, claim.hold.value, HoldConverted) else db.holds,
        drafts := if claim.draft.Some?
                  then db.drafts[claim.draft.value := db.drafts[claim.draft.value].(status := DraftConfirmed)]
                  else db.drafts,
        txs := db.txs + [tx],
        ledger := db.ledger + [LedgerEntry(ByUser(tx.userId), PrimaryPurchase(id, tx.amount))])
  }

  function PaidAmount(db: Db, id: TicketId, claim: Claim, approved: Option<int>): int
    requires id in db.tickets
    requires claim.draft.Some? ==> claim.draft.value < |db.drafts|
  {
    if approved.Some? then approved.value
    else if claim.draft.Some? then db.drafts[claim.draft.value].total
    else db.tickets[id].faceValue
  }

  /** `findUser`, `ensureIdentityVerified` and `resolvePaymentMethod`, in this order. */
  function CheckBuyer(db: Db, p: Purchase): Option<Error> {
    var user := FindUser(db.users, p.userId);
    if user.Err? then Some(user.error)
    else if !user.value.verified then Some(IdentityRequired)
    else if p.payment.None? then Some(UnsupportedPaymentMethod)
    else None
  }

  function BuyPrimary(db: Db, p: Purchase, now: int): Reply
    requires |p.ticketIds| == 1
  {
    var buyer := CheckBuyer(db, p);
    if buyer.Some? then Reply(db, Err(buyer.value))
    else
      var replay := FindReplay(db, IdemOf(p, false));
      if replay.Err? then Reply(db, Err(replay.error))
      else if replay.value.Some? then
        var context := CheckContext(db, db.txs[replay.value.value].ticketId);
        Reply(db, if context.Some? then Err(context.value) else Ok(db.txs[replay.value.value].order))
      else
        var id := p.ticketIds[0];
        var claim := AssertPurchasable(db, id, p.userId, p.allowHold, p.draftId, now);
        if claim.Err? then Reply(db, Err(claim.error))
        else
          var tx := Primary(id, p.userId, PaidAmount(db, id, claim.value, p.approved), p.pg, IdemOf(p, false), |db.txs|);
          Reply(Allocate(db, id, claim.value, tx), Ok(|db.txs|))
  }

  /** Splits one approved total over the seats of an order (`splitGroupAmount`); `/` floors here. */
  function SplitGroupAmount(approved: Option<int>, faceValues: seq<int>): (r: seq<int>)
    requires |faceValues| > 0
    ensures |r| == |faceValues|
  {
    if approved.None? then faceValues
    else
      var n := |faceValues|;
      var extra := approved.value - Sum(faceValues);
      var perSeat := extra / n;
      seq(n, i requires 0 <= i < n => faceValues[i] + (if i == n - 1 then extra - perSeat * (n - 1) else perSeat))
  }

  function NormalizeGroup(ids: seq<TicketId>): Option<Error> {
    if ids == [] then Some(MissingField)
    else if !NoDuplicates(ids) then Some(DuplicateSeat)
    else if |ids| > MAX_GROUP_PURCHASE_SEATS then Some(TooManySeats)
    else None
  }

  /** First seat of the order that cannot be bought, in the order's own sequence. */
  function CheckGroup(db: Db, ids: seq<TicketId>, userId: UserId, now: int): Option<Error> {
    if ids == [] then None
    else
      var first := AssertPurchasable(db, ids[0], userId, false, None, now);
      if first.Err? then Some(first.error) else CheckGroup(db, ids[1..], userId, now)
  }

  predicate OnePerformance(ids: seq<TicketId>)
    requires ids != []
  {
    forall id :: id in ids ==> id.eventId == ids[0].eventId && id.dateId == ids[0].dateId
  }

  function GroupTx(p: Purchase, amounts: seq<int>, order: nat, i: nat): Transaction
    requires i < |p.ticketIds| && |amounts| == |p.ticketIds|
  {
    Primary(p.ticketIds[i], p.userId, amounts[i], p.pg, IdemOf(p, true), order)
  }

  /** The allocation loop of a group order after its first `n` seats. */
  function AllocateSeats(db: Db, p: Purchase, amounts: seq<int>, n: nat): (r: Db)
    requires n <= |p.ticketIds| && |amounts| == |p.ticketIds|
    requires forall id :: id in p.ticketIds ==> id in db.tickets
    ensures forall id :: id in db.tickets ==> id in r.tickets
  {
    if n == 0 then db
    else
      var before := AllocateSeats(db, p, amounts, n - 1);
      assert p.ticketIds[n - 1] in p.ticketIds;
      Allocate(before, p.ticketIds[n - 1], Claim(None, None), GroupTx(p, amounts, |db.txs|, n - 1))
  }

  function CheckContexts(db: Db, txs: seq<Transaction>, idem: Idempotency): Option<Error> {
    if txs == [] then None
    else if SameKey(txs[0], idem) && CheckContext(db, txs[0].ticketId).Some? then CheckContext(db, txs[0].ticketId)
    else CheckContexts(db, txs[1..], idem)
  }

  lemma CheckGroupFindsTickets(db: Db, ids: seq<TicketId>, userId: UserId, now: int)
    requires CheckGroup(db, ids, userId, now).None?
    ensures forall id :: id in ids ==> AssertPurchasable(db, id, userId, false, None, now).Ok?
    ensures forall id :: id in ids ==> id in db.tickets && db.tickets[id].status == OnSale
  {
  }

  function BuyPrimaryGroup(db: Db, p: Purchase, now: int): Reply {
    var buyer := CheckBuyer(db, p);
    if buyer.Some? then Reply(db, Err(buyer.value))
    else if NormalizeGroup(p.ticketIds).Some? then Reply(db, Err(NormalizeGroup(p.ticketIds).value))
    else
      var idem := IdemOf(p, true);
      var replay := FindReplay(db, idem);
      if replay.Err? then Reply(db, Err(replay.error))
      else if replay.value.Some? then
        var context := CheckContexts(db, db.txs, idem.value);
        Reply(db, if context.Some? then Err(context.value) else Ok(db.txs[replay.value.value].order))
      else
        var check := CheckGroup(db, p.ticketIds, p.userId, now);
        if check.Some? then Reply(db, Err(check.value))
        else if !OnePerformance(p.ticketIds) then Reply(db, Err(SeatPerformanceMismatch))
        else
          CheckGroupFindsTickets(db, p.ticketIds, p.userId, now);
          var amounts := SplitGroupAmount(p.approved, FaceValues(db.tickets, p.ticketIds));
          Reply(AllocateSeats(db, p, amounts, |p.ticketIds|), Ok(|db.txs|))
  }

  // ---------------------------------------------------------------------------------------- resale

  function ListForResale(db: Db, sellerId: UserId, id: TicketId, price: Option<int>): Reply {
    var seller := FindUser(db.users, sellerId);
    if seller.Err? then Reply(db, Err(seller.error))
    else if id !in db.tickets then Reply(db, Err(TicketNotFound))
    else
      var t := db.tickets[id];
      if t.ownerId != Some(sellerId) then Reply(db, Err(NotOwner))
      else if t.status != Owned then Reply(db, Err(InvalidTicketState))
      else if t.institutional then Reply(db, Err(InstitutionalResaleBlocked))
      else if t.transferCount >= t.maxTransferCount then Reply(db, Err(TransferLimitReached))
      else if price.None? then Reply(db, Err(InvalidResalePrice))
      else if price.value < t.minPrice || price.value > t.maxPrice then Reply(db, Err(PriceOutOfPolicy))
      else Reply(OpenPool(db, sellerId, id, price.value), Ok(|db.pools|))
  }

  function OpenPool(db: Db, sellerId: UserId, id: TicketId, price: int): Db
    requires id in db.tickets
  {
    Log(db.(tickets := db.tickets[id := db.tickets[id].(status := InResalePool)],
            pools := db.pools + [Pool(id, sellerId, price, [], Open, None, 0, 0)]),
        ByUser(sellerId), ResaleListed(|db.pools|, id, price))
  }

  function AddBuyer(pools: seq<Pool>, p: PoolId, buyerId: UserId): seq<Pool>
    requires p < |pools|
  {
    if buyerId in pools[p].buyers then pools else pools[p := pools[p].(buyers := pools[p].buyers + [buyerId])]
  }

  function JoinPool(db: Db, buyerId: UserId, p: PoolId): Reply {
    var buyer := FindUser(db.users, buyerId);
    if buyer.Err? then Reply(db, Err(buyer.error))
    else if p >= |db.pools| then Reply(db, Err(PoolNotFound))
    else if !db.pools[p].status.Open? then Reply(db, Err(PoolClosed))
    else if db.pools[p].sellerId == buyerId then Reply(db, Err(SelfPurchaseBlocked))
    else Reply(Log(db.(pools := AddBuyer(db.pools, p, buyerId)), ByUser(buyerId), PoolJoined(p)), Ok(p))
  }

  /** An OPEN pool closes without a sale and its ticket goes back to its owner's hands. */
  function ClosePool(db: Db, p: PoolId): Db
    requires p < |db.pools| && db.pools[p].ticketId in db.tickets
  {
    var id := db.pools[p].ticketId;
    db.(tickets := db.tickets[id := db.tickets[id].(status := Owned)],
        pools := db.pools[p := db.pools[p].(status := Canceled)])
  }

  function CancelResaleListing(db: Db, sellerId: UserId, p: PoolId): Reply {
    var seller := FindUser(db.users, sellerId);
    if seller.Err? then Reply(db, Err(seller.error))
    else if p >= |db.pools| then Reply(db, Err(PoolNotFound))
    else if db.pools[p].sellerId != sellerId then Reply(db, Err(NotOwner))
    else if !db.pools[p].status.Open? then Reply(db, Err(PoolClosed))
    else if db.pools[p].ticketId !in db.tickets then Reply(db, Err(TicketNotFound))
    else if db.tickets[db.pools[p].ticketId].ownerId != Some(sellerId) then Reply(db, Err(NotOwner))
    else Reply(Log(ClosePool(db, p), ByUser(sellerId), ListingCanceled(p, db.pools[p].ticketId)), Ok(p))
  }

  /** `Math.ceil(price * 0.05)`; the rounding of the product to a double never shows (`DoublePrice.FeeIsExact`). */
  function ResaleFee(price: int): int {
    (price * 5 + 99) / 100
  }

  /** The first half of a match: money and ownership move before the performance date is looked up. */
  function MoveTicket(db: Db, p: PoolId, buyerId: UserId): Db
    requires p < |db.pools| && db.pools[p].ticketId in db.tickets && db.pools[p].sellerId < |db.users|
  {
    var pool := db.pools[p];
    var t := db.tickets[pool.ticketId];
    var seller := db.users[pool.sellerId];
    db.(users := db.users[pool.sellerId := seller.(balance := seller.balance + pool.price)],
        tickets := db.tickets[pool.ticketId := t.(ownerId := Some(buyerId), transferCount := t.transferCount + 1, status := Owned)])
  }

  function SettleMatch(db: Db, p: PoolId, buyerId: UserId): Db
    requires p < |db.pools|
  {
    var pool := db.pools[p];
    var fee := ResaleFee(pool.price);
    Log(db.(pools := db.pools[p := pool.(status := Matched, winnerId := Some(buyerId),
                                         buyerTotal := pool.price + fee, sellerSettlement := pool.price)],
            txs := db.txs + [Resale(pool.ticketId, buyerId, pool.sellerId, pool.price + fee, pool.price, fee)]),
        BySystem, ResaleMatched(p, pool.ticketId, pool.sellerId, buyerId, pool.price, fee))
  }

  function CompleteResaleMatch(db: Db, p: PoolId, buyerId: UserId, payment: Option<PaymentMethod>): Reply
    requires p < |db.pools| && buyerId < |db.users|
  {
    var pool := db.pools[p];
    var id := pool.ticketId;
    var seller := FindUser(db.users, pool.sellerId);
    if !db.users[buyerId].verified then Reply(db, Err(IdentityRequired))
    else if seller.Err? then Reply(db, Err(seller.error))
    else if id !in db.tickets then Reply(db, Err(TicketNotFound))
    else if payment.None? then Reply(db, Err(UnsupportedPaymentMethod))
    else
      var moved := MoveTicket(db, p, buyerId);
      if id.eventId !in db.events || id.dateId !in db.events[id.eventId].dates then Reply(moved, Err(EventDateNotFound))
      else Reply(SettleMatch(moved, p, buyerId), Ok(p))
  }

  function DrawPool(db: Db, p: PoolId, payment: Option<PaymentMethod>, seed: nat): Reply {
    if p >= |db.pools| then Reply(db, Err(PoolNotFound))
    else if !db.pools[p].status.Open? then Reply(db, Err(PoolClosed))
    else if db.pools[p].buyers == [] then Reply(db, Err(EmptyPool))
    else
      var winnerId := db.pools[p].buyers[seed % |db.pools[p].buyers|];
      var winner := FindUser(db.users, winnerId);
      if winner.Err? then Reply(db, Err(winner.error))
      else CompleteResaleMatch(db, p, winnerId, payment)
  }

  function PurchaseResale(db: Db, buyerId: UserId, p: PoolId, payment: Option<PaymentMethod>): Reply {
    var buyer := FindUser(db.users, buyerId);
    if buyer.Err? then Reply(db, Err(buyer.error))
    else if p >= |db.pools| then Reply(db, Err(PoolNotFound))
    else if !db.pools[p].status.Open? then Reply(db, Err(PoolClosed))
    else if db.pools[p].sellerId == buyerId then Reply(db, Err(SelfPurchaseBlocked))
    else if payment.None? then Reply(db, Err(UnsupportedPaymentMethod))
    else
      var joined := Log(db.(pools := AddBuyer(db.pools, p, buyerId)), ByUser(buyerId), PoolJoined(p));
      CompleteResaleMatch(joined, p, buyerId, payment)
  }

  /** A match or its reversal on the records: one ticket, one pool, the seller's balance and one transaction. */
  function Trade(db: Db, p: PoolId, x: Ticket, pool: Pool, amount: int, tx: Transaction): Db
    requires p < |db.pools| && db.pools[p].sellerId < |db.users|
  {
    var seller := db.pools[p].sellerId;
    db.(tickets := db.tickets[db.pools[p].ticketId := x],
        pools := db.pools[p := pool],
        users := db.users[seller := db.users[seller].(balance := db.users[seller].balance + amount)],
        txs := db.txs + [tx])
  }

  function ReturnedTicket(t: Ticket, sellerId: UserId): Ticket {
    t.(ownerId := Some(sellerId), transferCount := if t.transferCount > 0 then t.transferCount - 1 else 0, status := Owned)
  }

  function ReturnTx(pool: Pool): Transaction {
    Refund(pool.ticketId, if pool.winnerId.Some? then pool.winnerId.value else 0, pool.sellerId, pool.buyerTotal, -pool.sellerSettlement)
  }

  /** Reversal of a MATCHED pool: settlement clawed back, ticket returned to the seller. */
  function ReverseMatch(db: Db, p: PoolId): Db
    requires p < |db.pools| && db.pools[p].ticketId in db.tickets && db.pools[p].sellerId < |db.users|
  {
    var pool := db.pools[p];
    Log(Trade(db, p, ReturnedTicket(db.tickets[pool.ticketId], pool.sellerId), pool.(status := Canceled),
              -pool.sellerSettlement, ReturnTx(pool)),
        ByAdmin, MatchReversed(p, pool.ticketId, pool.sellerSettlement, pool.buyerTotal))
  }

  function AdminCancelResalePool(db: Db, p: PoolId): Reply {
    if p >= |db.pools| then Reply(db, Err(PoolNotFound))
    else if db.pools[p].status.Canceled? then Reply(db, Err(PoolAlreadyCanceled))
    else if db.pools[p].ticketId !in db.tickets then Reply(db, Err(TicketNotFound))
    else if db.pools[p].status.Matched? then
      if db.pools[p].sellerId >= |db.users| then Reply(db, Err(UserNotFound))
      else Reply(Log(ReverseMatch(db, p), ByAdmin, PoolCanceled(p, db.pools[p].ticketId)), Ok(p))
    else Reply(Log(ClosePool(db, p), ByAdmin, PoolCanceled(p, db.pools[p].ticketId)), Ok(p))
  }

  // ---------------------------------------------------------------------------- operator and gate

  function CheckStatusUpdate(db: Db, id: TicketId, status: TicketStatus): Option<Error> {
    if status != OnSale && status != AdminHold then Some(InvalidTicketStatus)
    else if id !in db.tickets then Some(TicketNotFound)
    else if db.tickets[id].ownerId.Some? || (db.tickets[id].status != OnSale && db.tickets[id].status != AdminHold) then Some(TicketLocked)
    else None
  }

  function CheckStatusUpdates(db: Db, updates: seq<(TicketId, TicketStatus)>): Option<Error> {
    if updates == [] then None
    else if CheckStatusUpdate(db, updates[0].0, updates[0].1).Some? then CheckStatusUpdate(db, updates[0].0, updates[0].1)
    else CheckStatusUpdates(db, updates[1..])
  }

  /** The update loop of a batch after its first `n` rows; every row was validated before the loop. */
  function SetStatuses(db: Db, updates: seq<(TicketId, TicketStatus)>, n: nat): (r: Db)
    requires n <= |updates|
    requires forall u :: u in updates ==> u.0 in db.tickets
    ensures forall id :: id in db.tickets ==> id in r.tickets
  {
    if n == 0 then db
    else
      var before := SetStatuses(db, updates, n - 1);
      var u := updates[n - 1];
      assert u in updates;
      Log(before.(tickets := before.tickets[u.0 := before.tickets[u.0].(status := u.1)]), ByAdmin, TicketStatusUpdated(u.0, u.1))
  }

  lemma CheckedUpdatesExist(db: Db, updates: seq<(TicketId, TicketStatus)>)
    requires CheckStatusUpdates(db, updates).None?
    ensures forall u :: u in updates ==> u.0 in db.tickets && CheckStatusUpdate(db, u.0, u.1).None?
  {
  }

  function UpdateTicketStatuses(db: Db, updates: seq<(TicketId, TicketStatus)>): Reply {
    if updates == [] then Reply(db, Err(MissingField))
    else
      var check := CheckStatusUpdates(db, updates);
      if check.Some? then Reply(db, Err(check.value))
      else
        CheckedUpdatesExist(db, updates);
        Reply(SetStatuses(db, updates, |updates|), Ok(|updates|))
  }

  /** What the mobile gate does to a ticket once its token has been accepted (backend/mobile-ticket-qr.js). */
  function AdmitAtGate(db: Db, id: TicketId): Reply {
    if id !in db.tickets || db.tickets[id].status != Owned then Reply(db, Err(TicketCanceled))
    else
      var owner := if db.tickets[id].ownerId.Some? then db.tickets[id].ownerId.value else 0;
      Reply(Log(db.(tickets := db.tickets[id := db.tickets[id].(status := Admitted)]), ByUser(owner), MobileQrUsed(id)), Ok(0))
  }

  // ---------------------------------------------------------------------------------- group booking

  predicate AvailableFor(tickets: Tickets, id: TicketId, r: GroupRequest) {
    id in tickets && id.eventId == r.eventId && id.dateId == r.dateId && id.zoneId == r.zoneId && tickets[id].status == OnSale
  }

  /** `db.tickets.filter(...)`: the open seats of the requested zone, in the order of the ticket array. */
  function Available(tickets: Tickets, order: seq<TicketId>, r: GroupRequest): seq<TicketId> {
    if order == [] then []
    else (if AvailableFor(tickets, order[0], r) then [order[0]] else []) + Available(tickets, order[1..], r)
  }

  function AssignTickets(tickets: Tickets, ids: seq<TicketId>, buyerId: UserId): Tickets {
    map id | id in tickets ::
      if id in ids then tickets[id].(ownerId := Some(buyerId), status := Owned, institutional := true) else tickets[id]
  }

  function SubmitGroupBooking(db: Db, eventId: string, dateId: string, zoneId: string, headcount: int): Reply {
    if eventId !in db.events then Reply(db, Err(EventNotFound))
    else if dateId !in db.events[eventId].dates then Reply(db, Err(EventDateNotFound))
    else if FindZone(db.events[eventId].zones, zoneId).None? then Reply(db, Err(ZoneNotFound))
    else if headcount < 1 || headcount > MAX_HEADCOUNT then Reply(db, Err(InvalidHeadcount))
    else Reply(Log(db.(requests := db.requests + [GroupRequest(eventId, dateId, zoneId, headcount, Pending)]),
                   ByPublic, GroupBookingSubmitted(|db.requests|)),
               Ok(|db.requests|))
  }

  function ApproveGroupBooking(db: Db, r: RequestId, assignedCount: Option<int>): Reply {
    if r >= |db.requests| then Reply(db, Err(RequestNotFound))
    else if !db.requests[r].status.Pending? then Reply(db, Err(AlreadyReviewed))
    else
      var request := db.requests[r];
      var count := if assignedCount.Some? then assignedCount.value else request.headcount;
      if assignedCount.Some? && (count < 1 || count > MAX_HEADCOUNT) then Reply(db, Err(InvalidHeadcount))
      else if request.eventId !in db.events then Reply(db, Err(EventNotFound))
      else if request.dateId !in db.events[request.eventId].dates then Reply(db, Err(EventDateNotFound))
      else if FindZone(db.events[request.eventId].zones, request.zoneId).None? then Reply(db, Err(ZoneNotFound))
      else if !db.events[request.eventId].bookable then Reply(db, Err(EventNotOnSale))
      else
        var available := Available(db.tickets, db.order, request);
        if |available| < count then Reply(db, Err(InsufficientInventory))
        else Reply(AssignGroup(db, r, available[..count]), Ok(r))
  }

  function AssignGroup(db: Db, r: RequestId, ids: seq<TicketId>): Db
    requires r < |db.requests|
  {
    var buyerId := |db.users|;
    var amount := SumFaces(db.tickets, ids, ZoneFace(db, db.requests[r]));
    Log(db.(users := db.users + [User(0, false, false)],
            tickets := AssignTickets(db.tickets, ids, buyerId),
            txs := db.txs + [GroupBooking(ids, buyerId, amount)],
            requests := db.requests[r := db.requests[r].(status := Approved)]),
        ByAdmin, GroupBookingApproved(r, ids, buyerId))
  }

  function ZoneFace(db: Db, r: GroupRequest): int {
    if r.eventId !in db.events then 0
    else
      var zone := FindZone(db.events[r.eventId].zones, r.zoneId);
      if zone.None? then 0 else zone.value.faceValue
  }

  /** The invoice of a group booking; a ticket without a face value counts at its zone's. */
  function SumFaces(tickets: Tickets, ids: seq<TicketId>, zoneFace: int): int {
    if ids == [] then 0
    else
      var last := ids[|ids| - 1];
      SumFaces(tickets, ids[..|ids| - 1], zoneFace)
      + (if last in tickets && tickets[last].faceValue != 0 then tickets[last].faceValue else zoneFace)
  }

  function RejectGroupBooking(db: Db, r: RequestId): Reply {
    if r >= |db.requests| then Reply(db, Err(RequestNotFound))
    else if !db.requests[r].status.Pending? then Reply(db, Err(AlreadyReviewed))
    else Reply(Log(db.(requests := db.requests[r := db.requests[r].(status := Rejected)]), ByAdmin, GroupBookingRejected(r)), Ok(r))
  }
}
