/** Which refusal a caller gets, and when: the error codes of the main handlers, told from the records alone. */
module Refusals {
  import opened Prelude
  import opened SaleTypes
  import opened Holds
  import opened Commerce
  import opened SaleInvariant
  import opened HoldAnswers
  import opened PurchaseAnswers
  import opened ResaleAnswers

  /** On sale, or the buyer's own live claim. */
  predicate Claimable(db: Db, p: Purchase, id: TicketId, now: int)
    requires id in db.tickets
  {
    db.tickets[id].status == OnSale || (p.allowHold && OwnHold(db, id, p.userId, now)) || OwnDraft(db, id, p.userId, p.draftId, now)
  }

  /** Why a first purchase of one seat is refused: the buyer first, then the seat's place, then the seat, then the event. */
  lemma BuyRefusals(db: Db, p: Purchase, now: int)
    requires |p.ticketIds| == 1 && FirstUse(db, p, false)
    ensures var r, id := BuyPrimary(db, p, now).result, p.ticketIds[0];
            && (r == Err(UserNotFound) <==> p.userId >= |db.users|)
            && (r == Err(UserBanned) <==> p.userId < |db.users| && db.users[p.userId].banned)
            && (r == Err(IdentityRequired) <==> Account(db, p.userId) && !db.users[p.userId].verified)
            && (r == Err(UnsupportedPaymentMethod) <==> Account(db, p.userId) && db.users[p.userId].verified && p.payment.None?)
            && (r == Err(TicketNotFound) <==> MayBuy(db, p) && id !in db.tickets)
            && (r == Err(EventNotFound) <==> MayBuy(db, p) && id in db.tickets && id.eventId !in db.events)
            && (r == Err(TicketNotAvailable) <==> MayBuy(db, p) && Stands(db, id) && !Claimable(db, p, id, now))
            && (r == Err(EventNotOnSale) <==>
                  MayBuy(db, p) && Stands(db, id) && Claimable(db, p, id, now) && !db.events[id.eventId].bookable)
  {
    KeyAsTold(db, p, false);
    ContextAsTold(db, p.ticketIds[0]);
    hide FindReplay, IdemOf, FirstUse, FindZone, HasZone;
  }

  /** Why a first group order is refused before its seats are looked at, and after each of them has passed. */
  lemma BuyGroupRefusals(db: Db, p: Purchase, now: int)
    requires FirstUse(db, p, true)
    ensures var r, ids := BuyPrimaryGroup(db, p, now).result, p.ticketIds;
            && (p.userId >= |db.users| ==> r == Err(UserNotFound))
            && (p.userId < |db.users| && db.users[p.userId].banned ==> r == Err(UserBanned))
            && (Account(db, p.userId) && !db.users[p.userId].verified ==> r == Err(IdentityRequired))
            && (Account(db, p.userId) && db.users[p.userId].verified && p.payment.None? ==> r == Err(UnsupportedPaymentMethod))
            && (MayBuy(db, p) && ids == [] ==> r == Err(MissingField))
            && (MayBuy(db, p) && ids != [] && !NoDuplicates(ids) ==> r == Err(DuplicateSeat))
            && (MayBuy(db, p) && NoDuplicates(ids) && |ids| > 96 ==> r == Err(TooManySeats))
            && (MayBuy(db, p) && 1 <= |ids| <= 96 && NoDuplicates(ids) && EachOpen(db, ids) && !SeatsOpen(db, ids) ==>
                  r == Err(SeatPerformanceMismatch))
  {
    KeyAsTold(db, p, true);
    GroupAsTold(db, p.ticketIds, p.userId, now);
    hide FindReplay, IdemOf, CheckGroup, FirstUse, Stands, AllocateSeats, SplitGroupAmount, FaceValues;
  }

  ghost predicate EachOpen(db: Db, ids: seq<TicketId>) {
    forall id :: id in ids ==> Stands(db, id) && db.events[id.eventId].bookable && db.tickets[id].status == OnSale
  }

  /** A request for a hold that is in order, whatever the seats. */
  predicate Asks(db: Db, userId: UserId, dateId: string, ids: seq<TicketId>) {
    Account(db, userId) && dateId != "" && 1 <= |ids| <= 4 && NoDuplicates(ids)
  }

  ghost predicate Found(db: Db, dateId: string, ids: seq<TicketId>) {
    forall id :: id in ids ==> id in db.tickets && id.dateId == dateId
  }

  ghost predicate AllFree(db: Db, ids: seq<TicketId>, now: int) {
    forall id :: id in ids ==> id in db.tickets && Free(db, id, now)
  }

  /** Why a hold is refused: the account, the request itself, then a seat that is not there or not free, then the event. */
  lemma HoldRefusals(db: Db, opening: seq<int>, userId: UserId, dateId: string, ids: seq<TicketId>, now: int)
    requires Inv(db, opening)
    ensures var r := CreateSeatHold(db, userId, dateId, ids, now).result;
            && (r == Err(UserNotFound) <==> userId >= |db.users|)
            && (r == Err(UserBanned) <==> userId < |db.users| && db.users[userId].banned)
            && (r == Err(MissingField) <==> Account(db, userId) && (dateId == "" || ids == []))
            && (r == Err(TooManySeats) <==> Account(db, userId) && dateId != "" && |ids| > 4)
            && (r == Err(DuplicateSeat) <==> Account(db, userId) && dateId != "" && 1 <= |ids| <= 4 && !NoDuplicates(ids))
            && (r in {Err(TicketNotFound), Err(SeatPerformanceMismatch)} <==> Asks(db, userId, dateId, ids) && !Found(db, dateId, ids))
            && (r == Err(SeatAlreadyHeld) <==> Asks(db, userId, dateId, ids) && Found(db, dateId, ids) && !AllFree(db, ids, now))
            && (r in {Err(EventNotFound), Err(ZoneNotFound), Err(EventNotOnSale)} <==>
                  Asks(db, userId, dateId, ids) && Found(db, dateId, ids) && AllFree(db, ids, now) && !MayHold(db, userId, dateId, ids, now))
  {
    hide Inv, CreateSeatHold, ReconcileHolds, AfterSweep, Free, FindZone, MayHold, CheckSeats, CheckEventBookable;
    NewHoldAnswers(db, opening, userId, dateId, ids, now);
    SweepAsTold(db, opening, now);
    SeatsChecked(db.tickets, ids, dateId);
    CheckedSeatsFail(db.tickets, ids, dateId);
    HoldErrors(db, userId, dateId, ids, now);
    if Found(db, dateId, ids) { OpenAfterSweep(db, ReconcileHolds(db, |db.holds|, now), ids, now); }
  }

  lemma HoldErrors(db: Db, userId: UserId, dateId: string, ids: seq<TicketId>, now: int)
    ensures var r, swept, lookup := CreateSeatHold(db, userId, dateId, ids, now).result, ReconcileHolds(db, |db.holds|, now), CheckSeats(db.tickets, ids, dateId);
            if userId >= |db.users| then r == Err(UserNotFound)
            else if db.users[userId].banned then r == Err(UserBanned)
            else if dateId == "" || ids == [] then r == Err(MissingField)
            else if |ids| > 4 then r == Err(TooManySeats)
            else if !NoDuplicates(ids) then r == Err(DuplicateSeat)
            else if lookup.Some? then r == Err(lookup.value)
            else if exists id :: id in ids && (id !in swept.tickets || swept.tickets[id].status != OnSale) then r == Err(SeatAlreadyHeld)
            else r.Ok? || r in {Err(EventNotFound), Err(ZoneNotFound), Err(EventNotOnSale)}
  {
    hide ReconcileHolds, CheckSeats, PlaceHold, FindZone;
  }

  lemma {:induction false} CheckedSeatsFail(tickets: Tickets, ids: seq<TicketId>, dateId: string)
    ensures CheckSeats(tickets, ids, dateId) in {None, Some(TicketNotFound), Some(SeatPerformanceMismatch)}
  {
    if ids != [] { CheckedSeatsFail(tickets, ids[1..], dateId); }
  }

  /** Why a ticket is not listed. */
  lemma ListRefusals(db: Db, u: UserId, id: TicketId, price: Option<int>)
    ensures var r := ListForResale(db, u, id, price).result;
            && (r == Err(UserBanned) <==> u < |db.users| && db.users[u].banned)
            && (r == Err(TicketNotFound) <==> Account(db, u) && id !in db.tickets)
            && (Account(db, u) && id in db.tickets ==>
                  var t := db.tickets[id];
                  && (r == Err(NotOwner) <==> t.ownerId != Some(u))
                  && (t.ownerId == Some(u) ==>
                        && (r == Err(InvalidTicketState) <==> t.status != Owned)
                        && (r == Err(InstitutionalResaleBlocked) <==> t.status == Owned && t.institutional)
                        && (t.status == Owned && !t.institutional ==>
                              && (r == Err(TransferLimitReached) <==> t.transferCount >= t.maxTransferCount)
                              && (t.transferCount < t.maxTransferCount ==>
                                    && (r == Err(InvalidResalePrice) <==> price.None?)
                                    && (r == Err(PriceOutOfPolicy) <==> price.Some? && !(t.minPrice <= price.value <= t.maxPrice))))))
  {
  }

  /** Why a pool is not joined, bought from, drawn or withdrawn. */
  lemma PoolRefusals(db: Db, u: UserId, p: PoolId, payment: Option<PaymentMethod>, seed: nat)
    requires Account(db, u)
    ensures var join, buy, cancel := JoinPool(db, u, p).result, PurchaseResale(db, u, p, payment).result, CancelResaleListing(db, u, p).result;
            var draw, close := DrawPool(db, p, payment, seed).result, AdminCancelResalePool(db, p).result;
            if p >= |db.pools| then join == buy == cancel == draw == close == Err(PoolNotFound)
            else
              var pool := db.pools[p];
              && (join == Err(PoolClosed) <==> pool.status != Open)
              && (join == Err(SelfPurchaseBlocked) <==> pool.status == Open && pool.sellerId == u)
              && (buy == Err(PoolClosed) <==> pool.status != Open)
              && (buy == Err(SelfPurchaseBlocked) <==> pool.status == Open && pool.sellerId == u)
              && (pool.sellerId != u ==> cancel == Err(NotOwner))
              && (cancel == Err(PoolClosed) <==> pool.sellerId == u && pool.status != Open)
              && (draw == Err(PoolClosed) <==> pool.status != Open)
              && (draw == Err(EmptyPool) <==> pool.status == Open && pool.buyers == [])
              && (close == Err(PoolAlreadyCanceled) <==> pool.status == Canceled)
  {
  }
}
