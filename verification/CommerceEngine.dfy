/** Sales, resale, status switches and group bookings as the server runs them: records edited in place, one after another. */
module CommerceEngine {
  import opened Prelude
  import opened SaleTypes
  import opened Holds
  import opened Commerce
  import opened Database

  // ------------------------------------------------------------------------------- primary purchase

  /** What both purchase paths do to one seat: ticket, claim, transaction, ledger entry. */
  method Assign(db: Database, id: TicketId, claim: Claim, tx: Transaction)
    requires id in db.tickets && tx.Primary?
    requires claim.hold.Some? ==> claim.hold.value < |db.holds|
    requires claim.draft.Some? ==> claim.draft.value < |db.drafts|
    modifies db
    ensures db.Snapshot() == Allocate(old(db.Snapshot()), id, claim, tx)
  {
    var t := db.tickets[id];
    t := t.(ownerId := Some(tx.userId), status := Owned);
    t := t.(heldBy := None, holdExpiresAt := None, reservationId := None, reservationExpiresAt := None);
    db.tickets := db.tickets[id := t];
    if claim.hold.Some? {
      db.holds := db.holds[claim.hold.value := db.holds[claim.hold.value].(status := HoldConverted)];
    }
    if claim.draft.Some? {
      db.drafts := db.drafts[claim.draft.value := db.drafts[claim.draft.value].(status := DraftConfirmed)];
    }
    db.txs := db.txs + [tx];
    db.Append(ByUser(tx.userId), PrimaryPurchase(id, tx.amount));
  }

  method BuyPrimary(db: Database, p: Purchase, now: int) returns (result: Result<nat, Error>)
    requires |p.ticketIds| == 1
    modifies db
    ensures Reply(db.Snapshot(), result) == Commerce.BuyPrimary(old(db.Snapshot()), p, now)
  {
    hide FindKey, Allocate, IdemOf, FindZone;
    var buyer := CheckBuyer(db.Snapshot(), p);
    if buyer.Some? { return Err(buyer.value); }
    var replay := FindReplay(db.Snapshot(), IdemOf(p, false));
    if replay.Err? { return Err(replay.error); }
    if replay.value.Some? {
      var context := CheckContext(db.Snapshot(), db.txs[replay.value.value].ticketId);
      return if context.Some? then Err(context.value) else Ok(db.txs[replay.value.value].order);
    }
    var id := p.ticketIds[0];
    var claim := AssertPurchasable(db.Snapshot(), id, p.userId, p.allowHold, p.draftId, now);
    if claim.Err? { return Err(claim.error); }
    var amount := PaidAmount(db.Snapshot(), id, claim.value, p.approved);
    result := Ok(|db.txs|);
    Assign(db, id, claim.value, Primary(id, p.userId, amount, p.pg, IdemOf(p, false), |db.txs|));
  }

  /** The `forEach` over the checked seats of a group order. */
  method AssignAll(db: Database, p: Purchase, amounts: seq<int>)
    requires |amounts| == |p.ticketIds| && forall id :: id in p.ticketIds ==> id in db.tickets
    modifies db
    ensures db.Snapshot() == AllocateSeats(old(db.Snapshot()), p, amounts, |p.ticketIds|)
  {
    ghost var before := db.Snapshot();
    var order := |db.txs|;
    for i := 0 to |p.ticketIds|
      invariant db.Snapshot() == AllocateSeats(before, p, amounts, i)
    {
      hide Allocate;
      assert p.ticketIds[i] in p.ticketIds;
      Assign(db, p.ticketIds[i], Claim(None, None), GroupTx(p, amounts, order, i));
    }
  }

  method BuyPrimaryGroup(db: Database, p: Purchase, now: int) returns (result: Result<nat, Error>)
    modifies db
    ensures Reply(db.Snapshot(), result) == Commerce.BuyPrimaryGroup(old(db.Snapshot()), p, now)
  {
    hide FindKey, AllocateSeats, IdemOf, SplitGroupAmount, CheckContexts, CheckGroup;
    var buyer := CheckBuyer(db.Snapshot(), p);
    if buyer.Some? { return Err(buyer.value); }
    var shape := NormalizeGroup(p.ticketIds);
    if shape.Some? { return Err(shape.value); }
    var idem := IdemOf(p, true);
    var replay := FindReplay(db.Snapshot(), idem);
    if replay.Err? { return Err(replay.error); }
    if replay.value.Some? {
      var context := CheckContexts(db.Snapshot(), db.txs, idem.value);
      return if context.Some? then Err(context.value) else Ok(db.txs[replay.value.value].order);
    }
    var check := CheckGroup(db.Snapshot(), p.ticketIds, p.userId, now);
    if check.Some? { return Err(check.value); }
    if !OnePerformance(p.ticketIds) { return Err(SeatPerformanceMismatch); }
    CheckGroupFindsTickets(db.Snapshot(), p.ticketIds, p.userId, now);
    var amounts := SplitGroupAmount(p.approved, FaceValues(db.tickets, p.ticketIds));
    result := Ok(|db.txs|);
    AssignAll(db, p, amounts);
  }

  // ---------------------------------------------------------------------------------------- resale

  method ListForResale(db: Database, sellerId: UserId, id: TicketId, price: Option<int>) returns (result: Result<nat, Error>)
    modifies db
    ensures Reply(db.Snapshot(), result) == Commerce.ListForResale(old(db.Snapshot()), sellerId, id, price)
  {
    var seller := FindUser(db.users, sellerId);
    if seller.Err? { return Err(seller.error); }
    if id !in db.tickets { return Err(TicketNotFound); }
    var t := db.tickets[id];
    if t.ownerId != Some(sellerId) { return Err(NotOwner); }
    if t.status != Owned { return Err(InvalidTicketState); }
    if t.institutional { return Err(InstitutionalResaleBlocked); }
    if t.transferCount >= t.maxTransferCount { return Err(TransferLimitReached); }
    if price.None? { return Err(InvalidResalePrice); }
    if price.value < t.minPrice || price.value > t.maxPrice { return Err(PriceOutOfPolicy); }
    result := Ok(|db.pools|);
    var pool := Pool(id, sellerId, price.value, [], Open, None, 0, 0);
    db.tickets := db.tickets[id := t.(status := InResalePool)];
    db.pools := db.pools + [pool];
    db.Append(ByUser(sellerId), ResaleListed(|db.pools| - 1, id, price.value));
  }

  method JoinPool(db: Database, buyerId: UserId, p: PoolId) returns (result: Result<nat, Error>)
    modifies db
    ensures Reply(db.Snapshot(), result) == Commerce.JoinPool(old(db.Snapshot()), buyerId, p)
  {
    var buyer := FindUser(db.users, buyerId);
    if buyer.Err? { return Err(buyer.error); }
    if p >= |db.pools| { return Err(PoolNotFound); }
    if !db.pools[p].status.Open? { return Err(PoolClosed); }
    if db.pools[p].sellerId == buyerId { return Err(SelfPurchaseBlocked); }
    if buyerId !in db.pools[p].buyers {
      db.pools := db.pools[p := db.pools[p].(buyers := db.pools[p].buyers + [buyerId])];
    }
    db.Append(ByUser(buyerId), PoolJoined(p));
    return Ok(p);
  }

  method CancelResaleListing(db: Database, sellerId: UserId, p: PoolId) returns (result: Result<nat, Error>)
    modifies db
    ensures Reply(db.Snapshot(), result) == Commerce.CancelResaleListing(old(db.Snapshot()), sellerId, p)
  {
    var seller := FindUser(db.users, sellerId);
    if seller.Err? { return Err(seller.error); }
    if p >= |db.pools| { return Err(PoolNotFound); }
    if db.pools[p].sellerId != sellerId { return Err(NotOwner); }
    if !db.pools[p].status.Open? { return Err(PoolClosed); }
    var id := db.pools[p].ticketId;
    if id !in db.tickets { return Err(TicketNotFound); }
    if db.tickets[id].ownerId != Some(sellerId) { return Err(NotOwner); }
    db.tickets := db.tickets[id := db.tickets[id].(status := Owned)];
    db.pools := db.pools[p := db.pools[p].(status := Canceled)];
    db.Append(ByUser(sellerId), ListingCanceled(p, id));
    return Ok(p);
  }

  /** `completeResaleMatch`: the performance date is only looked up once balance and ticket have been changed. */
  method CompleteResaleMatch(db: Database, p: PoolId, buyerId: UserId, payment: Option<PaymentMethod>) returns (result: Result<nat, Error>)
    requires p < |db.pools| && buyerId < |db.users|
    modifies db
    ensures Reply(db.Snapshot(), result) == Commerce.CompleteResaleMatch(old(db.Snapshot()), p, buyerId, payment)
  {
    var pool := db.pools[p];
    var id := pool.ticketId;
    if !db.users[buyerId].verified { return Err(IdentityRequired); }
    var seller := FindUser(db.users, pool.sellerId);
    if seller.Err? { return Err(seller.error); }
    if id !in db.tickets { return Err(TicketNotFound); }
    if payment.None? { return Err(UnsupportedPaymentMethod); }
    var fee := ResaleFee(pool.price);
    db.users := db.users[pool.sellerId := seller.value.(balance := seller.value.balance + pool.price)];
    var t := db.tickets[id];
    t := t.(ownerId := Some(buyerId));
    t := t.(transferCount := t.transferCount + 1);
    t := t.(status := Owned);
    db.tickets := db.tickets[id := t];
    if id.eventId !in db.events || id.dateId !in db.events[id.eventId].dates { return Err(EventDateNotFound); }
    db.pools := db.pools[p := pool.(status := Matched, winnerId := Some(buyerId), buyerTotal := pool.price + fee,
                                    sellerSettlement := pool.price)];
    db.txs := db.txs + [Resale(id, buyerId, pool.sellerId, pool.price + fee, pool.price, fee)];
    db.Append(BySystem, ResaleMatched(p, id, pool.sellerId, buyerId, pool.price, fee));
    return Ok(p);
  }

  method DrawPool(db: Database, p: PoolId, payment: Option<PaymentMethod>, seed: nat) returns (result: Result<nat, Error>)
    modifies db
    ensures Reply(db.Snapshot(), result) == Commerce.DrawPool(old(db.Snapshot()), p, payment, seed)
  {
    hide Commerce.CompleteResaleMatch;
    if p >= |db.pools| { return Err(PoolNotFound); }
    if !db.pools[p].status.Open? { return Err(PoolClosed); }
    if db.pools[p].buyers == [] { return Err(EmptyPool); }
    var winnerId := db.pools[p].buyers[seed % |db.pools[p].buyers|];
    var winner := FindUser(db.users, winnerId);
    if winner.Err? { return Err(winner.error); }
    result := CompleteResaleMatch(db, p, winnerId, payment);
  }

  method PurchaseResale(db: Database, buyerId: UserId, p: PoolId, payment: Option<PaymentMethod>) returns (result: Result<nat, Error>)
    modifies db
    ensures Reply(db.Snapshot(), result) == Commerce.PurchaseResale(old(db.Snapshot()), buyerId, p, payment)
  {
    hide Commerce.CompleteResaleMatch;
    var buyer := FindUser(db.users, buyerId);
    if buyer.Err? { return Err(buyer.error); }
    if p >= |db.pools| { return Err(PoolNotFound); }
    if !db.pools[p].status.Open? { return Err(PoolClosed); }
    if db.pools[p].sellerId == buyerId { return Err(SelfPurchaseBlocked); }
    if payment.None? { return Err(UnsupportedPaymentMethod); }
    if buyerId !in db.pools[p].buyers {
      db.pools := db.pools[p := db.pools[p].(buyers := db.pools[p].buyers + [buyerId])];
    }
    db.Append(ByUser(buyerId), PoolJoined(p));
    result := CompleteResaleMatch(db, p, buyerId, payment);
  }

  /** `adminCancelResalePool`: closes an OPEN pool, or unwinds a MATCHED one. */
  method AdminCancelResalePool(db: Database, p: PoolId) returns (result: Result<nat, Error>)
    modifies db
    ensures Reply(db.Snapshot(), result) == Commerce.AdminCancelResalePool(old(db.Snapshot()), p)
  {
    if p >= |db.pools| { return Err(PoolNotFound); }
    var pool := db.pools[p];
    if pool.status.Canceled? { return Err(PoolAlreadyCanceled); }
    var id := pool.ticketId;
    if id !in db.tickets { return Err(TicketNotFound); }
    if pool.status.Matched? {
      if pool.sellerId >= |db.users| { return Err(UserNotFound); }
      var seller := db.users[pool.sellerId];
      db.users := db.users[pool.sellerId := seller.(balance := seller.balance - pool.sellerSettlement)];
      var t := db.tickets[id];
      t := t.(ownerId := Some(pool.sellerId));
      t := t.(transferCount := if t.transferCount - 1 > 0 then t.transferCount - 1 else 0);
      t := t.(status := Owned);
      db.tickets := db.tickets[id := t];
      db.txs := db.txs + [ReturnTx(pool)];
      db.Append(ByAdmin, MatchReversed(p, id, pool.sellerSettlement, pool.buyerTotal));
    } else {
      db.tickets := db.tickets[id := db.tickets[id].(status := Owned)];
    }
    db.pools := db.pools[p := pool.(status := Canceled)];
    db.Append(ByAdmin, PoolCanceled(p, id));
    return Ok(p);
  }

  // ----------------------------------------------------------------------- operator, gate and groups

  /** `updateTicketStatuses`: every row is validated before the first one is applied. */
  method UpdateTicketStatuses(db: Database, updates: seq<(TicketId, TicketStatus)>) returns (result: Result<nat, Error>)
    modifies db
    ensures Reply(db.Snapshot(), result) == Commerce.UpdateTicketStatuses(old(db.Snapshot()), updates)
  {
    if updates == [] { return Err(MissingField); }
    var check := CheckStatusUpdates(db.Snapshot(), updates);
    if check.Some? { return Err(check.value); }
    CheckedUpdatesExist(db.Snapshot(), updates);
    hide CheckStatusUpdates;
    ghost var before := db.Snapshot();
    for i := 0 to |updates|
      invariant db.Snapshot() == SetStatuses(before, updates, i)
    {
      var u := updates[i];
      assert u in updates;
      db.tickets := db.tickets[u.0 := db.tickets[u.0].(status := u.1)];
      db.Append(ByAdmin, TicketStatusUpdated(u.0, u.1));
    }
    return Ok(|updates|);
  }

  method AdmitAtGate(db: Database, id: TicketId) returns (result: Result<nat, Error>)
    modifies db
    ensures Reply(db.Snapshot(), result) == Commerce.AdmitAtGate(old(db.Snapshot()), id)
  {
    if id !in db.tickets || db.tickets[id].status != Owned { return Err(TicketCanceled); }
    var owner := if db.tickets[id].ownerId.Some? then db.tickets[id].ownerId.value else 0;
    db.tickets := db.tickets[id := db.tickets[id].(status := Admitted)];
    db.Append(ByUser(owner), MobileQrUsed(id));
    return Ok(0);
  }

  method SubmitGroupBooking(db: Database, eventId: string, dateId: string, zoneId: string, headcount: int) returns (result: Result<nat, Error>)
    modifies db
    ensures Reply(db.Snapshot(), result) == Commerce.SubmitGroupBooking(old(db.Snapshot()), eventId, dateId, zoneId, headcount)
  {
    if eventId !in db.events { return Err(EventNotFound); }
    if dateId !in db.events[eventId].dates { return Err(EventDateNotFound); }
    if FindZone(db.events[eventId].zones, zoneId).None? { return Err(ZoneNotFound); }
    if headcount < 1 || headcount > MAX_HEADCOUNT { return Err(InvalidHeadcount); }
    db.requests := db.requests + [GroupRequest(eventId, dateId, zoneId, headcount, Pending)];
    db.Append(ByPublic, GroupBookingSubmitted(|db.requests| - 1));
    return Ok(|db.requests| - 1);
  }

  lemma AssignNext(t: Tickets, ids: seq<TicketId>, buyerId: UserId, id: TicketId)
    requires id in t
    ensures var before := AssignTickets(t, ids, buyerId);
            AssignTickets(t, ids + [id], buyerId)
            == before[id := before[id].(ownerId := Some(buyerId), status := Owned, institutional := true)]
  {
  }

  lemma {:induction false} AvailableExist(t: Tickets, order: seq<TicketId>, r: GroupRequest)
    ensures forall id :: id in Available(t, order, r) ==> id in t
  {
    if order != [] { AvailableExist(t, order[1..], r); }
  }

  /** The approval loop: each selected seat becomes the new institutional buyer's, and the invoice adds up its face value. */
  method AssignToBuyer(db: Database, ids: seq<TicketId>, buyerId: UserId, zoneFace: int) returns (amount: int)
    requires forall id :: id in ids ==> id in db.tickets
    modifies db`tickets
    ensures db.tickets == AssignTickets(old(db.tickets), ids, buyerId)
    ensures amount == SumFaces(old(db.tickets), ids, zoneFace)
  {
    amount := 0;
    for i := 0 to |ids|
      invariant db.tickets == AssignTickets(old(db.tickets), ids[..i], buyerId)
      invariant amount == SumFaces(old(db.tickets), ids[..i], zoneFace)
    {
      var id := ids[i];
      assert id in ids && ids[..i + 1] == ids[..i] + [id] && ids[..i + 1][..i] == ids[..i];
      AssignNext(old(db.tickets), ids[..i], buyerId, id);
      amount := amount + (if db.tickets[id].faceValue != 0 then db.tickets[id].faceValue else zoneFace);
      db.tickets := db.tickets[id := db.tickets[id].(ownerId := Some(buyerId), status := Owned, institutional := true)];
    }
    assert ids[..|ids|] == ids;
  }

  method ApproveGroupBooking(db: Database, r: RequestId, assignedCount: Option<int>) returns (result: Result<nat, Error>)
    modifies db
    ensures Reply(db.Snapshot(), result) == Commerce.ApproveGroupBooking(old(db.Snapshot()), r, assignedCount)
  {
    hide AssignTickets, SumFaces, Available;
    if r >= |db.requests| { return Err(RequestNotFound); }
    if !db.requests[r].status.Pending? { return Err(AlreadyReviewed); }
    var request := db.requests[r];
    var count := if assignedCount.Some? then assignedCount.value else request.headcount;
    if assignedCount.Some? && (count < 1 || count > MAX_HEADCOUNT) { return Err(InvalidHeadcount); }
    if request.eventId !in db.events { return Err(EventNotFound); }
    var event := db.events[request.eventId];
    if request.dateId !in event.dates { return Err(EventDateNotFound); }
    var zone := FindZone(event.zones, request.zoneId);
    if zone.None? { return Err(ZoneNotFound); }
    if !event.bookable { return Err(EventNotOnSale); }
    var available := Available(db.tickets, db.order, request);
    if |available| < count { return Err(InsufficientInventory); }
    AvailableExist(db.tickets, db.order, request);
    var ids, buyerId := available[..count], |db.users|;
    db.users := db.users + [User(0, false, false)];
    assert forall id :: id in ids ==> id in available;
    var amount := AssignToBuyer(db, ids, buyerId, zone.value.faceValue);
    db.txs := db.txs + [GroupBooking(ids, buyerId, amount)];
    db.requests := db.requests[r := request.(status := Approved)];
    db.Append(ByAdmin, GroupBookingApproved(r, ids, buyerId));
    return Ok(r);
  }

  method RejectGroupBooking(db: Database, r: RequestId) returns (result: Result<nat, Error>)
    modifies db
    ensures Reply(db.Snapshot(), result) == Commerce.RejectGroupBooking(old(db.Snapshot()), r)
  {
    if r >= |db.requests| { return Err(RequestNotFound); }
    if !db.requests[r].status.Pending? { return Err(AlreadyReviewed); }
    db.requests := db.requests[r := db.requests[r].(status := Rejected)];
    db.Append(ByAdmin, GroupBookingRejected(r));
    return Ok(r);
  }
}
