/** What one call grants and what a later call undoes: holds, drafts and listings, and the roundings of money. */
module SaleRoundTrips {
  import opened Prelude
  import opened SaleTypes
  import opened Holds
  import opened Commerce
  import DoublePrice
  import opened Inventory
  import opened SaleSteps
  import opened SaleInvariant
  import opened SaleSeats
  import opened SaleResale
  import opened SaleSales
  import opened SaleHandlers

  // ----------------------------------------------------------------------------------------- holds

  /** The tickets as the sweep that precedes a new hold leaves them. */
  function Swept(db: Db, now: int): Tickets {
    ReconcileHolds(db, |db.holds|, now).tickets
  }

  ghost predicate Granted(db: Db, r: Db, userId: UserId, dateId: string, ids: seq<TicketId>, h: HoldId, now: int) {
    && h < |r.holds| && h == |db.holds|
    && r.holds[h] == Hold(userId, dateId, ids, HoldActive, now + 5 * 60 * 1000, 0, now)
    && 1 <= |ids| <= 4 && NoDuplicates(ids)
    && Swept(db, now).Keys == r.tickets.Keys
    && (forall id :: id in ids ==>
          && id in r.tickets && id.dateId == dateId && Swept(db, now)[id].status == OnSale
          && r.tickets[id] == Swept(db, now)[id].(status := Held, heldBy := Some(h), holdExpiresAt := Some(now + 5 * 60 * 1000)))
    && (forall id :: id in r.tickets && id !in ids ==> r.tickets[id] == Swept(db, now)[id])
  }

  /**
   A hold that is granted is for one to four distinct seats of one performance, all open once lapsed holds are swept
   away; it lasts five minutes, is marked on each of its seats and on no other.
   */
  lemma GrantedHoldIsExact(db: Db, opening: seq<int>, userId: UserId, dateId: string, ids: seq<TicketId>, now: int)
    requires Inv(db, opening) && CreateSeatHold(db, userId, dateId, ids, now).result.Ok?
    ensures var r := CreateSeatHold(db, userId, dateId, ids, now);
            Granted(db, r.db, userId, dateId, ids, r.result.value, now)
  {
    hide Inv, ReconcileHolds, CheckSeats, SeatsInv, CheckEventBookable;
    SeatsOfDate(db.tickets, ids, dateId);
    SweepIsComplete(db, |db.holds|, now);
  }

  lemma {:induction false} SeatsOfDate(tickets: Tickets, ids: seq<TicketId>, dateId: string)
    requires CheckSeats(tickets, ids, dateId).None?
    ensures forall id :: id in ids ==> id in tickets && id.dateId == dateId
  {
    if ids != [] {
      SeatsOfDate(tickets, ids[1..], dateId);
      assert forall id :: id in ids <==> id == ids[0] || id in ids[1..];
    }
  }

  lemma ReleaseOfGranted(t: Tickets, ids: seq<TicketId>, h: HoldId, expiresAt: int)
    requires forall id :: id in ids ==> id in t && t[id].status == OnSale && t[id].heldBy.None?
    ensures forall id :: id in t ==>
              ReleaseHeldTickets(HoldTickets(t, ids, h, expiresAt), h, ids)[id] == if id in ids then t[id].(holdExpiresAt := None) else t[id]
    ensures ReleaseHeldTickets(HoldTickets(t, ids, h, expiresAt), h, ids).Keys == t.Keys
  {
  }

  lemma OpenSeatsUnclaimed(db: Db, opening: seq<int>, now: int)
    requires Inv(db, opening)
    ensures forall id :: id in Swept(db, now) && Swept(db, now)[id].status == OnSale ==>
              Swept(db, now)[id].heldBy.None? && Swept(db, now)[id].reservationId.None?
  {
    SweepKeeps(db, opening, now);
    hide ReconcileHolds, ResaleInv, MoneyInv, StockInv;
  }

  /** Releasing a hold, in time or too late, gives back exactly the tickets it took. */
  lemma HoldThenRelease(db: Db, opening: seq<int>, userId: UserId, dateId: string, ids: seq<TicketId>, now: int, later: int)
    requires Inv(db, opening) && CreateSeatHold(db, userId, dateId, ids, now).result.Ok?
    ensures var held := CreateSeatHold(db, userId, dateId, ids, now);
            var r := ReleaseSeatHold(held.db, userId, held.result.value, later);
            r.result == held.result && r.db.tickets.Keys == Swept(db, now).Keys
            && forall id :: id in r.db.tickets ==>
                 r.db.tickets[id] == if id in ids then Swept(db, now)[id].(holdExpiresAt := None) else Swept(db, now)[id]
  {
    hide Inv, ReconcileHolds, CheckSeats, SeatsInv, CheckEventBookable, Granted, ReleaseHeldTickets, HoldTickets;
    GrantedHoldIsExact(db, opening, userId, dateId, ids, now);
    GrantedSeats(db, CreateSeatHold(db, userId, dateId, ids, now).db, userId, dateId, ids, now);
    OpenSeatsUnclaimed(db, opening, now);
    SweepIsComplete(db, |db.holds|, now);
    ReleaseOfGranted(Swept(db, now), ids, |db.holds|, now + HOLD_TTL_MS);
  }

  lemma GrantedSeats(db: Db, r: Db, userId: UserId, dateId: string, ids: seq<TicketId>, now: int)
    requires Granted(db, r, userId, dateId, ids, |db.holds|, now)
    ensures forall id :: id in ids ==> id in Swept(db, now) && Swept(db, now)[id].status == OnSale
  {
  }

  // ---------------------------------------------------------------------------------------- drafts

  /** A draft takes over its hold's seats at face value plus 2000 each, for ten minutes, and ends the hold. */
  lemma DraftIsExact(db: Db, opening: seq<int>, userId: UserId, h: HoldId, now: int)
    requires Inv(db, opening) && CreateReservationDraft(db, userId, h, now).result.Ok?
    ensures var r := CreateReservationDraft(db, userId, h, now);
            && h < |db.holds| && db.holds[h].status.HoldActive? && now < db.holds[h].expiresAt && db.holds[h].userId == userId
            && r.result == Ok(|db.drafts|) && r.db.drafts == db.drafts + [r.db.drafts[|db.drafts|]]
            && (forall id :: id in db.holds[h].ticketIds ==>
                  && id in db.tickets && id in r.db.tickets
                  && db.tickets[id].status == Held && r.db.tickets[id].status == Reserved && r.db.tickets[id].heldBy.None?)
            && var d := r.db.drafts[|db.drafts|];
               d.ticketIds == db.holds[h].ticketIds && d.expiresAt == now + 10 * 60 * 1000 && d.status.PendingPayment?
               && d.total == Sum(FaceValues(db.tickets, d.ticketIds)) + 2000 * |d.ticketIds|
               && r.db.holds[h].status.HoldConverted?
  {
    ActiveSeatsOf(db, opening, h);
    hide Inv, FaceValues, EndHold;
  }

  lemma ActiveSeatsOf(db: Db, opening: seq<int>, h: HoldId)
    requires Inv(db, opening)
    ensures h < |db.holds| && db.holds[h].status.HoldActive? ==>
              forall id :: id in db.holds[h].ticketIds ==> id in db.tickets && db.tickets[id].status == Held
  {
    if h < |db.holds| && db.holds[h].status.HoldActive? { ActiveHoldSeats(db.tickets, db.holds, h); }
  }

  /** Cancelling a pending draft, in time or too late, puts exactly its seats back on sale. */
  lemma CancelFreesSeats(db: Db, opening: seq<int>, userId: UserId, d: DraftId, now: int)
    requires Inv(db, opening) && d < |db.drafts| && db.drafts[d].userId == userId && db.drafts[d].status.PendingPayment?
    ensures var r := CancelReservationDraft(db, userId, d, now);
            && r.result == Ok(d) && !r.db.drafts[d].status.PendingPayment? && r.db.tickets.Keys == db.tickets.Keys
            && (forall id :: id in db.tickets ==>
                  r.db.tickets[id] == if id in db.drafts[d].ticketIds
                  then db.tickets[id].(status := OnSale, reservationId := None, reservationExpiresAt := None) else db.tickets[id])
  {
    PendingSeatsOf(db, opening, d);
    hide Inv;
  }

  lemma PendingSeatsOf(db: Db, opening: seq<int>, d: DraftId)
    requires Inv(db, opening) && d < |db.drafts| && db.drafts[d].status.PendingPayment?
    ensures forall id :: id in db.drafts[d].ticketIds ==>
              id in db.tickets && db.tickets[id].status == Reserved && db.tickets[id].reservationId == Some(d)
  {
    hide HoldsMatch, ResaleInv, MoneyInv, StockInv, HoldTimes, DraftTimes;
  }

  // -------------------------------------------------------------------------------------- listings

  /** Listing a ticket and cancelling the listing leaves every ticket, account and transaction as it was. */
  lemma ListThenCancel(db: Db, opening: seq<int>, sellerId: UserId, id: TicketId, price: Option<int>)
    requires Inv(db, opening) && ListForResale(db, sellerId, id, price).result.Ok?
    ensures var listed := ListForResale(db, sellerId, id, price);
            var r := CancelResaleListing(listed.db, sellerId, listed.result.value);
            && r.result == listed.result
            && r.db.tickets == db.tickets && r.db.users == db.users && r.db.txs == db.txs
            && r.db.pools[..|db.pools|] == db.pools && r.db.pools[|db.pools|].status.Canceled?
  {
    hide Inv;
    var listed := ListForResale(db, sellerId, id, price);
    var r := CancelResaleListing(listed.db, sellerId, listed.result.value);
    assert r.db.tickets == db.tickets;
    assert r.db.pools[..|db.pools|] == db.pools;
  }

  // ------------------------------------------------------------------------------------ extensions

  /** An extension is granted once, to a live hold of the caller, and moves it and each of its seats to five minutes from now. */
  lemma ExtensionIsExact(db: Db, opening: seq<int>, userId: UserId, h: HoldId, now: int)
    requires Inv(db, opening) && ExtendSeatHold(db, userId, h, now).result.Ok?
    ensures var r := ExtendSeatHold(db, userId, h, now).db;
            && h < |db.holds| && db.holds[h].userId == userId && db.holds[h].status.HoldActive?
            && now < db.holds[h].expiresAt && db.holds[h].extensionsUsed == 0
            && r.holds == db.holds[h := db.holds[h].(expiresAt := now + 5 * 60 * 1000, extensionsUsed := 1)]
            && r.tickets.Keys == db.tickets.Keys
            && (forall id :: id in db.tickets ==>
                  r.tickets[id] == if id in db.holds[h].ticketIds
                  then db.tickets[id].(holdExpiresAt := Some(now + 5 * 60 * 1000)) else db.tickets[id])
  {
    hide ReleaseHeldTickets, SeatsInv, ResaleInv, MoneyInv, StockInv;
    FewExtensions(db, opening, h);
  }

  lemma FewExtensions(db: Db, opening: seq<int>, h: HoldId)
    requires Inv(db, opening)
    ensures h < |db.holds| ==> db.holds[h].extensionsUsed <= HOLD_MAX_EXTENSIONS
  {
  }

  // --------------------------------------------------------------------------------- resale matches

  /** A match pays the seller exactly the price, makes the buyer the owner, and records price and fee separately. */
  lemma MatchIsExact(db: Db, opening: seq<int>, p: PoolId, buyerId: UserId, payment: Option<PaymentMethod>)
    requires Inv(db, opening) && p < |db.pools| && db.pools[p].status.Open? && buyerId < |db.users|
    requires CompleteResaleMatch(db, p, buyerId, payment).result.Ok?
    ensures var r, pool := CompleteResaleMatch(db, p, buyerId, payment).db, db.pools[p];
            && pool.ticketId in r.tickets && pool.sellerId < |db.users| && |r.users| == |db.users|
            && r.tickets[pool.ticketId].ownerId == Some(buyerId) && r.tickets[pool.ticketId].status == Owned
            && r.tickets[pool.ticketId].transferCount == 1
            && (forall id :: id in db.tickets && id != pool.ticketId ==> id in r.tickets && r.tickets[id] == db.tickets[id])
            && r.users[pool.sellerId].balance == db.users[pool.sellerId].balance + pool.price
            && (forall u :: 0 <= u < |db.users| && u != pool.sellerId ==> r.users[u] == db.users[u])
            && |r.txs| == |db.txs| + 1
            && var tx := r.txs[|db.txs|];
               tx.Resale? && tx.ticketId == pool.ticketId && tx.userId == buyerId && tx.sellerId == pool.sellerId
               && tx.transferAmount == pool.price && tx.amount == pool.price + tx.platformFee
               && 20 * (tx.platformFee - 1) < pool.price <= 20 * tx.platformFee
               && r.pools[p].status.Matched? && r.pools[p].winnerId == Some(buyerId)
  {
    hide Inv, CompleteResaleMatch;
    MatchNeverStopsHalfway(db, opening, p, buyerId, payment);
    OpenPoolTicket(db, opening, p);
    FeeRoundsUp(db.pools[p].price, ResaleFee(db.pools[p].price));
  }

  lemma OpenPoolTicket(db: Db, opening: seq<int>, p: PoolId)
    requires Inv(db, opening) && p < |db.pools| && db.pools[p].status.Open?
    ensures var id := db.pools[p].ticketId;
            id in db.tickets && db.tickets[id].transferCount == 0 && db.pools[p].sellerId < |db.users|
            && db.tickets[id].ownerId == Some(db.pools[p].sellerId) && db.tickets[id].status == InResalePool
  {
    PoolFitsAt(db, opening, p);
    PoolCountPositive(db.pools, p);
    hide SeatsInv, MoneyInv, StockInv, PoolsFit;
    assert PoolsCounted(db.tickets, db.pools);
  }

  /** Whatever the seed, a draw is won by someone who joined, never by the seller. */
  lemma DrawPicksABuyer(db: Db, opening: seq<int>, p: PoolId, payment: Option<PaymentMethod>, seed: nat)
    requires Inv(db, opening) && DrawPool(db, p, payment, seed).result.Ok?
    ensures var r := DrawPool(db, p, payment, seed).db;
            && p < |db.pools| && p < |r.pools| && r.pools[p].winnerId.Some?
            && r.pools[p].winnerId.value in db.pools[p].buyers && r.pools[p].winnerId.value != db.pools[p].sellerId
  {
    hide Inv, CompleteResaleMatch;
    PoolFitsAt(db, opening, p);
    var winnerId := db.pools[p].buyers[seed % |db.pools[p].buyers|];
    assert winnerId in db.pools[p].buyers;
    MatchIsExact(db, opening, p, winnerId, payment);
    MatchNeverStopsHalfway(db, opening, p, winnerId, payment);
  }

  /** Joining puts the buyer behind those who joined before, once. */
  lemma JoinedOnce(db: Db, buyerId: UserId, p: PoolId)
    requires JoinPool(db, buyerId, p).result.Ok?
    ensures var r := JoinPool(db, buyerId, p).db;
            && p < |db.pools| == |r.pools| && buyerId in r.pools[p].buyers && db.pools[p].buyers <= r.pools[p].buyers
            && (forall u :: u in r.pools[p].buyers <==> u == buyerId || u in db.pools[p].buyers)
            && (NoDuplicates(db.pools[p].buyers) ==> NoDuplicates(r.pools[p].buyers))
            && JoinPool(r, buyerId, p).db.pools == r.pools && r.tickets == db.tickets
  {
  }

  /** An operator who closes an OPEN pool does to tickets, pools, accounts and transactions what its seller would have done. */
  lemma OperatorClosesLikeSeller(db: Db, opening: seq<int>, p: PoolId)
    requires Inv(db, opening) && p < |db.pools| && db.pools[p].status.Open? && FindUser(db.users, db.pools[p].sellerId).Ok?
    ensures var byOperator, bySeller := AdminCancelResalePool(db, p), CancelResaleListing(db, db.pools[p].sellerId, p);
            && byOperator.result == bySeller.result == Ok(p)
            && byOperator.db.(ledger := []) == bySeller.db.(ledger := [])
  {
    hide Inv;
    OpenPoolTicket(db, opening, p);
  }

  // --------------------------------------------------------------------------------- status batches

  /** The status the last row for a ticket asks for. */
  function LastRow(updates: seq<(TicketId, TicketStatus)>, id: TicketId): Option<TicketStatus> {
    if updates == [] then None
    else if updates[|updates| - 1].0 == id then Some(updates[|updates| - 1].1)
    else LastRow(updates[..|updates| - 1], id)
  }

  lemma LastRowStep(updates: seq<(TicketId, TicketStatus)>, n: nat, id: TicketId)
    requires 0 < n <= |updates|
    ensures LastRow(updates[..n], id)
            == if updates[n - 1].0 == id then Some(updates[n - 1].1) else LastRow(updates[..n - 1], id)
  {
    assert updates[..n][..n - 1] == updates[..n - 1];
  }

  lemma {:induction false} RowsApplied(db: Db, updates: seq<(TicketId, TicketStatus)>, n: nat, id: TicketId)
    requires n <= |updates| && (forall u :: u in updates ==> u.0 in db.tickets) && id in db.tickets
    ensures var r := SetStatuses(db, updates, n);
            r.tickets[id] == if LastRow(updates[..n], id).Some? then db.tickets[id].(status := LastRow(updates[..n], id).value) else db.tickets[id]
  {
    if n > 0 {
      RowsApplied(db, updates, n - 1, id);
      LastRowStep(updates, n, id);
      hide LastRow;
      var u, before := updates[n - 1], SetStatuses(db, updates, n - 1).tickets;
      assert u in updates;
      assert SetStatuses(db, updates, n).tickets == before[u.0 := before[u.0].(status := u.1)];
      hide SetStatuses;
    }
  }

  /** A batch sets each listed ticket to what its last row says and changes nothing else. */
  lemma BatchIsExact(db: Db, updates: seq<(TicketId, TicketStatus)>, id: TicketId)
    requires UpdateTicketStatuses(db, updates).result.Ok? && id in db.tickets
    ensures var r := UpdateTicketStatuses(db, updates).db;
            id in r.tickets
            && r.tickets[id] == if LastRow(updates, id).Some? then db.tickets[id].(status := LastRow(updates, id).value) else db.tickets[id]
  {
    CheckedUpdatesExist(db, updates);
    RowsApplied(db, updates, |updates|, id);
    assert updates[..|updates|] == updates;
  }

  // ----------------------------------------------------------------------------------- institutions

  lemma {:induction false} InvoiceAddsFaces(t: Tickets, ids: seq<TicketId>, zoneFace: int)
    requires forall id :: id in ids ==> id in t && t[id].faceValue != 0
    ensures SumFaces(t, ids, zoneFace) == Sum(FaceValues(t, ids))
  {
    if ids != [] {
      var init, last := ids[..|ids| - 1], ids[|ids| - 1];
      assert last in ids && forall id :: id in init ==> id in ids;
      InvoiceAddsFaces(t, init, zoneFace);
      assert FaceValues(t, ids)[..|ids| - 1] == FaceValues(t, init);
    }
  }

  /** An approval hands over exactly the agreed number of distinct open seats of the requested zone and performance. */
  lemma ApprovalIsExact(db: Db, opening: seq<int>, r: RequestId, assignedCount: Option<int>)
    requires Inv(db, opening) && ApproveGroupBooking(db, r, assignedCount).result.Ok?
    ensures r < |db.requests|
    ensures var after, request := ApproveGroupBooking(db, r, assignedCount).db, db.requests[r];
            && |after.txs| == |db.txs| + 1 && after.txs[|db.txs|].GroupBooking?
            && var ids := after.txs[|db.txs|].ticketIds;
               && |ids| == (if assignedCount.Some? then assignedCount.value else request.headcount) && NoDuplicates(ids)
               && (forall id :: id in ids ==>
                     && id in db.tickets && db.tickets[id].status == OnSale && id in after.tickets
                     && id.eventId == request.eventId && id.dateId == request.dateId && id.zoneId == request.zoneId
                     && after.tickets[id] == db.tickets[id].(ownerId := Some(|db.users|), status := Owned, institutional := true))
               && (forall id :: id in db.tickets && id !in ids ==> id in after.tickets && after.tickets[id] == db.tickets[id])
               && |after.users| == |db.users| + 1 && after.requests[r].status.Approved?
  {
    hide Inv, SumFaces, ZoneFace, Available, FindZone;
    InvHasNoRepeats(db, opening);
    var request := db.requests[r];
    AvailableSeats(db.tickets, db.order, request);
    var count := if assignedCount.Some? then assignedCount.value else request.headcount;
    var ids := Available(db.tickets, db.order, request)[..count];
    assert forall id :: id in ids ==> id in Available(db.tickets, db.order, request);
  }

  lemma InvHasNoRepeats(db: Db, opening: seq<int>)
    requires Inv(db, opening)
    ensures NoDuplicates(db.order)
  {
  }

  // ----------------------------------------------------------------------------------------- money

  /**
   The resale fee is five percent rounded up, the least amount that is at least a twentieth of the price, and so it is
   when computed in doubles.
   */
  lemma FeeRoundsUp(price: int, fee: int)
    ensures fee == ResaleFee(price) <==> 20 * (fee - 1) < price <= 20 * fee
    ensures 0 <= price <= 10_000_000_000_000 ==> ResaleFee(price) == DoublePrice.FeeCap(price)
  {
    if 0 <= price <= 10_000_000_000_000 {
      DoublePrice.FeeIsExact(price);
      hide DoublePrice.FeeCap;
    }
  }

  /**
   Price bounds.  The lower one is half the face value, rounded up.  The upper one is the face value plus the zone's
   percentage, rounded up, or one won more: exactly when the percentage comes out whole and the rounding error of the
   computed factor shows in the product.
   */
  lemma BoundsRoundUp(zone: Zone)
    ensures 2 * (MinPrice(zone) - 1) < zone.faceValue <= 2 * MinPrice(zone)
    ensures 0 <= zone.faceValue <= 10_000_000_000_000 && zone.resalePercent <= 100 ==>
              var hundredths := zone.faceValue * (100 + zone.resalePercent);
              var oneMore := hundredths % 100 == 0 && DoublePrice.Overshoots(zone.faceValue, zone.resalePercent);
              var exact := if oneMore then MaxPrice(zone) - 1 else MaxPrice(zone);
              && 100 * (exact - 1) < hundredths <= 100 * exact
              && (zone.faceValue >= 1 ==> MinPrice(zone) <= zone.faceValue <= MaxPrice(zone))
  {
    if 0 <= zone.faceValue <= 10_000_000_000_000 && zone.resalePercent <= 100 {
      DoublePrice.CapIsExactOrOneMore(zone.faceValue, zone.resalePercent);
      hide DoublePrice.PriceCap, DoublePrice.Overshoots;
      PercentRoundsUp(zone.faceValue, zone.resalePercent, DoublePrice.ExactCap(zone.faceValue, zone.resalePercent));
    }
  }

  lemma PercentRoundsUp(face: nat, percent: nat, exact: int)
    requires exact == DoublePrice.ExactCap(face, percent)
    ensures 100 * (exact - 1) < face * (100 + percent) <= 100 * exact && face <= exact
  {
    assert face * percent >= 0;
  }
}
