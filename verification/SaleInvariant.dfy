/** What every handler keeps: the invariants that tie tickets to holds, drafts, pools, transactions and balances. */
module SaleInvariant {
  import opened Prelude
  import opened SaleTypes
  import opened Holds
  import opened Commerce
  import opened Inventory
  import opened SaleSteps

  predicate Unsold(status: TicketStatus) {
    status == OnSale || status == Held || status == Reserved || status == AdminHold
  }

  // ----------------------------------------------------------------------------- seats and claims

  /** Under ten minutes from creation, the one extension included. */
  ghost predicate HoldTimes(holds: seq<Hold>) {
    forall h :: 0 <= h < |holds| ==>
      && holds[h].extensionsUsed <= HOLD_MAX_EXTENSIONS
      && (holds[h].extensionsUsed == 0 ==> holds[h].expiresAt == holds[h].createdAt + HOLD_TTL_MS)
      && holds[h].expiresAt < holds[h].createdAt + HOLD_TTL_MS + HOLD_EXTENSION_MS
  }

  /** Under twenty minutes from the creation of the hold the draft came from. */
  ghost predicate DraftTimes(drafts: seq<Draft>, holds: seq<Hold>) {
    forall d :: 0 <= d < |drafts| ==>
      && drafts[d].holdId < |holds|
      && drafts[d].expiresAt < holds[drafts[d].holdId].createdAt + HOLD_TTL_MS + HOLD_EXTENSION_MS + DRAFT_TTL_MS
  }

  /** A ticket is HELD exactly by the one ACTIVE hold that lists it, until that hold's expiry. */
  ghost predicate HoldsMatch(tickets: Tickets, holds: seq<Hold>) {
    && (forall h, id :: 0 <= h < |holds| && holds[h].status.HoldActive? && id in holds[h].ticketIds ==>
          id in tickets && tickets[id].status == Held
          && tickets[id].heldBy == Some(h) && tickets[id].holdExpiresAt == Some(holds[h].expiresAt))
    && (forall id :: id in tickets && tickets[id].status == Held ==>
          tickets[id].heldBy.Some? && tickets[id].heldBy.value < |holds|
          && holds[tickets[id].heldBy.value].status.HoldActive? && id in holds[tickets[id].heldBy.value].ticketIds)
    && (forall id :: id in tickets && tickets[id].status != Held ==> tickets[id].heldBy.None?)
  }

  /** A ticket is RESERVED exactly by the one PENDING_PAYMENT draft that lists it, until that draft's expiry. */
  ghost predicate DraftsMatch(tickets: Tickets, drafts: seq<Draft>) {
    && (forall d, id :: 0 <= d < |drafts| && drafts[d].status.PendingPayment? && id in drafts[d].ticketIds ==>
          id in tickets && tickets[id].status == Reserved
          && tickets[id].reservationId == Some(d) && tickets[id].reservationExpiresAt == Some(drafts[d].expiresAt))
    && (forall id :: id in tickets && tickets[id].status == Reserved ==>
          tickets[id].reservationId.Some? && tickets[id].reservationId.value < |drafts|
          && drafts[tickets[id].reservationId.value].status.PendingPayment?
          && id in drafts[tickets[id].reservationId.value].ticketIds)
    && (forall id :: id in tickets && tickets[id].status != Reserved ==> tickets[id].reservationId.None?)
  }

  // --------------------------------------------------------------------------- ownership and resale

  ghost predicate Owners(tickets: Tickets, users: seq<User>) {
    forall id :: id in tickets ==>
      && (tickets[id].ownerId.None? <==> Unsold(tickets[id].status))
      && (tickets[id].ownerId.Some? ==> tickets[id].ownerId.value < |users|)
      && tickets[id].maxTransferCount == 1
      && (tickets[id].ownerId.None? ==> !tickets[id].institutional)
  }

  ghost predicate PoolOk(tickets: Tickets, pool: Pool) {
    && pool.ticketId in tickets
    && var t := tickets[pool.ticketId];
       && t.ownerId.Some? && !t.institutional
       && (pool.status.Open? ==> (
             && t.status == InResalePool && t.ownerId == Some(pool.sellerId)
             && t.minPrice <= pool.price <= t.maxPrice && NoDuplicates(pool.buyers) && pool.sellerId !in pool.buyers))
       && (pool.status.Matched? ==> (
             && t.ownerId == pool.winnerId && pool.winnerId != Some(pool.sellerId)
             && pool.sellerSettlement == pool.price && pool.buyerTotal == pool.price + ResaleFee(pool.price)))
  }

  ghost predicate PoolFits(tickets: Tickets, pool: Pool, users: seq<User>) {
    PoolOk(tickets, pool) && pool.sellerId < |users| && forall b :: b in pool.buyers ==> b < |users|
  }

  /** Every pool fits the ticket it names; its people exist. */
  ghost predicate PoolsFit(tickets: Tickets, pools: seq<Pool>, users: seq<User>) {
    forall p {:trigger PoolFits(tickets, pools[p], users)} :: 0 <= p < |pools| ==> PoolFits(tickets, pools[p], users)
  }

  /** IN_RESALE_POOL means one OPEN pool; `transferCount` is the number of MATCHED pools; never both, never two. */
  ghost predicate PoolsCounted(tickets: Tickets, pools: seq<Pool>) {
    forall id {:trigger PoolCount(pools, id, Open)} {:trigger PoolCount(pools, id, Matched)} :: id in tickets ==>
      && PoolCount(pools, id, Open) == (if tickets[id].status == InResalePool then 1 else 0)
      && PoolCount(pools, id, Matched) == tickets[id].transferCount
      && PoolCount(pools, id, Open) + PoolCount(pools, id, Matched) <= 1
  }

  /** Unsold tickets have never been allocated, sold ones once. */
  ghost predicate AllocatedOnce(tickets: Tickets, txs: seq<Transaction>) {
    forall id {:trigger Allocations(txs, id)} :: Allocations(txs, id) == if id in tickets && tickets[id].ownerId.Some? then 1 else 0
  }

  // ------------------------------------------------------------------------------------------ money

  /** Balance when the run began; accounts created later start empty. */
  function Opening(opening: seq<int>, userId: UserId): int {
    if userId < |opening| then opening[userId] else 0
  }

  ghost predicate Balanced(users: seq<User>, txs: seq<Transaction>, opening: seq<int>) {
    && |opening| <= |users|
    && forall u :: 0 <= u < |users| ==> users[u].balance == Opening(opening, u) + Transfers(txs, u)
  }

  /** Sellers named in transactions have accounts, so a fresh account starts with no transfers. */
  ghost predicate SellersKnown(users: seq<User>, txs: seq<Transaction>) {
    forall u :: u >= |users| ==> Transfers(txs, u) == 0
  }

  function MatchedSettlements(pools: seq<Pool>): int {
    if pools == [] then 0
    else MatchedSettlements(pools[..|pools| - 1]) + (if pools[|pools| - 1].status.Matched? then pools[|pools| - 1].sellerSettlement else 0)
  }

  function MatchedTotals(pools: seq<Pool>): int {
    if pools == [] then 0
    else MatchedTotals(pools[..|pools| - 1]) + (if pools[|pools| - 1].status.Matched? then pools[|pools| - 1].buyerTotal else 0)
  }

  function PrimaryTotals(txs: seq<Transaction>): int {
    if txs == [] then 0
    else PrimaryTotals(txs[..|txs| - 1])
         + (if txs[|txs| - 1].Primary? || txs[|txs| - 1].GroupBooking? then txs[|txs| - 1].amount else 0)
  }

  /** The finance summary only counts sales that stand: reversed matches cancel out of gross and settlements. */
  ghost predicate SummaryStands(txs: seq<Transaction>, pools: seq<Pool>) {
    && PaymentSummary(txs).totalSettlements == MatchedSettlements(pools)
    && PaymentSummary(txs).totalAmount == PrimaryTotals(txs) + MatchedTotals(pools)
  }

  // -------------------------------------------------------------------------------------- everything

  ghost predicate EventsNormalized(events: map<string, Event>) {
    forall e :: e in events ==> ZonesNormalized(events[e].zones)
  }

  ghost predicate SeatsInv(db: Db) {
    HoldsMatch(db.tickets, db.holds) && DraftsMatch(db.tickets, db.drafts)
    && HoldTimes(db.holds) && DraftTimes(db.drafts, db.holds)
  }

  ghost predicate ResaleInv(db: Db) {
    Owners(db.tickets, db.users) && PoolsFit(db.tickets, db.pools, db.users) && PoolsCounted(db.tickets, db.pools)
    && AllocatedOnce(db.tickets, db.txs)
  }

  ghost predicate MoneyInv(db: Db, opening: seq<int>) {
    Balanced(db.users, db.txs, opening) && SellersKnown(db.users, db.txs) && SummaryStands(db.txs, db.pools)
  }

  ghost predicate StockInv(db: Db) {
    OrderOk(db.tickets, db.order) && Placed(db.tickets, db.events) && EventsNormalized(db.events)
  }

  ghost predicate Inv(db: Db, opening: seq<int>) {
    SeatsInv(db) && ResaleInv(db) && MoneyInv(db, opening) && StockInv(db)
  }
}
