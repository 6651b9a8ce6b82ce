/** When each handler on resale pools answers, and what it leaves, told from accounts, tickets and pools alone. */
module ResaleAnswers {
  import opened Prelude
  import opened SaleTypes
  import opened Commerce
  import opened SaleInvariant
  import opened SaleResale
  import opened SaleHandlers
  import opened SaleProgress
  import opened HoldAnswers
  import SaleRuns

  /** A pool that still takes buyers. */
  predicate OpenPoolAt(db: Db, p: PoolId) { p < |db.pools| && db.pools[p].status == Open }

  /**
   A ticket is listed exactly if the caller may act, owns it, holds it OWNED, it is not an institution's, may still be
   transferred, and the price is within its bounds.  It goes into a new OPEN pool and nothing else changes.
   */
  lemma ListAnswers(db: Db, u: UserId, id: TicketId, price: Option<int>)
    ensures ListForResale(db, u, id, price).result.Ok? <==>
              && Account(db, u) && id in db.tickets && price.Some?
              && var t := db.tickets[id];
                 && t.ownerId == Some(u) && t.status == Owned && !t.institutional && t.transferCount < t.maxTransferCount
                 && t.minPrice <= price.value <= t.maxPrice
    ensures ListForResale(db, u, id, price).result.Ok? ==>
              && ListForResale(db, u, id, price).result == Ok(|db.pools|)
              && ListForResale(db, u, id, price).db == db.(
                   tickets := db.tickets[id := db.tickets[id].(status := InResalePool)],
                   pools := db.pools + [Pool(id, u, price.value, [], Open, None, 0, 0)],
                   ledger := db.ledger + [LedgerEntry(ByUser(u), ResaleListed(|db.pools|, id, price.value))])
  {
  }

  /** Anyone who may act joins another's OPEN pool, behind those who joined before, once. */
  lemma JoinAnswers(db: Db, u: UserId, p: PoolId)
    ensures JoinPool(db, u, p).result == Ok(p) <==> Account(db, u) && OpenPoolAt(db, p) && db.pools[p].sellerId != u
    ensures JoinPool(db, u, p).result.Ok? ==>
              JoinPool(db, u, p).result == Ok(p) && JoinPool(db, u, p).db == db.(
                pools := db.pools[p := db.pools[p].(buyers := Joined(db.pools[p].buyers, u))],
                ledger := db.ledger + [LedgerEntry(ByUser(u), PoolJoined(p))])
  {
  }

  function Joined(buyers: seq<UserId>, u: UserId): seq<UserId> { if u in buyers then buyers else buyers + [u] }

  /** A listing is cancelled by its seller, while the pool is OPEN; the ticket is OWNED again. */
  lemma CancelListingAnswers(db: Db, opening: seq<int>, u: UserId, p: PoolId)
    requires Inv(db, opening)
    ensures CancelResaleListing(db, u, p).result == Ok(p) <==> Account(db, u) && OpenPoolAt(db, p) && db.pools[p].sellerId == u
    ensures CancelResaleListing(db, u, p).result.Err? || CancelResaleListing(db, u, p).result == Ok(p)
    ensures CancelResaleListing(db, u, p).result.Ok? ==>
              var id := db.pools[p].ticketId;
              id in db.tickets && CancelResaleListing(db, u, p).db == db.(
                tickets := db.tickets[id := db.tickets[id].(status := Owned)],
                pools := db.pools[p := db.pools[p].(status := Canceled)],
                ledger := db.ledger + [LedgerEntry(ByUser(u), ListingCanceled(p, id))])
  {
    if p < |db.pools| { PoolFitsAt(db, opening, p); }
    hide Inv;
  }

  /** What a match leaves: money to the seller, the ticket to the buyer, the pool MATCHED, one transaction, one entry. */
  ghost predicate MatchedBy(db: Db, r: Db, p: PoolId, buyerId: UserId)
    requires p < |db.pools| && db.pools[p].ticketId in db.tickets && db.pools[p].sellerId < |db.users|
  {
    var pool := db.pools[p];
    var id, s, t := pool.ticketId, pool.sellerId, db.tickets[pool.ticketId];
    exists fee {:trigger FeeOf(pool.price, fee)} :: FeeOf(pool.price, fee) && r == db.(
      users := db.users[s := db.users[s].(balance := db.users[s].balance + pool.price)],
      tickets := db.tickets[id := t.(ownerId := Some(buyerId), status := Owned, transferCount := t.transferCount + 1)],
      pools := db.pools[p := pool.(status := Matched, winnerId := Some(buyerId), buyerTotal := pool.price + fee, sellerSettlement := pool.price)],
      txs := db.txs + [Resale(id, buyerId, s, pool.price + fee, pool.price, fee)],
      ledger := db.ledger + [LedgerEntry(BySystem, ResaleMatched(p, id, s, buyerId, pool.price, fee))])
  }

  /** The least amount that is at least a twentieth of the price. */
  predicate FeeOf(price: int, fee: int) { 20 * (fee - 1) < price <= 20 * fee }

  lemma MatchAnswers(db: Db, opening: seq<int>, p: PoolId, buyerId: UserId, payment: Option<PaymentMethod>)
    requires Inv(db, opening) && OpenPoolAt(db, p) && buyerId < |db.users|
    ensures var pool, r := db.pools[p], CompleteResaleMatch(db, p, buyerId, payment);
            && pool.ticketId in db.tickets && pool.sellerId < |db.users|
            && (r.result == Ok(p) <==> db.users[buyerId].verified && Account(db, pool.sellerId) && payment.Some?)
            && (r.result.Err? || r.result == Ok(p))
            && (r.result.Ok? ==> MatchedBy(db, r.db, p, buyerId))
  {
    hide Inv, MatchedBy, SettleMatch, MoveTicket;
    MatchNeverStopsHalfway(db, opening, p, buyerId, payment);
    PoolAsTold(db, opening, p);
    Settled(db, p, buyerId);
    assert CompleteResaleMatch(db, p, buyerId, payment).result != Err(EventDateNotFound);
  }

  lemma Settled(db: Db, p: PoolId, buyerId: UserId)
    requires p < |db.pools| && db.pools[p].ticketId in db.tickets && db.pools[p].sellerId < |db.users|
    ensures MatchedBy(db, SettleMatch(MoveTicket(db, p, buyerId), p, buyerId), p, buyerId)
  {
    assert FeeOf(db.pools[p].price, ResaleFee(db.pools[p].price));
  }

  /** A draw takes the joined buyer the seed points at, and needs that buyer verified and both parties allowed to act. */
  lemma DrawAnswers(db: Db, opening: seq<int>, p: PoolId, payment: Option<PaymentMethod>, seed: nat)
    requires Inv(db, opening)
    ensures DrawPool(db, p, payment, seed).result == Ok(p) <==>
              && OpenPoolAt(db, p) && db.pools[p].buyers != [] && payment.Some?
              && var winner := db.pools[p].buyers[seed % |db.pools[p].buyers|];
                 Account(db, winner) && db.users[winner].verified && Account(db, db.pools[p].sellerId)
    ensures DrawPool(db, p, payment, seed).result.Ok? ==>
              && DrawPool(db, p, payment, seed).result == Ok(p)
              && OpenPoolAt(db, p) && db.pools[p].buyers != [] && db.pools[p].ticketId in db.tickets && db.pools[p].sellerId < |db.users|
              && MatchedBy(db, DrawPool(db, p, payment, seed).db, p, db.pools[p].buyers[seed % |db.pools[p].buyers|])
  {
    hide Inv, CompleteResaleMatch, MatchedBy;
    if OpenPoolAt(db, p) && db.pools[p].buyers != [] {
      var winner := db.pools[p].buyers[seed % |db.pools[p].buyers|];
      if winner < |db.users| { MatchAnswers(db, opening, p, winner, payment); }
    }
  }

  /** A direct purchase is a match with the caller, who is in the pool then, even if it fails for the parties' sake. */
  lemma BuyResaleAnswers(db: Db, opening: seq<int>, u: UserId, p: PoolId, payment: Option<PaymentMethod>)
    requires Inv(db, opening)
    ensures PurchaseResale(db, u, p, payment).result == Ok(p) <==>
              && Account(db, u) && db.users[u].verified && OpenPoolAt(db, p) && db.pools[p].sellerId != u && payment.Some?
              && Account(db, db.pools[p].sellerId)
    ensures PurchaseResale(db, u, p, payment).result.Ok? ==>
              && PurchaseResale(db, u, p, payment).result == Ok(p) && OpenPoolAt(db, p)
              && var joined := JoinPool(db, u, p).db;
                 p < |joined.pools| && joined.pools[p].ticketId in joined.tickets && joined.pools[p].sellerId < |joined.users|
                 && MatchedBy(joined, PurchaseResale(db, u, p, payment).db, p, u)
    ensures PurchaseResale(db, u, p, payment).result.Err? ==>
              PurchaseResale(db, u, p, payment).db
              == if Account(db, u) && OpenPoolAt(db, p) && db.pools[p].sellerId != u && payment.Some? then JoinPool(db, u, p).db else db
  {
    hide Inv, CompleteResaleMatch, MatchedBy;
    JoinPoolKeeps(db, opening, u, p);
    var joined := JoinPool(db, u, p);
    if joined.result.Ok? {
      MatchAnswers(joined.db, opening, p, u, payment);
      MatchNeverStopsHalfway(joined.db, opening, p, u, payment);
    }
  }

  /** What an operator's cancelling leaves of a MATCHED pool: money and ticket go back, and the buyer's refund is recorded. */
  ghost predicate ReversedTo(db: Db, r: Db, p: PoolId)
    requires p < |db.pools| && db.pools[p].ticketId in db.tickets && db.pools[p].sellerId < |db.users| && db.pools[p].winnerId.Some?
  {
    var pool := db.pools[p];
    var id, s, t := pool.ticketId, pool.sellerId, db.tickets[pool.ticketId];
    r == db.(
      users := db.users[s := db.users[s].(balance := db.users[s].balance - pool.price)],
      tickets := db.tickets[id := t.(ownerId := Some(s), status := Owned, transferCount := 0)],
      pools := db.pools[p := pool.(status := Canceled)],
      txs := db.txs + [Refund(id, pool.winnerId.value, s, pool.buyerTotal, -pool.price)],
      ledger := db.ledger + [LedgerEntry(ByAdmin, MatchReversed(p, id, pool.price, pool.buyerTotal)), LedgerEntry(ByAdmin, PoolCanceled(p, id))])
  }

  /** An operator cancels any pool that is not CANCELED: an OPEN one like its seller would, a MATCHED one by unwinding it. */
  lemma OperatorCancelAnswers(db: Db, opening: seq<int>, p: PoolId)
    requires Inv(db, opening)
    ensures var r := AdminCancelResalePool(db, p);
            && (r.result == Ok(p) <==> p < |db.pools| && db.pools[p].status != Canceled)
            && (r.result.Err? ==> r.db == db)
            && (r.result.Ok? ==>
                  && p < |db.pools| && db.pools[p].ticketId in db.tickets && db.pools[p].sellerId < |db.users|
                  && var id := db.pools[p].ticketId;
                     if db.pools[p].status == Matched then db.pools[p].winnerId.Some? && ReversedTo(db, r.db, p)
                     else r.db == db.(
                       tickets := db.tickets[id := db.tickets[id].(status := Owned)],
                       pools := db.pools[p := db.pools[p].(status := Canceled)],
                       ledger := db.ledger + [LedgerEntry(ByAdmin, PoolCanceled(p, id))]))
  {
    hide Inv, ReversedTo, ReverseMatch;
    if p < |db.pools| {
      PoolAsTold(db, opening, p);
      if db.pools[p].status == Matched { Unwound(db, p); }
    }
  }

  lemma Unwound(db: Db, p: PoolId)
    requires p < |db.pools| && db.pools[p].ticketId in db.tickets && db.pools[p].sellerId < |db.users| && db.pools[p].winnerId.Some?
    requires db.pools[p].sellerSettlement == db.pools[p].price && db.tickets[db.pools[p].ticketId].transferCount == 1
    ensures ReversedTo(db, Log(ReverseMatch(db, p), ByAdmin, PoolCanceled(p, db.pools[p].ticketId)), p)
  {
    var r := Log(ReverseMatch(db, p), ByAdmin, PoolCanceled(p, db.pools[p].ticketId));
    var reversed := LedgerEntry(ByAdmin, MatchReversed(p, db.pools[p].ticketId, db.pools[p].price, db.pools[p].buyerTotal));
    assert r.ledger == db.ledger + [reversed, LedgerEntry(ByAdmin, PoolCanceled(p, db.pools[p].ticketId))];
  }

  lemma PoolAsTold(db: Db, opening: seq<int>, p: PoolId)
    requires Inv(db, opening) && p < |db.pools|
    ensures var pool := db.pools[p];
            && pool.ticketId in db.tickets && pool.sellerId < |db.users|
            && (pool.status == Matched ==>
                  pool.winnerId.Some? && pool.sellerSettlement == pool.price && db.tickets[pool.ticketId].transferCount == 1)
  {
    hide Inv;
    PoolFitsAt(db, opening, p);
    SaleRuns.MatchedPoolFacts(db, opening, p);
  }
}
