/** Listing, matching, cancelling, reversing and admitting: edits of one sold ticket and at most one pool. */
module SaleResale {
  import opened Prelude
  import opened SaleTypes
  import opened Holds
  import opened Commerce
  import opened Inventory
  import opened SaleSteps
  import opened SaleInvariant
  import opened SaleSeats

  predicate Sold(status: TicketStatus) {
    status == Owned || status == InResalePool || status == Admitted
  }

  /** A sold ticket stays sold and keeps everything a primary sale or its inventory fixed. */
  ghost predicate SoldEdit(t0: Ticket, t1: Ticket) {
    && Sold(t0.status) && Sold(t1.status) && t1.ownerId.Some?
    && t1 == t0.(ownerId := t1.ownerId, status := t1.status, transferCount := t1.transferCount)
  }

  lemma SoldEditKeepsSeats(t: Tickets, id: TicketId, x: Ticket, holds: seq<Hold>, drafts: seq<Draft>)
    requires HoldsMatch(t, holds) && DraftsMatch(t, drafts) && id in t && SoldEdit(t[id], x)
    ensures HoldsMatch(t[id := x], holds) && DraftsMatch(t[id := x], drafts)
  {
    HoldsFrame(t, t[id := x], holds);
    DraftsFrame(t, t[id := x], drafts);
  }

  lemma SoldEditKeepsRest(
    t: Tickets, id: TicketId, x: Ticket, users: seq<User>, txs: seq<Transaction>, order: seq<TicketId>, events: map<string, Event>)
    requires Owners(t, users) && AllocatedOnce(t, txs) && OrderOk(t, order) && Placed(t, events)
    requires id in t && SoldEdit(t[id], x) && x.ownerId.value < |users|
    ensures var t1 := t[id := x];
            Owners(t1, users) && AllocatedOnce(t1, txs) && OrderOk(t1, order) && Placed(t1, events)
  {
  }

  // ---------------------------------------------------------------------------------------- pools

  lemma NoneWithStatus(pools: seq<Pool>, id: TicketId, status: PoolStatus)
    requires PoolCount(pools, id, status) == 0
    ensures forall p :: 0 <= p < |pools| && pools[p].ticketId == id ==> pools[p].status != status
  {
    forall p | 0 <= p < |pools| && pools[p].ticketId == id && pools[p].status == status ensures false {
      PoolCountPositive(pools, p);
    }
  }

  /** A live pool is the only live pool of its ticket. */
  lemma OthersCanceled(t: Tickets, pools: seq<Pool>, p: PoolId)
    requires PoolsCounted(t, pools) && p < |pools| && !pools[p].status.Canceled? && pools[p].ticketId in t
    ensures forall q :: 0 <= q < |pools| && q != p && pools[q].ticketId == pools[p].ticketId ==> pools[q].status.Canceled?
  {
    var id := pools[p].ticketId;
    PoolCountPositive(pools, p);
    forall q | 0 <= q < |pools| && q != p && pools[q].ticketId == id ensures pools[q].status.Canceled? {
      PoolCountPositive(pools, q);
      if pools[q].status == pools[p].status { PoolCountUnique(pools, if p < q then p else q, if p < q then q else p); }
    }
  }

  /** Editing one ticket together with one of its pools, when its other pools are canceled. */
  lemma PoolEditFits(t: Tickets, id: TicketId, x: Ticket, pools: seq<Pool>, p: PoolId, pool: Pool, users: seq<User>)
    requires PoolsFit(t, pools, users) && id in t && p < |pools|
    requires forall q :: 0 <= q < |pools| && q != p && pools[q].ticketId == id ==> pools[q].status.Canceled?
    requires x.ownerId.Some? && !x.institutional
    requires PoolFits(t[id := x], pool, users)
    ensures PoolsFit(t[id := x], pools[p := pool], users)
  {
    var t1, pools1 := t[id := x], pools[p := pool];
    forall q | 0 <= q < |pools1|
      ensures PoolFits(t1, pools1[q], users)
    {
      if q != p { assert PoolFits(t, pools[q], users); }
    }
  }

  lemma PoolAppendFits(t: Tickets, id: TicketId, x: Ticket, pools: seq<Pool>, pool: Pool, users: seq<User>)
    requires PoolsFit(t, pools, users) && id in t
    requires forall q :: 0 <= q < |pools| && pools[q].ticketId == id ==> pools[q].status.Canceled?
    requires x.ownerId.Some? && !x.institutional
    requires PoolFits(t[id := x], pool, users)
    ensures PoolsFit(t[id := x], pools + [pool], users)
  {
    var t1, pools1 := t[id := x], pools + [pool];
    forall q | 0 <= q < |pools1|
      ensures PoolFits(t1, pools1[q], users)
    {
      if q < |pools| { assert PoolFits(t, pools[q], users) && pools1[q] == pools[q]; }
    }
  }

  lemma PoolEditCounts(t: Tickets, id: TicketId, x: Ticket, pools: seq<Pool>, p: PoolId, pool: Pool)
    requires PoolsCounted(t, pools) && id in t && p < |pools| && pools[p].ticketId == id == pool.ticketId
    requires var open := PoolCount(pools, id, Open) - (if pools[p].status.Open? then 1 else 0) + (if pool.status.Open? then 1 else 0);
             var matched := PoolCount(pools, id, Matched) - (if pools[p].status.Matched? then 1 else 0) + (if pool.status.Matched? then 1 else 0);
             open == (if x.status == InResalePool then 1 else 0) && matched == x.transferCount && open + matched <= 1
    ensures PoolsCounted(t[id := x], pools[p := pool])
  {
    var t1, pools1 := t[id := x], pools[p := pool];
    forall i | i in t1
      ensures PoolCount(pools1, i, Open) == (if t1[i].status == InResalePool then 1 else 0)
      ensures PoolCount(pools1, i, Matched) == t1[i].transferCount
      ensures PoolCount(pools1, i, Open) + PoolCount(pools1, i, Matched) <= 1
    {
      PoolCountUpdate(pools, p, pool, i, Open);
      PoolCountUpdate(pools, p, pool, i, Matched);
    }
  }

  lemma PoolAppendCounts(t: Tickets, id: TicketId, x: Ticket, pools: seq<Pool>, pool: Pool)
    requires PoolsCounted(t, pools) && id in t && pool.ticketId == id && pool.status.Open?
    requires PoolCount(pools, id, Open) == PoolCount(pools, id, Matched) == 0
    requires x.status == InResalePool && x.transferCount == 0
    ensures PoolsCounted(t[id := x], pools + [pool])
  {
    var t1, pools1 := t[id := x], pools + [pool];
    forall i | i in t1
      ensures PoolCount(pools1, i, Open) == (if t1[i].status == InResalePool then 1 else 0)
      ensures PoolCount(pools1, i, Matched) == t1[i].transferCount
      ensures PoolCount(pools1, i, Open) + PoolCount(pools1, i, Matched) <= 1
    {
      PoolCountAppend(pools, pool, i, Open);
      PoolCountAppend(pools, pool, i, Matched);
    }
  }

  lemma NoPoolEditCounts(t: Tickets, id: TicketId, x: Ticket, pools: seq<Pool>)
    requires PoolsCounted(t, pools) && id in t
    requires (x.status == InResalePool <==> t[id].status == InResalePool) && x.transferCount == t[id].transferCount
    ensures PoolsCounted(t[id := x], pools)
  {
  }

  // ---------------------------------------------------------------------------------------- totals

  lemma {:induction false} MatchedUpdate(pools: seq<Pool>, p: PoolId, pool: Pool)
    requires p < |pools|
    ensures MatchedSettlements(pools[p := pool]) == MatchedSettlements(pools)
              - (if pools[p].status.Matched? then pools[p].sellerSettlement else 0)
              + (if pool.status.Matched? then pool.sellerSettlement else 0)
    ensures MatchedTotals(pools[p := pool]) == MatchedTotals(pools)
              - (if pools[p].status.Matched? then pools[p].buyerTotal else 0)
              + (if pool.status.Matched? then pool.buyerTotal else 0)
  {
    var last := |pools| - 1;
    if p == last {
      assert pools[p := pool][..last] == pools[..last];
    } else {
      assert pools[p := pool][..last] == pools[..last][p := pool];
      MatchedUpdate(pools[..last], p, pool);
    }
  }

  lemma MatchedAppend(pools: seq<Pool>, pool: Pool)
    requires !pool.status.Matched?
    ensures MatchedSettlements(pools + [pool]) == MatchedSettlements(pools)
    ensures MatchedTotals(pools + [pool]) == MatchedTotals(pools)
  {
    assert (pools + [pool])[..|pools|] == pools;
  }

  lemma SummaryAppend(txs: seq<Transaction>, tx: Transaction)
    ensures var s, r := PaymentSummary(txs), PaymentSummary(txs + [tx]);
            r == Summary(s.count + 1, s.totalAmount + Gross(tx), s.totalFees + Fee(tx), s.totalSettlements + Settlement(tx))
    ensures PrimaryTotals(txs + [tx]) == PrimaryTotals(txs) + (if tx.Primary? || tx.GroupBooking? then tx.amount else 0)
  {
    assert (txs + [tx])[..|txs + [tx]| - 1] == txs;
  }

  lemma AllocatedSame(t: Tickets, txs: seq<Transaction>, tx: Transaction)
    requires AllocatedOnce(t, txs) && !tx.Primary? && !tx.GroupBooking?
    ensures AllocatedOnce(t, txs + [tx])
  {
    AppendTx(txs, tx);
  }

  lemma TransferBalanced(users: seq<User>, txs: seq<Transaction>, opening: seq<int>, seller: UserId, amount: int, tx: Transaction)
    requires Balanced(users, txs, opening) && SellersKnown(users, txs) && seller < |users|
    requires (tx.Resale? || tx.Refund?) && tx.sellerId == seller && tx.transferAmount == amount
    ensures var users1 := users[seller := users[seller].(balance := users[seller].balance + amount)];
            Balanced(users1, txs + [tx], opening) && SellersKnown(users1, txs + [tx])
  {
    AppendTx(txs, tx);
  }

  lemma OwnersUsers(t: Tickets, users: seq<User>, users1: seq<User>, pools: seq<Pool>)
    requires Owners(t, users) && PoolsFit(t, pools, users) && |users| <= |users1|
    ensures Owners(t, users1) && PoolsFit(t, pools, users1)
  {
    forall p | 0 <= p < |pools| ensures PoolFits(t, pools[p], users1) {
      assert PoolFits(t, pools[p], users);
    }
  }

  // --------------------------------------------------------------------------------------- handlers

  lemma OpenPoolKeeps(db: Db, opening: seq<int>, sellerId: UserId, id: TicketId, price: int)
    requires Inv(db, opening) && sellerId < |db.users| && id in db.tickets
    requires var t := db.tickets[id];
             t.ownerId == Some(sellerId) && t.status == Owned && !t.institutional && t.transferCount < t.maxTransferCount
             && t.minPrice <= price <= t.maxPrice
    ensures Inv(OpenPool(db, sellerId, id, price), opening)
  {
    var x := db.tickets[id].(status := InResalePool);
    var pool := Pool(id, sellerId, price, [], Open, None, 0, 0);
    NoneWithStatus(db.pools, id, Open);
    NoneWithStatus(db.pools, id, Matched);
    SoldEditKeepsSeats(db.tickets, id, x, db.holds, db.drafts);
    SoldEditKeepsRest(db.tickets, id, x, db.users, db.txs, db.order, db.events);
    PoolAppendFits(db.tickets, id, x, db.pools, pool, db.users);
    PoolAppendCounts(db.tickets, id, x, db.pools, pool);
    MatchedAppend(db.pools, pool);
  }

  lemma AddBuyerKeeps(db: Db, opening: seq<int>, buyerId: UserId, p: PoolId)
    requires Inv(db, opening) && buyerId < |db.users| && p < |db.pools|
    requires db.pools[p].status.Open? && db.pools[p].sellerId != buyerId && PoolFits(db.tickets, db.pools[p], db.users)
    ensures Inv(db.(pools := AddBuyer(db.pools, p, buyerId)), opening)
  {
    var pool := db.pools[p].(buyers := db.pools[p].buyers + [buyerId]);
    if buyerId !in db.pools[p].buyers {
      var id := pool.ticketId;
      var x := db.tickets[id];
      OthersCanceled(db.tickets, db.pools, p);
      assert db.tickets[id := x] == db.tickets;
      PoolEditFits(db.tickets, id, x, db.pools, p, pool, db.users);
      PoolEditCounts(db.tickets, id, x, db.pools, p, pool);
      MatchedUpdate(db.pools, p, pool);
    }
  }

  lemma ClosePoolKeeps(db: Db, opening: seq<int>, p: PoolId)
    requires Inv(db, opening) && p < |db.pools| && db.pools[p].status.Open? && PoolFits(db.tickets, db.pools[p], db.users)
    ensures Inv(ClosePool(db, p), opening)
  {
    var id := db.pools[p].ticketId;
    var x := db.tickets[id].(status := Owned);
    var pool := db.pools[p].(status := Canceled);
    OthersCanceled(db.tickets, db.pools, p);
    PoolCountPositive(db.pools, p);
    SoldEditKeepsSeats(db.tickets, id, x, db.holds, db.drafts);
    SoldEditKeepsRest(db.tickets, id, x, db.users, db.txs, db.order, db.events);
    PoolEditFits(db.tickets, id, x, db.pools, p, pool, db.users);
    PoolEditCounts(db.tickets, id, x, db.pools, p, pool);
    MatchedUpdate(db.pools, p, pool);
  }

  ghost predicate TradeOk(t: Tickets, pools: seq<Pool>, users: seq<User>, p: PoolId, x: Ticket, pool: Pool)
    requires p < |pools|
  {
    && pools[p].ticketId in t && pool.ticketId == pools[p].ticketId
    && SoldEdit(t[pool.ticketId], x) && PoolFits(t[pool.ticketId := x], pool, users)
    && x.ownerId.value < |users| && pools[p].sellerId < |users|
    && !pool.status.Open? && x.status != InResalePool && x.transferCount == (if pool.status.Matched? then 1 else 0)
  }

  lemma TradeKeepsTickets(db: Db, p: PoolId, x: Ticket, pool: Pool, amount: int, tx: Transaction)
    requires SeatsInv(db) && ResaleInv(db) && StockInv(db) && p < |db.pools| && !db.pools[p].status.Canceled?
    requires TradeOk(db.tickets, db.pools, db.users, p, x, pool)
    requires tx.Resale? || tx.Refund?
    ensures var r := Trade(db, p, x, pool, amount, tx); SeatsInv(r) && ResaleInv(r) && StockInv(r)
  {
    var r := Trade(db, p, x, pool, amount, tx);
    var id := db.pools[p].ticketId;
    OthersCanceled(db.tickets, db.pools, p);
    PoolCountPositive(db.pools, p);
    SoldEditKeepsSeats(db.tickets, id, x, db.holds, db.drafts);
    SoldEditKeepsRest(db.tickets, id, x, db.users, db.txs, db.order, db.events);
    PoolEditFits(db.tickets, id, x, db.pools, p, pool, db.users);
    PoolEditCounts(db.tickets, id, x, db.pools, p, pool);
    OwnersUsers(r.tickets, db.users, r.users, r.pools);
    AllocatedSame(r.tickets, db.txs, tx);
  }

  lemma TradeKeepsMoney(db: Db, opening: seq<int>, p: PoolId, x: Ticket, pool: Pool, amount: int, tx: Transaction)
    requires MoneyInv(db, opening) && p < |db.pools| && db.pools[p].sellerId < |db.users|
    requires (tx.Resale? || tx.Refund?) && tx.sellerId == db.pools[p].sellerId && tx.transferAmount == amount
    requires amount == (if pool.status.Matched? then pool.sellerSettlement else 0)
                       - (if db.pools[p].status.Matched? then db.pools[p].sellerSettlement else 0)
    requires Gross(tx) == (if pool.status.Matched? then pool.buyerTotal else 0)
                          - (if db.pools[p].status.Matched? then db.pools[p].buyerTotal else 0)
    ensures MoneyInv(Trade(db, p, x, pool, amount, tx), opening)
  {
    TransferBalanced(db.users, db.txs, opening, db.pools[p].sellerId, amount, tx);
    MatchedUpdate(db.pools, p, pool);
    SummaryAppend(db.txs, tx);
  }

  lemma TradeKeeps(db: Db, opening: seq<int>, p: PoolId, x: Ticket, pool: Pool, amount: int, tx: Transaction, ledger: seq<LedgerEntry>)
    requires Inv(db, opening) && p < |db.pools| && !db.pools[p].status.Canceled?
    requires TradeOk(db.tickets, db.pools, db.users, p, x, pool)
    requires (tx.Resale? || tx.Refund?) && tx.sellerId == db.pools[p].sellerId && tx.transferAmount == amount
    requires amount == (if pool.status.Matched? then pool.sellerSettlement else 0)
                       - (if db.pools[p].status.Matched? then db.pools[p].sellerSettlement else 0)
    requires Gross(tx) == (if pool.status.Matched? then pool.buyerTotal else 0)
                          - (if db.pools[p].status.Matched? then db.pools[p].buyerTotal else 0)
    ensures Inv(Trade(db, p, x, pool, amount, tx).(ledger := ledger), opening)
  {
    TradeKeepsTickets(db, p, x, pool, amount, tx);
    TradeKeepsMoney(db, opening, p, x, pool, amount, tx);
  }

  lemma InvIgnoresLedger(db: Db, ledger: seq<LedgerEntry>, opening: seq<int>)
    requires Inv(db, opening)
    ensures Inv(db.(ledger := ledger), opening)
  {
  }

  function MatchedTicket(t: Ticket, buyerId: UserId): Ticket {
    t.(ownerId := Some(buyerId), transferCount := t.transferCount + 1, status := Owned)
  }

  function MatchedPool(pool: Pool, buyerId: UserId): Pool {
    pool.(status := Matched, winnerId := Some(buyerId), buyerTotal := pool.price + ResaleFee(pool.price), sellerSettlement := pool.price)
  }

  function MatchTx(pool: Pool, buyerId: UserId): Transaction {
    Resale(pool.ticketId, buyerId, pool.sellerId, pool.price + ResaleFee(pool.price), pool.price, ResaleFee(pool.price))
  }

  lemma MatchFits(t: Tickets, pools: seq<Pool>, users: seq<User>, p: PoolId, buyerId: UserId)
    requires PoolsFit(t, pools, users) && PoolsCounted(t, pools) && p < |pools| && pools[p].status.Open?
    requires buyerId < |users| && buyerId != pools[p].sellerId && PoolFits(t, pools[p], users)
    ensures var x := MatchedTicket(t[pools[p].ticketId], buyerId);
            TradeOk(t, pools, users, p, x, MatchedPool(pools[p], buyerId))
  {
    PoolCountPositive(pools, p);
    assert PoolFits(t, pools[p], users);
  }

  lemma MatchIsTrade(db: Db, p: PoolId, buyerId: UserId)
    requires p < |db.pools| && db.pools[p].ticketId in db.tickets && db.pools[p].sellerId < |db.users|
    ensures var r := SettleMatch(MoveTicket(db, p, buyerId), p, buyerId);
            var pool := db.pools[p];
            r == Trade(db, p, MatchedTicket(db.tickets[pool.ticketId], buyerId), MatchedPool(pool, buyerId), pool.price,
                       MatchTx(pool, buyerId)).(ledger := r.ledger)
  {
  }

  lemma MatchKeeps(db: Db, opening: seq<int>, p: PoolId, buyerId: UserId)
    requires Inv(db, opening) && p < |db.pools| && db.pools[p].status.Open?
    requires buyerId < |db.users| && buyerId != db.pools[p].sellerId
    requires PoolFits(db.tickets, db.pools[p], db.users)
    ensures Inv(SettleMatch(MoveTicket(db, p, buyerId), p, buyerId), opening)
  {
    hide SaleInvariant.SeatsInv, SaleInvariant.MoneyInv, SaleInvariant.StockInv, TradeOk;
    var pool := db.pools[p];
    var x, pool1, tx := MatchedTicket(db.tickets[pool.ticketId], buyerId), MatchedPool(pool, buyerId), MatchTx(pool, buyerId);
    MatchFits(db.tickets, db.pools, db.users, p, buyerId);
    MatchIsTrade(db, p, buyerId);
    TradeKeeps(db, opening, p, x, pool1, pool.price, tx, SettleMatch(MoveTicket(db, p, buyerId), p, buyerId).ledger);
  }

  lemma ReturnFits(t: Tickets, pools: seq<Pool>, users: seq<User>, p: PoolId)
    requires PoolsFit(t, pools, users) && PoolsCounted(t, pools) && p < |pools| && pools[p].status.Matched?
    requires Owners(t, users) && PoolFits(t, pools[p], users)
    ensures var x := ReturnedTicket(t[pools[p].ticketId], pools[p].sellerId);
            TradeOk(t, pools, users, p, x, pools[p].(status := Canceled)) && pools[p].winnerId.Some?
  {
    PoolCountPositive(pools, p);
    assert PoolFits(t, pools[p], users);
  }

  lemma ReverseKeeps(db: Db, opening: seq<int>, p: PoolId)
    requires Inv(db, opening) && p < |db.pools| && db.pools[p].status.Matched?
    requires PoolFits(db.tickets, db.pools[p], db.users)
    ensures Inv(ReverseMatch(db, p), opening)
  {
    hide SaleInvariant.PoolOk, SaleInvariant.SeatsInv, SaleInvariant.MoneyInv, SaleInvariant.StockInv, TradeOk;
    var pool := db.pools[p];
    ReturnFits(db.tickets, db.pools, db.users, p);
    var x, amount, ledger := ReturnedTicket(db.tickets[pool.ticketId], pool.sellerId), -pool.sellerSettlement, ReverseMatch(db, p).ledger;
    TradeKeeps(db, opening, p, x, pool.(status := Canceled), amount, ReturnTx(pool), ledger);
    var r := Trade(db, p, x, pool.(status := Canceled), amount, ReturnTx(pool)).(ledger := ledger);
    assert ReverseMatch(db, p) == r;
  }

  lemma AdmitFits(t: Tickets, id: TicketId, x: Ticket, pools: seq<Pool>, users: seq<User>)
    requires PoolsFit(t, pools, users) && id in t && t[id].status == Owned && x == t[id].(status := Admitted)
    ensures PoolsFit(t[id := x], pools, users)
  {
    forall p | 0 <= p < |pools| ensures PoolFits(t[id := x], pools[p], users) {
      assert PoolFits(t, pools[p], users);
    }
  }

  lemma AdmitKeeps(db: Db, opening: seq<int>, id: TicketId)
    requires Inv(db, opening) && id in db.tickets && db.tickets[id].status == Owned
    ensures Inv(db.(tickets := db.tickets[id := db.tickets[id].(status := Admitted)]), opening)
  {
    var x := db.tickets[id].(status := Admitted);
    SoldEditKeepsSeats(db.tickets, id, x, db.holds, db.drafts);
    SoldEditKeepsRest(db.tickets, id, x, db.users, db.txs, db.order, db.events);
    NoPoolEditCounts(db.tickets, id, x, db.pools);
    AdmitFits(db.tickets, id, x, db.pools, db.users);
  }
}
