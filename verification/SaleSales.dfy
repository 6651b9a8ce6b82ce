/** Primary sales and group bookings: the edits that sell a ticket for the first time. */
module SaleSales {
  import opened Prelude
  import opened SaleTypes
  import opened Holds
  import opened Commerce
  import opened Inventory
  import opened SaleSteps
  import opened SaleInvariant
  import opened SaleSeats
  import opened SaleResale

  /** The claim is what makes the seat the buyer's to buy: nothing for an open seat, else its one-seat hold or draft. */
  ghost predicate ClaimOk(t: Tickets, holds: seq<Hold>, drafts: seq<Draft>, id: TicketId, claim: Claim) {
    && id in t
    && match t[id].status
       case OnSale => claim == Claim(None, None)
       case Held => claim == Claim(t[id].heldBy, None) && claim.hold.Some? && claim.hold.value < |holds|
                    && holds[claim.hold.value].status.HoldActive? && holds[claim.hold.value].ticketIds == [id]
       case Reserved => claim == Claim(None, t[id].reservationId) && claim.draft.Some? && claim.draft.value < |drafts|
                        && drafts[claim.draft.value].status.PendingPayment? && drafts[claim.draft.value].ticketIds == [id]
       case _ => false
  }

  lemma PurchasableIsClaimOk(db: Db, id: TicketId, userId: UserId, allowHold: bool, draftId: Option<DraftId>, now: int)
    requires AssertPurchasable(db, id, userId, allowHold, draftId, now).Ok?
    ensures ClaimOk(db.tickets, db.holds, db.drafts, id, AssertPurchasable(db, id, userId, allowHold, draftId, now).value)
  {
  }

  function ClaimedHolds(holds: seq<Hold>, claim: Claim): seq<Hold> {
    if claim.hold.Some? && claim.hold.value < |holds| then SetHoldStatus(holds, claim.hold.value, HoldConverted) else holds
  }

  function ClaimedDrafts(drafts: seq<Draft>, claim: Claim): seq<Draft> {
    if claim.draft.Some? && claim.draft.value < |drafts|
    then drafts[claim.draft.value := drafts[claim.draft.value].(status := DraftConfirmed)] else drafts
  }

  lemma AllocationMatchesHolds(t: Tickets, holds: seq<Hold>, drafts: seq<Draft>, id: TicketId, claim: Claim, userId: UserId)
    requires HoldsMatch(t, holds) && ClaimOk(t, holds, drafts, id, claim)
    ensures HoldsMatch(t[id := Allocated(t[id], userId)], ClaimedHolds(holds, claim))
  {
    var t1 := t[id := Allocated(t[id], userId)];
    if t[id].status == Held {
      HoldEnds(t, t1, holds, claim.hold.value, holds[claim.hold.value].(status := HoldConverted));
    } else {
      HoldsFrame(t, t1, holds);
    }
  }

  lemma AllocationMatchesDrafts(t: Tickets, holds: seq<Hold>, drafts: seq<Draft>, id: TicketId, claim: Claim, userId: UserId)
    requires DraftsMatch(t, drafts) && ClaimOk(t, holds, drafts, id, claim)
    ensures DraftsMatch(t[id := Allocated(t[id], userId)], ClaimedDrafts(drafts, claim))
  {
    var t1 := t[id := Allocated(t[id], userId)];
    if t[id].status == Reserved {
      DraftEnds(t, t1, drafts, claim.draft.value, drafts[claim.draft.value].(status := DraftConfirmed));
    } else {
      DraftsFrame(t, t1, drafts);
    }
  }

  lemma ClaimedTimes(holds: seq<Hold>, drafts: seq<Draft>, claim: Claim)
    requires HoldTimes(holds) && DraftTimes(drafts, holds)
    ensures HoldTimes(ClaimedHolds(holds, claim)) && DraftTimes(ClaimedDrafts(drafts, claim), ClaimedHolds(holds, claim))
  {
  }

  lemma AllocationFits(t: Tickets, users: seq<User>, pools: seq<Pool>, id: TicketId, userId: UserId)
    requires Owners(t, users) && PoolsFit(t, pools, users) && PoolsCounted(t, pools)
    requires id in t && Unsold(t[id].status) && userId < |users|
    ensures var t1 := t[id := Allocated(t[id], userId)];
            Owners(t1, users) && PoolsFit(t1, pools, users) && PoolsCounted(t1, pools)
  {
    var x := Allocated(t[id], userId);
    NoPoolEditCounts(t, id, x, pools);
    forall p | 0 <= p < |pools| ensures PoolFits(t[id := x], pools[p], users) {
      assert PoolFits(t, pools[p], users);
    }
  }

  lemma AllocationCounted(t: Tickets, txs: seq<Transaction>, id: TicketId, tx: Transaction)
    requires AllocatedOnce(t, txs) && id in t && t[id].ownerId.None? && tx.Primary? && tx.ticketId == id
    ensures AllocatedOnce(t[id := Allocated(t[id], tx.userId)], txs + [tx])
  {
    AppendTx(txs, tx);
  }

  lemma AllocationStocked(t: Tickets, order: seq<TicketId>, events: map<string, Event>, id: TicketId, x: Ticket)
    requires OrderOk(t, order) && Placed(t, events) && id in t
    ensures OrderOk(t[id := x], order) && Placed(t[id := x], events)
  {
  }

  lemma SaleBalanced(users: seq<User>, txs: seq<Transaction>, opening: seq<int>, pools: seq<Pool>, tx: Transaction)
    requires Balanced(users, txs, opening) && SellersKnown(users, txs) && SummaryStands(txs, pools)
    requires tx.Primary? || tx.GroupBooking?
    ensures Balanced(users, txs + [tx], opening) && SellersKnown(users, txs + [tx]) && SummaryStands(txs + [tx], pools)
  {
    AppendTx(txs, tx);
    SummaryAppend(txs, tx);
  }

  lemma AllocateKeeps(db: Db, opening: seq<int>, id: TicketId, claim: Claim, tx: Transaction)
    requires Inv(db, opening) && ClaimOk(db.tickets, db.holds, db.drafts, id, claim)
    requires tx.Primary? && tx.ticketId == id && tx.userId < |db.users|
    ensures Inv(Allocate(db, id, claim, tx), opening)
  {
    AllocationMatchesHolds(db.tickets, db.holds, db.drafts, id, claim, tx.userId);
    AllocationMatchesDrafts(db.tickets, db.holds, db.drafts, id, claim, tx.userId);
    ClaimedTimes(db.holds, db.drafts, claim);
    AllocationFits(db.tickets, db.users, db.pools, id, tx.userId);
    AllocationCounted(db.tickets, db.txs, id, tx);
    AllocationStocked(db.tickets, db.order, db.events, id, Allocated(db.tickets[id], tx.userId));
    SaleBalanced(db.users, db.txs, opening, db.pools, tx);
  }

  function GroupTxs(p: Purchase, amounts: seq<int>, order: nat, n: nat): seq<Transaction>
    requires n <= |p.ticketIds| && |amounts| == |p.ticketIds|
  {
    seq(n, i requires 0 <= i < n => GroupTx(p, amounts, order, i))
  }

  function GroupEntries(p: Purchase, amounts: seq<int>, n: nat): seq<LedgerEntry>
    requires n <= |p.ticketIds| && |amounts| == |p.ticketIds|
  {
    seq(n, i requires 0 <= i < n => LedgerEntry(ByUser(p.userId), PrimaryPurchase(p.ticketIds[i], amounts[i])))
  }

  /** The allocation loop writes one transaction and one ledger entry per seat, in the order's own sequence. */
  lemma {:induction false} AllocateSeatsRecords(db: Db, p: Purchase, amounts: seq<int>, n: nat)
    requires n <= |p.ticketIds| && |amounts| == |p.ticketIds|
    requires forall id :: id in p.ticketIds ==> id in db.tickets
    ensures var r := AllocateSeats(db, p, amounts, n);
            && r == db.(tickets := r.tickets, txs := r.txs, ledger := r.ledger)
            && r.txs == db.txs + GroupTxs(p, amounts, |db.txs|, n)
            && r.ledger == db.ledger + GroupEntries(p, amounts, n)
  {
    hide Commerce.Allocated;
    if n > 0 {
      AllocateSeatsRecords(db, p, amounts, n - 1);
      assert p.ticketIds[n - 1] in p.ticketIds;
      assert GroupTxs(p, amounts, |db.txs|, n) == GroupTxs(p, amounts, |db.txs|, n - 1) + [GroupTx(p, amounts, |db.txs|, n - 1)];
    }
  }

  /** Exactly the listed seats became the buyer's. */
  ghost predicate SoldExactly(t0: Tickets, t: Tickets, ids: seq<TicketId>, userId: UserId) {
    t.Keys == t0.Keys && forall id :: id in t0 ==> t[id] == if id in ids then Allocated(t0[id], userId) else t0[id]
  }

  lemma SoldNone(t: Tickets, userId: UserId)
    ensures SoldExactly(t, t, [], userId)
  {
  }

  lemma SoldNext(t0: Tickets, t: Tickets, ids: seq<TicketId>, userId: UserId, id: TicketId)
    requires SoldExactly(t0, t, ids, userId) && id in t0 && id !in ids
    ensures SoldExactly(t0, t[id := Allocated(t[id], userId)], ids + [id], userId)
  {
    hide Commerce.Allocated;
  }

  /** ... and makes exactly the seats reached so far the buyer's. */
  lemma {:induction false} AllocateSeatsTickets(db: Db, p: Purchase, amounts: seq<int>, n: nat)
    requires n <= |p.ticketIds| && |amounts| == |p.ticketIds| && NoDuplicates(p.ticketIds)
    requires forall id :: id in p.ticketIds ==> id in db.tickets
    ensures SoldExactly(db.tickets, AllocateSeats(db, p, amounts, n).tickets, p.ticketIds[..n], p.userId)
  {
    hide SoldExactly, Commerce.Allocated;
    if n > 0 {
      AllocateSeatsTickets(db, p, amounts, n - 1);
      var id := p.ticketIds[n - 1];
      assert id in p.ticketIds && id !in p.ticketIds[..n - 1];
      assert p.ticketIds[..n] == p.ticketIds[..n - 1] + [id];
      SoldNext(db.tickets, AllocateSeats(db, p, amounts, n - 1).tickets, p.ticketIds[..n - 1], p.userId, id);
    } else {
      SoldNone(db.tickets, p.userId);
    }
  }

  /** Before each round the accounts are the same and the round's own seat is still open. */
  lemma NextSeatOpen(db: Db, p: Purchase, amounts: seq<int>, i: nat)
    requires i < |p.ticketIds| && |amounts| == |p.ticketIds| && NoDuplicates(p.ticketIds)
    requires forall id :: id in p.ticketIds ==> id in db.tickets && db.tickets[id].status == OnSale
    ensures var before := AllocateSeats(db, p, amounts, i);
            before.users == db.users && p.ticketIds[i] in before.tickets && before.tickets[p.ticketIds[i]].status == OnSale
  {
    AllocateSeatsRecords(db, p, amounts, i);
    AllocateSeatsTickets(db, p, amounts, i);
    assert p.ticketIds[i] in p.ticketIds;
    assert p.ticketIds[i] !in p.ticketIds[..i];
  }

  lemma {:induction false} AllocateSeatsKeeps(db: Db, opening: seq<int>, p: Purchase, amounts: seq<int>, n: nat)
    requires Inv(db, opening) && n <= |p.ticketIds| && |amounts| == |p.ticketIds| && NoDuplicates(p.ticketIds)
    requires forall id :: id in p.ticketIds ==> id in db.tickets && db.tickets[id].status == OnSale
    requires p.userId < |db.users|
    ensures Inv(AllocateSeats(db, p, amounts, n), opening)
  {
    hide SaleInvariant.Inv, Commerce.Allocate;
    if n > 0 {
      AllocateSeatsKeeps(db, opening, p, amounts, n - 1);
      NextSeatOpen(db, p, amounts, n - 1);
      AllocateNextKeeps(db, AllocateSeats(db, p, amounts, n - 1), opening, p, amounts, n - 1);
    }
  }

  lemma AllocateNextKeeps(db: Db, before: Db, opening: seq<int>, p: Purchase, amounts: seq<int>, i: nat)
    requires Inv(before, opening) && i < |p.ticketIds| && |amounts| == |p.ticketIds| && NoDuplicates(p.ticketIds)
    requires before.users == db.users && p.userId < |db.users|
    requires p.ticketIds[i] in before.tickets && before.tickets[p.ticketIds[i]].status == OnSale
    ensures Inv(Allocate(before, p.ticketIds[i], Claim(None, None), GroupTx(p, amounts, |db.txs|, i)), opening)
  {
    hide SaleInvariant.Inv, Commerce.Allocate;
    AllocateKeeps(before, opening, p.ticketIds[i], Claim(None, None), GroupTx(p, amounts, |db.txs|, i));
  }

  // ---------------------------------------------------------------------------------- group booking

  lemma {:induction false} AvailableSeats(t: Tickets, order: seq<TicketId>, r: GroupRequest)
    requires NoDuplicates(order)
    ensures NoDuplicates(Available(t, order, r))
    ensures forall id :: id in Available(t, order, r) <==> id in order && AvailableFor(t, id, r)
  {
    if order != [] { AvailableSeats(t, order[1..], r); }
  }

  lemma AssignFrames(t: Tickets, holds: seq<Hold>, drafts: seq<Draft>, ids: seq<TicketId>, buyerId: UserId)
    requires HoldsMatch(t, holds) && DraftsMatch(t, drafts) && forall id :: id in ids ==> id in t && t[id].status == OnSale
    ensures var t1 := AssignTickets(t, ids, buyerId); HoldsMatch(t1, holds) && DraftsMatch(t1, drafts)
  {
    HoldsFrame(t, AssignTickets(t, ids, buyerId), holds);
    DraftsFrame(t, AssignTickets(t, ids, buyerId), drafts);
  }

  lemma AssignFits(t: Tickets, users: seq<User>, pools: seq<Pool>, ids: seq<TicketId>)
    requires Owners(t, users) && PoolsFit(t, pools, users) && PoolsCounted(t, pools)
    requires forall id :: id in ids ==> id in t && t[id].status == OnSale
    ensures var t1, users1 := AssignTickets(t, ids, |users|), users + [User(0, false, false)];
            Owners(t1, users1) && PoolsFit(t1, pools, users1) && PoolsCounted(t1, pools)
  {
    var t1, users1 := AssignTickets(t, ids, |users|), users + [User(0, false, false)];
    forall p | 0 <= p < |pools| ensures PoolFits(t1, pools[p], users1) {
      assert PoolFits(t, pools[p], users);
    }
  }

  lemma AssignCounted(t: Tickets, txs: seq<Transaction>, ids: seq<TicketId>, buyerId: UserId, amount: int)
    requires AllocatedOnce(t, txs) && NoDuplicates(ids)
    requires forall id :: id in ids ==> id in t && t[id].ownerId.None?
    ensures AllocatedOnce(AssignTickets(t, ids, buyerId), txs + [GroupBooking(ids, buyerId, amount)])
  {
    AppendTx(txs, GroupBooking(ids, buyerId, amount));
    forall id ensures Occurrences(ids, id) == if id in ids then 1 else 0 { OccurrencesOfDistinct(ids, id); }
  }

  lemma AssignStocked(t: Tickets, order: seq<TicketId>, events: map<string, Event>, ids: seq<TicketId>, buyerId: UserId)
    requires OrderOk(t, order) && Placed(t, events)
    ensures var t1 := AssignTickets(t, ids, buyerId); OrderOk(t1, order) && Placed(t1, events)
  {
  }

  lemma NewAccountBalanced(users: seq<User>, txs: seq<Transaction>, opening: seq<int>, user: User)
    requires Balanced(users, txs, opening) && SellersKnown(users, txs) && user.balance == 0
    ensures Balanced(users + [user], txs, opening) && SellersKnown(users + [user], txs)
  {
    assert Transfers(txs, |users|) == 0;
  }

  lemma AssignGroupKeeps(db: Db, opening: seq<int>, r: RequestId, ids: seq<TicketId>)
    requires Inv(db, opening) && r < |db.requests| && NoDuplicates(ids)
    requires forall id :: id in ids ==> id in db.tickets && db.tickets[id].status == OnSale
    ensures Inv(AssignGroup(db, r, ids), opening)
  {
    var tx := GroupBooking(ids, |db.users|, SumFaces(db.tickets, ids, ZoneFace(db, db.requests[r])));
    AssignFrames(db.tickets, db.holds, db.drafts, ids, |db.users|);
    AssignFits(db.tickets, db.users, db.pools, ids);
    AssignCounted(db.tickets, db.txs, ids, |db.users|, tx.amount);
    AssignStocked(db.tickets, db.order, db.events, ids, |db.users|);
    SaleBalanced(db.users, db.txs, opening, db.pools, tx);
    NewAccountBalanced(db.users, db.txs + [tx], opening, User(0, false, false));
  }
}
