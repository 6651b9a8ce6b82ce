/** Whole runs of the sale engine: any handlers, in any order, on any input, with any clock readings. */
module SaleRuns {
  import opened Prelude
  import opened SaleTypes
  import opened Holds
  import opened Commerce
  import opened Inventory
  import opened SaleSteps
  import opened SaleInvariant
  import opened SaleSeats
  import opened SaleResale
  import opened SaleHandlers
  import opened SaleProgress
  import opened SaleOrders

  datatype Move = Move(step: Step, now: int)

  ghost predicate Legal(moves: seq<Move>) {
    forall k {:trigger WellFormed(moves[k].step)} :: 0 <= k < |moves| ==> WellFormed(moves[k].step)
  }

  /** The database after the first `n` moves. */
  ghost function After(db: Db, moves: seq<Move>, n: nat): Db
    requires Legal(moves) && n <= |moves|
  {
    if n == 0 then db
    else
      assert WellFormed(moves[n - 1].step);
      Apply(After(db, moves, n - 1), moves[n - 1].step, moves[n - 1].now).db
  }

  /** A state a run may start from: the invariant holds and no retry key has two orders. */
  ghost predicate Sound(db: Db, opening: seq<int>) {
    Inv(db, opening) && OneOrderPerKey(db.txs)
  }

  const EMPTY_DB := Db(map[], [], map[], [], [], [], [], [], [], [])

  lemma EmptySeats()
    ensures SeatsInv(EMPTY_DB)
  {
  }

  lemma EmptyResale()
    ensures ResaleInv(EMPTY_DB)
  {
  }

  lemma EmptyMoney()
    ensures MoneyInv(EMPTY_DB, [])
  {
  }

  lemma EmptyStock()
    ensures StockInv(EMPTY_DB)
  {
  }

  /** There is such a state, the empty database: what is required of the start of a run can be met. */
  lemma EmptyIsSound()
    ensures Sound(EMPTY_DB, [])
  {
    hide SeatsInv, ResaleInv, MoneyInv, StockInv;
    EmptySeats();
    EmptyResale();
    EmptyMoney();
    EmptyStock();
  }

  lemma {:induction false} EveryStateSound(db: Db, opening: seq<int>, moves: seq<Move>, n: nat)
    requires Sound(db, opening) && Legal(moves) && n <= |moves|
    ensures Sound(After(db, moves, n), opening)
  {
    hide Inv, OneOrderPerKey, Apply;
    if n > 0 {
      EveryStateSound(db, opening, moves, n - 1);
      assert WellFormed(moves[n - 1].step);
      StepKeeps(After(db, moves, n - 1), opening, moves[n - 1].step, moves[n - 1].now);
      StepKeepsKeys(After(db, moves, n - 1), opening, moves[n - 1].step, moves[n - 1].now);
    }
  }

  // ----------------------------------------------------------------------- seats, holds and drafts

  function HoldersOf(holds: seq<Hold>, id: TicketId): set<HoldId> {
    set h: HoldId | h < |holds| && holds[h].status.HoldActive? && id in holds[h].ticketIds
  }

  function DraftersOf(drafts: seq<Draft>, id: TicketId): set<DraftId> {
    set d: DraftId | d < |drafts| && drafts[d].status.PendingPayment? && id in drafts[d].ticketIds
  }

  lemma HeldMeansOneHold(tickets: Tickets, holds: seq<Hold>, id: TicketId)
    requires HoldsMatch(tickets, holds)
    ensures |HoldersOf(holds, id)| == if id in tickets && tickets[id].status == Held then 1 else 0
    ensures id in tickets && tickets[id].status == Held ==>
              tickets[id].heldBy.Some? && HoldersOf(holds, id) == {tickets[id].heldBy.value}
              && tickets[id].holdExpiresAt == Some(holds[tickets[id].heldBy.value].expiresAt)
  {
    if id in tickets && tickets[id].status == Held {
      assert HoldersOf(holds, id) == {tickets[id].heldBy.value};
    } else {
      assert HoldersOf(holds, id) == {};
    }
  }

  lemma ReservedMeansOneDraft(tickets: Tickets, drafts: seq<Draft>, id: TicketId)
    requires DraftsMatch(tickets, drafts)
    ensures |DraftersOf(drafts, id)| == if id in tickets && tickets[id].status == Reserved then 1 else 0
    ensures id in tickets && tickets[id].status == Reserved ==>
              tickets[id].reservationId.Some? && DraftersOf(drafts, id) == {tickets[id].reservationId.value}
              && tickets[id].reservationExpiresAt == Some(drafts[tickets[id].reservationId.value].expiresAt)
  {
    if id in tickets && tickets[id].status == Reserved {
      assert DraftersOf(drafts, id) == {tickets[id].reservationId.value};
    } else {
      assert DraftersOf(drafts, id) == {};
    }
  }

  /**
   In every state of every run a ticket is HELD exactly when one ACTIVE hold lists it and RESERVED exactly when
   one PENDING_PAYMENT draft does, with that claim's expiry; never two claims on one seat.
   */
  lemma ClaimsAreExclusive(db0: Db, opening: seq<int>, moves: seq<Move>, n: nat, id: TicketId)
    requires Sound(db0, opening) && Legal(moves) && n <= |moves|
    ensures var db := After(db0, moves, n);
            |HoldersOf(db.holds, id)| == (if id in db.tickets && db.tickets[id].status == Held then 1 else 0)
            && |DraftersOf(db.drafts, id)| == (if id in db.tickets && db.tickets[id].status == Reserved then 1 else 0)
            && |HoldersOf(db.holds, id)| + |DraftersOf(db.drafts, id)| <= 1
    ensures var db := After(db0, moves, n);
            (forall h :: h in HoldersOf(db.holds, id) ==>
               db.tickets[id].heldBy == Some(h) && db.tickets[id].holdExpiresAt == Some(db.holds[h].expiresAt))
            && forall d :: d in DraftersOf(db.drafts, id) ==>
               db.tickets[id].reservationId == Some(d) && db.tickets[id].reservationExpiresAt == Some(db.drafts[d].expiresAt)
  {
    hide After;
    EveryStateSound(db0, opening, moves, n);
    var db := After(db0, moves, n);
    HeldMeansOneHold(db.tickets, db.holds, id);
    ReservedMeansOneDraft(db.tickets, db.drafts, id);
  }

  /** A hold lapses within ten minutes of its creation and a draft within twenty of its hold's, extensions included. */
  lemma ClaimsAreShort(db0: Db, opening: seq<int>, moves: seq<Move>, n: nat)
    requires Sound(db0, opening) && Legal(moves) && n <= |moves|
    ensures var db := After(db0, moves, n);
            (forall h :: 0 <= h < |db.holds| ==> db.holds[h].expiresAt < db.holds[h].createdAt + 10 * 60 * 1000)
            && forall d :: 0 <= d < |db.drafts| ==>
                 db.drafts[d].holdId < |db.holds|
                 && db.drafts[d].expiresAt < db.holds[db.drafts[d].holdId].createdAt + 20 * 60 * 1000
  {
    EveryStateSound(db0, opening, moves, n);
    hide After, HoldsMatch, DraftsMatch, ResaleInv, MoneyInv, StockInv;
  }

  // ------------------------------------------------------------------------------------- ownership

  /** No oversell: a ticket is allocated at most once in a whole run, and exactly once when it has an owner. */
  lemma NoOversell(db0: Db, opening: seq<int>, moves: seq<Move>, n: nat, id: TicketId)
    requires Sound(db0, opening) && Legal(moves) && n <= |moves|
    ensures var db := After(db0, moves, n);
            Allocations(db.txs, id) <= 1
            && (Allocations(db.txs, id) == 1 <==> id in db.tickets && db.tickets[id].ownerId.Some?)
            && (id in db.tickets ==> (db.tickets[id].ownerId.None? <==> Unsold(db.tickets[id].status)))
  {
    EveryStateSound(db0, opening, moves, n);
    hide After, SeatsInv, MoneyInv, StockInv, PoolsFit, PoolsCounted;
    assert AllocatedOnce(After(db0, moves, n).tickets, After(db0, moves, n).txs);
  }

  /** The step taken from state `k` reverses a match of this ticket. */
  ghost predicate ReversedAt(db0: Db, moves: seq<Move>, k: nat, id: TicketId)
    requires Legal(moves) && k < |moves|
  {
    Freed(After(db0, moves, k), moves[k].step) == Some(id)
  }

  /** What a state of a run keeps of an earlier one. */
  ghost predicate Continues(a: Db, b: Db) {
    && a.txs <= b.txs && a.ledger <= b.ledger && |a.users| <= |b.users|
    && forall id :: id in a.tickets && a.tickets[id].ownerId.Some? ==>
         id in b.tickets && b.tickets[id].ownerId.Some? && b.tickets[id].institutional == a.tickets[id].institutional
         && (a.tickets[id].institutional ==> b.tickets[id].ownerId == a.tickets[id].ownerId)
  }

  lemma StepContinues(db: Db, opening: seq<int>, step: Step, now: int)
    requires Sound(db, opening) && WellFormed(step)
    ensures Continues(db, Apply(db, step, now).db)
  {
    StepProgress(db, opening, step, now);
    hide Apply, Inv;
  }

  lemma ContinuesTransitive(a: Db, b: Db, c: Db)
    requires Continues(a, b) && Continues(b, c)
    ensures Continues(a, c)
  {
  }

  /**
   Records only grow: earlier transactions and ledger entries are a prefix of later ones; a ticket once sold is
   never unsold or lost; an institution keeps its seats.
   */
  lemma {:induction false} NothingIsTakenBack(db0: Db, opening: seq<int>, moves: seq<Move>, n: nat, m: nat)
    requires Sound(db0, opening) && Legal(moves) && n <= m <= |moves|
    ensures Continues(After(db0, moves, n), After(db0, moves, m))
  {
    hide Sound, Apply;
    if n < m {
      NothingIsTakenBack(db0, opening, moves, n, m - 1);
      EveryStateSound(db0, opening, moves, m - 1);
      assert WellFormed(moves[m - 1].step);
      StepContinues(After(db0, moves, m - 1), opening, moves[m - 1].step, moves[m - 1].now);
      hide Continues;
      ContinuesTransitive(After(db0, moves, n), After(db0, moves, m - 1), After(db0, moves, m));
    }
  }

  /** Once admitted, a ticket stays admitted and its owner the same, unless an operator reverses the match that sold it. */
  lemma {:induction false} AdmissionIsFinal(db0: Db, opening: seq<int>, moves: seq<Move>, n: nat, m: nat, id: TicketId)
    requires Sound(db0, opening) && Legal(moves) && n <= m <= |moves|
    requires forall k :: n <= k < m ==> !ReversedAt(db0, moves, k, id)
    requires id in After(db0, moves, n).tickets && After(db0, moves, n).tickets[id].status == Admitted
    ensures var a, b := After(db0, moves, n), After(db0, moves, m);
            id in b.tickets && b.tickets[id].status == Admitted && b.tickets[id].ownerId == a.tickets[id].ownerId
  {
    hide Apply;
    if n < m {
      AdmissionIsFinal(db0, opening, moves, n, m - 1, id);
      EveryStateSound(db0, opening, moves, m - 1);
      assert WellFormed(moves[m - 1].step) && !ReversedAt(db0, moves, m - 1, id);
      AdmittedStays(After(db0, moves, m - 1), opening, moves[m - 1].step, moves[m - 1].now, id);
    }
  }

  lemma AdmittedStays(db: Db, opening: seq<int>, step: Step, now: int, id: TicketId)
    requires Sound(db, opening) && WellFormed(step) && Freed(db, step) != Some(id)
    requires id in db.tickets && db.tickets[id].status == Admitted
    ensures var r := Apply(db, step, now).db;
            id in r.tickets && r.tickets[id].status == Admitted && r.tickets[id].ownerId == db.tickets[id].ownerId
  {
    StepProgress(db, opening, step, now);
    hide Apply, SeatsInv, MoneyInv, StockInv, PoolsFit, PoolsCounted, AllocatedOnce;
    assert Owners(db.tickets, db.users);
  }

  // ---------------------------------------------------------------------------------------- resale

  function PoolsOf(pools: seq<Pool>, id: TicketId, status: PoolStatus): set<PoolId> {
    set p: PoolId | p < |pools| && pools[p].ticketId == id && pools[p].status == status
  }

  lemma PoolsOfLast(pools: seq<Pool>, id: TicketId, status: PoolStatus, last: PoolId)
    requires last + 1 == |pools|
    ensures PoolsOf(pools, id, status) == PoolsOf(pools[..last], id, status)
              + (if pools[last].ticketId == id && pools[last].status == status then {last} else {})
  {
  }

  lemma {:induction false} PoolsOfCount(pools: seq<Pool>, id: TicketId, status: PoolStatus)
    ensures |PoolsOf(pools, id, status)| == PoolCount(pools, id, status)
  {
    if pools == [] {
      assert PoolsOf(pools, id, status) == {};
    } else {
      var last := |pools| - 1;
      PoolsOfCount(pools[..last], id, status);
      PoolsOfLast(pools, id, status, last);
      assert last !in PoolsOf(pools[..last], id, status);
      hide PoolsOf;
    }
  }

  /**
   In every state of every run: a ticket is in the resale pool exactly when one OPEN pool names it; that pool's
   seller owns it, its price is within the ticket's bounds, its buyers are distinct and do not include the seller;
   `transferCount` is the number of MATCHED pools, and a ticket never has two live pools.
   */
  lemma ResaleIsSound(db0: Db, opening: seq<int>, moves: seq<Move>, n: nat, id: TicketId)
    requires Sound(db0, opening) && Legal(moves) && n <= |moves|
    requires id in After(db0, moves, n).tickets
    ensures var db := After(db0, moves, n);
            var open, matched := PoolsOf(db.pools, id, Open), PoolsOf(db.pools, id, Matched);
            && |open| == (if db.tickets[id].status == InResalePool then 1 else 0)
            && |matched| == db.tickets[id].transferCount
            && |open| + |matched| <= 1
            && (forall p :: p in open ==> (
                  && db.tickets[id].ownerId == Some(db.pools[p].sellerId)
                  && db.tickets[id].minPrice <= db.pools[p].price <= db.tickets[id].maxPrice
                  && NoDuplicates(db.pools[p].buyers) && db.pools[p].sellerId !in db.pools[p].buyers))
            && (forall p :: p in matched ==> (
                  db.tickets[id].ownerId == db.pools[p].winnerId && db.tickets[id].ownerId != Some(db.pools[p].sellerId)))
  {
    EveryStateSound(db0, opening, moves, n);
    hide After;
    var db := After(db0, moves, n);
    PoolsOfCount(db.pools, id, Open);
    PoolsOfCount(db.pools, id, Matched);
    ResalePoolFacts(db, opening, id);
  }

  lemma ResalePoolFacts(db: Db, opening: seq<int>, id: TicketId)
    requires Inv(db, opening) && id in db.tickets
    ensures PoolCount(db.pools, id, Open) == (if db.tickets[id].status == InResalePool then 1 else 0)
    ensures PoolCount(db.pools, id, Matched) == db.tickets[id].transferCount
    ensures PoolCount(db.pools, id, Open) + PoolCount(db.pools, id, Matched) <= 1
    ensures forall p :: 0 <= p < |db.pools| ==> PoolOk(db.tickets, db.pools[p])
  {
    forall p | 0 <= p < |db.pools| ensures PoolOk(db.tickets, db.pools[p]) { PoolFitsAt(db, opening, p); }
    hide SeatsInv, MoneyInv, StockInv, PoolsFit;
    assert PoolsCounted(db.tickets, db.pools);
  }

  /** In no state of any run can a match throw after money and ticket have moved. */
  lemma MatchIsAtomic(db0: Db, opening: seq<int>, moves: seq<Move>, n: nat, p: PoolId, buyerId: UserId, payment: Option<PaymentMethod>)
    requires Sound(db0, opening) && Legal(moves) && n <= |moves|
    requires p < |After(db0, moves, n).pools| && buyerId < |After(db0, moves, n).users|
    ensures var db := After(db0, moves, n);
            var r := CompleteResaleMatch(db, p, buyerId, payment);
            r.result != Err(EventDateNotFound) && (r.result.Err? ==> r.db == db)
  {
    EveryStateSound(db0, opening, moves, n);
    hide After, Inv;
    MatchNeverStopsHalfway(After(db0, moves, n), opening, p, buyerId, payment);
  }

  /** What a reversal writes. */
  ghost predicate Reversal(db: Db, r: Db, p: PoolId)
    requires p < |db.pools| && db.pools[p].ticketId in db.tickets && db.pools[p].sellerId < |db.users|
  {
    var pool := db.pools[p];
    && r.tickets == db.tickets[pool.ticketId :=
         db.tickets[pool.ticketId].(ownerId := Some(pool.sellerId), transferCount := 0, status := Owned)]
    && r.users == db.users[pool.sellerId :=
         db.users[pool.sellerId].(balance := db.users[pool.sellerId].balance - pool.sellerSettlement)]
    && PaymentSummary(r.txs).totalAmount == PaymentSummary(db.txs).totalAmount - pool.buyerTotal
    && PaymentSummary(r.txs).totalSettlements == PaymentSummary(db.txs).totalSettlements - pool.sellerSettlement
    && PaymentSummary(r.txs).totalFees == PaymentSummary(db.txs).totalFees
  }

  lemma ReversalWrites(db: Db, p: PoolId)
    requires p < |db.pools| && db.pools[p].ticketId in db.tickets && db.pools[p].sellerId < |db.users|
    requires db.pools[p].status.Matched? && db.tickets[db.pools[p].ticketId].transferCount == 1
    ensures AdminCancelResalePool(db, p).result == Ok(p) && Reversal(db, AdminCancelResalePool(db, p).db, p)
  {
    SummaryAppend(db.txs, ReturnTx(db.pools[p]));
  }

  lemma MatchedPoolFacts(db: Db, opening: seq<int>, p: PoolId)
    requires Inv(db, opening) && p < |db.pools|
    ensures var id := db.pools[p].ticketId;
            && id in db.tickets && db.pools[p].sellerId < |db.users|
            && (db.pools[p].status.Matched? ==> db.tickets[id].transferCount == 1 && PoolCount(db.pools, id, Open) == 0)
            && (db.pools[p].status.Open? ==>
                  db.tickets[id].transferCount == 0 && db.tickets[id].ownerId == Some(db.pools[p].sellerId))
  {
    PoolFitsAt(db, opening, p);
    ResalePoolFacts(db, opening, db.pools[p].ticketId);
    PoolCountPositive(db.pools, p);
    hide Inv;
  }

  /**
   Reversing a match, however much later, never meets a second live pool, gives the ticket back to the seller
   and takes exactly the match's own money out of the balance and the totals.
   */
  lemma ReversalRestores(db: Db, opening: seq<int>, p: PoolId)
    requires Inv(db, opening) && p < |db.pools| && db.pools[p].status.Matched?
    ensures var id := db.pools[p].ticketId;
            && id in db.tickets && db.pools[p].sellerId < |db.users|
            && PoolCount(db.pools, id, Open) == 0
            && AdminCancelResalePool(db, p).result == Ok(p)
            && Reversal(db, AdminCancelResalePool(db, p).db, p)
  {
    hide Inv, Reversal, AdminCancelResalePool;
    MatchedPoolFacts(db, opening, p);
    ReversalWrites(db, p);
  }

  /** A match followed by its reversal: accounts, ticket and the gross and settlement totals are as before the listing. */
  lemma MatchThenReverse(db: Db, opening: seq<int>, p: PoolId, buyerId: UserId, payment: Option<PaymentMethod>)
    requires Inv(db, opening) && p < |db.pools| && db.pools[p].status.Open?
    requires buyerId < |db.users| && buyerId != db.pools[p].sellerId
    requires CompleteResaleMatch(db, p, buyerId, payment).result.Ok?
    ensures var r := AdminCancelResalePool(CompleteResaleMatch(db, p, buyerId, payment).db, p);
            var id := db.pools[p].ticketId;
            && id in db.tickets
            && r.result == Ok(p)
            && r.db.users == db.users
            && r.db.tickets == db.tickets[id := db.tickets[id].(status := Owned)]
            && PaymentSummary(r.db.txs).totalAmount == PaymentSummary(db.txs).totalAmount
            && PaymentSummary(r.db.txs).totalSettlements == PaymentSummary(db.txs).totalSettlements
  {
    hide Inv, AdminCancelResalePool, CompleteResaleMatch, PaymentSummary, SettleMatch;
    MatchNeverStopsHalfway(db, opening, p, buyerId, payment);
    CompleteKeeps(db, opening, p, buyerId, payment);
    MatchedPoolFacts(db, opening, p);
    MatchWrites(db, p, buyerId);
    ReversalRestores(SettleMatch(MoveTicket(db, p, buyerId), p, buyerId), opening, p);
  }

  lemma MatchWrites(db: Db, p: PoolId, buyerId: UserId)
    requires p < |db.pools| && db.pools[p].ticketId in db.tickets && db.pools[p].sellerId < |db.users|
    ensures var r := SettleMatch(MoveTicket(db, p, buyerId), p, buyerId);
            var pool := db.pools[p];
            && r.pools == db.pools[p := MatchedPool(pool, buyerId)]
            && r.tickets == db.tickets[pool.ticketId := MatchedTicket(db.tickets[pool.ticketId], buyerId)]
            && r.users == db.users[pool.sellerId := db.users[pool.sellerId].(balance := db.users[pool.sellerId].balance + pool.price)]
            && PaymentSummary(r.txs).totalAmount == PaymentSummary(db.txs).totalAmount + pool.price + ResaleFee(pool.price)
            && PaymentSummary(r.txs).totalSettlements == PaymentSummary(db.txs).totalSettlements + pool.price
  {
    SummaryAppend(db.txs, MatchTx(db.pools[p], buyerId));
  }

  // ----------------------------------------------------------------------------------------- money

  /**
   In every state of every run each balance is what its account started with plus the transfers naming it as
   seller, and the finance summary counts exactly the sales that stand.
   */
  lemma MoneyIsConserved(db0: Db, opening: seq<int>, moves: seq<Move>, n: nat, u: UserId)
    requires Sound(db0, opening) && Legal(moves) && n <= |moves| && u < |After(db0, moves, n).users|
    ensures var db := After(db0, moves, n);
            && db.users[u].balance == Opening(opening, u) + Transfers(db.txs, u)
            && PaymentSummary(db.txs).totalSettlements == MatchedSettlements(db.pools)
            && PaymentSummary(db.txs).totalAmount == PrimaryTotals(db.txs) + MatchedTotals(db.pools)
  {
    EveryStateSound(db0, opening, moves, n);
    hide After, SeatsInv, ResaleInv, StockInv;
  }

  // ------------------------------------------------------------------------------------- inventory

  /**
   In every state of every run the ticket array holds each ticket once, and each names an existing date and zone.
   Events are created and updated in one step here; `EventCreation` says what holds when other handlers come in between.
   */
  lemma InventoryIsSound(db0: Db, opening: seq<int>, moves: seq<Move>, n: nat, id: TicketId)
    requires Sound(db0, opening) && Legal(moves) && n <= |moves|
    requires id in After(db0, moves, n).tickets
    ensures var db := After(db0, moves, n);
            && NoDuplicates(db.order) && id in db.order
            && id.eventId in db.events && id.dateId in db.events[id.eventId].dates
            && FindZone(db.events[id.eventId].zones, id.zoneId).Some?
  {
    EveryStateSound(db0, opening, moves, n);
    hide After, SeatsInv, ResaleInv, MoneyInv;
    assert HasPlace(id, After(db0, moves, n).events);
  }

  // ---------------------------------------------------------------------------------------- failure

  /**
   A handler that throws has changed nothing but lapsed claims.  A refused hold has swept the holds, and nothing else;
   a refused extension or draft has reconciled the hold it named, and nothing else; a refused direct resale purchase may
   have joined its buyer to the pool; every other handler leaves the database exactly as it was.
   */
  lemma FailuresLeaveSalesAlone(db: Db, opening: seq<int>, step: Step, now: int)
    requires Inv(db, opening) && WellFormed(step) && Apply(db, step, now).result.Err?
    ensures var r := Apply(db, step, now).db;
            || r == db
            || (step.CreateHold? && r == ReconcileHolds(db, |db.holds|, now))
            || ((step.ExtendHoldStep? || step.CreateDraft?) && step.h < |db.holds| && r == ReconcileHold(db, step.h, now))
            || (step.BuyResale? && r == JoinPool(db, step.buyerId, step.p).db)
  {
    hide Inv;
    if SeatStep(step) {
      SeatFailureLeaves(db, step, now);
    } else if step.Buy? {
      PurchaseIsAtomic(db, step.purchase, step.group, now);
      hide BuyPrimary, BuyPrimaryGroup;
    } else if step.Draw? || step.BuyResale? {
      MatchFailureLeaves(db, opening, step, now);
    } else {
      OtherFailureLeaves(db, step, now);
    }
  }

  lemma SeatFailureLeaves(db: Db, step: Step, now: int)
    requires SeatStep(step) && WellFormed(step) && Apply(db, step, now).result.Err?
    ensures var r := Apply(db, step, now).db;
            || r == db
            || (step.CreateHold? && r == ReconcileHolds(db, |db.holds|, now))
            || ((step.ExtendHoldStep? || step.CreateDraft?) && step.h < |db.holds| && r == ReconcileHold(db, step.h, now))
  {
    hide ReconcileHold, ReconcileHolds, ReconcileDraft, CheckSeats, CheckEventBookable, PlaceHold, ExtendHold, ConvertHold, EndHold, EndDraft;
  }

  lemma MatchFailureLeaves(db: Db, opening: seq<int>, step: Step, now: int)
    requires Inv(db, opening) && (step.Draw? || step.BuyResale?) && Apply(db, step, now).result.Err?
    ensures var r := Apply(db, step, now).db;
            r == db || (step.BuyResale? && r == JoinPool(db, step.buyerId, step.p).db)
  {
    hide Inv, CompleteResaleMatch;
    match step
    case Draw(p, payment, seed) =>
      if p < |db.pools| && db.pools[p].status.Open? && db.pools[p].buyers != [] {
        var winnerId := db.pools[p].buyers[seed % |db.pools[p].buyers|];
        if FindUser(db.users, winnerId).Ok? { MatchNeverStopsHalfway(db, opening, p, winnerId, payment); }
      }
    case BuyResale(buyerId, p, payment) =>
      JoinPoolKeeps(db, opening, buyerId, p);
      var joined := JoinPool(db, buyerId, p);
      if joined.result.Ok? { MatchNeverStopsHalfway(joined.db, opening, p, buyerId, payment); }
  }

  lemma OtherFailureLeaves(db: Db, step: Step, now: int)
    requires WellFormed(step) && !SeatStep(step) && !step.Buy? && !step.Draw? && !step.BuyResale?
    requires Apply(db, step, now).result.Err?
    ensures Apply(db, step, now).db == db
  {
    hide CheckStatusUpdates, SetStatuses, RegenerateEvent, CheckInventorySize, CheckInventoryUse, EnsureTickets, Available, AssignGroup,
         FindZone, ReverseMatch, ClosePool;
  }

  /**
   A seat is refused as taken only for a reason: it has been sold, reserved or held back, or an ACTIVE hold with time
   left lists it.
   */
  lemma RefusedSeatIsTaken(db: Db, opening: seq<int>, userId: UserId, dateId: string, ids: seq<TicketId>, now: int) returns (id: TicketId)
    requires Inv(db, opening) && CreateSeatHold(db, userId, dateId, ids, now).result == Err(SeatAlreadyHeld)
    ensures var r := CreateSeatHold(db, userId, dateId, ids, now).db;
            id in ids && id in r.tickets && r.tickets[id].status != OnSale
            && (r.tickets[id].status == Held ==>
                  exists h :: 0 <= h < |r.holds| && r.holds[h].status.HoldActive? && id in r.holds[h].ticketIds && now < r.holds[h].expiresAt)
  {
    hide Inv, SeatOutcome, ReconcileHolds, CheckSeats, PlaceHold, HoldsMatch, FindZone;
    var db1 := ReconcileHolds(db, |db.holds|, now);
    SweepKeeps(db, opening, now);
    SweepIsComplete(db, |db.holds|, now);
    SeatsFound(db.tickets, ids, dateId);
    SweptInv(db, db1, opening);
    id :| id in ids && (id !in db1.tickets || db1.tickets[id].status != OnSale);
    if db1.tickets[id].status == Held {
      var h := HolderOf(db1.tickets, db1.holds, id);
      assert !IsPast(db1.holds[h].expiresAt, now);
    }
  }

  lemma HolderOf(tickets: Tickets, holds: seq<Hold>, id: TicketId) returns (h: HoldId)
    requires HoldsMatch(tickets, holds) && id in tickets && tickets[id].status == Held
    ensures h < |holds| && holds[h].status.HoldActive? && id in holds[h].ticketIds
  {
    h := tickets[id].heldBy.value;
  }

  lemma SweptInv(db: Db, db1: Db, opening: seq<int>)
    requires SeatOutcome(db, db1, opening)
    ensures HoldsMatch(db1.tickets, db1.holds) && db1.tickets.Keys == db.tickets.Keys
  {
  }

  lemma {:induction false} SeatsFound(tickets: Tickets, ids: seq<TicketId>, dateId: string)
    ensures CheckSeats(tickets, ids, dateId).None? ==> forall id :: id in ids ==> id in tickets
    ensures CheckSeats(tickets, ids, dateId) != Some(SeatAlreadyHeld)
  {
    if ids != [] {
      SeatsFound(tickets, ids[1..], dateId);
      assert forall id :: id in ids <==> id == ids[0] || id in ids[1..];
    }
  }
}
