/** Whose a ticket is: in every state the owner on the ticket is the one its latest transaction names. */
module SaleOwners {
  import opened Prelude
  import opened SaleTypes
  import opened Holds
  import opened Commerce
  import opened Inventory
  import opened SaleSteps
  import opened SaleInvariant
  import opened SaleSeats
  import opened SaleResale
  import opened SaleSales
  import opened SaleInventory
  import opened SaleHandlers
  import opened SaleProgress
  import opened SaleOrders
  import opened SaleRuns

  /** Whom a transaction hands the ticket to: its buyer, or the seller who gets it back. */
  function Recipient(tx: Transaction, id: TicketId): Option<UserId> {
    match tx
    case Primary(t, u, _, _, _, _) => if t == id then Some(u) else None
    case GroupBooking(ids, u, _) => if id in ids then Some(u) else None
    case Resale(t, u, _, _, _, _) => if t == id then Some(u) else None
    case Refund(t, _, s, _, _) => if t == id then Some(s) else None
  }

  /** The recipient of the last transaction about the ticket. */
  function RecordedOwner(txs: seq<Transaction>, id: TicketId): Option<UserId> {
    if txs == [] then None
    else
      var last := Recipient(txs[|txs| - 1], id);
      if last.Some? then last else RecordedOwner(txs[..|txs| - 1], id)
  }

  function OwnerNow(tickets: Tickets, id: TicketId): Option<UserId> {
    if id in tickets then tickets[id].ownerId else None
  }

  ghost predicate SameOwner(t0: Tickets, t1: Tickets) {
    forall id {:trigger OwnerNow(t1, id)} {:trigger OwnerNow(t0, id)} :: OwnerNow(t1, id) == OwnerNow(t0, id)
  }

  /** Tickets and transactions agree on every owner, and on who owns nothing. */
  ghost predicate Recorded(db: Db) {
    forall id {:trigger RecordedOwner(db.txs, id)} {:trigger OwnerNow(db.tickets, id)} ::
      OwnerNow(db.tickets, id) == RecordedOwner(db.txs, id)
  }

  lemma {:induction false} RecordedAppend(a: seq<Transaction>, b: seq<Transaction>, id: TicketId)
    ensures RecordedOwner(a + b, id) == if RecordedOwner(b, id).Some? then RecordedOwner(b, id) else RecordedOwner(a, id)
  {
    if b == [] {
      assert a + b == a;
    } else {
      assert (a + b)[..|a + b| - 1] == a + b[..|b| - 1];
      RecordedAppend(a, b[..|b| - 1], id);
    }
  }

  lemma OneAppended(txs: seq<Transaction>, tx: Transaction, id: TicketId)
    ensures RecordedOwner(txs + [tx], id) == if Recipient(tx, id).Some? then Recipient(tx, id) else RecordedOwner(txs, id)
  {
    assert (txs + [tx])[..|txs|] == txs;
  }

  lemma SameOwnersStayRecorded(db: Db, r: Db)
    requires Recorded(db) && r.txs == db.txs && SameOwner(db.tickets, r.tickets)
    ensures Recorded(r)
  {
  }

  /** The tickets a transaction names get its recipient as their owner, and the others keep theirs. */
  ghost predicate Follows(t0: Tickets, t1: Tickets, tx: Transaction) {
    forall id {:trigger OwnerNow(t1, id)} ::
      OwnerNow(t1, id) == if Recipient(tx, id).Some? then Recipient(tx, id) else OwnerNow(t0, id)
  }

  lemma OneTransactionStaysRecorded(db: Db, r: Db, tx: Transaction)
    requires Recorded(db) && r.txs == db.txs + [tx] && Follows(db.tickets, r.tickets, tx)
    ensures Recorded(r)
  {
    forall id ensures OwnerNow(r.tickets, id) == RecordedOwner(r.txs, id) { OneAppended(db.txs, tx, id); }
  }

  // ----------------------------------------------------------------------------- handler by handler

  lemma ShiftKeepsOwner(t0: Tickets, t1: Tickets)
    requires SeatShift(t0, t1)
    ensures SameOwner(t0, t1)
  {
  }

  lemma OpenChangesKeepOwner(t0: Tickets, t1: Tickets, eventId: string, zones: seq<Zone>)
    requires OnlyOpenChanges(t0, t1, eventId, zones)
    ensures SameOwner(t0, t1)
  {
  }

  lemma SeatStepsRecord(db: Db, opening: seq<int>, step: Step, now: int)
    requires Inv(db, opening) && Recorded(db) && SeatStep(step)
    ensures Recorded(Apply(db, step, now).db)
  {
    hide Apply, Recorded;
    SeatStepsKeep(db, opening, step, now);
    ShiftKeepsOwner(db.tickets, Apply(db, step, now).db.tickets);
    SameOwnersStayRecorded(db, Apply(db, step, now).db);
  }

  lemma {:induction false} OrderRecords(p: Purchase, group: bool, amounts: seq<int>, order: nat, n: nat, id: TicketId)
    requires |amounts| == |p.ticketIds| && n <= |amounts|
    ensures RecordedOwner(OrderTxs(p, group, amounts, order)[..n], id) == if id in p.ticketIds[..n] then Some(p.userId) else None
  {
    if n > 0 {
      var made := OrderTxs(p, group, amounts, order);
      OrderRecords(p, group, amounts, order, n - 1, id);
      assert made[..n][..n - 1] == made[..n - 1] && p.ticketIds[..n] == p.ticketIds[..n - 1] + [p.ticketIds[n - 1]];
    }
  }

  lemma BoughtIsRecorded(db: Db, r: Db, p: Purchase, group: bool, amounts: seq<int>)
    requires Recorded(db) && Bought(db, r, p, group, amounts)
    ensures Recorded(r)
  {
    var made := OrderTxs(p, group, amounts, |db.txs|);
    forall id ensures OwnerNow(r.tickets, id) == RecordedOwner(r.txs, id) {
      OrderRecords(p, group, amounts, |db.txs|, |amounts|, id);
      assert made[..|amounts|] == made && p.ticketIds[..|amounts|] == p.ticketIds;
      RecordedAppend(db.txs, made, id);
    }
  }

  lemma PurchaseRecords(db: Db, p: Purchase, group: bool, now: int)
    requires Recorded(db) && (group || |p.ticketIds| == 1)
    ensures Recorded(BuyStep(db, p, group, now).db)
  {
    hide BuyStep, IsReplay, Bought, Recorded;
    PurchaseIsAtomic(db, p, group, now);
    var r := BuyStep(db, p, group, now);
    if r.result.Ok? && !IsReplay(db, p, group) {
      var amounts := PurchaseIsComplete(db, p, group, now);
      BoughtIsRecorded(db, r.db, p, group, amounts);
    }
  }

  lemma ApprovalRecords(db: Db, opening: seq<int>, r: RequestId, assignedCount: Option<int>)
    requires Inv(db, opening) && Recorded(db)
    ensures Recorded(ApproveGroupBooking(db, r, assignedCount).db)
  {
    hide Inv, Recorded, Available, SumFaces, FindZone;
    var reply := ApproveGroupBooking(db, r, assignedCount);
    if reply.result.Ok? {
      InvHasOrder(db, opening);
      var count := if assignedCount.Some? then assignedCount.value else db.requests[r].headcount;
      TakenFromAvailable(db.tickets, db.order, db.requests[r], count);
      var ids := Available(db.tickets, db.order, db.requests[r])[..count];
      AssignmentFollows(db.tickets, ids, |db.users|, reply.db.txs[|db.txs|]);
      OneTransactionStaysRecorded(db, reply.db, reply.db.txs[|db.txs|]);
    }
  }

  lemma AssignmentFollows(t: Tickets, ids: seq<TicketId>, buyerId: UserId, tx: Transaction)
    requires tx.GroupBooking? && tx.ticketIds == ids && tx.userId == buyerId && forall id :: id in ids ==> id in t
    ensures Follows(t, AssignTickets(t, ids, buyerId), tx)
  {
  }

  lemma AdmissionKeepsOwner(db: Db, id: TicketId)
    ensures SameOwner(db.tickets, AdmitAtGate(db, id).db.tickets) && AdmitAtGate(db, id).db.txs == db.txs
  {
  }

  lemma SellingStepsRecord(db: Db, opening: seq<int>, step: Step, now: int)
    requires Inv(db, opening) && Recorded(db) && WellFormed(step) && SellingStep(step)
    ensures Recorded(Apply(db, step, now).db)
  {
    hide Inv, Recorded, BuyPrimary, BuyPrimaryGroup, ApproveGroupBooking, AdmitAtGate;
    match step
    case Buy(p, group) => PurchaseRecords(db, p, group, now);
    case ApproveGroup(r, n) => ApprovalRecords(db, opening, r, n);
    case Admit(id) =>
      AdmissionKeepsOwner(db, id);
      SameOwnersStayRecorded(db, AdmitAtGate(db, id).db);
    case SubmitGroup(e, d, z, n) => SameOwnersStayRecorded(db, SubmitGroupBooking(db, e, d, z, n).db);
    case RejectGroup(r) => SameOwnersStayRecorded(db, RejectGroupBooking(db, r).db);
    case RefundNeeded(u, ids, key, amount, reason) => SameOwnersStayRecorded(db, Log(db, ByUser(u), PaymentNeedsRefund(ids, key, amount, reason)));
  }

  lemma StatusKeepsOwner(t: Tickets, id: TicketId, status: TicketStatus)
    requires id in t
    ensures SameOwner(t, t[id := t[id].(status := status)])
  {
  }

  /** Moving one ticket to a new owner, with the transaction that says so. */
  lemma HandoverRecords(db: Db, r: Db, id: TicketId, x: Ticket, tx: Transaction)
    requires Recorded(db) && id in db.tickets && r.tickets == db.tickets[id := x] && r.txs == db.txs + [tx]
    requires (tx.Resale? || tx.Refund?) && tx.ticketId == id
    requires x.ownerId == Some(if tx.Resale? then tx.userId else tx.sellerId)
    ensures Recorded(r)
  {
    assert Follows(db.tickets, r.tickets, tx);
    OneTransactionStaysRecorded(db, r, tx);
  }

  lemma MatchRecords(db: Db, opening: seq<int>, p: PoolId, buyerId: UserId, payment: Option<PaymentMethod>)
    requires Inv(db, opening) && Recorded(db) && p < |db.pools| && buyerId < |db.users|
    ensures Recorded(CompleteResaleMatch(db, p, buyerId, payment).db)
  {
    hide Inv, Recorded, CompleteResaleMatch;
    MatchNeverStopsHalfway(db, opening, p, buyerId, payment);
    PoolTicket(db, opening, p);
    var r := CompleteResaleMatch(db, p, buyerId, payment);
    if r.result.Ok? {
      var id := db.pools[p].ticketId;
      HandoverRecords(db, r.db, id, r.db.tickets[id], r.db.txs[|db.txs|]);
    }
  }

  lemma DrawRecords(db: Db, opening: seq<int>, p: PoolId, payment: Option<PaymentMethod>, seed: nat)
    requires Inv(db, opening) && Recorded(db)
    ensures Recorded(DrawPool(db, p, payment, seed).db)
  {
    hide Inv, Recorded, CompleteResaleMatch;
    if p < |db.pools| && db.pools[p].status.Open? && db.pools[p].buyers != [] {
      var winnerId := db.pools[p].buyers[seed % |db.pools[p].buyers|];
      if FindUser(db.users, winnerId).Ok? { MatchRecords(db, opening, p, winnerId, payment); }
    }
  }

  lemma PurchaseResaleRecords(db: Db, opening: seq<int>, buyerId: UserId, p: PoolId, payment: Option<PaymentMethod>)
    requires Inv(db, opening) && Recorded(db)
    ensures Recorded(PurchaseResale(db, buyerId, p, payment).db)
  {
    hide Inv, Recorded, CompleteResaleMatch;
    JoinPoolKeeps(db, opening, buyerId, p);
    var joined := JoinPool(db, buyerId, p);
    if joined.result.Ok? {
      SameOwnersStayRecorded(db, joined.db);
      MatchRecords(joined.db, opening, p, buyerId, payment);
    }
  }

  lemma PoolClosesRecorded(db: Db, r: Db, p: PoolId)
    requires Recorded(db) && p < |db.pools| && db.pools[p].ticketId in db.tickets
    requires r.tickets == ClosePool(db, p).tickets && r.txs == db.txs
    ensures Recorded(r)
  {
    hide Recorded;
    StatusKeepsOwner(db.tickets, db.pools[p].ticketId, Owned);
    SameOwnersStayRecorded(db, r);
  }

  lemma CancelRecords(db: Db, sellerId: UserId, p: PoolId)
    requires Recorded(db)
    ensures Recorded(CancelResaleListing(db, sellerId, p).db) && Recorded(AdminCancelResalePool(db, p).db)
  {
    hide Recorded;
    if p < |db.pools| && db.pools[p].ticketId in db.tickets {
      var bySeller, byOperator, id := CancelResaleListing(db, sellerId, p), AdminCancelResalePool(db, p), db.pools[p].ticketId;
      if bySeller.db != db { PoolClosesRecorded(db, bySeller.db, p); }
      if byOperator.db != db {
        if db.pools[p].status.Matched? {
          HandoverRecords(db, byOperator.db, id, byOperator.db.tickets[id], byOperator.db.txs[|db.txs|]);
        } else {
          PoolClosesRecorded(db, byOperator.db, p);
        }
      }
    }
  }

  lemma ListingRecords(db: Db, sellerId: UserId, id: TicketId, price: Option<int>, buyerId: UserId, p: PoolId)
    requires Recorded(db)
    ensures Recorded(ListForResale(db, sellerId, id, price).db) && Recorded(JoinPool(db, buyerId, p).db)
  {
    hide Recorded;
    if id in db.tickets {
      StatusKeepsOwner(db.tickets, id, InResalePool);
      if ListForResale(db, sellerId, id, price).result.Ok? { SameOwnersStayRecorded(db, ListForResale(db, sellerId, id, price).db); }
    }
    SameOwnersStayRecorded(db, JoinPool(db, buyerId, p).db);
  }

  lemma ResaleStepsRecord(db: Db, opening: seq<int>, step: Step, now: int)
    requires Inv(db, opening) && Recorded(db) && ResaleStep(step)
    ensures Recorded(Apply(db, step, now).db)
  {
    hide Inv, Recorded, ListForResale, JoinPool, CancelResaleListing, DrawPool, PurchaseResale, AdminCancelResalePool;
    match step
    case List(u, id, price) => ListingRecords(db, u, id, price, 0, 0);
    case Join(u, p) => ListingRecords(db, 0, TicketId("", "", "", ""), None, u, p);
    case CancelListing(u, p) => CancelRecords(db, u, p);
    case Draw(p, payment, seed) => DrawRecords(db, opening, p, payment, seed);
    case BuyResale(u, p, payment) => PurchaseResaleRecords(db, opening, u, p, payment);
    case AdminCancelPool(p) => CancelRecords(db, 0, p);
  }

  lemma StatusesRecord(db: Db, updates: seq<(TicketId, TicketStatus)>)
    requires Recorded(db)
    ensures Recorded(UpdateTicketStatuses(db, updates).db)
  {
    hide Recorded, SetStatuses, StatusShift;
    if CheckStatusUpdates(db, updates).None? && updates != [] {
      CheckedUpdatesExist(db, updates);
      SetStatusesShifts(db, updates, |updates|);
      var r := SetStatuses(db, updates, |updates|);
      StatusShiftIsSeatShift(db.tickets, r.tickets);
      ShiftKeepsOwner(db.tickets, r.tickets);
      SameOwnersStayRecorded(db, r);
    }
  }

  lemma RegenerationRecords(db: Db, r: Db, opening: seq<int>, eventId: string, next: Event, repricing: bool)
    requires Inv(db, opening) && Recorded(db)
    requires r.tickets == RegenerateEvent(db, eventId, next, repricing).tickets && r.txs == db.txs
    ensures Recorded(r)
  {
    hide Recorded, Inv, RegenerateEvent;
    InvHasOrder(db, opening);
    EventRegenerates(db, eventId, next, repricing);
    OpenChangesKeepOwner(db.tickets, r.tickets, eventId, next.zones);
    SameOwnersStayRecorded(db, r);
  }

  lemma UpdatesRecord(db: Db, opening: seq<int>, eventId: string, input: SaleInput, venueId: string)
    requires Inv(db, opening) && Recorded(db)
    ensures Recorded(UpdateEventSale(db, eventId, input).db) && Recorded(UpdateEventVenue(db, eventId, venueId).db)
  {
    hide Recorded, Inv, RegenerateEvent, CheckInventorySize, CheckInventoryUse;
    if eventId in db.events {
      var next, moved := NextEvent(db.events[eventId], input), db.events[eventId].(venueId := venueId);
      EventRegeneratesFrame(db, opening, eventId, next, true);
      EventRegeneratesFrame(db, opening, eventId, moved, false);
      RegenerationRecords(db, ApplySale(db, eventId, next), opening, eventId, next, true);
      RegenerationRecords(db, UpdateEventVenue(db, eventId, venueId).db, opening, eventId, moved, false);
    }
  }

  lemma EventRegeneratesFrame(db: Db, opening: seq<int>, eventId: string, next: Event, repricing: bool)
    requires Inv(db, opening)
    ensures RegenerateEvent(db, eventId, next, repricing).txs == db.txs
  {
    hide Inv, Rebuild, Midway;
  }

  lemma CreationRecords(db: Db, opening: seq<int>, eventId: string, event: Event)
    requires Inv(db, opening) && Recorded(db)
    ensures Recorded(CreateEvent(db, eventId, event).db)
  {
    hide Recorded, Inv, EnsureTickets;
    InvHasOrder(db, opening);
    var s0 := Stock(db.tickets, db.order);
    EnsureTicketsResult(s0, eventId, event);
    MintedOnlyOpen(s0, EnsureTickets(s0, eventId, event).value, eventId, event.zones);
    OpenChangesKeepOwner(db.tickets, EnsureTickets(s0, eventId, event).value.tickets, eventId, event.zones);
    if CheckCreation(db, eventId, event).None? { SameOwnersStayRecorded(db, FinishCreation(db, eventId, event)); }
  }

  lemma ConsoleStepsRecord(db: Db, opening: seq<int>, step: Step, now: int)
    requires Inv(db, opening) && Recorded(db) && WellFormed(step) && !SeatStep(step) && !ResaleStep(step) && !SellingStep(step)
    ensures Recorded(Apply(db, step, now).db)
  {
    hide Inv, Recorded, UpdateTicketStatuses, UpdateEventSale, UpdateEventVenue, CreateEvent;
    match step
    case SetTicketStatuses(updates) => StatusesRecord(db, updates);
    case UpdateSale(e, input) => UpdatesRecord(db, opening, e, input, "");
    case UpdateVenue(e, v) => UpdatesRecord(db, opening, e, SaleInput("", false, None, None, ""), v);
    case AddEvent(e, event) => CreationRecords(db, opening, e, event);
    case AddUser(user) => SameOwnersStayRecorded(db, db.(users := db.users + [user]));
    case SetUserFlags(u, banned, verified) => SameOwnersStayRecorded(db, WithFlags(db, u, banned, verified).db);
  }

  lemma StepRecords(db: Db, opening: seq<int>, step: Step, now: int)
    requires Inv(db, opening) && Recorded(db) && WellFormed(step)
    ensures Recorded(Apply(db, step, now).db)
  {
    hide *;
    if SeatStep(step) { SeatStepsRecord(db, opening, step, now); }
    else if ResaleStep(step) { ResaleStepsRecord(db, opening, step, now); }
    else if SellingStep(step) { SellingStepsRecord(db, opening, step, now); }
    else { ConsoleStepsRecord(db, opening, step, now); }
  }

  /** In every state of every run a ticket's owner is the recipient of its latest transaction, and without one it has none. */
  lemma {:induction false} OwnersAreRecorded(db0: Db, opening: seq<int>, moves: seq<Move>, n: nat)
    requires Sound(db0, opening) && Recorded(db0) && Legal(moves) && n <= |moves|
    ensures Recorded(After(db0, moves, n))
  {
    hide Inv, OneOrderPerKey, Recorded, Apply;
    if n > 0 {
      OwnersAreRecorded(db0, opening, moves, n - 1);
      EveryStateSound(db0, opening, moves, n - 1);
      assert WellFormed(moves[n - 1].step);
      StepRecords(After(db0, moves, n - 1), opening, moves[n - 1].step, moves[n - 1].now);
    }
  }

  /** The empty database is a start of such a run. */
  lemma NoTicketsNoOwners()
    ensures Recorded(EMPTY_DB)
  {
  }

  lemma {:induction false} AllocatedEarlier(a: seq<Transaction>, b: seq<Transaction>, id: TicketId, j: nat)
    requires a <= b && |a| <= j < |b|
    ensures Allocations(b, id) >= Allocations(a, id) + AllocatedBy(b[j], id)
    decreases |b|
  {
    var init := b[..|b| - 1];
    if j == |b| - 1 {
      AllocationsGrow(a, init, id);
    } else {
      AllocatedEarlier(a, init, id, j);
    }
  }

  lemma {:induction false} AllocationsGrow(a: seq<Transaction>, b: seq<Transaction>, id: TicketId)
    requires a <= b
    ensures Allocations(a, id) <= Allocations(b, id)
    decreases |b|
  {
    if |a| < |b| { AllocationsGrow(a, b[..|b| - 1], id); } else { assert a == b; }
  }

  lemma {:induction false} NamedIsCounted(ids: seq<TicketId>, id: TicketId)
    requires id in ids
    ensures Occurrences(ids, id) > 0
  {
    if ids[|ids| - 1] != id { NamedIsCounted(ids[..|ids| - 1], id); }
  }

  /** Between two states in which a ticket has been allocated once, it is only matched and reversed. */
  lemma AllocatedThenOnlyResold(a: seq<Transaction>, b: seq<Transaction>, id: TicketId, j: nat)
    requires a <= b && Allocations(a, id) == 1 && Allocations(b, id) <= 1
    requires |a| <= j < |b| && Recipient(b[j], id).Some?
    ensures b[j].Resale? || b[j].Refund?
  {
    AllocatedEarlier(a, b, id, j);
    if b[j].GroupBooking? { NamedIsCounted(b[j].ticketIds, id); }
  }

  /** Once a ticket has an owner, every later transaction about it is a match or its reversal. */
  lemma SoldThenOnlyResold(db0: Db, opening: seq<int>, moves: seq<Move>, n: nat, m: nat, id: TicketId, j: nat)
    requires Sound(db0, opening) && Legal(moves) && n <= m <= |moves|
    requires OwnerNow(After(db0, moves, n).tickets, id).Some?
    requires |After(db0, moves, n).txs| <= j < |After(db0, moves, m).txs| && Recipient(After(db0, moves, m).txs[j], id).Some?
    ensures After(db0, moves, m).txs[j].Resale? || After(db0, moves, m).txs[j].Refund?
  {
    NothingIsTakenBack(db0, opening, moves, n, m);
    NoOversell(db0, opening, moves, n, id);
    NoOversell(db0, opening, moves, m, id);
    hide After, Allocations, Sound, Inv;
    AllocatedThenOnlyResold(After(db0, moves, n).txs, After(db0, moves, m).txs, id, j);
  }
}
