/** What no step takes back: transactions, ledger entries, accounts, sold seats, institutional owners, admissions. */
module SaleProgress {
  import opened Prelude
  import opened SaleTypes
  import opened Holds
  import opened Commerce
  import opened Inventory
  import opened SaleSteps
  import opened SaleInvariant
  import opened SaleSeats
  import opened SaleResale
  import opened SaleSales
  import opened SaleInventory
  import opened SaleHandlers

  /** Records are only appended; a PRIMARY transaction comes from a purchase, a refund notice from the payment route. */
  ghost predicate Grows(db: Db, r: Db, buying: bool, refunding: bool) {
    && db.txs <= r.txs && db.ledger <= r.ledger && |db.users| <= |r.users|
    && (forall i :: |db.txs| <= i < |r.txs| && r.txs[i].Primary? ==> buying)
    && (forall i :: |db.ledger| <= i < |r.ledger| && r.ledger[i].what.PaymentNeedsRefund? ==> refunding)
  }

  /** A sold ticket stays sold; an institution keeps its seats; only a reversal lets an admitted ticket go. */
  ghost predicate OwnersKept(t0: Tickets, t1: Tickets, freed: Option<TicketId>) {
    forall id :: id in t0 && t0[id].ownerId.Some? ==>
      && id in t1 && t1[id].ownerId.Some? && t1[id].institutional == t0[id].institutional
      && (t0[id].institutional ==> t1[id].ownerId == t0[id].ownerId)
      && (t0[id].status == Admitted && freed != Some(id) ==> t1[id].status == Admitted && t1[id].ownerId == t0[id].ownerId)
  }

  /** The ticket whose match this step reverses, if it reverses one. */
  function Freed(db: Db, step: Step): Option<TicketId> {
    if step.AdminCancelPool? && step.p < |db.pools| && db.pools[step.p].status.Matched? then Some(db.pools[step.p].ticketId)
    else None
  }

  ghost predicate Progress(db: Db, r: Db, step: Step) {
    Grows(db, r, step.Buy?, step.RefundNeeded?) && OwnersKept(db.tickets, r.tickets, Freed(db, step))
  }

  lemma SeatShiftKeepsOwners(t0: Tickets, t1: Tickets, users: seq<User>, freed: Option<TicketId>)
    requires SeatShift(t0, t1) && Owners(t0, users)
    ensures OwnersKept(t0, t1, freed)
  {
  }

  lemma SeatProgress(db: Db, opening: seq<int>, step: Step, now: int)
    requires Inv(db, opening) && SeatStep(step)
    ensures Progress(db, Apply(db, step, now).db, step)
  {
    hide Apply;
    SeatStepsKeep(db, opening, step, now);
    SeatShiftKeepsOwners(db.tickets, Apply(db, step, now).db.tickets, db.users, Freed(db, step));
  }

  lemma UnsoldEditKeepsOwners(t: Tickets, id: TicketId, x: Ticket, users: seq<User>, freed: Option<TicketId>)
    requires Owners(t, users) && id in t && Unsold(t[id].status)
    ensures OwnersKept(t, t[id := x], freed)
  {
  }

  lemma BuyProgress(db: Db, opening: seq<int>, p: Purchase, now: int)
    requires Inv(db, opening) && |p.ticketIds| == 1
    ensures Progress(db, BuyPrimary(db, p, now).db, Buy(p, false))
  {
    hide SaleInvariant.SeatsInv, SaleInvariant.MoneyInv, SaleInvariant.StockInv, Commerce.FindReplay, Commerce.Allocated, OwnersKept,
         SaleInvariant.PoolsFit, SaleInvariant.PoolsCounted, SaleInvariant.AllocatedOnce;
    SameOwners(db.tickets, None);
    var id := p.ticketIds[0];
    if id in db.tickets && Unsold(db.tickets[id].status) {
      UnsoldEditKeepsOwners(db.tickets, id, Allocated(db.tickets[id], p.userId), db.users, None);
    }
  }

  lemma AllocatedKeepsOwners(t0: Tickets, t1: Tickets, ids: seq<TicketId>, users: seq<User>, freed: Option<TicketId>)
    requires Owners(t0, users) && t0.Keys == t1.Keys
    requires forall id :: id in t0 && id !in ids ==> t1[id] == t0[id]
    requires forall id :: id in ids ==> id in t0 && t0[id].status == OnSale
    ensures OwnersKept(t0, t1, freed)
  {
  }

  lemma BuyGroupProgress(db: Db, opening: seq<int>, p: Purchase, now: int)
    requires Inv(db, opening)
    ensures Progress(db, BuyPrimaryGroup(db, p, now).db, Buy(p, true))
  {
    hide SaleInvariant.SeatsInv, SaleInvariant.MoneyInv, SaleInvariant.StockInv, Commerce.FindReplay, Commerce.Allocated, Commerce.AllocateSeats,
         Commerce.SplitGroupAmount, OwnersKept, SaleInvariant.PoolsFit, SaleInvariant.PoolsCounted, SaleInvariant.AllocatedOnce;
    SameOwners(db.tickets, None);
    if NormalizeGroup(p.ticketIds).None? && CheckGroup(db, p.ticketIds, p.userId, now).None? {
      CheckGroupFindsTickets(db, p.ticketIds, p.userId, now);
      var amounts := SplitGroupAmount(p.approved, FaceValues(db.tickets, p.ticketIds));
      var r := AllocateSeats(db, p, amounts, |p.ticketIds|);
      AllocateSeatsRecords(db, p, amounts, |p.ticketIds|);
      AllocateSeatsTickets(db, p, amounts, |p.ticketIds|);
      assert p.ticketIds[..|p.ticketIds|] == p.ticketIds;
      AllocatedKeepsOwners(db.tickets, r.tickets, p.ticketIds, db.users, None);
    }
  }

  lemma ApproveProgress(db: Db, opening: seq<int>, r: RequestId, assignedCount: Option<int>)
    requires Inv(db, opening)
    ensures Progress(db, ApproveGroupBooking(db, r, assignedCount).db, ApproveGroup(r, assignedCount))
  {
    hide SaleInvariant.SeatsInv, SaleInvariant.MoneyInv, Commerce.Available, Commerce.SumFaces, OwnersKept, SaleInvariant.PoolsFit,
         SaleInvariant.PoolsCounted, SaleInvariant.AllocatedOnce;
    SameOwners(db.tickets, None);
    if r < |db.requests| {
      var count := if assignedCount.Some? then assignedCount.value else db.requests[r].headcount;
      if 0 <= count <= |Available(db.tickets, db.order, db.requests[r])| {
        TakenFromAvailable(db.tickets, db.order, db.requests[r], count);
        var ids := Available(db.tickets, db.order, db.requests[r])[..count];
        AllocatedKeepsOwners(db.tickets, AssignTickets(db.tickets, ids, |db.users|), ids, db.users, None);
      }
    }
  }

  lemma AdmitProgress(db: Db, id: TicketId)
    ensures Progress(db, AdmitAtGate(db, id).db, Admit(id))
  {
  }

  lemma SellingProgress(db: Db, opening: seq<int>, step: Step, now: int)
    requires Inv(db, opening) && WellFormed(step) && SellingStep(step)
    ensures Progress(db, Apply(db, step, now).db, step)
  {
    hide SaleInvariant.Inv, Commerce.BuyPrimary, Commerce.BuyPrimaryGroup, Commerce.ApproveGroupBooking, OwnersKept, Commerce.AdmitAtGate;
    SameOwners(db.tickets, None);
    match step
    case Buy(p, group) => if group { BuyGroupProgress(db, opening, p, now); } else { BuyProgress(db, opening, p, now); }
    case ApproveGroup(r, n) => ApproveProgress(db, opening, r, n);
    case Admit(id) => AdmitProgress(db, id);
    case _ =>
  }

  // ---------------------------------------------------------------------------------------- resale

  /** Edits of the one ticket a pool names: never an institution's, and admitted only if its match is being reversed. */
  lemma PoolEditKeepsOwners(t: Tickets, id: TicketId, x: Ticket, freed: Option<TicketId>)
    requires id in t && !t[id].institutional && !x.institutional && x.ownerId.Some?
    requires t[id].status != Admitted || freed == Some(id)
    ensures OwnersKept(t, t[id := x], freed)
  {
  }

  lemma PoolTicket(db: Db, opening: seq<int>, p: PoolId)
    requires Inv(db, opening) && p < |db.pools|
    ensures var id := db.pools[p].ticketId;
            id in db.tickets && !db.tickets[id].institutional && db.pools[p].sellerId < |db.users|
            && (db.pools[p].status.Open? ==> db.tickets[id].status == InResalePool)
  {
    PoolFitsAt(db, opening, p);
  }

  lemma MatchProgress(db: Db, opening: seq<int>, p: PoolId, buyerId: UserId, payment: Option<PaymentMethod>)
    requires Inv(db, opening) && p < |db.pools| && buyerId < |db.users| && db.pools[p].status.Open?
    ensures var r := CompleteResaleMatch(db, p, buyerId, payment).db;
            Grows(db, r, false, false) && OwnersKept(db.tickets, r.tickets, None)
  {
    hide SaleInvariant.Inv, Commerce.CompleteResaleMatch;
    MatchNeverStopsHalfway(db, opening, p, buyerId, payment);
    PoolTicket(db, opening, p);
    var id := db.pools[p].ticketId;
    PoolEditKeepsOwners(db.tickets, id, MatchedTicket(db.tickets[id], buyerId), None);
  }

  lemma ResaleProgress(db: Db, opening: seq<int>, step: Step, now: int)
    requires Inv(db, opening) && ResaleStep(step)
    ensures Progress(db, Apply(db, step, now).db, step)
  {
    hide SaleInvariant.Inv, Commerce.ListForResale, Commerce.CancelResaleListing, Commerce.DrawPool, Commerce.PurchaseResale,
         Commerce.AdminCancelResalePool, OwnersKept;
    SameOwners(db.tickets, None);
    match step
    case List(u, id, price) => ListProgress(db, u, id, price);
    case Join(u, p) =>
    case CancelListing(u, p) => CancelProgress(db, opening, u, p);
    case Draw(p, payment, seed) => DrawProgress(db, opening, p, payment, seed);
    case BuyResale(u, p, payment) => BuyResaleProgress(db, opening, u, p, payment);
    case AdminCancelPool(p) => ReversalProgress(db, opening, p);
  }

  lemma ListProgress(db: Db, sellerId: UserId, id: TicketId, price: Option<int>)
    ensures Progress(db, ListForResale(db, sellerId, id, price).db, List(sellerId, id, price))
  {
  }

  lemma SameOwners(t: Tickets, freed: Option<TicketId>)
    ensures OwnersKept(t, t, freed)
  {
  }

  lemma CancelProgress(db: Db, opening: seq<int>, sellerId: UserId, p: PoolId)
    requires Inv(db, opening)
    ensures Progress(db, CancelResaleListing(db, sellerId, p).db, CancelListing(sellerId, p))
  {
    hide SaleInvariant.Inv, OwnersKept;
    SameOwners(db.tickets, None);
    if p < |db.pools| && db.pools[p].status.Open? {
      PoolTicket(db, opening, p);
      var id := db.pools[p].ticketId;
      if db.tickets[id].ownerId.Some? { PoolEditKeepsOwners(db.tickets, id, db.tickets[id].(status := Owned), None); }
    }
  }

  lemma DrawProgress(db: Db, opening: seq<int>, p: PoolId, payment: Option<PaymentMethod>, seed: nat)
    requires Inv(db, opening)
    ensures Progress(db, DrawPool(db, p, payment, seed).db, Draw(p, payment, seed))
  {
    hide SaleInvariant.Inv, Commerce.CompleteResaleMatch;
    if p < |db.pools| && db.pools[p].status.Open? && db.pools[p].buyers != [] {
      var winnerId := db.pools[p].buyers[seed % |db.pools[p].buyers|];
      if FindUser(db.users, winnerId).Ok? { MatchProgress(db, opening, p, winnerId, payment); }
    }
  }

  lemma BuyResaleProgress(db: Db, opening: seq<int>, buyerId: UserId, p: PoolId, payment: Option<PaymentMethod>)
    requires Inv(db, opening)
    ensures Progress(db, PurchaseResale(db, buyerId, p, payment).db, BuyResale(buyerId, p, payment))
  {
    hide SaleInvariant.Inv, Commerce.CompleteResaleMatch, OwnersKept;
    SameOwners(db.tickets, None);
    JoinPoolKeeps(db, opening, buyerId, p);
    var joined := JoinPool(db, buyerId, p);
    if joined.result.Ok? { MatchProgress(joined.db, opening, p, buyerId, payment); }
  }

  lemma ReversalProgress(db: Db, opening: seq<int>, p: PoolId)
    requires Inv(db, opening)
    ensures Progress(db, AdminCancelResalePool(db, p).db, AdminCancelPool(p))
  {
    hide SaleInvariant.Inv, OwnersKept;
    SameOwners(db.tickets, Freed(db, AdminCancelPool(p)));
    if p < |db.pools| {
      PoolTicket(db, opening, p);
      var id := db.pools[p].ticketId;
      if db.pools[p].status.Matched? {
        PoolEditKeepsOwners(db.tickets, id, ReturnedTicket(db.tickets[id], db.pools[p].sellerId), Some(id));
      } else if db.pools[p].status.Open? {
        PoolOwner(db, opening, p);
        PoolEditKeepsOwners(db.tickets, id, db.tickets[id].(status := Owned), None);
      }
    }
  }

  lemma PoolOwner(db: Db, opening: seq<int>, p: PoolId)
    requires Inv(db, opening) && p < |db.pools|
    ensures db.pools[p].ticketId in db.tickets && db.tickets[db.pools[p].ticketId].ownerId.Some?
  {
    PoolFitsAt(db, opening, p);
  }

  // --------------------------------------------------------------------------------------- console

  lemma {:induction false} SetStatusesLogs(db: Db, updates: seq<(TicketId, TicketStatus)>, n: nat)
    requires n <= |updates| && forall u :: u in updates ==> u.0 in db.tickets
    ensures var r := SetStatuses(db, updates, n);
            db.ledger <= r.ledger && forall i :: |db.ledger| <= i < |r.ledger| ==> r.ledger[i].what.TicketStatusUpdated?
  {
    if n > 0 { SetStatusesLogs(db, updates, n - 1); }
  }

  lemma StatusProgress(db: Db, opening: seq<int>, updates: seq<(TicketId, TicketStatus)>)
    requires Inv(db, opening)
    ensures Progress(db, UpdateTicketStatuses(db, updates).db, SetTicketStatuses(updates))
  {
    hide SaleInvariant.SeatsInv, SaleInvariant.MoneyInv, SaleInvariant.StockInv, Commerce.SetStatuses;
    if CheckStatusUpdates(db, updates).None? {
      CheckedUpdatesExist(db, updates);
      SetStatusesShifts(db, updates, |updates|);
      SetStatusesLogs(db, updates, |updates|);
    }
  }

  lemma OpenChangesKeepOwnersIn(t0: Tickets, t1: Tickets, eventId: string, zones: seq<Zone>, freed: Option<TicketId>)
    requires OnlyOpenChanges(t0, t1, eventId, zones)
    ensures OwnersKept(t0, t1, freed)
  {
  }

  lemma RegenerateProgress(db: Db, opening: seq<int>, eventId: string, next: Event, repricing: bool)
    requires Inv(db, opening)
    ensures var r := RegenerateEvent(db, eventId, next, repricing);
            r == db.(events := r.events, tickets := r.tickets, order := r.order) && OwnersKept(db.tickets, r.tickets, None)
  {
    EventRegenerates(db, eventId, next, repricing);
    OpenChangesKeepOwnersIn(db.tickets, RegenerateEvent(db, eventId, next, repricing).tickets, eventId, next.zones, None);
  }

  lemma UpdateProgress(db: Db, opening: seq<int>, eventId: string, input: SaleInput, venueId: string)
    requires Inv(db, opening)
    ensures Progress(db, UpdateEventSale(db, eventId, input).db, UpdateSale(eventId, input))
    ensures Progress(db, UpdateEventVenue(db, eventId, venueId).db, UpdateVenue(eventId, venueId))
  {
    hide SaleInvariant.Inv, Inventory.RegenerateEvent;
    if eventId in db.events {
      RegenerateProgress(db, opening, eventId, NextEvent(db.events[eventId], input), true);
      RegenerateProgress(db, opening, eventId, db.events[eventId].(venueId := venueId), false);
    }
  }

  lemma EnsureKeepsOwners(s0: Stock, eventId: string, event: Event)
    requires OrderOk(s0.tickets, s0.order)
    ensures var r := EnsureTickets(s0, eventId, event); r.Some? && OwnersKept(s0.tickets, r.value.tickets, None)
  {
    EnsureTicketsResult(s0, eventId, event);
    MintedOnlyOpen(s0, EnsureTickets(s0, eventId, event).value, eventId, event.zones);
    OpenChangesKeepOwnersIn(s0.tickets, EnsureTickets(s0, eventId, event).value.tickets, eventId, event.zones, None);
  }

  lemma CreateProgress(db: Db, opening: seq<int>, eventId: string, event: Event)
    requires Inv(db, opening)
    ensures Progress(db, CreateEvent(db, eventId, event).db, AddEvent(eventId, event))
  {
    hide Inventory.EnsureTickets, SaleInvariant.Inv, OwnersKept;
    SameOwners(db.tickets, None);
    InvHasOrder(db, opening);
    EnsureKeepsOwners(Stock(db.tickets, db.order), eventId, event);
  }

  lemma InvHasOrder(db: Db, opening: seq<int>)
    requires Inv(db, opening)
    ensures OrderOk(db.tickets, db.order)
  {
  }

  lemma ConsoleProgress(db: Db, opening: seq<int>, step: Step, now: int)
    requires Inv(db, opening) && WellFormed(step) && !SeatStep(step) && !ResaleStep(step) && !SellingStep(step)
    ensures Progress(db, Apply(db, step, now).db, step)
  {
    hide SaleInvariant.Inv, Commerce.UpdateTicketStatuses, Inventory.UpdateEventSale, Inventory.UpdateEventVenue, Inventory.CreateEvent;
    match step
    case SetTicketStatuses(updates) => StatusProgress(db, opening, updates);
    case UpdateSale(e, input) => UpdateProgress(db, opening, e, input, "");
    case UpdateVenue(e, v) => UpdateProgress(db, opening, e, SaleInput("", false, None, None, ""), v);
    case AddEvent(e, event) => CreateProgress(db, opening, e, event);
    case _ =>
  }

  /** No step on any input takes anything back. */
  lemma StepProgress(db: Db, opening: seq<int>, step: Step, now: int)
    requires Inv(db, opening) && WellFormed(step)
    ensures Progress(db, Apply(db, step, now).db, step)
  {
    hide *;
    if SeatStep(step) { SeatProgress(db, opening, step, now); }
    else if ResaleStep(step) { ResaleProgress(db, opening, step, now); }
    else if SellingStep(step) { SellingProgress(db, opening, step, now); }
    else { ConsoleProgress(db, opening, step, now); }
  }
}
