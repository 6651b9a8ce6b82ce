/**
 Where other files write records the sale handlers rely on: the native booking session closes web holds without opening
 their seats (backend/booking-session.js), the web sweep cannot reconcile native holds (backend/booking-holds.js), and the
 dynamic-QR gate admits tickets that are on resale (backend/admission-qr.js).
 */
module SharedRecords {
  import opened Prelude
  import opened SaleTypes
  import opened Holds
  import opened Commerce
  import opened Inventory
  import opened SaleSteps
  import opened SaleInvariant
  import opened SaleSeats
  import opened SaleResale
  import opened SaleSales
  import opened SaleInventory
  import opened SaleHandlers
  import opened SaleProgress
  import opened SaleRuns
  import PaymentRoute
  import opened PosterUpload
  import opened GateRuns
  import D = DynamicQr

  // ---------------------------------------------------------------- web holds closed by the native session

  /** `expire` of the native session, on the holds of the web: they become EXPIRED and their seats stay as they are. */
  function SessionExpires(db: Db, now: int): Db {
    db.(holds := seq(|db.holds|, h requires 0 <= h < |db.holds| =>
                   if LapsedHold(db.holds[h], now) then db.holds[h].(status := HoldExpired) else db.holds[h]))
  }

  lemma ExpiryKeepsRest(db: Db, opening: seq<int>, now: int)
    requires Inv(db, opening)
    ensures var r := SessionExpires(db, now);
            Inv(r, opening) <==> HoldsMatch(r.tickets, r.holds)
  {
    hide HoldsMatch, DraftsMatch, Owners, PoolsFit, PoolsCounted, AllocatedOnce, MoneyInv, StockInv;
    var r := SessionExpires(db, now);
    assert MoneyInv(r, opening) && StockInv(r) by { RestOfInv(db, r, opening); }
    assert HoldTimes(r.holds) && DraftTimes(r.drafts, r.holds);
  }

  lemma RestOfInv(db: Db, r: Db, opening: seq<int>)
    requires MoneyInv(db, opening) && StockInv(db) && r == db.(holds := r.holds)
    ensures MoneyInv(r, opening) && StockInv(r)
  {
  }

  lemma ClosedHoldLeavesSeat(db: Db, now: int, h: HoldId, id: TicketId)
    requires HoldsMatch(db.tickets, db.holds) && h < |db.holds| && LapsedHold(db.holds[h], now) && id in db.holds[h].ticketIds
    ensures !HoldsMatch(SessionExpires(db, now).tickets, SessionExpires(db, now).holds)
  {
    assert db.tickets[id].heldBy == Some(h);
  }

  lemma NoClosedHold(db: Db, now: int)
    requires HoldsMatch(db.tickets, db.holds)
    requires forall h :: 0 <= h < |db.holds| && LapsedHold(db.holds[h], now) ==> db.holds[h].ticketIds == []
    ensures HoldsMatch(SessionExpires(db, now).tickets, SessionExpires(db, now).holds)
  {
  }

  /** The native session keeps the web's claims exactly when no ACTIVE web hold with a seat has lapsed before it runs. */
  lemma SessionExpiryKeepsClaimsIff(db: Db, opening: seq<int>, now: int)
    requires Inv(db, opening)
    ensures Inv(SessionExpires(db, now), opening) <==>
              forall h :: 0 <= h < |db.holds| && LapsedHold(db.holds[h], now) ==> db.holds[h].ticketIds == []
  {
    ExpiryKeepsRest(db, opening, now);
    InvHasHolds(db, opening);
    hide Inv, HoldsMatch, SessionExpires;
    if h :| 0 <= h < |db.holds| && LapsedHold(db.holds[h], now) && db.holds[h].ticketIds != [] {
      ClosedHoldLeavesSeat(db, now, h, db.holds[h].ticketIds[0]);
    } else {
      NoClosedHold(db, now);
    }
  }

  lemma InvHasHolds(db: Db, opening: seq<int>)
    requires Inv(db, opening)
    ensures HoldsMatch(db.tickets, db.holds)
  {
  }

  // -------------------------------------------------------------------------------- what becomes of the seat

  /** A seat HELD by a hold that is over; no ACTIVE hold and no pool names it. */
  ghost predicate Stuck(db: Db, id: TicketId) {
    && StuckTicket(db, id)
    && (forall h :: 0 <= h < |db.holds| && db.holds[h].status.HoldActive? ==> id !in db.holds[h].ticketIds)
    && (forall p :: 0 <= p < |db.pools| ==> db.pools[p].ticketId != id)
  }

  ghost predicate StuckTicket(db: Db, id: TicketId) {
    && id in db.tickets
    && var t := db.tickets[id];
       t.status == Held && t.ownerId.None? && t.heldBy.Some? && t.heldBy.value < |db.holds| && !db.holds[t.heldBy.value].status.HoldActive?
  }

  lemma ClosedSeatIsStuck(db: Db, opening: seq<int>, now: int, h: HoldId, id: TicketId)
    requires Inv(db, opening) && h < |db.holds| && LapsedHold(db.holds[h], now) && id in db.holds[h].ticketIds
    ensures Stuck(SessionExpires(db, now), id)
  {
    var r := SessionExpires(db, now);
    assert db.tickets[id].heldBy == Some(h) && db.tickets[id].ownerId.None?;
    forall p | 0 <= p < |r.pools| ensures r.pools[p].ticketId != id { PoolOwner(db, opening, p); }
  }

  /** The step left the seat alone, activated nothing on it, and opened no pool for it. */
  ghost predicate LeftAlone(db: Db, r: Db, id: TicketId) {
    && id in db.tickets && id in r.tickets
    && r.tickets[id] == db.tickets[id].(holdExpiresAt := r.tickets[id].holdExpiresAt)
    && |db.holds| <= |r.holds|
    && (forall h :: 0 <= h < |r.holds| && r.holds[h].status.HoldActive? ==>
          id !in r.holds[h].ticketIds && (h < |db.holds| ==> db.holds[h].status.HoldActive?))
    && (forall p :: 0 <= p < |r.pools| ==> r.pools[p].ticketId != id)
  }

  lemma LeftAloneStaysStuck(db: Db, r: Db, id: TicketId)
    requires Stuck(db, id) && LeftAlone(db, r, id)
    ensures Stuck(r, id)
  {
  }

  lemma ReconcileLeaves(db: Db, h: HoldId, id: TicketId, now: int)
    requires Stuck(db, id) && h < |db.holds|
    ensures Stuck(ReconcileHold(db, h, now), id)
  {
    LeftAloneStaysStuck(db, ReconcileHold(db, h, now), id);
  }

  lemma {:induction false} SweepLeaves(db: Db, n: nat, id: TicketId, now: int)
    requires Stuck(db, id) && n <= |db.holds|
    ensures Stuck(ReconcileHolds(db, n, now), id)
  {
    hide Stuck, ReconcileHold;
    if n > 0 {
      SweepLeaves(db, n - 1, id, now);
      ReconcileLeaves(ReconcileHolds(db, n - 1, now), n - 1, id, now);
    }
  }

  lemma CreateHoldLeaves(db: Db, id: TicketId, userId: UserId, dateId: string, ids: seq<TicketId>, now: int)
    requires Stuck(db, id)
    ensures Stuck(CreateSeatHold(db, userId, dateId, ids, now).db, id)
  {
    SweepLeaves(db, |db.holds|, id, now);
    var swept := ReconcileHolds(db, |db.holds|, now);
    var r := CreateSeatHold(db, userId, dateId, ids, now);
    hide ReconcileHolds, CheckSeats, CheckEventBookable, NoDuplicates;
    if r.result.Ok? { LeftAloneStaysStuck(swept, r.db, id); }
  }

  lemma HoldEditsLeave(db: Db, id: TicketId, h: HoldId, now: int)
    requires Stuck(db, id) && h < |db.holds| && db.holds[h].status.HoldActive?
    ensures Stuck(ExtendHold(db, h, now), id) && Stuck(EndHold(db, h, HoldReleased), id)
    ensures (forall x :: x in db.holds[h].ticketIds ==> x in db.tickets) ==> Stuck(ConvertHold(db, h, now), id)
  {
    LeftAloneStaysStuck(db, ExtendHold(db, h, now), id);
    LeftAloneStaysStuck(db, EndHold(db, h, HoldReleased), id);
    if forall x :: x in db.holds[h].ticketIds ==> x in db.tickets { LeftAloneStaysStuck(db, ConvertHold(db, h, now), id); }
  }

  lemma OwnHoldLeaves(db: Db, id: TicketId, userId: UserId, h: HoldId, now: int)
    requires Stuck(db, id)
    ensures Stuck(RequireOwnHold(db, userId, h, now).db, id) && Stuck(ExtendSeatHold(db, userId, h, now).db, id)
    ensures Stuck(ReleaseSeatHold(db, userId, h, now).db, id) && Stuck(CreateReservationDraft(db, userId, h, now).db, id)
  {
    hide Stuck, ReconcileHold, ExtendHold, EndHold, ConvertHold;
    if h < |db.holds| {
      ReconcileLeaves(db, h, id, now);
      var own := RequireOwnHold(db, userId, h, now).db;
      if own.holds[h].status.HoldActive? { HoldEditsLeave(own, id, h, now); }
    }
  }

  lemma DraftLeaves(db: Db, id: TicketId, userId: UserId, d: DraftId, now: int)
    requires Stuck(db, id)
    ensures Stuck(RequireOwnDraft(db, userId, d, now).db, id) && Stuck(CancelReservationDraft(db, userId, d, now).db, id)
  {
    LeftAloneStaysStuck(db, RequireOwnDraft(db, userId, d, now).db, id);
    LeftAloneStaysStuck(db, CancelReservationDraft(db, userId, d, now).db, id);
  }

  lemma SeatStepsLeave(db: Db, id: TicketId, step: Step, now: int)
    requires Stuck(db, id) && SeatStep(step) && WellFormed(step)
    ensures Stuck(Apply(db, step, now).db, id)
  {
    hide Stuck, CreateSeatHold, RequireOwnHold, ExtendSeatHold, ReleaseSeatHold, CreateReservationDraft, RequireOwnDraft, CancelReservationDraft;
    match step
    case CreateHold(u, dateId, ids) => CreateHoldLeaves(db, id, u, dateId, ids, now);
    case GetHold(u, h) => OwnHoldLeaves(db, id, u, h, now);
    case ExtendHoldStep(u, h) => OwnHoldLeaves(db, id, u, h, now);
    case ReleaseHold(u, h) => OwnHoldLeaves(db, id, u, h, now);
    case CreateDraft(u, h) => OwnHoldLeaves(db, id, u, h, now);
    case GetDraft(u, d) => DraftLeaves(db, id, u, d, now);
    case CancelDraft(u, d) => DraftLeaves(db, id, u, d, now);
  }

  /** Nobody can buy the seat: the buyer's claim on it is not ACTIVE. */
  lemma StuckIsNotForSale(db: Db, id: TicketId, userId: UserId, allowHold: bool, draftId: Option<DraftId>, now: int)
    requires Stuck(db, id)
    ensures AssertPurchasable(db, id, userId, allowHold, draftId, now).Err?
  {
  }

  lemma BuyLeaves(db: Db, id: TicketId, p: Purchase, now: int)
    requires Stuck(db, id) && |p.ticketIds| == 1
    ensures Stuck(BuyPrimary(db, p, now).db, id)
  {
    StuckIsNotForSale(db, id, p.userId, p.allowHold, p.draftId, now);
    hide FindReplay, IdemOf, CheckContext, CheckBuyer;
    var r := BuyPrimary(db, p, now);
    LeftAloneStaysStuck(db, r.db, id);
  }

  lemma {:induction false} AllocationLeaves(db: Db, id: TicketId, p: Purchase, amounts: seq<int>, n: nat)
    requires id in db.tickets && n <= |p.ticketIds| && |amounts| == |p.ticketIds| && forall x :: x in p.ticketIds ==> x in db.tickets
    requires id !in p.ticketIds
    ensures var r := AllocateSeats(db, p, amounts, n);
            id in r.tickets && r.tickets[id] == db.tickets[id] && r.holds == db.holds && r.pools == db.pools
  {
    if n > 0 {
      AllocationLeaves(db, id, p, amounts, n - 1);
      assert p.ticketIds[n - 1] in p.ticketIds;
    }
  }

  lemma BuyGroupLeaves(db: Db, id: TicketId, p: Purchase, now: int)
    requires Stuck(db, id)
    ensures Stuck(BuyPrimaryGroup(db, p, now).db, id)
  {
    hide FindReplay, IdemOf, CheckContexts, CheckBuyer, AssertPurchasable, AllocateSeats, SplitGroupAmount, OnePerformance, Stuck;
    if CheckGroup(db, p.ticketIds, p.userId, now).None? && p.ticketIds != [] {
      CheckGroupFindsTickets(db, p.ticketIds, p.userId, now);
      StuckIsHeld(db, id);
      var amounts := SplitGroupAmount(p.approved, FaceValues(db.tickets, p.ticketIds));
      AllocationLeaves(db, id, p, amounts, |p.ticketIds|);
      SameClaimsStayStuck(db, AllocateSeats(db, p, amounts, |p.ticketIds|), id);
    }
  }

  lemma StuckIsHeld(db: Db, id: TicketId)
    requires Stuck(db, id)
    ensures id in db.tickets && db.tickets[id].status == Held && db.tickets[id].ownerId.None?
    ensures forall p :: 0 <= p < |db.pools| ==> db.pools[p].ticketId != id
  {
  }

  lemma SameClaimsStayStuck(db: Db, r: Db, id: TicketId)
    requires Stuck(db, id) && id in r.tickets && r.tickets[id] == db.tickets[id] && r.holds == db.holds
    requires forall p :: 0 <= p < |r.pools| ==> r.pools[p].ticketId != id
    ensures Stuck(r, id)
  {
  }

  lemma ApprovalLeaves(db: Db, id: TicketId, r: RequestId, assignedCount: Option<int>)
    requires Stuck(db, id)
    ensures Stuck(ApproveGroupBooking(db, r, assignedCount).db, id)
  {
    hide Stuck, Available, SumFaces, FindZone;
    StuckIsHeld(db, id);
    var reply := ApproveGroupBooking(db, r, assignedCount);
    if reply.result.Ok? { AvailableIsOpen(db.tickets, db.order, db.requests[r], id); }
    SameClaimsStayStuck(db, reply.db, id);
  }

  lemma {:induction false} AvailableIsOpen(t: Tickets, order: seq<TicketId>, r: GroupRequest, id: TicketId)
    requires id in t && t[id].status != OnSale
    ensures id !in Available(t, order, r)
  {
    if order != [] { AvailableIsOpen(t, order[1..], r, id); }
  }

  lemma RequestsLeave(db: Db, id: TicketId, e: string, d: string, z: string, n: int, r: RequestId)
    requires Stuck(db, id)
    ensures Stuck(SubmitGroupBooking(db, e, d, z, n).db, id) && Stuck(RejectGroupBooking(db, r).db, id)
  {
    hide Stuck, FindZone;
    StuckIsHeld(db, id);
    SameClaimsStayStuck(db, SubmitGroupBooking(db, e, d, z, n).db, id);
    SameClaimsStayStuck(db, RejectGroupBooking(db, r).db, id);
  }

  lemma AdmissionLeaves(db: Db, id: TicketId, ticketId: TicketId)
    requires Stuck(db, id)
    ensures Stuck(AdmitAtGate(db, ticketId).db, id)
  {
    hide Stuck;
    StuckIsHeld(db, id);
    SameClaimsStayStuck(db, AdmitAtGate(db, ticketId).db, id);
  }

  lemma SellingStepsLeave(db: Db, id: TicketId, step: Step, now: int)
    requires Stuck(db, id) && WellFormed(step) && SellingStep(step)
    ensures Stuck(Apply(db, step, now).db, id)
  {
    hide Stuck, BuyPrimary, BuyPrimaryGroup, SubmitGroupBooking, ApproveGroupBooking, RejectGroupBooking, AdmitAtGate;
    StuckIsHeld(db, id);
    match step
    case Buy(p, group) => if group { BuyGroupLeaves(db, id, p, now); } else { BuyLeaves(db, id, p, now); }
    case SubmitGroup(e, d, z, n) => RequestsLeave(db, id, e, d, z, n, 0);
    case ApproveGroup(r, n) => ApprovalLeaves(db, id, r, n);
    case RejectGroup(r) => RequestsLeave(db, id, "", "", "", 0, r);
    case Admit(x) => AdmissionLeaves(db, id, x);
    case RefundNeeded(u, ids, key, amount, reason) => SameClaimsStayStuck(db, Log(db, ByUser(u), PaymentNeedsRefund(ids, key, amount, reason)), id);
  }

  lemma MatchLeaves(db: Db, id: TicketId, p: PoolId, buyerId: UserId, payment: Option<PaymentMethod>)
    requires Stuck(db, id) && p < |db.pools| && buyerId < |db.users|
    ensures Stuck(CompleteResaleMatch(db, p, buyerId, payment).db, id)
  {
    hide Stuck;
    StuckIsHeld(db, id);
    SameClaimsStayStuck(db, CompleteResaleMatch(db, p, buyerId, payment).db, id);
  }

  lemma DrawLeaves(db: Db, id: TicketId, p: PoolId, payment: Option<PaymentMethod>, seed: nat)
    requires Stuck(db, id)
    ensures Stuck(DrawPool(db, p, payment, seed).db, id)
  {
    hide Stuck, CompleteResaleMatch;
    if p < |db.pools| && db.pools[p].status.Open? && db.pools[p].buyers != [] {
      var winnerId := db.pools[p].buyers[seed % |db.pools[p].buyers|];
      if FindUser(db.users, winnerId).Ok? { MatchLeaves(db, id, p, winnerId, payment); }
    }
  }

  lemma JoinLeaves(db: Db, id: TicketId, buyerId: UserId, p: PoolId)
    requires Stuck(db, id)
    ensures Stuck(JoinPool(db, buyerId, p).db, id)
  {
    hide Stuck;
    StuckIsHeld(db, id);
    SameClaimsStayStuck(db, JoinPool(db, buyerId, p).db, id);
  }

  lemma PurchaseResaleLeaves(db: Db, id: TicketId, buyerId: UserId, p: PoolId, payment: Option<PaymentMethod>)
    requires Stuck(db, id)
    ensures Stuck(PurchaseResale(db, buyerId, p, payment).db, id)
  {
    hide Stuck, CompleteResaleMatch;
    JoinLeaves(db, id, buyerId, p);
    var joined := JoinPool(db, buyerId, p);
    if joined.result.Ok? { MatchLeaves(joined.db, id, p, buyerId, payment); }
  }

  lemma ListingLeaves(db: Db, id: TicketId, userId: UserId, ticketId: TicketId, price: Option<int>)
    requires Stuck(db, id)
    ensures Stuck(ListForResale(db, userId, ticketId, price).db, id)
  {
    hide Stuck;
    StuckIsHeld(db, id);
    SameClaimsStayStuck(db, ListForResale(db, userId, ticketId, price).db, id);
  }

  lemma ClosingLeaves(db: Db, id: TicketId, userId: UserId, p: PoolId)
    requires Stuck(db, id)
    ensures Stuck(CancelResaleListing(db, userId, p).db, id) && Stuck(AdminCancelResalePool(db, p).db, id)
  {
    hide Stuck;
    StuckIsHeld(db, id);
    SameClaimsStayStuck(db, CancelResaleListing(db, userId, p).db, id);
    SameClaimsStayStuck(db, AdminCancelResalePool(db, p).db, id);
  }

  lemma ResaleStepsLeave(db: Db, id: TicketId, step: Step, now: int)
    requires Stuck(db, id) && ResaleStep(step)
    ensures Stuck(Apply(db, step, now).db, id)
  {
    hide Stuck, ListForResale, JoinPool, CancelResaleListing, DrawPool, PurchaseResale, AdminCancelResalePool;
    match step
    case List(u, x, price) => ListingLeaves(db, id, u, x, price);
    case Join(u, p) => JoinLeaves(db, id, u, p);
    case CancelListing(u, p) => ClosingLeaves(db, id, u, p);
    case Draw(p, payment, seed) => DrawLeaves(db, id, p, payment, seed);
    case BuyResale(u, p, payment) => PurchaseResaleLeaves(db, id, u, p, payment);
    case AdminCancelPool(p) => ClosingLeaves(db, id, 0, p);
  }

  lemma StatusesLeave(db: Db, id: TicketId, updates: seq<(TicketId, TicketStatus)>)
    requires Stuck(db, id)
    ensures Stuck(UpdateTicketStatuses(db, updates).db, id)
  {
    hide Stuck, SetStatuses;
    StuckIsHeld(db, id);
    if CheckStatusUpdates(db, updates).None? && updates != [] {
      CheckedUpdatesExist(db, updates);
      SetStatusesShifts(db, updates, |updates|);
      SameClaimsStayStuck(db, SetStatuses(db, updates, |updates|), id);
    }
  }

  lemma {:induction false} MintingLeaves(s: Stock, id: TicketId, eventId: string, zones: seq<Zone>, dateId: string, seats: seq<Seat>, n: nat)
    requires id in s.tickets && n <= |seats|
    ensures var r := MintSeats(s, eventId, zones, dateId, seats, n); r.Some? ==> id in r.value.tickets && r.value.tickets[id] == s.tickets[id]
  {
    if n > 0 { MintingLeaves(s, id, eventId, zones, dateId, seats, n - 1); }
  }

  lemma {:induction false} MintingDatesLeaves(s: Stock, id: TicketId, eventId: string, zones: seq<Zone>, dates: seq<string>, seats: seq<Seat>, n: nat)
    requires id in s.tickets && n <= |dates|
    ensures var r := MintDates(s, eventId, zones, dates, seats, n); r.Some? ==> id in r.value.tickets && r.value.tickets[id] == s.tickets[id]
  {
    hide MintSeats;
    if n > 0 {
      MintingDatesLeaves(s, id, eventId, zones, dates, seats, n - 1);
      var before := MintDates(s, eventId, zones, dates, seats, n - 1);
      if before.Some? { MintingLeaves(before.value, id, eventId, zones, dates[n - 1], seats, |seats|); }
    }
  }

  lemma RegenerationLeaves(db: Db, id: TicketId, eventId: string, next: Event, repricing: bool)
    requires id in db.tickets && db.tickets[id].status == Held
    ensures var r := RegenerateEvent(db, eventId, next, repricing);
            id in r.tickets && r.tickets[id] == db.tickets[id] && r.holds == db.holds && r.pools == db.pools
  {
    hide SeatsForEvent, ActiveSeatKeys, MintDates, FindZone, KeepOrder;
    var mid := Midway(Stock(db.tickets, db.order), eventId, next.zones, next.dates, ActiveSeatKeys(next), repricing);
    assert id in mid.tickets && mid.tickets[id] == db.tickets[id];
    MintingDatesLeaves(mid, id, eventId, next.zones, next.dates, SeatsForEvent(next), |next.dates|);
  }

  lemma UpdatesLeave(db: Db, id: TicketId, eventId: string, input: SaleInput, venueId: string)
    requires Stuck(db, id)
    ensures Stuck(UpdateEventSale(db, eventId, input).db, id) && Stuck(UpdateEventVenue(db, eventId, venueId).db, id)
  {
    hide Stuck, RegenerateEvent, CheckInventorySize, CheckInventoryUse;
    StuckIsHeld(db, id);
    if eventId in db.events {
      RegenerationLeaves(db, id, eventId, NextEvent(db.events[eventId], input), true);
      RegenerationLeaves(db, id, eventId, db.events[eventId].(venueId := venueId), false);
    }
    SameClaimsStayStuck(db, UpdateEventSale(db, eventId, input).db, id);
    SameClaimsStayStuck(db, UpdateEventVenue(db, eventId, venueId).db, id);
  }

  lemma CreationLeaves(db: Db, id: TicketId, eventId: string, event: Event)
    requires Stuck(db, id)
    ensures Stuck(CreateEvent(db, eventId, event).db, id)
  {
    hide Stuck, MintDates, SeatsForEvent, CheckInventorySize;
    StuckIsHeld(db, id);
    MintingDatesLeaves(Stock(db.tickets, db.order), id, eventId, event.zones, event.dates, SeatsForEvent(event), |event.dates|);
    SameClaimsStayStuck(db, CreateEvent(db, eventId, event).db, id);
  }

  lemma ConsoleStepsLeave(db: Db, id: TicketId, step: Step, now: int)
    requires Stuck(db, id) && WellFormed(step) && !SeatStep(step) && !ResaleStep(step) && !SellingStep(step)
    ensures Stuck(Apply(db, step, now).db, id)
  {
    hide Stuck, UpdateTicketStatuses, UpdateEventSale, UpdateEventVenue, CreateEvent;
    StuckIsHeld(db, id);
    match step
    case SetTicketStatuses(updates) => StatusesLeave(db, id, updates);
    case UpdateSale(e, input) => UpdatesLeave(db, id, e, input, "");
    case UpdateVenue(e, v) => UpdatesLeave(db, id, e, SaleInput("", false, None, None, ""), v);
    case AddEvent(e, event) => CreationLeaves(db, id, e, event);
    case AddUser(user) => SameClaimsStayStuck(db, db.(users := db.users + [user]), id);
    case SetUserFlags(u, banned, verified) => SameClaimsStayStuck(db, WithFlags(db, u, banned, verified).db, id);
  }

  lemma StepLeaves(db: Db, id: TicketId, step: Step, now: int)
    requires Stuck(db, id) && WellFormed(step)
    ensures Stuck(Apply(db, step, now).db, id)
  {
    hide *;
    if SeatStep(step) { SeatStepsLeave(db, id, step, now); }
    else if ResaleStep(step) { ResaleStepsLeave(db, id, step, now); }
    else if SellingStep(step) { SellingStepsLeave(db, id, step, now); }
    else { ConsoleStepsLeave(db, id, step, now); }
  }

  lemma {:induction false} StuckThroughout(db: Db, id: TicketId, moves: seq<Move>, n: nat)
    requires Stuck(db, id) && Legal(moves) && n <= |moves|
    ensures Stuck(After(db, moves, n), id)
  {
    hide Stuck, Apply;
    if n > 0 {
      StuckThroughout(db, id, moves, n - 1);
      assert WellFormed(moves[n - 1].step);
      StepLeaves(After(db, moves, n - 1), id, moves[n - 1].step, moves[n - 1].now);
    }
  }

  /**
   What it costs: once the native session has closed a lapsed web hold, its seats stay HELD for good.  No run of the
   sale handlers, the operator's included, frees, sells or drops them.
   */
  lemma ClosedSeatStaysHeld(db: Db, opening: seq<int>, now: int, h: HoldId, id: TicketId, moves: seq<Move>, n: nat)
    requires Inv(db, opening) && h < |db.holds| && LapsedHold(db.holds[h], now) && id in db.holds[h].ticketIds
    requires Legal(moves) && n <= |moves|
    ensures var r := After(SessionExpires(db, now), moves, n);
            id in r.tickets && r.tickets[id].status == Held && r.tickets[id].ownerId.None?
  {
    ClosedSeatIsStuck(db, opening, now, h, id);
    StuckThroughout(SessionExpires(db, now), id, moves, n);
    hide Stuck, Inv, SessionExpires, After;
    StuckIsHeld(After(SessionExpires(db, now), moves, n), id);
  }

  // ------------------------------------------------------------ native holds under the web handler's sweep

  /** The one array both files push holds to.  A native hold has no `ticketIds`. */
  datatype Record = Web(active: bool, expiresAt: int) | Native(active: bool, expiresAt: int)

  predicate Due(r: Record, now: int) { r.active && IsPast(r.expiresAt, now) }

  /**
   The sweep before a web hold, on the records' statuses: a due hold is closed, and then its seats are released, which
   for a native hold is a TypeError that ends the request.
   */
  function Sweep(records: seq<Record>, now: int): (r: (seq<Record>, bool))
    ensures |r.0| == |records|
  {
    if records == [] then ([], false)
    else if !Due(records[0], now) then
      var rest := Sweep(records[1..], now);
      ([records[0]] + rest.0, rest.1)
    else if records[0].Native? then ([records[0].(active := false)] + records[1..], true)
    else
      var rest := Sweep(records[1..], now);
      ([records[0].(active := false)] + rest.0, rest.1)
  }

  function DueNatives(records: seq<Record>, now: int): nat {
    if records == [] then 0 else DueNatives(records[1..], now) + (if records[0].Native? && Due(records[0], now) then 1 else 0)
  }

  /**
   A request for a web hold fails this way exactly while a lapsed native hold is still ACTIVE, and each failing request
   closes exactly one of them.
   */
  lemma {:induction false} SweepFailsIffNativeDue(records: seq<Record>, now: int)
    ensures Sweep(records, now).1 <==> DueNatives(records, now) > 0
    ensures DueNatives(Sweep(records, now).0, now) == if DueNatives(records, now) > 0 then DueNatives(records, now) - 1 else 0
    ensures DueNatives(records, now) > 0 <==> exists i :: 0 <= i < |records| && records[i].Native? && Due(records[i], now)
  {
    if records != [] {
      SweepFailsIffNativeDue(records[1..], now);
      var r := Sweep(records, now).0;
      if Due(records[0], now) && records[0].Native? {
        assert r[1..] == records[1..];
        assert records[0].Native? && Due(records[0], now);
      } else {
        assert r[1..] == Sweep(records[1..], now).0;
        if i :| 0 <= i < |records| && records[i].Native? && Due(records[i], now) { assert records[1..][i - 1] == records[i]; }
        if i :| 0 <= i < |records[1..]| && records[1..][i].Native? && Due(records[1..][i], now) { assert records[i + 1] == records[1..][i]; }
      }
    }
  }

  // -------------------------------------------------------------------- tickets on resale at the dynamic gate

  /** What the dynamic-QR gate does to the ticket of a code it accepts, whatever the ticket's status. */
  function Admits(db: Db, id: TicketId): Db
    requires id in db.tickets
  {
    db.(tickets := db.tickets[id := db.tickets[id].(status := Admitted)])
  }

  /** The gate's decision does not depend on the ticket's status. */
  lemma GateIgnoresStatus(
    s: D.State, sign: D.Payload -> D.Signature, code: D.Code, gateId: Option<D.GateId>, gateEvent: Option<string>, now: int,
    status: D.TicketStatus)
    requires code.payload.id in s.tickets
    ensures var id := code.payload.id;
            var other := s.(tickets := s.tickets[id := s.tickets[id].(status := status)]);
            && D.VerifyQr(s, sign, code, gateId, gateEvent, now).1 == D.VerifyQr(other, sign, code, gateId, gateEvent, now).1
            && (D.VerifyQr(other, sign, code, gateId, gateEvent, now).1.valid ==>
                  D.VerifyQr(other, sign, code, gateId, gateEvent, now).0.tickets[id].status.Admitted?)
  {
  }

  /** Admitting an owned ticket keeps the handlers' invariant exactly when the ticket is not on resale. */
  lemma AdmissionKeepsInvIff(db: Db, opening: seq<int>, id: TicketId)
    requires Inv(db, opening) && id in db.tickets && db.tickets[id].ownerId.Some?
    ensures Inv(Admits(db, id), opening) <==> db.tickets[id].status != InResalePool
  {
    OwnedStatuses(db, opening, id);
    if db.tickets[id].status == Owned {
      hide Inv;
      AdmitAtGateKeeps(db, opening, id);
      InvIgnoresLedger(AdmitAtGate(db, id).db, Admits(db, id).ledger, opening);
    } else if db.tickets[id].status == Admitted {
      assert Admits(db, id).tickets == db.tickets;
    } else {
      OpenPoolStays(db, opening, id);
    }
  }

  lemma OwnedStatuses(db: Db, opening: seq<int>, id: TicketId)
    requires Inv(db, opening) && id in db.tickets && db.tickets[id].ownerId.Some?
    ensures db.tickets[id].status == Owned || db.tickets[id].status == Admitted || db.tickets[id].status == InResalePool
  {
  }

  lemma OpenPoolStays(db: Db, opening: seq<int>, id: TicketId)
    requires Inv(db, opening) && id in db.tickets && db.tickets[id].status == InResalePool
    ensures !Inv(Admits(db, id), opening)
  {
    hide SeatsInv, MoneyInv, StockInv, Owners, PoolsFit, AllocatedOnce;
    assert PoolCount(db.pools, id, Open) == 1;
  }

  /**
   What it costs: the holder of a listed ticket has entered, the pool is still OPEN, and the next buyer gets an OWNED
   ticket for a seat that has been entered.
   */
  lemma EnteredTicketIsResold(db: Db, opening: seq<int>, p: PoolId, buyerId: UserId, payment: Option<PaymentMethod>)
    requires Inv(db, opening) && p < |db.pools| && db.pools[p].status.Open? && payment.Some?
    requires FindUser(db.users, buyerId).Ok? && db.users[buyerId].verified && buyerId != db.pools[p].sellerId
    requires FindUser(db.users, db.pools[p].sellerId).Ok?
    ensures var id := db.pools[p].ticketId;
            && id in db.tickets
            && var sold := PurchaseResale(Admits(db, id), buyerId, p, payment);
               && sold.result == Ok(p) && id in sold.db.tickets
               && sold.db.tickets[id].ownerId == Some(buyerId) && sold.db.tickets[id].status == Owned
  {
    PoolTicket(db, opening, p);
    PoolPlace(db, opening, p);
    hide Inv;
  }

  lemma PoolPlace(db: Db, opening: seq<int>, p: PoolId)
    requires Inv(db, opening) && p < |db.pools|
    ensures HasPlace(db.pools[p].ticketId, db.events)
  {
    PoolTicket(db, opening, p);
  }

  /** There is such a state: the shop's seat, sold and listed, in a sound database with a second account. */
  lemma ListedSeatCanBeEntered()
    ensures Inv(LISTED, [0]) && |LISTED.pools| == 1 && LISTED.pools[0].status.Open? && LISTED.pools[0].ticketId == PaymentRoute.SHOP_SEAT
    ensures PaymentRoute.SHOP_SEAT in LISTED.tickets && !Inv(Admits(LISTED, PaymentRoute.SHOP_SEAT), [0])
  {
    hide Inv, ListForResale;
    DoorKeepsInv();
    SeatIsListed();
    AdmissionKeepsInvIff(LISTED, [0], PaymentRoute.SHOP_SEAT);
  }
}
