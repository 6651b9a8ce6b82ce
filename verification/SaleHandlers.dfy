/** Every handler keeps the invariants, whatever it is asked and whether it succeeds or throws. */
module SaleHandlers {
  import opened Prelude
  import opened SaleTypes
  import opened Holds
  import opened Commerce
  import opened Inventory
  import opened SaleSteps
  import opened SaleInvariant
  import opened SaleSeats
  import opened SaleResale
  import opened SaleSales
  import opened SaleInventory

  // ------------------------------------------------------------------------------- holds and drafts

  /** Only unsold seats moved, and only their claims were edited with them. */
  ghost predicate SeatsOnly(db: Db, r: Db) {
    SeatShift(db.tickets, r.tickets)
    && r == db.(tickets := r.tickets, holds := r.holds, drafts := r.drafts)
  }

  lemma SeatsOnlyTransitive(a: Db, b: Db, c: Db)
    requires SeatsOnly(a, b) && SeatsOnly(b, c)
    ensures SeatsOnly(a, c)
  {
    SeatShiftTransitive(a.tickets, b.tickets, c.tickets);
  }

  /** What any step on holds and drafts leaves behind. */
  ghost predicate SeatOutcome(db: Db, r: Db, opening: seq<int>) {
    Inv(r, opening) && SeatsOnly(db, r)
  }

  lemma NoSeatChange(db: Db, opening: seq<int>)
    requires Inv(db, opening)
    ensures SeatOutcome(db, db, opening)
  {
    SeatShiftReflexive(db.tickets);
  }

  lemma SeatOutcomeTransitive(a: Db, b: Db, c: Db, opening: seq<int>)
    requires SeatOutcome(a, b, opening) && SeatOutcome(b, c, opening)
    ensures SeatOutcome(a, c, opening)
  {
    SeatsOnlyTransitive(a, b, c);
  }

  lemma SeatStepKeeps(db: Db, r: Db, opening: seq<int>)
    requires Inv(db, opening) && SeatsInv(r) && SeatShift(db.tickets, r.tickets)
    requires r == db.(tickets := r.tickets, holds := r.holds, drafts := r.drafts)
    ensures SeatOutcome(db, r, opening)
  {
    SeatShiftKeepsResale(db.tickets, r.tickets, db.users, db.pools, db.txs);
    SeatShiftKeepsStock(db.tickets, r.tickets, db.order, db.events);
  }

  lemma ReconcileKeeps(db: Db, opening: seq<int>, h: HoldId, now: int)
    requires Inv(db, opening) && h < |db.holds|
    ensures var r := ReconcileHold(db, h, now);
            SeatOutcome(db, r, opening) && (r.holds[h].status.HoldActive? ==> !IsPast(r.holds[h].expiresAt, now))
  {
    ReconcileHoldKeeps(db, h, now);
    SeatStepKeeps(db, ReconcileHold(db, h, now), opening);
  }

  lemma SweepKeeps(db: Db, opening: seq<int>, now: int)
    requires Inv(db, opening)
    ensures SeatOutcome(db, ReconcileHolds(db, |db.holds|, now), opening)
  {
    ReconcileHoldsKeeps(db, |db.holds|, now);
    SeatStepKeeps(db, ReconcileHolds(db, |db.holds|, now), opening);
  }

  lemma PlaceHoldStep(db: Db, opening: seq<int>, userId: UserId, dateId: string, ids: seq<TicketId>, now: int)
    requires Inv(db, opening) && forall id :: id in ids ==> id in db.tickets && db.tickets[id].status == OnSale
    ensures SeatOutcome(db, PlaceHold(db, userId, dateId, ids, now), opening)
  {
    PlaceHoldKeeps(db, userId, dateId, ids, now);
    SeatStepKeeps(db, PlaceHold(db, userId, dateId, ids, now), opening);
  }

  lemma CreateSeatHoldKeeps(db: Db, opening: seq<int>, userId: UserId, dateId: string, ids: seq<TicketId>, now: int)
    requires Inv(db, opening)
    ensures SeatOutcome(db, CreateSeatHold(db, userId, dateId, ids, now).db, opening)
  {
    hide SaleInvariant.Inv, SeatsOnly, Holds.ReconcileHolds;
    NoSeatChange(db, opening);
    SweepKeeps(db, opening, now);
    var db1 := ReconcileHolds(db, |db.holds|, now);
    if forall id :: id in ids ==> id in db1.tickets && db1.tickets[id].status == OnSale {
      PlaceHoldStep(db1, opening, userId, dateId, ids, now);
      SeatOutcomeTransitive(db, db1, PlaceHold(db1, userId, dateId, ids, now), opening);
    }
  }

  lemma EndHoldStep(db: Db, opening: seq<int>, h: HoldId, status: HoldStatus)
    requires Inv(db, opening) && h < |db.holds| && db.holds[h].status.HoldActive? && !status.HoldActive?
    ensures SeatOutcome(db, EndHold(db, h, status), opening)
  {
    EndHoldKeeps(db, h, status);
    SeatStepKeeps(db, EndHold(db, h, status), opening);
  }

  lemma ExtendHoldStep(db: Db, opening: seq<int>, h: HoldId, now: int)
    requires Inv(db, opening) && h < |db.holds| && db.holds[h].status.HoldActive? && !IsPast(db.holds[h].expiresAt, now)
    requires db.holds[h].extensionsUsed < HOLD_MAX_EXTENSIONS
    ensures SeatOutcome(db, ExtendHold(db, h, now), opening)
  {
    ExtendHoldKeeps(db, h, now);
    SeatStepKeeps(db, ExtendHold(db, h, now), opening);
  }

  lemma ConvertHoldStep(db: Db, opening: seq<int>, h: HoldId, now: int)
    requires Inv(db, opening) && h < |db.holds| && db.holds[h].status.HoldActive? && !IsPast(db.holds[h].expiresAt, now)
    requires forall id :: id in db.holds[h].ticketIds ==> id in db.tickets
    ensures SeatOutcome(db, ConvertHold(db, h, now), opening)
  {
    ConvertHoldKeeps(db, h, now);
    SeatStepKeeps(db, ConvertHold(db, h, now), opening);
  }

  lemma OwnHoldStepsKeep(db: Db, opening: seq<int>, userId: UserId, h: HoldId, now: int)
    requires Inv(db, opening)
    ensures SeatOutcome(db, RequireOwnHold(db, userId, h, now).db, opening)
    ensures SeatOutcome(db, ExtendSeatHold(db, userId, h, now).db, opening)
    ensures SeatOutcome(db, ReleaseSeatHold(db, userId, h, now).db, opening)
  {
    hide SaleInvariant.Inv, SeatsOnly, Holds.ExtendHold, Holds.EndHold;
    NoSeatChange(db, opening);
    var own := RequireOwnHold(db, userId, h, now);
    if own.result.Ok? {
      ReconcileKeeps(db, opening, h, now);
      if own.db.holds[h].status.HoldActive? {
        EndHoldStep(own.db, opening, h, HoldReleased);
        SeatOutcomeTransitive(db, own.db, EndHold(own.db, h, HoldReleased), opening);
        if own.db.holds[h].extensionsUsed < HOLD_MAX_EXTENSIONS {
          ExtendHoldStep(own.db, opening, h, now);
          SeatOutcomeTransitive(db, own.db, ExtendHold(own.db, h, now), opening);
        }
      }
    }
  }

  lemma CreateReservationDraftKeeps(db: Db, opening: seq<int>, userId: UserId, h: HoldId, now: int)
    requires Inv(db, opening)
    ensures SeatOutcome(db, CreateReservationDraft(db, userId, h, now).db, opening)
  {
    hide SaleInvariant.Inv, SeatsOnly, Holds.ConvertHold, Holds.EndHold;
    NoSeatChange(db, opening);
    var own := RequireOwnHold(db, userId, h, now);
    if own.result.Ok? {
      ReconcileKeeps(db, opening, h, now);
      if own.db.holds[h].status.HoldActive? && forall id :: id in own.db.holds[h].ticketIds ==> id in own.db.tickets {
        ConvertHoldStep(own.db, opening, h, now);
        SeatOutcomeTransitive(db, own.db, ConvertHold(own.db, h, now), opening);
      }
    }
  }

  lemma EndDraftStep(db: Db, opening: seq<int>, d: DraftId, status: DraftStatus)
    requires Inv(db, opening) && d < |db.drafts| && db.drafts[d].status.PendingPayment? && !status.PendingPayment?
    ensures SeatOutcome(db, EndDraft(db, d, status), opening)
  {
    EndDraftKeeps(db, d, status);
    SeatStepKeeps(db, EndDraft(db, d, status), opening);
  }

  lemma OwnDraftStepsKeep(db: Db, opening: seq<int>, userId: UserId, d: DraftId, now: int)
    requires Inv(db, opening)
    ensures SeatOutcome(db, RequireOwnDraft(db, userId, d, now).db, opening)
    ensures SeatOutcome(db, CancelReservationDraft(db, userId, d, now).db, opening)
  {
    hide SaleInvariant.Inv, SeatsOnly;
    NoSeatChange(db, opening);
    var own := RequireOwnDraft(db, userId, d, now);
    if own.result.Ok? {
      if db.drafts[d].status.PendingPayment? && IsPast(db.drafts[d].expiresAt, now) { EndDraftStep(db, opening, d, DraftExpired); }
      if own.db.drafts[d].status.PendingPayment? { EndDraftStep(own.db, opening, d, DraftCancelled); }
    }
  }

  // ----------------------------------------------------------------------------------------- sales

  lemma BuyPrimaryKeeps(db: Db, opening: seq<int>, p: Purchase, now: int)
    requires Inv(db, opening) && |p.ticketIds| == 1
    ensures Inv(BuyPrimary(db, p, now).db, opening)
  {
    hide SaleInvariant.Inv;
    var id := p.ticketIds[0];
    var claim := AssertPurchasable(db, id, p.userId, p.allowHold, p.draftId, now);
    if claim.Ok? && CheckBuyer(db, p).None? {
      PurchasableIsClaimOk(db, id, p.userId, p.allowHold, p.draftId, now);
      AllocateKeeps(db, opening, id, claim.value,
                    Primary(id, p.userId, PaidAmount(db, id, claim.value, p.approved), p.pg, IdemOf(p, false), |db.txs|));
    }
  }

  lemma BuyPrimaryGroupKeeps(db: Db, opening: seq<int>, p: Purchase, now: int)
    requires Inv(db, opening)
    ensures Inv(BuyPrimaryGroup(db, p, now).db, opening)
  {
    hide SaleInvariant.Inv;
    if CheckBuyer(db, p).None? && NormalizeGroup(p.ticketIds).None? && CheckGroup(db, p.ticketIds, p.userId, now).None? {
      CheckGroupFindsTickets(db, p.ticketIds, p.userId, now);
      AllocateSeatsKeeps(db, opening, p, SplitGroupAmount(p.approved, FaceValues(db.tickets, p.ticketIds)), |p.ticketIds|);
    }
  }

  lemma {:induction false} TakenFromAvailable(t: Tickets, order: seq<TicketId>, r: GroupRequest, count: nat)
    requires NoDuplicates(order) && count <= |Available(t, order, r)|
    ensures var ids := Available(t, order, r)[..count];
            NoDuplicates(ids) && forall id :: id in ids ==> id in t && t[id].status == OnSale
  {
    AvailableSeats(t, order, r);
    forall id | id in Available(t, order, r)[..count] ensures id in Available(t, order, r) {}
  }

  lemma ApproveGroupBookingKeeps(db: Db, opening: seq<int>, r: RequestId, assignedCount: Option<int>)
    requires Inv(db, opening)
    ensures Inv(ApproveGroupBooking(db, r, assignedCount).db, opening)
  {
    if r < |db.requests| {
      var count := if assignedCount.Some? then assignedCount.value else db.requests[r].headcount;
      if 0 <= count <= |Available(db.tickets, db.order, db.requests[r])| {
        TakenFromAvailable(db.tickets, db.order, db.requests[r], count);
        AssignGroupKeeps(db, opening, r, Available(db.tickets, db.order, db.requests[r])[..count]);
      }
    }
  }

  lemma InvIgnoresRequests(db: Db, opening: seq<int>, requests: seq<GroupRequest>, ledger: seq<LedgerEntry>)
    requires Inv(db, opening)
    ensures Inv(db.(requests := requests, ledger := ledger), opening)
  {
  }

  // ---------------------------------------------------------------------------------------- resale

  lemma PoolFitsAt(db: Db, opening: seq<int>, p: PoolId)
    requires Inv(db, opening) && p < |db.pools|
    ensures PoolFits(db.tickets, db.pools[p], db.users)
  {
  }

  lemma ListForResaleKeeps(db: Db, opening: seq<int>, sellerId: UserId, id: TicketId, price: Option<int>)
    requires Inv(db, opening)
    ensures Inv(ListForResale(db, sellerId, id, price).db, opening)
  {
    hide SaleInvariant.Inv;
    if ListForResale(db, sellerId, id, price).result.Ok? { OpenPoolKeeps(db, opening, sellerId, id, price.value); }
  }

  lemma JoinPoolKeeps(db: Db, opening: seq<int>, buyerId: UserId, p: PoolId)
    requires Inv(db, opening)
    ensures Inv(JoinPool(db, buyerId, p).db, opening)
  {
    if JoinPool(db, buyerId, p).result.Ok? {
      PoolFitsAt(db, opening, p);
      AddBuyerKeeps(db, opening, buyerId, p);
      InvIgnoresLedger(db.(pools := AddBuyer(db.pools, p, buyerId)), JoinPool(db, buyerId, p).db.ledger, opening);
    }
  }

  lemma ClosePoolLogged(db: Db, opening: seq<int>, p: PoolId, ledger: seq<LedgerEntry>)
    requires Inv(db, opening) && p < |db.pools| && db.pools[p].status.Open? && db.pools[p].ticketId in db.tickets
    ensures Inv(ClosePool(db, p).(ledger := ledger), opening)
  {
    PoolFitsAt(db, opening, p);
    ClosePoolKeeps(db, opening, p);
    InvIgnoresLedger(ClosePool(db, p), ledger, opening);
  }

  lemma CancelResaleListingKeeps(db: Db, opening: seq<int>, sellerId: UserId, p: PoolId)
    requires Inv(db, opening)
    ensures Inv(CancelResaleListing(db, sellerId, p).db, opening)
  {
    var r := CancelResaleListing(db, sellerId, p);
    if r.result.Ok? { ClosePoolLogged(db, opening, p, r.db.ledger); }
  }

  /**
   A match that fails leaves nothing behind: its date lookup, which sits after the ticket and the money have
   already moved, finds the date in every state the invariant allows.
   */
  lemma MatchNeverStopsHalfway(db: Db, opening: seq<int>, p: PoolId, buyerId: UserId, payment: Option<PaymentMethod>)
    requires Inv(db, opening) && p < |db.pools| && buyerId < |db.users|
    ensures var r := CompleteResaleMatch(db, p, buyerId, payment);
            && (r.result.Err? ==> r.db == db)
            && r.result != Err(EventDateNotFound)
            && (r.result.Ok? ==> r.db == SettleMatch(MoveTicket(db, p, buyerId), p, buyerId))
  {
    PoolFitsAt(db, opening, p);
    assert HasPlace(db.pools[p].ticketId, db.events);
  }

  lemma CompleteKeeps(db: Db, opening: seq<int>, p: PoolId, buyerId: UserId, payment: Option<PaymentMethod>)
    requires Inv(db, opening) && p < |db.pools| && buyerId < |db.users|
    requires db.pools[p].status.Open? && buyerId != db.pools[p].sellerId
    ensures Inv(CompleteResaleMatch(db, p, buyerId, payment).db, opening)
  {
    MatchNeverStopsHalfway(db, opening, p, buyerId, payment);
    PoolFitsAt(db, opening, p);
    MatchKeeps(db, opening, p, buyerId);
  }

  lemma DrawPoolKeeps(db: Db, opening: seq<int>, p: PoolId, payment: Option<PaymentMethod>, seed: nat)
    requires Inv(db, opening)
    ensures Inv(DrawPool(db, p, payment, seed).db, opening)
  {
    hide SaleInvariant.Inv;
    if p < |db.pools| && db.pools[p].status.Open? && db.pools[p].buyers != [] {
      PoolFitsAt(db, opening, p);
      var winnerId := db.pools[p].buyers[seed % |db.pools[p].buyers|];
      assert winnerId in db.pools[p].buyers;
      CompleteKeeps(db, opening, p, winnerId, payment);
    }
  }

  lemma PurchaseResaleKeeps(db: Db, opening: seq<int>, buyerId: UserId, p: PoolId, payment: Option<PaymentMethod>)
    requires Inv(db, opening)
    ensures Inv(PurchaseResale(db, buyerId, p, payment).db, opening)
  {
    JoinPoolKeeps(db, opening, buyerId, p);
    var joined := JoinPool(db, buyerId, p);
    if joined.result.Ok? { CompleteKeeps(joined.db, opening, p, buyerId, payment); }
  }

  lemma AdminCancelResalePoolKeeps(db: Db, opening: seq<int>, p: PoolId)
    requires Inv(db, opening)
    ensures Inv(AdminCancelResalePool(db, p).db, opening)
  {
    var r := AdminCancelResalePool(db, p);
    if r.result.Ok? {
      if db.pools[p].status.Matched? {
        PoolFitsAt(db, opening, p);
        ReverseKeeps(db, opening, p);
        InvIgnoresLedger(ReverseMatch(db, p), r.db.ledger, opening);
      } else {
        ClosePoolLogged(db, opening, p, r.db.ledger);
      }
    }
  }

  // --------------------------------------------------------------------------- operator, gate, users

  lemma UpdateTicketStatusesKeeps(db: Db, opening: seq<int>, updates: seq<(TicketId, TicketStatus)>)
    requires Inv(db, opening)
    ensures Inv(UpdateTicketStatuses(db, updates).db, opening)
  {
    if CheckStatusUpdates(db, updates).None? {
      CheckedUpdatesExist(db, updates);
      SetStatusesShifts(db, updates, |updates|);
      var r := SetStatuses(db, updates, |updates|);
      StatusShiftKeepsSeats(db.tickets, r.tickets, db.holds, db.drafts);
      SeatStepKeeps(db, r.(ledger := db.ledger), opening);
      InvIgnoresLedger(r.(ledger := db.ledger), r.ledger, opening);
    }
  }

  lemma UpdateEventSaleKeeps(db: Db, opening: seq<int>, eventId: string, input: SaleInput)
    requires Inv(db, opening) && (input.zones.Some? ==> ZonesNormalized(input.zones.value))
    ensures Inv(UpdateEventSale(db, eventId, input).db, opening)
  {
    if eventId in db.events {
      var next := NextEvent(db.events[eventId], input);
      if CheckInventoryUse(db.tickets, eventId, next.zones, next.dates).None? {
        RegenerateKeeps(db, opening, eventId, next, true);
        InvIgnoresLedger(RegenerateEvent(db, eventId, next, true), ApplySale(db, eventId, next).ledger, opening);
      }
    }
  }

  /**
   After a successful sale update the event's tickets are exactly one per date and seat plus the retained
   transactional ones, unsold seats carry the new prices, nothing sold, held or reserved was altered, and every
   ticket names an existing date and zone.
   */
  lemma UpdatedEventIsExact(db: Db, opening: seq<int>, eventId: string, input: SaleInput)
    requires Inv(db, opening) && (input.zones.Some? ==> ZonesNormalized(input.zones.value))
    requires UpdateEventSale(db, eventId, input).result.Ok?
    ensures eventId in db.events
    ensures var r, next := UpdateEventSale(db, eventId, input).db, NextEvent(db.events[eventId], input);
            && r.events == db.events[eventId := next]
            && Regenerated(db.tickets, r.tickets, eventId, next.zones, next.dates, SeatsForEvent(next), true)
            && OrderOk(r.tickets, r.order) && Placed(r.tickets, r.events)
  {
    hide SeatsInv, ResaleInv, MoneyInv, CheckInventorySize, CheckInventoryUse, RegenerateEvent, Regenerated, OrderOk, Placed,
         EventsNormalized, SeatsOk;
    UpdateEventSaleKeeps(db, opening, eventId, input);
    EventRegenerates(db, eventId, NextEvent(db.events[eventId], input), true);
  }

  lemma UpdateEventVenueKeeps(db: Db, opening: seq<int>, eventId: string, venueId: string)
    requires Inv(db, opening)
    ensures Inv(UpdateEventVenue(db, eventId, venueId).db, opening)
  {
    if eventId in db.events {
      var next := db.events[eventId].(venueId := venueId);
      SamePlacesUsable(db.tickets, db.events, eventId);
      RegenerateKeeps(db, opening, eventId, next, false);
      InvIgnoresLedger(RegenerateEvent(db, eventId, next, false), UpdateEventVenue(db, eventId, venueId).db.ledger, opening);
    }
  }

  lemma AdmitAtGateKeeps(db: Db, opening: seq<int>, id: TicketId)
    requires Inv(db, opening)
    ensures Inv(AdmitAtGate(db, id).db, opening)
  {
    if id in db.tickets && db.tickets[id].status == Owned {
      AdmitKeeps(db, opening, id);
      InvIgnoresLedger(db.(tickets := db.tickets[id := db.tickets[id].(status := Admitted)]), AdmitAtGate(db, id).db.ledger, opening);
    }
  }

  lemma UsersKeep(db: Db, opening: seq<int>, users: seq<User>)
    requires Inv(db, opening) && |db.users| <= |users|
    requires Balanced(users, db.txs, opening) && SellersKnown(users, db.txs)
    ensures Inv(db.(users := users), opening)
  {
    OwnersUsers(db.tickets, db.users, users, db.pools);
  }

  lemma AddUserKeeps(db: Db, opening: seq<int>, user: User)
    requires Inv(db, opening) && user.balance == 0
    ensures Inv(db.(users := db.users + [user]), opening)
  {
    NewAccountBalanced(db.users, db.txs, opening, user);
    UsersKeep(db, opening, db.users + [user]);
  }

  lemma SetUserFlagsKeeps(db: Db, opening: seq<int>, u: UserId, banned: bool, verified: bool)
    requires Inv(db, opening)
    ensures Inv(WithFlags(db, u, banned, verified).db, opening)
  {
    if u < |db.users| { UsersKeep(db, opening, db.users[u := db.users[u].(banned := banned, verified := verified)]); }
  }

  // ------------------------------------------------------------------------------------ every step

  predicate SeatStep(step: Step) {
    step.CreateHold? || step.GetHold? || step.ExtendHoldStep? || step.ReleaseHold? || step.CreateDraft? || step.GetDraft? || step.CancelDraft?
  }

  predicate ResaleStep(step: Step) {
    step.List? || step.Join? || step.CancelListing? || step.Draw? || step.BuyResale? || step.AdminCancelPool?
  }

  predicate SellingStep(step: Step) {
    step.Buy? || step.SubmitGroup? || step.ApproveGroup? || step.RejectGroup? || step.Admit? || step.RefundNeeded?
  }

  lemma SeatStepsKeep(db: Db, opening: seq<int>, step: Step, now: int)
    requires Inv(db, opening) && SeatStep(step)
    ensures SeatOutcome(db, Apply(db, step, now).db, opening)
  {
    hide SeatOutcome, SaleInvariant.Inv, Holds.CreateSeatHold, Holds.ExtendSeatHold, Holds.ReleaseSeatHold,
         Holds.CreateReservationDraft, Holds.CancelReservationDraft, Holds.RequireOwnHold, Holds.RequireOwnDraft;
    match step
    case CreateHold(u, dateId, ids) => CreateSeatHoldKeeps(db, opening, u, dateId, ids, now);
    case GetHold(u, h) => OwnHoldStepsKeep(db, opening, u, h, now);
    case ExtendHoldStep(u, h) => OwnHoldStepsKeep(db, opening, u, h, now);
    case ReleaseHold(u, h) => OwnHoldStepsKeep(db, opening, u, h, now);
    case CreateDraft(u, h) => CreateReservationDraftKeeps(db, opening, u, h, now);
    case GetDraft(u, d) => OwnDraftStepsKeep(db, opening, u, d, now);
    case CancelDraft(u, d) => OwnDraftStepsKeep(db, opening, u, d, now);
  }

  lemma ResaleStepsKeep(db: Db, opening: seq<int>, step: Step, now: int)
    requires Inv(db, opening) && ResaleStep(step)
    ensures Inv(Apply(db, step, now).db, opening)
  {
    hide SaleInvariant.Inv, Commerce.ListForResale, Commerce.JoinPool, Commerce.CancelResaleListing, Commerce.DrawPool,
         Commerce.PurchaseResale, Commerce.AdminCancelResalePool;
    match step
    case List(u, id, price) => ListForResaleKeeps(db, opening, u, id, price);
    case Join(u, p) => JoinPoolKeeps(db, opening, u, p);
    case CancelListing(u, p) => CancelResaleListingKeeps(db, opening, u, p);
    case Draw(p, payment, seed) => DrawPoolKeeps(db, opening, p, payment, seed);
    case BuyResale(u, p, payment) => PurchaseResaleKeeps(db, opening, u, p, payment);
    case AdminCancelPool(p) => AdminCancelResalePoolKeeps(db, opening, p);
  }

  lemma SellingStepsKeep(db: Db, opening: seq<int>, step: Step, now: int)
    requires Inv(db, opening) && WellFormed(step) && SellingStep(step)
    ensures Inv(Apply(db, step, now).db, opening)
  {
    hide SaleInvariant.Inv, Commerce.BuyPrimary, Commerce.BuyPrimaryGroup, Commerce.ApproveGroupBooking, Commerce.AdmitAtGate;
    match step
    case Buy(p, group) => if group { BuyPrimaryGroupKeeps(db, opening, p, now); } else { BuyPrimaryKeeps(db, opening, p, now); }
    case SubmitGroup(e, d, z, n) =>
      var r := SubmitGroupBooking(db, e, d, z, n).db;
      InvIgnoresRequests(db, opening, r.requests, r.ledger);
    case ApproveGroup(r, n) => ApproveGroupBookingKeeps(db, opening, r, n);
    case RejectGroup(r) =>
      var after := RejectGroupBooking(db, r).db;
      InvIgnoresRequests(db, opening, after.requests, after.ledger);
    case Admit(id) => AdmitAtGateKeeps(db, opening, id);
    case RefundNeeded(u, ids, key, amount, reason) => InvIgnoresLedger(db, Apply(db, step, now).db.ledger, opening);
  }

  lemma ConsoleStepsKeep(db: Db, opening: seq<int>, step: Step, now: int)
    requires Inv(db, opening) && WellFormed(step) && !SeatStep(step) && !ResaleStep(step) && !SellingStep(step)
    ensures Inv(Apply(db, step, now).db, opening)
  {
    hide SaleInvariant.Inv, Commerce.UpdateTicketStatuses, Inventory.UpdateEventSale, Inventory.UpdateEventVenue;
    match step
    case SetTicketStatuses(updates) => UpdateTicketStatusesKeeps(db, opening, updates);
    case UpdateSale(e, input) => UpdateEventSaleKeeps(db, opening, e, input);
    case UpdateVenue(e, v) => UpdateEventVenueKeeps(db, opening, e, v);
    case AddEvent(e, event) => if e !in db.events { FinishCreationKeeps(db, opening, e, event); }
    case AddUser(user) => AddUserKeeps(db, opening, user);
    case SetUserFlags(u, banned, verified) => SetUserFlagsKeeps(db, opening, u, banned, verified);
  }

  lemma OutcomeIsInv(db: Db, r: Db, opening: seq<int>)
    requires SeatOutcome(db, r, opening)
    ensures Inv(r, opening)
  {
  }

  /** Any handler, on any input, at any time, whether it answers or throws, keeps the whole invariant. */
  lemma StepKeeps(db: Db, opening: seq<int>, step: Step, now: int)
    requires Inv(db, opening) && WellFormed(step)
    ensures Inv(Apply(db, step, now).db, opening)
  {
    hide *;
    if SeatStep(step) { SeatStepsKeep(db, opening, step, now); OutcomeIsInv(db, Apply(db, step, now).db, opening); }
    else if ResaleStep(step) { ResaleStepsKeep(db, opening, step, now); }
    else if SellingStep(step) { SellingStepsKeep(db, opening, step, now); }
    else { ConsoleStepsKeep(db, opening, step, now); }
  }
}
