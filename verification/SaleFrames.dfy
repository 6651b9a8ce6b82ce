/** Which handlers touch the list of events, and which the list of group requests. */
module SaleFrames {
  import opened Prelude
  import opened SaleTypes
  import opened Holds
  import opened Commerce
  import opened Inventory
  import opened SaleSteps
  import opened SaleHandlers

  ghost predicate SameLists(db: Db, r: Db) {
    r.events == db.events && r.requests == db.requests
  }

  lemma {:induction false} SweepKeepsLists(db: Db, n: nat, now: int)
    requires n <= |db.holds|
    ensures SameLists(db, ReconcileHolds(db, n, now))
  {
    if n > 0 { SweepKeepsLists(db, n - 1, now); }
  }

  lemma {:induction false} AllocationKeepsLists(db: Db, p: Purchase, amounts: seq<int>, n: nat)
    requires n <= |p.ticketIds| && |amounts| == |p.ticketIds| && forall id :: id in p.ticketIds ==> id in db.tickets
    ensures SameLists(db, AllocateSeats(db, p, amounts, n))
  {
    if n > 0 { AllocationKeepsLists(db, p, amounts, n - 1); }
  }

  lemma {:induction false} StatusesKeepLists(db: Db, updates: seq<(TicketId, TicketStatus)>, n: nat)
    requires n <= |updates| && forall u :: u in updates ==> u.0 in db.tickets
    ensures SameLists(db, SetStatuses(db, updates, n))
  {
    if n > 0 { StatusesKeepLists(db, updates, n - 1); }
  }

  lemma CreateHoldKeepsLists(db: Db, userId: UserId, dateId: string, ids: seq<TicketId>, now: int)
    ensures SameLists(db, CreateSeatHold(db, userId, dateId, ids, now).db)
  {
    SweepKeepsLists(db, |db.holds|, now);
    hide ReconcileHolds, CheckSeats, CheckEventBookable, HoldTickets, NoDuplicates, FindUser;
  }

  lemma OwnHoldKeepsLists(db: Db, userId: UserId, h: HoldId, now: int)
    ensures SameLists(db, RequireOwnHold(db, userId, h, now).db) && SameLists(db, ExtendSeatHold(db, userId, h, now).db)
    ensures SameLists(db, ReleaseSeatHold(db, userId, h, now).db) && SameLists(db, CreateReservationDraft(db, userId, h, now).db)
  {
    hide ReleaseHeldTickets, ExtendTickets, ReserveTickets, FaceValues, IsPast, SetHoldStatus, FindUser;
  }

  lemma OwnDraftKeepsLists(db: Db, userId: UserId, d: DraftId, now: int)
    ensures SameLists(db, RequireOwnDraft(db, userId, d, now).db) && SameLists(db, CancelReservationDraft(db, userId, d, now).db)
  {
    hide ReleaseDraftTickets, IsPast;
  }

  lemma SeatStepsKeepLists(db: Db, step: Step, now: int)
    requires SeatStep(step) && WellFormed(step)
    ensures SameLists(db, Apply(db, step, now).db)
  {
    hide CreateSeatHold, RequireOwnHold, ExtendSeatHold, ReleaseSeatHold, CreateReservationDraft, RequireOwnDraft, CancelReservationDraft,
         SameLists;
    match step
    case CreateHold(u, dateId, ids) => CreateHoldKeepsLists(db, u, dateId, ids, now);
    case GetHold(u, h) => OwnHoldKeepsLists(db, u, h, now);
    case ExtendHoldStep(u, h) => OwnHoldKeepsLists(db, u, h, now);
    case ReleaseHold(u, h) => OwnHoldKeepsLists(db, u, h, now);
    case CreateDraft(u, h) => OwnHoldKeepsLists(db, u, h, now);
    case GetDraft(u, d) => OwnDraftKeepsLists(db, u, d, now);
    case CancelDraft(u, d) => OwnDraftKeepsLists(db, u, d, now);
  }

  lemma PurchaseKeepsLists(db: Db, p: Purchase, group: bool, now: int)
    requires group || |p.ticketIds| == 1
    ensures SameLists(db, (if group then BuyPrimaryGroup(db, p, now) else BuyPrimary(db, p, now)).db)
  {
    hide CheckBuyer, FindReplay, IdemOf, AssertPurchasable, CheckContexts, CheckContext, CheckGroup, OnePerformance, AllocateSeats,
         SplitGroupAmount, PaidAmount;
    if group && CheckGroup(db, p.ticketIds, p.userId, now).None? && p.ticketIds != [] {
      CheckGroupFindsTickets(db, p.ticketIds, p.userId, now);
      AllocationKeepsLists(db, p, SplitGroupAmount(p.approved, FaceValues(db.tickets, p.ticketIds)), |p.ticketIds|);
    }
  }

  lemma ConsoleKeepsLists(db: Db, step: Step, now: int)
    requires WellFormed(step) && (step.UpdateSale? || step.UpdateVenue? || step.SetTicketStatuses?)
    ensures Apply(db, step, now).db.events.Keys == db.events.Keys && Apply(db, step, now).db.requests == db.requests
  {
    hide Rebuild, Midway, SeatsForEvent, ActiveSeatKeys, CheckInventorySize, CheckInventoryUse, SetStatuses, CheckStatusUpdates;
    if step.SetTicketStatuses? && CheckStatusUpdates(db, step.updates).None? {
      CheckedUpdatesExist(db, step.updates);
      StatusesKeepLists(db, step.updates, |step.updates|);
    }
  }

  lemma OnlyCreationAddsEvents(db: Db, step: Step, now: int)
    requires WellFormed(step) && !step.AddEvent?
    ensures Apply(db, step, now).db.events.Keys == db.events.Keys
  {
    if SeatStep(step) {
      SeatStepsKeepLists(db, step, now);
      hide Apply;
    } else if step.Buy? {
      PurchaseKeepsLists(db, step.purchase, step.group, now);
      hide BuyPrimary, BuyPrimaryGroup;
    } else if step.UpdateSale? || step.UpdateVenue? || step.SetTicketStatuses? {
      ConsoleKeepsLists(db, step, now);
      hide Apply;
    } else {
      hide Available, FindZone, AssignTickets, SumFaces, CheckContext;
    }
  }

  /** What a step does to the group requests: one is added, or one that was pending is decided, or nothing changes. */
  ghost predicate RequestsFollow(db: Db, r: Reply, step: Step) {
    match step
    case SubmitGroup(e, d, z, n) =>
      if r.result.Err? then r.db.requests == db.requests
      else n >= 1 && r.db.requests == db.requests + [GroupRequest(e, d, z, n, Pending)]
    case ApproveGroup(q, _) => Decided(db.requests, r, q, Approved)
    case RejectGroup(q) => Decided(db.requests, r, q, Rejected)
    case _ => r.db.requests == db.requests
  }

  ghost predicate Decided(before: seq<GroupRequest>, r: Reply, q: RequestId, decision: RequestStatus) {
    if r.result.Err? then r.db.requests == before
    else q < |before| && before[q].status == Pending && r.db.requests == before[q := before[q].(status := decision)]
  }

  lemma StepFollowsRequests(db: Db, step: Step, now: int)
    requires WellFormed(step)
    ensures RequestsFollow(db, Apply(db, step, now), step)
  {
    if SeatStep(step) {
      SeatStepsKeepLists(db, step, now);
      hide Apply;
    } else if step.Buy? {
      PurchaseKeepsLists(db, step.purchase, step.group, now);
      hide BuyPrimary, BuyPrimaryGroup;
    } else if step.UpdateSale? || step.UpdateVenue? || step.SetTicketStatuses? {
      ConsoleKeepsLists(db, step, now);
      hide Apply;
    } else {
      hide Available, FindZone, AssignTickets, SumFaces, CheckContext, EnsureTickets, CheckInventorySize;
    }
  }
}
