/** Seat holds and reservation drafts (backend/booking-holds.js). */
module Holds {
  import opened Prelude
  import opened SaleTypes

  // ---------------------------------------------------------------- tickets of a hold or draft

  function ReleaseHeldTickets(tickets: Tickets, holdId: HoldId, ids: seq<TicketId>): Tickets {
    map id | id in tickets ::
      if id in ids && tickets[id].status == Held && tickets[id].heldBy == Some(holdId)
      then tickets[id].(status := OnSale, heldBy := None, holdExpiresAt := None)
      else tickets[id]
  }

  function ReleaseDraftTickets(tickets: Tickets, draftId: DraftId, ids: seq<TicketId>): Tickets {
    map id | id in tickets ::
      if id in ids && tickets[id].status == Reserved && tickets[id].reservationId == Some(draftId)
      then tickets[id].(status := OnSale, reservationId := None, reservationExpiresAt := None)
      else tickets[id]
  }

  function HoldTickets(tickets: Tickets, ids: seq<TicketId>, holdId: HoldId, expiresAt: int): Tickets {
    map id | id in tickets ::
      if id in ids then tickets[id].(status := Held, heldBy := Some(holdId), holdExpiresAt := Some(expiresAt))
      else tickets[id]
  }

  function ExtendTickets(tickets: Tickets, ids: seq<TicketId>, expiresAt: int): Tickets {
    map id | id in tickets ::
      if id in ids then tickets[id].(holdExpiresAt := Some(expiresAt)) else tickets[id]
  }

  function ReserveTickets(tickets: Tickets, ids: seq<TicketId>, draftId: DraftId, expiresAt: int): Tickets {
    map id | id in tickets ::
      if id in ids
      then tickets[id].(status := Reserved, heldBy := None, holdExpiresAt := None,
                        reservationId := Some(draftId), reservationExpiresAt := Some(expiresAt))
      else tickets[id]
  }

  function FaceValues(tickets: Tickets, ids: seq<TicketId>): seq<int>
    requires forall id :: id in ids ==> id in tickets
  {
    seq(|ids|, i requires 0 <= i < |ids| => tickets[ids[i]].faceValue)
  }

  // ------------------------------------------------------------------------------------- holds

  function SetHoldStatus(holds: seq<Hold>, h: HoldId, status: HoldStatus): seq<Hold>
    requires h < |holds|
  {
    holds[h := holds[h].(status := status)]
  }

  /** Expiry or release of an ACTIVE hold: its status changes and its seats go back on sale. */
  function EndHold(db: Db, h: HoldId, status: HoldStatus): Db
    requires h < |db.holds|
  {
    db.(holds := SetHoldStatus(db.holds, h, status),
        tickets := ReleaseHeldTickets(db.tickets, h, db.holds[h].ticketIds))
  }

  function ReconcileHold(db: Db, h: HoldId, now: int): Db
    requires h < |db.holds|
  {
    if db.holds[h].status.HoldActive? && IsPast(db.holds[h].expiresAt, now) then EndHold(db, h, HoldExpired) else db
  }

  /** The loop over the ACTIVE holds, after its first `n` rounds. */
  function ReconcileHolds(db: Db, n: nat, now: int): (r: Db)
    requires n <= |db.holds|
    ensures |r.holds| == |db.holds|
  {
    if n == 0 then db else ReconcileHold(ReconcileHolds(db, n - 1, now), n - 1, now)
  }

  /** First error of the lookup of the requested seats, in the order they were asked for. */
  function CheckSeats(tickets: Tickets, ids: seq<TicketId>, dateId: string): Option<Error> {
    if ids == [] then None
    else if ids[0] !in tickets then Some(TicketNotFound)
    else if ids[0].dateId != dateId then Some(SeatPerformanceMismatch)
    else CheckSeats(tickets, ids[1..], dateId)
  }

  function CheckEventBookable(db: Db, id: TicketId): Option<Error> {
    if id.eventId !in db.events then Some(EventNotFound)
    else if FindZone(db.events[id.eventId].zones, id.zoneId).None? then Some(ZoneNotFound)
    else if !db.events[id.eventId].bookable then Some(EventNotOnSale)
    else None
  }

  function CreateSeatHold(db: Db, userId: UserId, dateId: string, ids: seq<TicketId>, now: int): Reply {
    var user := FindUser(db.users, userId);
    if user.Err? then Reply(db, Err(user.error))
    else if dateId == "" then Reply(db, Err(MissingField))
    else if ids == [] then Reply(db, Err(MissingField))
    else if |ids| > MAX_HOLD_SEATS then Reply(db, Err(TooManySeats))
    else if !NoDuplicates(ids) then Reply(db, Err(DuplicateSeat))
    else
      var lookup := CheckSeats(db.tickets, ids, dateId);
      if lookup.Some? then Reply(db, Err(lookup.value))
      else
        var db1 := ReconcileHolds(db, |db.holds|, now);
        if exists id :: id in ids && (id !in db1.tickets || db1.tickets[id].status != OnSale)
        then Reply(db1, Err(SeatAlreadyHeld))
        else
          var event := CheckEventBookable(db1, ids[0]);
          if event.Some? then Reply(db1, Err(event.value))
          else Reply(PlaceHold(db1, userId, dateId, ids, now), Ok(|db1.holds|))
  }

  function PlaceHold(db: Db, userId: UserId, dateId: string, ids: seq<TicketId>, now: int): Db {
    db.(holds := db.holds + [Hold(userId, dateId, ids, HoldActive, now + HOLD_TTL_MS, 0, now)],
        tickets := HoldTickets(db.tickets, ids, |db.holds|, now + HOLD_TTL_MS))
  }

  /** `requireOwnHold`: an expired hold is closed before anything else is decided about it. */
  function RequireOwnHold(db: Db, userId: UserId, h: HoldId, now: int): (r: Reply)
    ensures r.result.Ok? ==> h < |r.db.holds|
  {
    if h >= |db.holds| then Reply(db, Err(HoldNotFound))
    else if db.holds[h].userId != userId then Reply(db, Err(NotOwner))
    else Reply(ReconcileHold(db, h, now), Ok(h))
  }

  function ExtendSeatHold(db: Db, userId: UserId, h: HoldId, now: int): Reply {
    var own := RequireOwnHold(db, userId, h, now);
    if own.result.Err? then own
    else if !own.db.holds[h].status.HoldActive? then Reply(own.db, Err(HoldNotActive))
    else if own.db.holds[h].extensionsUsed >= HOLD_MAX_EXTENSIONS then Reply(own.db, Err(HoldExtensionLimit))
    else Reply(ExtendHold(own.db, h, now), Ok(h))
  }

  function ExtendHold(db: Db, h: HoldId, now: int): Db
    requires h < |db.holds|
  {
    var hold := db.holds[h];
    db.(holds := db.holds[h := hold.(expiresAt := now + HOLD_EXTENSION_MS, extensionsUsed := hold.extensionsUsed + 1)],
        tickets := ExtendTickets(db.tickets, hold.ticketIds, now + HOLD_EXTENSION_MS))
  }

  function ReleaseSeatHold(db: Db, userId: UserId, h: HoldId, now: int): Reply {
    var own := RequireOwnHold(db, userId, h, now);
    if own.result.Err? then own
    else if own.db.holds[h].status.HoldActive? then Reply(EndHold(own.db, h, HoldReleased), Ok(h))
    else own
  }

  // ------------------------------------------------------------------------------------ drafts

  function EndDraft(db: Db, d: DraftId, status: DraftStatus): Db
    requires d < |db.drafts|
  {
    db.(drafts := db.drafts[d := db.drafts[d].(status := status)],
        tickets := ReleaseDraftTickets(db.tickets, d, db.drafts[d].ticketIds))
  }

  function ReconcileDraft(db: Db, d: DraftId, now: int): Db
    requires d < |db.drafts|
  {
    if db.drafts[d].status.PendingPayment? && IsPast(db.drafts[d].expiresAt, now) then EndDraft(db, d, DraftExpired) else db
  }

  function CreateReservationDraft(db: Db, userId: UserId, h: HoldId, now: int): Reply {
    var user := FindUser(db.users, userId);
    if user.Err? then Reply(db, Err(user.error))
    else
      var own := RequireOwnHold(db, userId, h, now);
      if own.result.Err? then own
      else if !own.db.holds[h].status.HoldActive? then Reply(own.db, Err(HoldNotActive))
      else if exists id :: id in own.db.holds[h].ticketIds && id !in own.db.tickets then Reply(own.db, Err(TicketNotFound))
      else Reply(ConvertHold(own.db, h, now), Ok(|own.db.drafts|))
  }

  function ConvertHold(db: Db, h: HoldId, now: int): Db
    requires h < |db.holds|
    requires forall id :: id in db.holds[h].ticketIds ==> id in db.tickets
  {
    var hold := db.holds[h];
    var total := Sum(FaceValues(db.tickets, hold.ticketIds)) + |hold.ticketIds| * SERVICE_FEE_PER_SEAT;
    db.(holds := SetHoldStatus(db.holds, h, HoldConverted),
        drafts := db.drafts + [Draft(hold.userId, h, hold.dateId, hold.ticketIds, PendingPayment, now + DRAFT_TTL_MS, total)],
        tickets := ReserveTickets(db.tickets, hold.ticketIds, |db.drafts|, now + DRAFT_TTL_MS))
  }

  function RequireOwnDraft(db: Db, userId: UserId, d: DraftId, now: int): (r: Reply)
    ensures r.result.Ok? ==> d < |r.db.drafts|
  {
    if d >= |db.drafts| then Reply(db, Err(DraftNotFound))
    else if db.drafts[d].userId != userId then Reply(db, Err(NotOwner))
    else Reply(ReconcileDraft(db, d, now), Ok(d))
  }

  function CancelReservationDraft(db: Db, userId: UserId, d: DraftId, now: int): Reply {
    var own := RequireOwnDraft(db, userId, d, now);
    if own.result.Err? then own
    else if own.db.drafts[d].status.PendingPayment? then Reply(EndDraft(own.db, d, DraftCancelled), Ok(d))
    else own
  }
}
