/**
 When each handler on holds and drafts answers, and with what, told from the records alone: who asks, what the hold or
 draft says, what the clock shows.
 */
module HoldAnswers {
  import opened Prelude
  import opened SaleTypes
  import opened Holds
  import opened Inventory
  import opened SaleInvariant
  import opened SaleSeats
  import opened SaleHandlers

  /** An account that may act. */
  predicate Account(db: Db, u: UserId) { u < |db.users| && !db.users[u].banned }

  ghost predicate HasZone(zones: seq<Zone>, zoneId: string) { exists z :: z in zones && z.id == zoneId }

  /** An ACTIVE hold that has run out. */
  predicate Over(hold: Hold, now: int) { hold.status == HoldActive && hold.expiresAt <= now }

  /** A PENDING_PAYMENT draft that has run out. */
  predicate DraftOver(draft: Draft, now: int) { draft.status == PendingPayment && draft.expiresAt <= now }

  function Opened(t: Ticket): Ticket { t.(status := OnSale, heldBy := None, holdExpiresAt := None) }

  function Unreserved(t: Ticket): Ticket { t.(status := OnSale, reservationId := None, reservationExpiresAt := None) }

  predicate HeldUnder(t: Ticket, h: HoldId) { t.status == Held && t.heldBy == Some(h) }

  predicate ReservedUnder(t: Ticket, d: DraftId) { t.status == Reserved && t.reservationId == Some(d) }

  /** The hold ends with this status, its HELD seats open, and nothing else changes. */
  ghost predicate HoldEnds(db: Db, r: Db, h: HoldId, status: HoldStatus)
    requires h < |db.holds|
  {
    && r == db.(tickets := r.tickets, holds := db.holds[h := db.holds[h].(status := status)])
    && r.tickets.Keys == db.tickets.Keys
    && forall id :: id in db.tickets ==>
         r.tickets[id] == if id in db.holds[h].ticketIds && HeldUnder(db.tickets[id], h) then Opened(db.tickets[id]) else db.tickets[id]
  }

  ghost predicate DraftEnds(db: Db, r: Db, d: DraftId, status: DraftStatus)
    requires d < |db.drafts|
  {
    && r == db.(tickets := r.tickets, drafts := db.drafts[d := db.drafts[d].(status := status)])
    && r.tickets.Keys == db.tickets.Keys
    && forall id :: id in db.tickets ==>
         r.tickets[id] == if id in db.drafts[d].ticketIds && ReservedUnder(db.tickets[id], d) then Unreserved(db.tickets[id]) else db.tickets[id]
  }

  /** The caller's own hold, or the error that says why not. */
  ghost predicate OwnHoldOr(db: Db, userId: UserId, h: HoldId, result: Result<nat, Error>) {
    && (result == Err(HoldNotFound) <==> h >= |db.holds|)
    && (result == Err(NotOwner) <==> h < |db.holds| && db.holds[h].userId != userId)
  }

  ghost predicate OwnDraftOr(db: Db, userId: UserId, d: DraftId, result: Result<nat, Error>) {
    && (result == Err(DraftNotFound) <==> d >= |db.drafts|)
    && (result == Err(NotOwner) <==> d < |db.drafts| && db.drafts[d].userId != userId)
  }

  /** Reading a hold is for its user, and closes it as EXPIRED if it has run out. */
  lemma ReadHoldAnswers(db: Db, userId: UserId, h: HoldId, now: int)
    ensures var r := RequireOwnHold(db, userId, h, now);
            && OwnHoldOr(db, userId, h, r.result)
            && (r.result == Ok(h) <==> h < |db.holds| && db.holds[h].userId == userId)
            && (r.result.Err? ==> r.db == db)
            && (r.result.Ok? ==> if Over(db.holds[h], now) then HoldEnds(db, r.db, h, HoldExpired) else r.db == db)
  {
  }

  /** Releasing a hold is for its user: RELEASED in time, EXPIRED when it has run out, unchanged when it was over before. */
  lemma ReleaseAnswers(db: Db, userId: UserId, h: HoldId, now: int)
    ensures var r := ReleaseSeatHold(db, userId, h, now);
            && OwnHoldOr(db, userId, h, r.result)
            && (r.result == Ok(h) <==> h < |db.holds| && db.holds[h].userId == userId)
            && (r.result.Err? ==> r.db == db)
            && (r.result.Ok? ==>
                  if Over(db.holds[h], now) then HoldEnds(db, r.db, h, HoldExpired)
                  else if db.holds[h].status == HoldActive then HoldEnds(db, r.db, h, HoldReleased)
                  else r.db == db)
  {
  }

  /** An extension is for the hold's user, in time, once; then hold and seats run five minutes from now. */
  lemma ExtensionAnswers(db: Db, userId: UserId, h: HoldId, now: int)
    ensures var r := ExtendSeatHold(db, userId, h, now);
            && OwnHoldOr(db, userId, h, r.result)
            && (r.result == Ok(h) <==>
                  && h < |db.holds| && db.holds[h].userId == userId
                  && db.holds[h].status == HoldActive && now < db.holds[h].expiresAt && db.holds[h].extensionsUsed < 1)
            && (r.result == Err(HoldExtensionLimit) <==>
                  && h < |db.holds| && db.holds[h].userId == userId
                  && db.holds[h].status == HoldActive && now < db.holds[h].expiresAt && db.holds[h].extensionsUsed >= 1)
            && (r.result.Ok? ==>
                  && r.db == db.(tickets := r.db.tickets, holds := db.holds[h := db.holds[h].(
                                   expiresAt := now + 300000, extensionsUsed := db.holds[h].extensionsUsed + 1)])
                  && r.db.tickets.Keys == db.tickets.Keys
                  && forall id :: id in db.tickets ==>
                       r.db.tickets[id] == if id in db.holds[h].ticketIds
                                           then db.tickets[id].(holdExpiresAt := Some(now + 300000)) else db.tickets[id])
  {
    hide ReleaseHeldTickets;
  }

  /** Face values added up seat by seat. */
  function Faces(tickets: Tickets, ids: seq<TicketId>): int {
    if ids == [] then 0
    else
      var last := ids[|ids| - 1];
      Faces(tickets, ids[..|ids| - 1]) + (if last in tickets then tickets[last].faceValue else 0)
  }

  lemma {:induction false} FacesAddUp(tickets: Tickets, ids: seq<TicketId>)
    requires forall id :: id in ids ==> id in tickets
    ensures Sum(FaceValues(tickets, ids)) == Faces(tickets, ids)
  {
    if ids != [] {
      var init := ids[..|ids| - 1];
      assert forall id :: id in init ==> id in ids;
      FacesAddUp(tickets, init);
      assert FaceValues(tickets, ids)[..|ids| - 1] == FaceValues(tickets, init);
    }
  }

  /** A draft is for the hold's user, who may act, in time; then the hold is CONVERTED and its seats RESERVED for ten minutes. */
  lemma DraftAnswers(db: Db, userId: UserId, h: HoldId, now: int)
    ensures var r := CreateReservationDraft(db, userId, h, now);
            && (r.result.Ok? <==>
                  && Account(db, userId) && h < |db.holds| && db.holds[h].userId == userId
                  && db.holds[h].status == HoldActive && now < db.holds[h].expiresAt
                  && forall id :: id in db.holds[h].ticketIds ==> id in db.tickets)
            && (r.result.Ok? ==>
                  && r.result == Ok(|db.drafts|)
                  && r.db == db.(tickets := r.db.tickets, holds := db.holds[h := db.holds[h].(status := HoldConverted)], drafts := r.db.drafts)
                  && r.db.drafts == db.drafts + [Draft(userId, h, db.holds[h].dateId, db.holds[h].ticketIds, PendingPayment, now + 600000,
                                                       Faces(db.tickets, db.holds[h].ticketIds) + 2000 * |db.holds[h].ticketIds|)]
                  && r.db.tickets.Keys == db.tickets.Keys
                  && forall id :: id in db.tickets ==>
                       r.db.tickets[id] == if id in db.holds[h].ticketIds
                                           then db.tickets[id].(status := Reserved, heldBy := None, holdExpiresAt := None,
                                                                reservationId := Some(|db.drafts|), reservationExpiresAt := Some(now + 600000))
                                           else db.tickets[id])
  {
    if h < |db.holds| && forall id :: id in db.holds[h].ticketIds ==> id in db.tickets { FacesAddUp(db.tickets, db.holds[h].ticketIds); }
    hide ReleaseHeldTickets, FaceValues, Sum, Faces;
  }

  /** Reading a draft is for its user, and closes it as EXPIRED if it has run out. */
  lemma ReadDraftAnswers(db: Db, userId: UserId, d: DraftId, now: int)
    ensures var r := RequireOwnDraft(db, userId, d, now);
            && OwnDraftOr(db, userId, d, r.result)
            && (r.result == Ok(d) <==> d < |db.drafts| && db.drafts[d].userId == userId)
            && (r.result.Err? ==> r.db == db)
            && (r.result.Ok? ==> if DraftOver(db.drafts[d], now) then DraftEnds(db, r.db, d, DraftExpired) else r.db == db)
  {
  }

  /** Cancelling a draft is for its user: CANCELLED in time, EXPIRED when it has run out, unchanged when it was over before. */
  lemma CancelDraftAnswers(db: Db, userId: UserId, d: DraftId, now: int)
    ensures var r := CancelReservationDraft(db, userId, d, now);
            && OwnDraftOr(db, userId, d, r.result)
            && (r.result == Ok(d) <==> d < |db.drafts| && db.drafts[d].userId == userId)
            && (r.result.Err? ==> r.db == db)
            && (r.result.Ok? ==>
                  if DraftOver(db.drafts[d], now) then DraftEnds(db, r.db, d, DraftExpired)
                  else if db.drafts[d].status == PendingPayment then DraftEnds(db, r.db, d, DraftCancelled)
                  else r.db == db)
  {
  }

  // -------------------------------------------------------------------------------------- new holds

  /** On sale, or held by a hold that has run out. */
  predicate Free(db: Db, id: TicketId, now: int)
    requires id in db.tickets
  {
    var t := db.tickets[id];
    t.status == OnSale || (t.status == Held && t.heldBy.Some? && t.heldBy.value < |db.holds| && Over(db.holds[t.heldBy.value], now))
  }

  /** The ticket once every hold that has run out is closed. */
  function AfterSweep(db: Db, id: TicketId, now: int): Ticket
    requires id in db.tickets
  {
    if db.tickets[id].status != OnSale && Free(db, id, now) then Opened(db.tickets[id]) else db.tickets[id]
  }

  ghost predicate MayHold(db: Db, userId: UserId, dateId: string, ids: seq<TicketId>, now: int) {
    && Account(db, userId) && dateId != "" && 1 <= |ids| <= 4
    && (forall i, j :: 0 <= i < j < |ids| ==> ids[i] != ids[j])
    && (forall id :: id in ids ==> id in db.tickets && id.dateId == dateId && Free(db, id, now))
    && ids[0].eventId in db.events && HasZone(db.events[ids[0].eventId].zones, ids[0].zoneId) && db.events[ids[0].eventId].bookable
  }

  lemma {:induction false} SeatsChecked(tickets: Tickets, ids: seq<TicketId>, dateId: string)
    ensures CheckSeats(tickets, ids, dateId).None? <==> forall id :: id in ids ==> id in tickets && id.dateId == dateId
  {
    if ids != [] {
      SeatsChecked(tickets, ids[1..], dateId);
      assert forall id :: id in ids <==> id == ids[0] || id in ids[1..];
    }
  }

  lemma SweepAsTold(db: Db, opening: seq<int>, now: int)
    requires Inv(db, opening)
    ensures var r := ReconcileHolds(db, |db.holds|, now);
            && r == db.(tickets := r.tickets, holds := r.holds) && |r.holds| == |db.holds| && r.tickets.Keys == db.tickets.Keys
            && (forall h :: 0 <= h < |db.holds| ==>
                  r.holds[h] == if Over(db.holds[h], now) then db.holds[h].(status := HoldExpired) else db.holds[h])
            && (forall id :: id in db.tickets ==> r.tickets[id] == AfterSweep(db, id, now))
  {
    hide ReconcileHolds, AfterSweep, Over, HoldsSwept, TicketsSwept;
    SweepIsExact(db, |db.holds|, now);
    var r := ReconcileHolds(db, |db.holds|, now);
    HoldsSweptAsTold(db, r.holds, now);
    TicketsSweptAsTold(db, r.tickets, now);
  }

  lemma HoldsSweptAsTold(db: Db, holds: seq<Hold>, now: int)
    requires HoldsSwept(db, holds, |db.holds|, now)
    ensures |holds| == |db.holds|
    ensures forall h :: 0 <= h < |db.holds| ==>
              holds[h] == if Over(db.holds[h], now) then db.holds[h].(status := HoldExpired) else db.holds[h]
  {
  }

  lemma TicketsSweptAsTold(db: Db, tickets: Tickets, now: int)
    requires TicketsSwept(db, tickets, |db.holds|, now) && HoldsMatch(db.tickets, db.holds)
    ensures tickets.Keys == db.tickets.Keys && forall id :: id in db.tickets ==> tickets[id] == AfterSweep(db, id, now)
  {
  }

  lemma SweptIsFree(db: Db, ids: seq<TicketId>, now: int)
    requires forall id :: id in ids ==> id in db.tickets
    ensures (forall id :: id in ids ==> AfterSweep(db, id, now).status == OnSale) <==> (forall id :: id in ids ==> Free(db, id, now))
  {
  }

  lemma BookableAsTold(db: Db, id: TicketId)
    ensures CheckEventBookable(db, id).None? <==>
              id.eventId in db.events && HasZone(db.events[id.eventId].zones, id.zoneId) && db.events[id.eventId].bookable
  {
    if id.eventId in db.events { FindZoneFinds(db.events[id.eventId].zones, id.zoneId); }
  }

  lemma OpenAfterSweep(db: Db, swept: Db, ids: seq<TicketId>, now: int)
    requires forall id :: id in ids ==> id in db.tickets
    requires swept.tickets.Keys == db.tickets.Keys && forall id :: id in db.tickets ==> swept.tickets[id] == AfterSweep(db, id, now)
    ensures (exists id :: id in ids && (id !in swept.tickets || swept.tickets[id].status != OnSale)) <==>
              !(forall id :: id in ids ==> Free(db, id, now))
  {
    SweptIsFree(db, ids, now);
    hide AfterSweep, Free;
  }

  lemma HoldAsCoded(db: Db, userId: UserId, dateId: string, ids: seq<TicketId>, now: int)
    ensures var swept := ReconcileHolds(db, |db.holds|, now);
            CreateSeatHold(db, userId, dateId, ids, now).result.Ok? <==>
              && Account(db, userId) && dateId != "" && 1 <= |ids| <= 4 && (forall i, j :: 0 <= i < j < |ids| ==> ids[i] != ids[j])
              && CheckSeats(db.tickets, ids, dateId).None?
              && !(exists id :: id in ids && (id !in swept.tickets || swept.tickets[id].status != OnSale))
              && CheckEventBookable(swept, ids[0]).None?
  {
    hide ReconcileHolds, CheckSeats, CheckEventBookable;
  }

  /**
   A new hold is granted exactly if the caller may act, asks for one to four distinct seats of one named performance, all
   on sale or held by nobody with time left, and the event of the first can be booked.
   */
  lemma NewHoldAnswers(db: Db, opening: seq<int>, userId: UserId, dateId: string, ids: seq<TicketId>, now: int)
    requires Inv(db, opening)
    ensures CreateSeatHold(db, userId, dateId, ids, now).result.Ok? <==> MayHold(db, userId, dateId, ids, now)
  {
    hide Inv, CreateSeatHold, ReconcileHolds, CheckSeats, CheckEventBookable, AfterSweep, Free, HasZone, Account;
    HoldAsCoded(db, userId, dateId, ids, now);
    SweepAsTold(db, opening, now);
    SeatsChecked(db.tickets, ids, dateId);
    var swept := ReconcileHolds(db, |db.holds|, now);
    if ids != [] {
      BookableAsTold(swept, ids[0]);
      assert ids[0] in ids;
    }
    if forall id :: id in ids ==> id in db.tickets { OpenAfterSweep(db, swept, ids, now); }
  }

  lemma PlacedHold(swept: Db, userId: UserId, dateId: string, ids: seq<TicketId>, now: int)
    ensures var r := PlaceHold(swept, userId, dateId, ids, now);
            && r == swept.(tickets := r.tickets, holds := swept.holds + [Hold(userId, dateId, ids, HoldActive, now + 300000, 0, now)])
            && r.tickets.Keys == swept.tickets.Keys
            && forall id :: id in swept.tickets ==>
                 r.tickets[id] == if id in ids
                                  then swept.tickets[id].(status := Held, heldBy := Some(|swept.holds|), holdExpiresAt := Some(now + 300000))
                                  else swept.tickets[id]
  {
  }

  /** It runs five minutes; holds that have run out are closed and their seats opened on the way, and nothing else changes. */
  lemma NewHoldLeaves(db: Db, opening: seq<int>, userId: UserId, dateId: string, ids: seq<TicketId>, now: int)
    requires Inv(db, opening) && CreateSeatHold(db, userId, dateId, ids, now).result.Ok?
    ensures var r := CreateSeatHold(db, userId, dateId, ids, now);
            && r.result == Ok(|db.holds|)
            && r.db == db.(tickets := r.db.tickets, holds := r.db.holds) && |r.db.holds| == |db.holds| + 1
            && (forall h :: 0 <= h < |db.holds| ==>
                  r.db.holds[h] == if Over(db.holds[h], now) then db.holds[h].(status := HoldExpired) else db.holds[h])
            && r.db.holds[|db.holds|] == Hold(userId, dateId, ids, HoldActive, now + 300000, 0, now)
            && r.db.tickets.Keys == db.tickets.Keys
            && forall id :: id in db.tickets ==>
                 r.db.tickets[id] == if id in ids
                                     then AfterSweep(db, id, now).(status := Held, heldBy := Some(|db.holds|), holdExpiresAt := Some(now + 300000))
                                     else AfterSweep(db, id, now)
  {
    hide Inv, ReconcileHolds, CheckSeats, CheckEventBookable, AfterSweep, NoDuplicates, PlaceHold, FindUser, Over;
    SweepAsTold(db, opening, now);
    PlacedHold(ReconcileHolds(db, |db.holds|, now), userId, dateId, ids, now);
  }
}
