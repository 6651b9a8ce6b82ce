/** Seat holds and reservation drafts as the server runs them: loops over tickets, records edited in place. */
module HoldsEngine {
  import opened Prelude
  import opened SaleTypes
  import opened Holds
  import opened Database

  lemma ReleaseNext(t: Tickets, h: HoldId, ids: seq<TicketId>, id: TicketId)
    ensures var before := ReleaseHeldTickets(t, h, ids);
            ReleaseHeldTickets(t, h, ids + [id]) ==
              if id in before && before[id].status == Held && before[id].heldBy == Some(h)
              then before[id := before[id].(status := OnSale, heldBy := None, holdExpiresAt := None)] else before
  {
  }

  /** `releaseHeldTickets` */
  method ReleaseHeld(db: Database, h: HoldId, ids: seq<TicketId>)
    modifies db`tickets
    ensures db.tickets == ReleaseHeldTickets(old(db.tickets), h, ids)
  {
    for i := 0 to |ids|
      invariant db.tickets == ReleaseHeldTickets(old(db.tickets), h, ids[..i])
    {
      ReleaseNext(old(db.tickets), h, ids[..i], ids[i]);
      assert ids[..i + 1] == ids[..i] + [ids[i]];
      hide Holds.ReleaseHeldTickets;
      var id := ids[i];
      if id in db.tickets && db.tickets[id].status == Held && db.tickets[id].heldBy == Some(h) {
        db.tickets := db.tickets[id := db.tickets[id].(status := OnSale, heldBy := None, holdExpiresAt := None)];
      }
    }
    assert ids[..|ids|] == ids;
  }

  lemma ReleaseDraftNext(t: Tickets, d: DraftId, ids: seq<TicketId>, id: TicketId)
    ensures var before := ReleaseDraftTickets(t, d, ids);
            ReleaseDraftTickets(t, d, ids + [id]) ==
              if id in before && before[id].status == Reserved && before[id].reservationId == Some(d)
              then before[id := before[id].(status := OnSale, reservationId := None, reservationExpiresAt := None)] else before
  {
  }

  /** `releaseDraftTickets` */
  method ReleaseReserved(db: Database, d: DraftId, ids: seq<TicketId>)
    modifies db`tickets
    ensures db.tickets == ReleaseDraftTickets(old(db.tickets), d, ids)
  {
    for i := 0 to |ids|
      invariant db.tickets == ReleaseDraftTickets(old(db.tickets), d, ids[..i])
    {
      ReleaseDraftNext(old(db.tickets), d, ids[..i], ids[i]);
      assert ids[..i + 1] == ids[..i] + [ids[i]];
      hide Holds.ReleaseDraftTickets;
      var id := ids[i];
      if id in db.tickets && db.tickets[id].status == Reserved && db.tickets[id].reservationId == Some(d) {
        db.tickets := db.tickets[id := db.tickets[id].(status := OnSale, reservationId := None, reservationExpiresAt := None)];
      }
    }
    assert ids[..|ids|] == ids;
  }

  /** `reconcileHold` */
  method Reconcile(db: Database, h: HoldId, now: int)
    requires h < |db.holds|
    modifies db
    ensures db.Snapshot() == ReconcileHold(old(db.Snapshot()), h, now)
  {
    if db.holds[h].status.HoldActive? && IsPast(db.holds[h].expiresAt, now) {
      db.holds := db.holds[h := db.holds[h].(status := HoldExpired)];
      ReleaseHeld(db, h, db.holds[h].ticketIds);
    }
  }

  /** The sweep over every ACTIVE hold before a new one is placed. */
  method Sweep(db: Database, now: int)
    modifies db
    ensures db.Snapshot() == ReconcileHolds(old(db.Snapshot()), |old(db.holds)|, now)
  {
    for h := 0 to |db.holds|
      invariant |db.holds| == |old(db.holds)|
      invariant db.Snapshot() == ReconcileHolds(old(db.Snapshot()), h, now)
    {
      hide Holds.ReconcileHold;
      Reconcile(db, h, now);
    }
  }

  lemma HoldNext(t: Tickets, ids: seq<TicketId>, h: HoldId, expiresAt: int, id: TicketId)
    requires id in t
    ensures var before := HoldTickets(t, ids, h, expiresAt);
            HoldTickets(t, ids + [id], h, expiresAt)
            == before[id := before[id].(status := Held, heldBy := Some(h), holdExpiresAt := Some(expiresAt))]
  {
  }

  lemma {:induction false} LookupFinds(tickets: Tickets, ids: seq<TicketId>, dateId: string, i: nat)
    requires i <= |ids| && forall j :: 0 <= j < i ==> ids[j] in tickets && ids[j].dateId == dateId
    ensures CheckSeats(tickets, ids, dateId) == CheckSeats(tickets, ids[i..], dateId)
  {
    if i > 0 {
      LookupFinds(tickets, ids, dateId, i - 1);
      assert ids[i - 1..][1..] == ids[i..];
    }
  }

  method FindSeats(db: Database, ids: seq<TicketId>, dateId: string) returns (error: Option<Error>)
    ensures error == CheckSeats(db.tickets, ids, dateId)
    ensures error.None? ==> forall id :: id in ids ==> id in db.tickets
  {
    for i := 0 to |ids|
      invariant forall j :: 0 <= j < i ==> ids[j] in db.tickets && ids[j].dateId == dateId
    {
      LookupFinds(db.tickets, ids, dateId, i);
      if ids[i] !in db.tickets { return Some(TicketNotFound); }
      if ids[i].dateId != dateId { return Some(SeatPerformanceMismatch); }
    }
    LookupFinds(db.tickets, ids, dateId, |ids|);
    return None;
  }

  method AnyNotOnSale(db: Database, ids: seq<TicketId>) returns (taken: bool)
    ensures taken <==> exists id :: id in ids && (id !in db.tickets || db.tickets[id].status != OnSale)
  {
    for i := 0 to |ids|
      invariant forall j :: 0 <= j < i ==> ids[j] in db.tickets && db.tickets[ids[j]].status == OnSale
    {
      if ids[i] !in db.tickets || db.tickets[ids[i]].status != OnSale {
        assert ids[i] in ids;
        return true;
      }
    }
    return false;
  }

  /** Marks the seats of a new hold, then records the hold. */
  method Place(db: Database, userId: UserId, dateId: string, ids: seq<TicketId>, now: int)
    requires forall id :: id in ids ==> id in db.tickets
    modifies db
    ensures db.Snapshot() == PlaceHold(old(db.Snapshot()), userId, dateId, ids, now)
  {
    var hold := Hold(userId, dateId, ids, HoldActive, now + HOLD_TTL_MS, 0, now);
    for i := 0 to |ids|
      invariant db.Snapshot() == old(db.Snapshot()).(tickets := HoldTickets(old(db.tickets), ids[..i], |db.holds|, hold.expiresAt))
    {
      assert ids[i] in ids && ids[..i + 1] == ids[..i] + [ids[i]];
      HoldNext(old(db.tickets), ids[..i], |db.holds|, hold.expiresAt, ids[i]);
      db.tickets := db.tickets[ids[i] := db.tickets[ids[i]].(
        status := Held, heldBy := Some(|db.holds|), holdExpiresAt := Some(hold.expiresAt))];
    }
    assert ids[..|ids|] == ids;
    db.holds := db.holds + [hold];
  }

  method CreateSeatHold(db: Database, userId: UserId, dateId: string, ids: seq<TicketId>, now: int) returns (result: Result<nat, Error>)
    modifies db
    ensures Reply(db.Snapshot(), result) == Holds.CreateSeatHold(old(db.Snapshot()), userId, dateId, ids, now)
  {
    hide Holds.ReconcileHolds, Holds.PlaceHold, SaleTypes.FindZone, Holds.CheckSeats;
    var user := FindUser(db.users, userId);
    if user.Err? { return Err(user.error); }
    if dateId == "" || ids == [] { return Err(MissingField); }
    if |ids| > MAX_HOLD_SEATS { return Err(TooManySeats); }
    if !NoDuplicates(ids) { return Err(DuplicateSeat); }
    var lookup := FindSeats(db, ids, dateId);
    if lookup.Some? { return Err(lookup.value); }
    Sweep(db, now);
    var taken := AnyNotOnSale(db, ids);
    if taken { return Err(SeatAlreadyHeld); }
    var event := CheckEventBookable(db.Snapshot(), ids[0]);
    if event.Some? { return Err(event.value); }
    result := Ok(|db.holds|);
    Place(db, userId, dateId, ids, now);
  }

  method RequireOwnHold(db: Database, userId: UserId, h: HoldId, now: int) returns (result: Result<nat, Error>)
    modifies db
    ensures Reply(db.Snapshot(), result) == Holds.RequireOwnHold(old(db.Snapshot()), userId, h, now)
    ensures result.Ok? ==> h < |db.holds| && result.value == h
  {
    if h >= |db.holds| { return Err(HoldNotFound); }
    if db.holds[h].userId != userId { return Err(NotOwner); }
    Reconcile(db, h, now);
    return Ok(h);
  }

  lemma ExtendNext(t: Tickets, ids: seq<TicketId>, expiresAt: int, id: TicketId)
    ensures var before := ExtendTickets(t, ids, expiresAt);
            ExtendTickets(t, ids + [id], expiresAt)
            == if id in before then before[id := before[id].(holdExpiresAt := Some(expiresAt))] else before
  {
  }

  method ExtendSeatHold(db: Database, userId: UserId, h: HoldId, now: int) returns (result: Result<nat, Error>)
    modifies db
    ensures Reply(db.Snapshot(), result) == Holds.ExtendSeatHold(old(db.Snapshot()), userId, h, now)
  {
    var own := RequireOwnHold(db, userId, h, now);
    if own.Err? { return own; }
    hide Holds.RequireOwnHold, Holds.ExtendTickets;
    if !db.holds[h].status.HoldActive? { return Err(HoldNotActive); }
    if db.holds[h].extensionsUsed >= HOLD_MAX_EXTENSIONS { return Err(HoldExtensionLimit); }
    Prolong(db, h, now);
    return Ok(h);
  }

  method Prolong(db: Database, h: HoldId, now: int)
    requires h < |db.holds|
    modifies db
    ensures db.Snapshot() == ExtendHold(old(db.Snapshot()), h, now)
  {
    var expiresAt, ids := now + HOLD_EXTENSION_MS, db.holds[h].ticketIds;
    db.holds := db.holds[h := db.holds[h].(expiresAt := expiresAt, extensionsUsed := db.holds[h].extensionsUsed + 1)];
    ghost var marked := db.Snapshot();
    for i := 0 to |ids|
      invariant db.Snapshot() == marked.(tickets := ExtendTickets(old(db.tickets), ids[..i], expiresAt))
    {
      assert ids[..i + 1] == ids[..i] + [ids[i]];
      ExtendNext(old(db.tickets), ids[..i], expiresAt, ids[i]);
      if ids[i] in db.tickets {
        db.tickets := db.tickets[ids[i] := db.tickets[ids[i]].(holdExpiresAt := Some(expiresAt))];
      }
    }
    assert ids[..|ids|] == ids;
  }

  method ReleaseSeatHold(db: Database, userId: UserId, h: HoldId, now: int) returns (result: Result<nat, Error>)
    modifies db
    ensures Reply(db.Snapshot(), result) == Holds.ReleaseSeatHold(old(db.Snapshot()), userId, h, now)
  {
    hide Holds.RequireOwnHold;
    var own := RequireOwnHold(db, userId, h, now);
    if own.Err? { return own; }
    if db.holds[h].status.HoldActive? {
      db.holds := db.holds[h := db.holds[h].(status := HoldReleased)];
      ReleaseHeld(db, h, db.holds[h].ticketIds);
    }
    return Ok(h);
  }

  lemma ReserveNext(t: Tickets, ids: seq<TicketId>, d: DraftId, expiresAt: int, id: TicketId)
    requires id in t
    ensures var before := ReserveTickets(t, ids, d, expiresAt);
            ReserveTickets(t, ids + [id], d, expiresAt)
            == before[id := before[id].(status := Reserved, heldBy := None, holdExpiresAt := None,
                                        reservationId := Some(d), reservationExpiresAt := Some(expiresAt))]
  {
  }

  /** The face values of the hold's tickets, added up; the first missing ticket ends the lookup. */
  method TotalFace(db: Database, ids: seq<TicketId>) returns (total: Option<int>)
    ensures total.None? <==> exists id :: id in ids && id !in db.tickets
    ensures total.Some? ==> total.value == Sum(FaceValues(db.tickets, ids))
  {
    var sum := 0;
    for i := 0 to |ids|
      invariant forall j :: 0 <= j < i ==> ids[j] in db.tickets
      invariant sum == Sum(FaceValues(db.tickets, ids[..i]))
    {
      if ids[i] !in db.tickets {
        assert ids[i] in ids;
        return None;
      }
      assert FaceValues(db.tickets, ids[..i + 1]) == FaceValues(db.tickets, ids[..i]) + [db.tickets[ids[i]].faceValue];
      SumAppend(FaceValues(db.tickets, ids[..i]), [db.tickets[ids[i]].faceValue]);
      SumOne(db.tickets[ids[i]].faceValue);
      sum := sum + db.tickets[ids[i]].faceValue;
    }
    assert ids[..|ids|] == ids;
    return Some(sum);
  }

  lemma SumOne(x: int)
    ensures Sum([x]) == x
  {
    assert [x][..0] == [];
  }

  /** Converts an ACTIVE hold whose tickets all exist into a reservation draft. */
  method Convert(db: Database, h: HoldId, now: int)
    requires h < |db.holds| && forall id :: id in db.holds[h].ticketIds ==> id in db.tickets
    modifies db
    ensures db.Snapshot() == ConvertHold(old(db.Snapshot()), h, now)
  {
    var hold, d, expiresAt := db.holds[h], |db.drafts|, now + DRAFT_TTL_MS;
    var ids := hold.ticketIds;
    var faces := TotalFace(db, ids);
    db.holds := db.holds[h := hold.(status := HoldConverted)];
    ghost var marked := db.Snapshot();
    for i := 0 to |ids|
      invariant db.Snapshot() == marked.(tickets := ReserveTickets(old(db.tickets), ids[..i], d, expiresAt))
    {
      hide Holds.FaceValues;
      assert ids[i] in ids && ids[..i + 1] == ids[..i] + [ids[i]];
      ReserveNext(old(db.tickets), ids[..i], d, expiresAt, ids[i]);
      db.tickets := db.tickets[ids[i] := db.tickets[ids[i]].(
        status := Reserved, heldBy := None, holdExpiresAt := None,
        reservationId := Some(d), reservationExpiresAt := Some(expiresAt))];
    }
    assert ids[..|ids|] == ids;
    db.drafts := db.drafts + [Draft(hold.userId, h, hold.dateId, ids, PendingPayment, expiresAt,
                                    faces.value + |ids| * SERVICE_FEE_PER_SEAT)];
  }

  method CreateReservationDraft(db: Database, userId: UserId, h: HoldId, now: int) returns (result: Result<nat, Error>)
    modifies db
    ensures Reply(db.Snapshot(), result) == Holds.CreateReservationDraft(old(db.Snapshot()), userId, h, now)
  {
    hide Holds.RequireOwnHold, Holds.ConvertHold;
    var user := FindUser(db.users, userId);
    if user.Err? { return Err(user.error); }
    var own := RequireOwnHold(db, userId, h, now);
    if own.Err? { return own; }
    if !db.holds[h].status.HoldActive? { return Err(HoldNotActive); }
    var faces := TotalFace(db, db.holds[h].ticketIds);
    if faces.None? { return Err(TicketNotFound); }
    result := Ok(|db.drafts|);
    Convert(db, h, now);
  }

  method RequireOwnDraft(db: Database, userId: UserId, d: DraftId, now: int) returns (result: Result<nat, Error>)
    modifies db
    ensures Reply(db.Snapshot(), result) == Holds.RequireOwnDraft(old(db.Snapshot()), userId, d, now)
    ensures result.Ok? ==> d < |db.drafts| && result.value == d
  {
    if d >= |db.drafts| { return Err(DraftNotFound); }
    if db.drafts[d].userId != userId { return Err(NotOwner); }
    if db.drafts[d].status.PendingPayment? && IsPast(db.drafts[d].expiresAt, now) {
      db.drafts := db.drafts[d := db.drafts[d].(status := DraftExpired)];
      ReleaseReserved(db, d, db.drafts[d].ticketIds);
    }
    return Ok(d);
  }

  method CancelReservationDraft(db: Database, userId: UserId, d: DraftId, now: int) returns (result: Result<nat, Error>)
    modifies db
    ensures Reply(db.Snapshot(), result) == Holds.CancelReservationDraft(old(db.Snapshot()), userId, d, now)
  {
    hide Holds.RequireOwnDraft;
    var own := RequireOwnDraft(db, userId, d, now);
    if own.Err? { return own; }
    if db.drafts[d].status.PendingPayment? {
      db.drafts := db.drafts[d := db.drafts[d].(status := DraftCancelled)];
      ReleaseReserved(db, d, db.drafts[d].ticketIds);
    }
    return Ok(d);
  }
}
