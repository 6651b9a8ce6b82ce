/** Holds and drafts keep the invariants: claims stay matched and nothing but unsold seats moves. */
module SaleSeats {
  import opened Prelude
  import opened SaleTypes
  import opened Holds
  import opened Commerce
  import opened Inventory
  import opened SaleSteps
  import opened SaleInvariant

  // -------------------------------------------------------------------------------------- framing

  /** Unsold seats changed status among themselves and nothing else happened to the tickets. */
  ghost predicate SeatShift(t0: Tickets, t1: Tickets) {
    && t0.Keys == t1.Keys
    && forall id :: id in t0 ==>
         t1[id] == t0[id]
         || (Unsold(t0[id].status) && Unsold(t1[id].status)
             && t1[id] == t0[id].(status := t1[id].status, heldBy := t1[id].heldBy, holdExpiresAt := t1[id].holdExpiresAt,
                                  reservationId := t1[id].reservationId, reservationExpiresAt := t1[id].reservationExpiresAt))
  }

  lemma SeatShiftReflexive(t: Tickets)
    ensures SeatShift(t, t)
  {
  }

  lemma SeatShiftTransitive(t0: Tickets, t1: Tickets, t2: Tickets)
    requires SeatShift(t0, t1) && SeatShift(t1, t2)
    ensures SeatShift(t0, t2)
  {
  }

  lemma SeatShiftKeepsResale(t0: Tickets, t1: Tickets, users: seq<User>, pools: seq<Pool>, txs: seq<Transaction>)
    requires SeatShift(t0, t1)
    requires Owners(t0, users) && PoolsFit(t0, pools, users) && PoolsCounted(t0, pools) && AllocatedOnce(t0, txs)
    ensures Owners(t1, users) && PoolsFit(t1, pools, users) && PoolsCounted(t1, pools) && AllocatedOnce(t1, txs)
  {
    forall p | 0 <= p < |pools| ensures PoolFits(t1, pools[p], users) {
      assert PoolFits(t0, pools[p], users);
    }
  }

  lemma SeatShiftKeepsStock(t0: Tickets, t1: Tickets, order: seq<TicketId>, events: map<string, Event>)
    requires SeatShift(t0, t1) && OrderOk(t0, order) && Placed(t0, events)
    ensures OrderOk(t1, order) && Placed(t1, events)
  {
  }

  /** The HELD tickets and what they say about their holds are the same. */
  ghost predicate HeldSame(t0: Tickets, t1: Tickets) {
    && (forall id :: id in t0 && t0[id].status == Held ==>
          id in t1 && t1[id].status == Held && t1[id].heldBy == t0[id].heldBy && t1[id].holdExpiresAt == t0[id].holdExpiresAt)
    && (forall id :: id in t1 && t1[id].status == Held ==> id in t0 && t0[id].status == Held)
    && (forall id :: id in t1 && t1[id].status != Held ==> t1[id].heldBy.None?)
  }

  ghost predicate ReservedSame(t0: Tickets, t1: Tickets) {
    && (forall id :: id in t0 && t0[id].status == Reserved ==>
          id in t1 && t1[id].status == Reserved && t1[id].reservationId == t0[id].reservationId
          && t1[id].reservationExpiresAt == t0[id].reservationExpiresAt)
    && (forall id :: id in t1 && t1[id].status == Reserved ==> id in t0 && t0[id].status == Reserved)
    && (forall id :: id in t1 && t1[id].status != Reserved ==> t1[id].reservationId.None?)
  }

  lemma HoldsFrame(t0: Tickets, t1: Tickets, holds: seq<Hold>)
    requires HoldsMatch(t0, holds) && HeldSame(t0, t1)
    ensures HoldsMatch(t1, holds)
  {
  }

  lemma DraftsFrame(t0: Tickets, t1: Tickets, drafts: seq<Draft>)
    requires DraftsMatch(t0, drafts) && ReservedSame(t0, t1)
    ensures DraftsMatch(t1, drafts)
  {
  }

  // ------------------------------------------------------- what each bulk edit does to the matching

  /** A hold stops being ACTIVE and exactly its seats stop being HELD. */
  lemma HoldEnds(t0: Tickets, t1: Tickets, holds: seq<Hold>, h: HoldId, hold: Hold)
    requires HoldsMatch(t0, holds) && h < |holds| && !hold.status.HoldActive? && hold.ticketIds == holds[h].ticketIds
    requires t1.Keys == t0.Keys
    requires forall id :: id in t0 && id in hold.ticketIds ==> t1[id].status != Held && t1[id].heldBy.None?
    requires forall id :: id in t0 && id !in hold.ticketIds ==> t1[id] == t0[id]
    requires holds[h].status.HoldActive?
    ensures HoldsMatch(t1, holds[h := hold])
  {
    var holds1 := holds[h := hold];
    forall g, id | 0 <= g < |holds1| && holds1[g].status.HoldActive? && id in holds1[g].ticketIds
      ensures id in t1 && t1[id] == t0[id] && holds1[g] == holds[g]
    {
      assert id in holds[g].ticketIds;
      assert id in t0 && t0[id].heldBy == Some(g);
    }
    forall id | id in t1 && t1[id].status == Held
      ensures id !in hold.ticketIds && t1[id] == t0[id] && t0[id].heldBy.value != h
    {
    }
  }

  lemma DraftEnds(t0: Tickets, t1: Tickets, drafts: seq<Draft>, d: DraftId, draft: Draft)
    requires DraftsMatch(t0, drafts) && d < |drafts| && !draft.status.PendingPayment? && draft.ticketIds == drafts[d].ticketIds
    requires t1.Keys == t0.Keys
    requires forall id :: id in t0 && id in draft.ticketIds ==> t1[id].status != Reserved && t1[id].reservationId.None?
    requires forall id :: id in t0 && id !in draft.ticketIds ==> t1[id] == t0[id]
    requires drafts[d].status.PendingPayment?
    ensures DraftsMatch(t1, drafts[d := draft])
  {
    var drafts1 := drafts[d := draft];
    forall g, id | 0 <= g < |drafts1| && drafts1[g].status.PendingPayment? && id in drafts1[g].ticketIds
      ensures id in t1 && t1[id] == t0[id] && drafts1[g] == drafts[g]
    {
      assert id in drafts[g].ticketIds;
      assert id in t0 && t0[id].reservationId == Some(g);
    }
    forall id | id in t1 && t1[id].status == Reserved
      ensures id !in draft.ticketIds && t1[id] == t0[id] && t0[id].reservationId.value != d
    {
    }
  }

  lemma ReleaseShifts(t: Tickets, drafts: seq<Draft>, h: HoldId, ids: seq<TicketId>)
    requires DraftsMatch(t, drafts)
    ensures var t1 := ReleaseHeldTickets(t, h, ids); ReservedSame(t, t1) && SeatShift(t, t1)
  {
  }

  lemma HoldMatches(t: Tickets, holds: seq<Hold>, hold: Hold)
    requires HoldsMatch(t, holds)
    requires hold.status.HoldActive? && forall id :: id in hold.ticketIds ==> id in t && t[id].status == OnSale
    ensures HoldsMatch(HoldTickets(t, hold.ticketIds, |holds|, hold.expiresAt), holds + [hold])
  {
    assert forall h :: 0 <= h < |holds| ==> (holds + [hold])[h] == holds[h];
  }

  lemma HoldShifts(t: Tickets, drafts: seq<Draft>, ids: seq<TicketId>, h: HoldId, expiresAt: int)
    requires DraftsMatch(t, drafts) && forall id :: id in ids ==> id in t && t[id].status == OnSale
    ensures var t1 := HoldTickets(t, ids, h, expiresAt); ReservedSame(t, t1) && SeatShift(t, t1)
  {
  }

  lemma ExtendMatches(t: Tickets, holds: seq<Hold>, h: HoldId, hold: Hold)
    requires HoldsMatch(t, holds)
    requires h < |holds| && holds[h].status.HoldActive? && hold.status.HoldActive? && hold.ticketIds == holds[h].ticketIds
    ensures HoldsMatch(ExtendTickets(t, hold.ticketIds, hold.expiresAt), holds[h := hold])
  {
  }

  lemma ExtendShifts(t: Tickets, drafts: seq<Draft>, ids: seq<TicketId>, expiresAt: int)
    requires DraftsMatch(t, drafts) && forall id :: id in ids ==> id in t && t[id].status == Held
    ensures var t1 := ExtendTickets(t, ids, expiresAt); ReservedSame(t, t1) && SeatShift(t, t1)
  {
  }

  lemma ReserveEmptiesHold(t: Tickets, holds: seq<Hold>, h: HoldId, d: DraftId, expiresAt: int)
    requires HoldsMatch(t, holds) && h < |holds| && holds[h].status.HoldActive?
    ensures HoldsMatch(ReserveTickets(t, holds[h].ticketIds, d, expiresAt), SetHoldStatus(holds, h, HoldConverted))
  {
    HoldEnds(t, ReserveTickets(t, holds[h].ticketIds, d, expiresAt), holds, h, holds[h].(status := HoldConverted));
  }

  lemma ReserveShifts(t: Tickets, ids: seq<TicketId>, d: DraftId, expiresAt: int)
    requires forall id :: id in ids ==> id in t && t[id].status == Held
    ensures SeatShift(t, ReserveTickets(t, ids, d, expiresAt))
  {
  }

  lemma ReserveMatches(t: Tickets, drafts: seq<Draft>, draft: Draft)
    requires DraftsMatch(t, drafts)
    requires draft.status.PendingPayment? && forall id :: id in draft.ticketIds ==> id in t && t[id].status == Held
    ensures DraftsMatch(ReserveTickets(t, draft.ticketIds, |drafts|, draft.expiresAt), drafts + [draft])
  {
    assert forall d :: 0 <= d < |drafts| ==> (drafts + [draft])[d] == drafts[d];
  }

  lemma ReleaseDraftShifts(t: Tickets, holds: seq<Hold>, d: DraftId, ids: seq<TicketId>)
    requires HoldsMatch(t, holds)
    ensures var t1 := ReleaseDraftTickets(t, d, ids); HeldSame(t, t1) && SeatShift(t, t1)
  {
  }

  // ---------------------------------------------------------------------------------------- holds

  lemma EndHoldKeeps(db: Db, h: HoldId, status: HoldStatus)
    requires SeatsInv(db) && h < |db.holds| && db.holds[h].status.HoldActive? && !status.HoldActive?
    ensures var r := EndHold(db, h, status); SeatsInv(r) && SeatShift(db.tickets, r.tickets)
  {
    var r := EndHold(db, h, status);
    HoldEnds(db.tickets, r.tickets, db.holds, h, r.holds[h]);
    ReleaseShifts(db.tickets, db.drafts, h, db.holds[h].ticketIds);
    DraftsFrame(db.tickets, r.tickets, db.drafts);
  }

  lemma ReconcileHoldKeeps(db: Db, h: HoldId, now: int)
    requires SeatsInv(db) && h < |db.holds|
    ensures var r := ReconcileHold(db, h, now); SeatsInv(r) && SeatShift(db.tickets, r.tickets) && |r.holds| == |db.holds|
    ensures var r := ReconcileHold(db, h, now); r == db.(holds := r.holds, tickets := r.tickets)
  {
    if db.holds[h].status.HoldActive? && IsPast(db.holds[h].expiresAt, now) { EndHoldKeeps(db, h, HoldExpired); }
  }

  lemma {:induction false} ReconcileHoldsKeeps(db: Db, n: nat, now: int)
    requires SeatsInv(db) && n <= |db.holds|
    ensures var r := ReconcileHolds(db, n, now);
            SeatsInv(r) && SeatShift(db.tickets, r.tickets) && r == db.(holds := r.holds, tickets := r.tickets)
  {
    hide SaleInvariant.SeatsInv, SeatShift, Holds.ReconcileHold;
    if n == 0 {
      SeatShiftReflexive(db.tickets);
    } else {
      ReconcileHoldsKeeps(db, n - 1, now);
      var before := ReconcileHolds(db, n - 1, now);
      ReconcileHoldKeeps(before, n - 1, now);
      SeatShiftTransitive(db.tickets, before.tickets, ReconcileHolds(db, n, now).tickets);
    }
  }

  /** After the sweep no ACTIVE hold has lapsed, so a seat that is still HELD is held by someone with time left. */
  lemma {:induction false} SweepIsComplete(db: Db, n: nat, now: int)
    requires n <= |db.holds|
    ensures var r := ReconcileHolds(db, n, now);
            |r.holds| == |db.holds| && (forall h :: 0 <= h < n && r.holds[h].status.HoldActive? ==> !IsPast(r.holds[h].expiresAt, now))
            && forall h :: n <= h < |db.holds| ==> r.holds[h] == db.holds[h]
  {
    if n > 0 { SweepIsComplete(db, n - 1, now); }
  }

  predicate LapsedHold(hold: Hold, now: int) { hold.status.HoldActive? && IsPast(hold.expiresAt, now) }

  /** The ticket is held by a hold that has lapsed, among the first `n`. */
  predicate HeldByLapsed(db: Db, id: TicketId, n: nat, now: int)
    requires id in db.tickets
  {
    var t := db.tickets[id];
    t.status == Held && t.heldBy.Some? && t.heldBy.value < n && t.heldBy.value < |db.holds| && LapsedHold(db.holds[t.heldBy.value], now)
  }

  function TicketAfterSweep(db: Db, id: TicketId, n: nat, now: int): Ticket
    requires id in db.tickets
  {
    if HeldByLapsed(db, id, n, now) then db.tickets[id].(status := OnSale, heldBy := None, holdExpiresAt := None) else db.tickets[id]
  }

  ghost predicate TicketsSwept(db: Db, tickets: Tickets, n: nat, now: int) {
    tickets.Keys == db.tickets.Keys && forall id :: id in tickets ==> tickets[id] == TicketAfterSweep(db, id, n, now)
  }

  ghost predicate HoldsSwept(db: Db, holds: seq<Hold>, n: nat, now: int) {
    |holds| == |db.holds|
    && forall h :: 0 <= h < |holds| ==>
         holds[h] == if h < n && LapsedHold(db.holds[h], now) then db.holds[h].(status := HoldExpired) else db.holds[h]
  }

  /** The sweep closes exactly the lapsed holds and opens exactly their seats; it touches nothing else. */
  lemma {:induction false} SweepIsExact(db: Db, n: nat, now: int)
    requires HoldsMatch(db.tickets, db.holds) && n <= |db.holds|
    ensures var r := ReconcileHolds(db, n, now);
            && r == db.(tickets := r.tickets, holds := r.holds)
            && HoldsSwept(db, r.holds, n, now) && TicketsSwept(db, r.tickets, n, now)
  {
    if n > 0 {
      SweepIsExact(db, n - 1, now);
      SweepRound(db, ReconcileHolds(db, n - 1, now), n, now);
      hide HoldsSwept, TicketsSwept, ReconcileHold, HoldsMatch;
    }
  }

  lemma SweepRound(db: Db, before: Db, n: nat, now: int)
    requires HoldsMatch(db.tickets, db.holds) && 0 < n <= |db.holds|
    requires before == db.(tickets := before.tickets, holds := before.holds)
    requires HoldsSwept(db, before.holds, n - 1, now) && TicketsSwept(db, before.tickets, n - 1, now)
    ensures var r := ReconcileHold(before, n - 1, now);
            && r == db.(tickets := r.tickets, holds := r.holds)
            && HoldsSwept(db, r.holds, n, now) && TicketsSwept(db, r.tickets, n, now)
  {
    assert before.holds[n - 1] == db.holds[n - 1];
    var r := ReconcileHold(before, n - 1, now);
    assert r.tickets.Keys == db.tickets.Keys;
    forall id | id in r.tickets ensures r.tickets[id] == TicketAfterSweep(db, id, n, now) {
      assert before.tickets[id] == TicketAfterSweep(db, id, n - 1, now);
    }
  }

  lemma AppendTimes(holds: seq<Hold>, drafts: seq<Draft>, hold: Hold)
    requires HoldTimes(holds) && DraftTimes(drafts, holds)
    requires hold.extensionsUsed == 0 && hold.expiresAt == hold.createdAt + HOLD_TTL_MS
    ensures HoldTimes(holds + [hold]) && DraftTimes(drafts, holds + [hold])
  {
  }

  lemma PlaceHoldKeeps(db: Db, userId: UserId, dateId: string, ids: seq<TicketId>, now: int)
    requires SeatsInv(db)
    requires forall id :: id in ids ==> id in db.tickets && db.tickets[id].status == OnSale
    ensures var r := PlaceHold(db, userId, dateId, ids, now); SeatsInv(r) && SeatShift(db.tickets, r.tickets)
  {
    hide SaleInvariant.HoldsMatch, SaleInvariant.DraftsMatch, SaleInvariant.HoldTimes, SaleInvariant.DraftTimes, SeatShift;
    var r := PlaceHold(db, userId, dateId, ids, now);
    HoldMatches(db.tickets, db.holds, r.holds[|db.holds|]);
    HoldShifts(db.tickets, db.drafts, ids, |db.holds|, now + HOLD_TTL_MS);
    AppendTimes(db.holds, db.drafts, r.holds[|db.holds|]);
    DraftsFrame(db.tickets, r.tickets, db.drafts);
  }

  lemma ExtendHoldKeeps(db: Db, h: HoldId, now: int)
    requires SeatsInv(db) && h < |db.holds| && db.holds[h].status.HoldActive? && !IsPast(db.holds[h].expiresAt, now)
    requires db.holds[h].extensionsUsed < HOLD_MAX_EXTENSIONS
    ensures var r := ExtendHold(db, h, now); SeatsInv(r) && SeatShift(db.tickets, r.tickets)
  {
    var r := ExtendHold(db, h, now);
    ExtendMatches(db.tickets, db.holds, h, r.holds[h]);
    ExtendShifts(db.tickets, db.drafts, db.holds[h].ticketIds, now + HOLD_EXTENSION_MS);
    DraftsFrame(db.tickets, r.tickets, db.drafts);
  }

  // --------------------------------------------------------------------------------------- drafts

  lemma ActiveHoldSeats(t: Tickets, holds: seq<Hold>, h: HoldId)
    requires HoldsMatch(t, holds) && h < |holds| && holds[h].status.HoldActive?
    ensures forall id :: id in holds[h].ticketIds ==> id in t && t[id].status == Held
  {
  }

  lemma ConvertHoldKeeps(db: Db, h: HoldId, now: int)
    requires SeatsInv(db) && h < |db.holds| && db.holds[h].status.HoldActive? && !IsPast(db.holds[h].expiresAt, now)
    requires forall id :: id in db.holds[h].ticketIds ==> id in db.tickets
    ensures var r := ConvertHold(db, h, now); SeatsInv(r) && SeatShift(db.tickets, r.tickets)
  {
    hide SaleInvariant.HoldsMatch, SaleInvariant.DraftsMatch, SaleInvariant.HoldTimes, SaleInvariant.DraftTimes,
         SeatShift, Holds.ReserveTickets, Holds.FaceValues;
    var r := ConvertHold(db, h, now);
    var ids, draft := db.holds[h].ticketIds, r.drafts[|db.drafts|];
    ActiveHoldSeats(db.tickets, db.holds, h);
    ReserveEmptiesHold(db.tickets, db.holds, h, |db.drafts|, now + DRAFT_TTL_MS);
    ReserveMatches(db.tickets, db.drafts, draft);
    ReserveShifts(db.tickets, ids, |db.drafts|, now + DRAFT_TTL_MS);
    assert draft.expiresAt < db.holds[h].expiresAt + DRAFT_TTL_MS;
    ConvertTimes(db.holds, db.drafts, h, draft);
  }

  lemma ConvertTimes(holds: seq<Hold>, drafts: seq<Draft>, h: HoldId, draft: Draft)
    requires HoldTimes(holds) && DraftTimes(drafts, holds) && h < |holds|
    requires draft.holdId == h && draft.expiresAt < holds[h].expiresAt + DRAFT_TTL_MS
    ensures var holds1 := SetHoldStatus(holds, h, HoldConverted);
            HoldTimes(holds1) && DraftTimes(drafts + [draft], holds1)
  {
  }

  lemma EndDraftKeeps(db: Db, d: DraftId, status: DraftStatus)
    requires SeatsInv(db) && d < |db.drafts| && db.drafts[d].status.PendingPayment? && !status.PendingPayment?
    ensures var r := EndDraft(db, d, status); SeatsInv(r) && SeatShift(db.tickets, r.tickets)
  {
    var r := EndDraft(db, d, status);
    DraftEnds(db.tickets, r.tickets, db.drafts, d, r.drafts[d]);
    ReleaseDraftShifts(db.tickets, db.holds, d, db.drafts[d].ticketIds);
    HoldsFrame(db.tickets, r.tickets, db.holds);
  }
}
