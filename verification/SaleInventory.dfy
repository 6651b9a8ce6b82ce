/** Operator edits of the inventory: status switches, regeneration after an update, new events. */
module SaleInventory {
  import opened Prelude
  import opened SaleTypes
  import opened Holds
  import opened Commerce
  import opened Inventory
  import opened SaleSteps
  import opened SaleInvariant
  import opened SaleSeats

  // ------------------------------------------------------------------------------- status switches

  /** Unsold, unclaimed seats moved between ON_SALE and ADMIN_HOLD; nothing else changed. */
  ghost predicate StatusShift(t0: Tickets, t1: Tickets) {
    && t0.Keys == t1.Keys
    && forall id :: id in t0 ==>
         t1[id] == t0[id] || (Repriced(t0[id]) && Repriced(t1[id]) && t1[id] == t0[id].(status := t1[id].status))
  }

  lemma SameStatuses(t: Tickets)
    ensures StatusShift(t, t)
  {
  }

  lemma SwitchShifts(t0: Tickets, t1: Tickets, id: TicketId, status: TicketStatus)
    requires StatusShift(t0, t1) && id in t0 && Repriced(t0[id]) && (status == OnSale || status == AdminHold)
    ensures StatusShift(t0, t1[id := t1[id].(status := status)])
  {
  }

  lemma {:induction false} SetStatusesShifts(db: Db, updates: seq<(TicketId, TicketStatus)>, n: nat)
    requires n <= |updates|
    requires forall u :: u in updates ==> u.0 in db.tickets && CheckStatusUpdate(db, u.0, u.1).None?
    ensures var r := SetStatuses(db, updates, n);
            r == db.(tickets := r.tickets, ledger := r.ledger) && StatusShift(db.tickets, r.tickets)
  {
    hide StatusShift;
    if n > 0 {
      SetStatusesShifts(db, updates, n - 1);
      assert updates[n - 1] in updates;
      SwitchShifts(db.tickets, SetStatuses(db, updates, n - 1).tickets, updates[n - 1].0, updates[n - 1].1);
    } else {
      SameStatuses(db.tickets);
    }
  }

  lemma StatusShiftKeepsHeld(t0: Tickets, t1: Tickets, holds: seq<Hold>)
    requires HoldsMatch(t0, holds) && StatusShift(t0, t1)
    ensures HeldSame(t0, t1)
  {
  }

  lemma StatusShiftKeepsReserved(t0: Tickets, t1: Tickets, drafts: seq<Draft>)
    requires DraftsMatch(t0, drafts) && StatusShift(t0, t1)
    ensures ReservedSame(t0, t1)
  {
  }

  lemma StatusShiftIsSeatShift(t0: Tickets, t1: Tickets)
    requires StatusShift(t0, t1)
    ensures SeatShift(t0, t1)
  {
  }

  lemma StatusShiftKeepsSeats(t0: Tickets, t1: Tickets, holds: seq<Hold>, drafts: seq<Draft>)
    requires HoldsMatch(t0, holds) && DraftsMatch(t0, drafts) && StatusShift(t0, t1)
    ensures HoldsMatch(t1, holds) && DraftsMatch(t1, drafts) && SeatShift(t0, t1)
  {
    hide *;
    StatusShiftKeepsHeld(t0, t1, holds);
    StatusShiftKeepsReserved(t0, t1, drafts);
    StatusShiftIsSeatShift(t0, t1);
    HoldsFrame(t0, t1, holds);
    DraftsFrame(t0, t1, drafts);
  }

  // ---------------------------------------------------------------------------------- regeneration

  lemma OpenChangesKeepHolds(t0: Tickets, t1: Tickets, eventId: string, zones: seq<Zone>, holds: seq<Hold>)
    requires OnlyOpenChanges(t0, t1, eventId, zones) && HoldsMatch(t0, holds)
    ensures HoldsMatch(t1, holds)
  {
    HoldsFrame(t0, t1, holds);
  }

  lemma OpenChangesKeepDrafts(t0: Tickets, t1: Tickets, eventId: string, zones: seq<Zone>, drafts: seq<Draft>)
    requires OnlyOpenChanges(t0, t1, eventId, zones) && DraftsMatch(t0, drafts)
    ensures DraftsMatch(t1, drafts)
  {
    DraftsFrame(t0, t1, drafts);
  }

  lemma OneTransfer(zones: seq<Zone>, zoneId: string)
    requires ZonesNormalized(zones) && FindZone(zones, zoneId).Some?
    ensures FindZone(zones, zoneId).value.maxTransferCount == 1
  {
    FindZoneFinds(zones, zoneId);
  }

  lemma OpenChangesKeepOwners(t0: Tickets, t1: Tickets, eventId: string, zones: seq<Zone>, users: seq<User>)
    requires OnlyOpenChanges(t0, t1, eventId, zones) && ZonesNormalized(zones) && Owners(t0, users)
    ensures Owners(t1, users)
  {
    forall id | id in t1 && (id !in t0 || t1[id] != t0[id]) ensures t1[id].maxTransferCount == 1 {
      OneTransfer(zones, id.zoneId);
    }
  }

  lemma OpenChangesKeepPools(t0: Tickets, t1: Tickets, eventId: string, zones: seq<Zone>, pools: seq<Pool>, users: seq<User>)
    requires OnlyOpenChanges(t0, t1, eventId, zones) && PoolsFit(t0, pools, users) && PoolsCounted(t0, pools)
    ensures PoolsFit(t1, pools, users) && PoolsCounted(t1, pools)
  {
    forall p | 0 <= p < |pools| ensures PoolFits(t1, pools[p], users) && pools[p].ticketId in t0 {
      assert PoolFits(t0, pools[p], users);
    }
    forall id | id in t1 && id !in t0 ensures PoolCount(pools, id, Open) == PoolCount(pools, id, Matched) == 0 {
      PoolCountNone(pools, id, Open);
      PoolCountNone(pools, id, Matched);
    }
  }

  lemma OpenChangesKeepAllocations(t0: Tickets, t1: Tickets, eventId: string, zones: seq<Zone>, txs: seq<Transaction>)
    requires OnlyOpenChanges(t0, t1, eventId, zones) && AllocatedOnce(t0, txs)
    ensures AllocatedOnce(t1, txs)
  {
  }

  /** Any change of inventory that only touches open seats keeps everything but the stock invariants. */
  lemma OpenChangesKeep(db: Db, r: Db, opening: seq<int>, eventId: string, zones: seq<Zone>)
    requires SeatsInv(db) && ResaleInv(db) && MoneyInv(db, opening) && ZonesNormalized(zones)
    requires r == db.(tickets := r.tickets, order := r.order, events := r.events, ledger := r.ledger)
    requires OnlyOpenChanges(db.tickets, r.tickets, eventId, zones)
    ensures SeatsInv(r) && ResaleInv(r) && MoneyInv(r, opening)
  {
    OpenChangesKeepHolds(db.tickets, r.tickets, eventId, zones, db.holds);
    OpenChangesKeepDrafts(db.tickets, r.tickets, eventId, zones, db.drafts);
    OpenChangesKeepOwners(db.tickets, r.tickets, eventId, zones, db.users);
    OpenChangesKeepPools(db.tickets, r.tickets, eventId, zones, db.pools, db.users);
    OpenChangesKeepAllocations(db.tickets, r.tickets, eventId, zones, db.txs);
  }

  lemma RegenerateKeeps(db: Db, opening: seq<int>, eventId: string, next: Event, repricing: bool)
    requires Inv(db, opening) && ZonesNormalized(next.zones)
    requires CheckInventoryUse(db.tickets, eventId, next.zones, next.dates).None?
    ensures Inv(RegenerateEvent(db, eventId, next, repricing), opening)
  {
    EventRegenerates(db, eventId, next, repricing);
    var r := RegenerateEvent(db, eventId, next, repricing);
    RegenerateParts(db, r, opening, eventId, next, SeatsForEvent(next), repricing);
  }

  lemma RegenerateParts(db: Db, r: Db, opening: seq<int>, eventId: string, next: Event, seats: seq<Seat>, repricing: bool)
    requires Inv(db, opening) && ZonesNormalized(next.zones) && SeatsOk(next.zones, seats)
    requires CheckInventoryUse(db.tickets, eventId, next.zones, next.dates).None?
    requires OrderOk(r.tickets, r.order)
    requires r == db.(events := db.events[eventId := next], tickets := r.tickets, order := r.order)
    requires Regenerated(db.tickets, r.tickets, eventId, next.zones, next.dates, seats, repricing)
    ensures Inv(r, opening)
  {
    OpenChangesKeep(db, r, opening, eventId, next.zones);
    RegeneratedIsPlaced(db.tickets, r.tickets, db.events, eventId, next, seats, repricing);
  }

  /** Moving an event keeps its zones and dates, so no sold seat can lose its place. */
  lemma SamePlacesUsable(tickets: Tickets, events: map<string, Event>, eventId: string)
    requires Placed(tickets, events) && eventId in events
    ensures CheckInventoryUse(tickets, eventId, events[eventId].zones, events[eventId].dates).None?
  {
    forall id | id in tickets && id.eventId == eventId
      ensures FindZone(events[eventId].zones, id.zoneId).Some? && id.dateId in events[eventId].dates
    {
      assert HasPlace(id, events);
    }
  }

  // ------------------------------------------------------------------------------------ new events

  lemma MintedOnlyOpen(s0: Stock, s1: Stock, eventId: string, zones: seq<Zone>)
    requires Minted(s0, s1, eventId, zones)
    ensures OnlyOpenChanges(s0.tickets, s1.tickets, eventId, zones)
  {
  }

  lemma MintedIsPlaced(s0: Stock, s1: Stock, events: map<string, Event>, eventId: string, event: Event, seats: seq<Seat>)
    requires Placed(s0.tickets, events) && eventId !in events && Minted(s0, s1, eventId, event.zones)
    requires forall id :: id in s1.tickets <==> id in s0.tickets || Regular(id, eventId, event.dates, seats, |event.dates|)
    ensures Placed(s1.tickets, events[eventId := event])
  {
    assert event.dates[..|event.dates|] == event.dates;
    forall id | id in s1.tickets ensures HasPlace(id, events[eventId := event]) {
      if id in s0.tickets { assert HasPlace(id, events); }
    }
  }

  lemma FinishCreationKeeps(db: Db, opening: seq<int>, eventId: string, event: Event)
    requires Inv(db, opening) && ZonesNormalized(event.zones) && eventId !in db.events
    ensures Inv(FinishCreation(db, eventId, event), opening)
  {
    var s0 := Stock(db.tickets, db.order);
    EnsureTicketsResult(s0, eventId, event);
    var s1 := EnsureTickets(s0, eventId, event).value;
    forall id ensures id in s1.tickets <==> id in s0.tickets || Regular(id, eventId, event.dates, SeatsForEvent(event), |event.dates|) {
      assert id in s1.tickets <==> id in s0.tickets || RegularKey(id, eventId, event);
    }
    NewEventKeeps(db, FinishCreation(db, eventId, event), opening, eventId, event, SeatsForEvent(event));
  }

  lemma NewEventKeeps(db: Db, r: Db, opening: seq<int>, eventId: string, event: Event, seats: seq<Seat>)
    requires Inv(db, opening) && ZonesNormalized(event.zones) && eventId !in db.events
    requires r == db.(events := db.events[eventId := event], tickets := r.tickets, order := r.order, ledger := r.ledger)
    requires Minted(Stock(db.tickets, db.order), Stock(r.tickets, r.order), eventId, event.zones)
    requires forall id :: id in r.tickets <==> id in db.tickets || Regular(id, eventId, event.dates, seats, |event.dates|)
    ensures Inv(r, opening)
  {
    MintedOnlyOpen(Stock(db.tickets, db.order), Stock(r.tickets, r.order), eventId, event.zones);
    OpenChangesKeep(db, r, opening, eventId, event.zones);
    MintedIsPlaced(Stock(db.tickets, db.order), Stock(r.tickets, r.order), db.events, eventId, event, seats);
  }
}
