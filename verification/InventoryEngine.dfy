/** Minting, dropping and repricing tickets as the server runs them, and the admin updates built from them. */
module InventoryEngine {
  import opened Prelude
  import opened SaleTypes
  import opened Inventory
  import opened Database

  /** `ensureTicketsForEvent`: nested loops over dates and seats; an unknown zone would end it with an exception. */
  method EnsureTicketsForEvent(db: Database, eventId: string, event: Event) returns (changed: bool, failed: bool)
    requires OrderOk(db.tickets, db.order)
    modifies db`tickets, db`order
    ensures !failed && Some(Stock(db.tickets, db.order)) == EnsureTickets(old(Stock(db.tickets, db.order)), eventId, event)
    ensures changed <==> db.tickets != old(db.tickets)
  {
    var seats := SeatsForEvent(event);
    SeatsOfEventOk(event);
    hide SeatsForEvent;
    ghost var s0 := Stock(db.tickets, db.order);
    changed, failed := false, false;
    for d := 0 to |event.dates|
      invariant MintDates(s0, eventId, event.zones, event.dates, seats, d) == Some(Stock(db.tickets, db.order))
      invariant s0.tickets.Keys <= db.tickets.Keys && (changed <==> s0.tickets.Keys != db.tickets.Keys)
    {
      ghost var s1 := Stock(db.tickets, db.order);
      for i := 0 to |seats|
        invariant MintSeats(s1, eventId, event.zones, event.dates[d], seats, i) == Some(Stock(db.tickets, db.order))
        invariant s0.tickets.Keys <= db.tickets.Keys && (changed <==> s0.tickets.Keys != db.tickets.Keys)
      {
        assert seats[i] in seats;
        var zone := FindZone(event.zones, seats[i].zoneId);
        if zone.None? { return changed, true; }
        var id := SeatKey(eventId, event.dates[d], seats[i]);
        if id !in db.tickets {
          db.tickets := db.tickets[id := NewTicket(zone.value)];
          db.order := db.order + [id];
          changed := true;
        }
      }
    }
    MintDatesResult(s0, eventId, event.zones, event.dates, seats, |event.dates|);
  }

  /** `removeStaleOpenTickets` */
  method RemoveStaleOpenTickets(db: Database, eventId: string, event: Event)
    requires OrderOk(db.tickets, db.order)
    modifies db`tickets, db`order
    ensures Stock(db.tickets, db.order) == RemoveStale(old(Stock(db.tickets, db.order)), eventId, event)
    ensures OrderOk(db.tickets, db.order)
  {
    var keys := ActiveSeatKeys(event);
    hide ActiveSeatKeys;
    KeepOrderMembers(db.tickets, db.order, eventId, event.zones, event.dates, keys);
    var before := db.tickets;
    db.tickets := map id | id in before && Kept(before, id, eventId, event.zones, event.dates, keys) :: before[id];
    db.order := KeepOrder(before, db.order, eventId, event.zones, event.dates, keys);
  }

  /** The repricing loop of `updateEventSale`, over the whole ticket array. */
  method RepriceTickets(db: Database, eventId: string, event: Event) returns (repriced: nat)
    requires OrderOk(db.tickets, db.order)
    modifies db`tickets
    ensures db.tickets == Reprice(old(db.tickets), eventId, event.zones)
  {
    repriced := 0;
    ghost var goal := Reprice(db.tickets, eventId, event.zones);
    for i := 0 to |db.order|
      invariant db.tickets.Keys == old(db.tickets).Keys
      invariant forall j :: 0 <= j < i ==> db.tickets[db.order[j]] == goal[db.order[j]]
      invariant forall j :: i <= j < |db.order| ==> db.tickets[db.order[j]] == old(db.tickets)[db.order[j]]
    {
      var id := db.order[i];
      if id.eventId != eventId { continue; }
      if db.tickets[id].ownerId.Some? || (db.tickets[id].status != OnSale && db.tickets[id].status != AdminHold) { continue; }
      var zone := FindZone(event.zones, id.zoneId);
      if zone.None? { continue; }
      db.tickets := db.tickets[id := db.tickets[id].(
        faceValue := zone.value.faceValue, minPrice := MinPrice(zone.value), maxPrice := MaxPrice(zone.value),
        maxTransferCount := zone.value.maxTransferCount)];
      repriced := repriced + 1;
    }
    assert forall id :: id in goal ==> id in db.order;
    assert db.tickets == goal;
  }

  method UpdateEventSale(db: Database, eventId: string, input: SaleInput) returns (result: Result<nat, Error>)
    requires OrderOk(db.tickets, db.order)
    modifies db
    ensures Reply(db.Snapshot(), result) == Inventory.UpdateEventSale(old(db.Snapshot()), eventId, input)
  {
    hide OrderOk, CheckInventoryUse, CheckInventorySize, ActiveSeatKeys, SeatsForEvent, Reprice, DropStale, MintDates;
    if eventId !in db.events { return Err(EventNotFound); }
    var next := NextEvent(db.events[eventId], input);
    var size := CheckInventorySize(next.zones, next.dates);
    if size.Some? { return Err(size.value); }
    var use := CheckInventoryUse(db.tickets, eventId, next.zones, next.dates);
    if use.Some? { return Err(use.value); }
    db.events := db.events[eventId := next];
    RemoveStaleOpenTickets(db, eventId, next);
    ghost var kept := Stock(db.tickets, db.order);
    var repriced := RepriceTickets(db, eventId, next);
    RepricedInOrder(kept, eventId, next.zones);
    var changed, failed := EnsureTicketsForEvent(db, eventId, next);
    db.Append(ByAdmin, EventSaleUpdated(eventId));
    return Ok(0);
  }

  lemma RepricedInOrder(stock: Stock, eventId: string, zones: seq<Zone>)
    requires OrderOk(stock.tickets, stock.order)
    ensures OrderOk(Reprice(stock.tickets, eventId, zones), stock.order)
  {
  }

  method UpdateEventVenue(db: Database, eventId: string, venueId: string) returns (result: Result<nat, Error>)
    requires OrderOk(db.tickets, db.order)
    modifies db
    ensures Reply(db.Snapshot(), result) == Inventory.UpdateEventVenue(old(db.Snapshot()), eventId, venueId)
  {
    hide OrderOk, ActiveSeatKeys, SeatsForEvent, DropStale, MintDates;
    if eventId !in db.events { return Err(EventNotFound); }
    var next := db.events[eventId].(venueId := venueId);
    db.events := db.events[eventId := next];
    RemoveStaleOpenTickets(db, eventId, next);
    var changed, failed := EnsureTicketsForEvent(db, eventId, next);
    db.Append(ByAdmin, EventVenueUpdated(eventId));
    return Ok(0);
  }

  /** The rest of `createEventDraft` once the poster is stored. */
  method FinishCreation(db: Database, eventId: string, event: Event)
    requires OrderOk(db.tickets, db.order)
    modifies db
    ensures db.Snapshot() == Inventory.FinishCreation(old(db.Snapshot()), eventId, event)
  {
    hide OrderOk, EnsureTickets;
    db.events := if eventId in db.events then db.events else db.events[eventId := event];
    var changed, failed := EnsureTicketsForEvent(db, eventId, event);
    db.Append(ByAdmin, EventCreated(eventId));
  }

  method CreateEvent(db: Database, eventId: string, event: Event) returns (result: Result<nat, Error>)
    requires OrderOk(db.tickets, db.order)
    modifies db
    ensures Reply(db.Snapshot(), result) == Inventory.CreateEvent(old(db.Snapshot()), eventId, event)
  {
    hide OrderOk, CheckInventorySize, EnsureTickets;
    if eventId in db.events { return Err(EventAlreadyExists); }
    var size := CheckInventorySize(event.zones, event.dates);
    if size.Some? { return Err(size.value); }
    FinishCreation(db, eventId, event);
    return Ok(0);
  }
}
