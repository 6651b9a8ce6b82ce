/**
 Ticket inventory of an event (backend/catalog.js, backend/admin.js, backend/seat-layouts.js).
 The catalog mints the tickets an event lacks; the admin console first drops the open ones it no longer has.
 The two files enumerate the seats of an event separately; `EnumerationsAgree` is what keeps them in step.
 */
module Inventory {
  import opened Prelude
  import opened SaleTypes
  import DoublePrice

  datatype Seat = Seat(zoneId: string, seat: string)

  // ------------------------------------------------------------------------------- seat enumerations

  const DIGITS: string := "0123456789"

  function Decimal(n: nat): string {
    if n < 10 then [DIGITS[n]] else Decimal(n / 10) + [DIGITS[n % 10]]
  }

  /** `String(n).padStart(2, "0")` */
  function Padded(n: nat): string {
    if n < 10 then "0" + Decimal(n) else Decimal(n)
  }

  /** Seats numbered `from`, `from + 1`, ... of one zone. */
  function Numbered(zoneId: string, prefix: string, from: nat, count: nat): (r: seq<Seat>)
    ensures forall s :: s in r ==> s.zoneId == zoneId
  {
    if count == 0 then [] else Numbered(zoneId, prefix, from, count - 1) + [Seat(zoneId, prefix + "-" + Padded(from + count - 1))]
  }

  /** `seatLayoutForVenue`: every venue but the stadium has the same 24 + 40 + 48 seats. */
  function SeatLayoutForVenue(venueId: string): seq<Seat> {
    if venueId == "venue_jamsil_olympic"
    then Numbered("zone_vip", "VIP", 1, 24) + Numbered("zone_r", "R석", 1, 20) + Numbered("zone_r", "R석", 21, 20)
         + Numbered("zone_s", "S석", 1, 48)
    else Numbered("zone_vip", "VIP", 1, 24) + Numbered("zone_r", "R석", 1, 40) + Numbered("zone_s", "S석", 1, 48)
  }

  function SeatCount(zone: Zone): nat {
    if zone.seatCount.Some? && zone.seatCount.value > 0 then zone.seatCount.value else 12
  }

  function GeneratedSeatsForZone(zone: Zone): seq<Seat> {
    Numbered(zone.id, zone.name, 1, SeatCount(zone))
  }

  predicate InLayout(layout: seq<Seat>, zoneId: string) {
    exists s :: s in layout && s.zoneId == zoneId
  }

  function KeepZones(layout: seq<Seat>, zones: seq<Zone>): (r: seq<Seat>)
    ensures forall s :: s in r <==> s in layout && FindZone(zones, s.zoneId).Some?
  {
    if layout == [] then []
    else (if FindZone(zones, layout[0].zoneId).Some? then [layout[0]] else []) + KeepZones(layout[1..], zones)
  }

  function GenerateMissing(layout: seq<Seat>, zones: seq<Zone>): seq<Seat> {
    if zones == [] then []
    else (if InLayout(layout, zones[0].id) then [] else GeneratedSeatsForZone(zones[0])) + GenerateMissing(layout, zones[1..])
  }

  /** The catalog's enumeration: what the event should have, in minting order. */
  function SeatsForEvent(event: Event): seq<Seat> {
    var layout := SeatLayoutForVenue(event.venueId);
    KeepZones(layout, event.zones) + GenerateMissing(layout, event.zones)
  }

  /** The admin console's enumeration: a set of seat keys, written independently of the catalog's. */
  function ActiveSeatKeys(event: Event): set<Seat> {
    var layout := SeatLayoutForVenue(event.venueId);
    var active := set s | s in layout && exists z :: z in event.zones && z.id == s.zoneId;
    var generated := set z, s | z in event.zones && !InLayout(layout, z.id) && s in GeneratedSeatsForZone(z) :: s;
    active + generated
  }

  lemma {:induction false} FindZoneFinds(zones: seq<Zone>, zoneId: string)
    ensures FindZone(zones, zoneId).Some? <==> exists z :: z in zones && z.id == zoneId
    ensures FindZone(zones, zoneId).Some? ==>
              FindZone(zones, zoneId).value in zones && FindZone(zones, zoneId).value.id == zoneId
  {
    if zones != [] {
      FindZoneFinds(zones[1..], zoneId);
      assert forall z :: z in zones <==> z == zones[0] || z in zones[1..];
    }
  }

  lemma {:induction false} GeneratedMembers(layout: seq<Seat>, zones: seq<Zone>, s: Seat)
    ensures s in GenerateMissing(layout, zones) <==>
              exists z :: z in zones && !InLayout(layout, z.id) && s in GeneratedSeatsForZone(z)
  {
    if zones != [] {
      GeneratedMembers(layout, zones[1..], s);
      assert forall z :: z in zones <==> z == zones[0] || z in zones[1..];
    }
  }

  /** A seat the catalog would mint is exactly a seat the admin console would keep. */
  lemma EnumerationsAgree(event: Event, s: Seat)
    ensures s in SeatsForEvent(event) <==> s in ActiveSeatKeys(event)
  {
    var layout := SeatLayoutForVenue(event.venueId);
    FindZoneFinds(event.zones, s.zoneId);
    GeneratedMembers(layout, event.zones, s);
    hide SeatLayoutForVenue, GeneratedSeatsForZone, InLayout, FindZone, GenerateMissing;
  }

  /** The seats of an event only name zones the event has, so minting never meets an unknown zone. */
  lemma SeatsHaveZones(event: Event, s: Seat)
    requires s in SeatsForEvent(event)
    ensures FindZone(event.zones, s.zoneId).Some?
  {
    GeneratedMembers(SeatLayoutForVenue(event.venueId), event.zones, s);
    FindZoneFinds(event.zones, s.zoneId);
  }

  // -------------------------------------------------------------------------------- minting tickets

  datatype Stock = Stock(tickets: Tickets, order: seq<TicketId>)

  /** The ticket array holds each record once. */
  ghost predicate OrderOk(tickets: Tickets, order: seq<TicketId>) {
    NoDuplicates(order) && forall id :: id in order <==> id in tickets
  }

  /**
   `Math.ceil(faceValue * 0.5)`, where the product is exact, and `Math.ceil(faceValue * (1 + resaleFeeRate))`, the rate
   in percent, where it is not.
   */
  function MinPrice(zone: Zone): int { (zone.faceValue + 1) / 2 }

  function MaxPrice(zone: Zone): int { DoublePrice.PriceCap(zone.faceValue, zone.resalePercent) }

  function NewTicket(zone: Zone): Ticket {
    Ticket(None, OnSale, zone.faceValue, MinPrice(zone), MaxPrice(zone), 0, zone.maxTransferCount, None, None, None, None, false)
  }

  function SeatKey(eventId: string, dateId: string, s: Seat): TicketId {
    TicketId(eventId, dateId, s.zoneId, s.seat)
  }

  /** One round of the minting loop; `None` is the ZONE_NOT_FOUND exception. */
  function MintSeat(stock: Stock, eventId: string, zones: seq<Zone>, dateId: string, s: Seat): Option<Stock> {
    var zone := FindZone(zones, s.zoneId);
    var id := SeatKey(eventId, dateId, s);
    if zone.None? then None
    else if id in stock.tickets then Some(stock)
    else Some(Stock(stock.tickets[id := NewTicket(zone.value)], stock.order + [id]))
  }

  /** The first `n` seats of a performance. */
  function MintSeats(stock: Stock, eventId: string, zones: seq<Zone>, dateId: string, seats: seq<Seat>, n: nat): Option<Stock>
    requires n <= |seats|
  {
    if n == 0 then Some(stock)
    else
      var before := MintSeats(stock, eventId, zones, dateId, seats, n - 1);
      if before.None? then None else MintSeat(before.value, eventId, zones, dateId, seats[n - 1])
  }

  /** The first `n` performances. */
  function MintDates(stock: Stock, eventId: string, zones: seq<Zone>, dates: seq<string>, seats: seq<Seat>, n: nat): Option<Stock>
    requires n <= |dates|
  {
    if n == 0 then Some(stock)
    else
      var before := MintDates(stock, eventId, zones, dates, seats, n - 1);
      if before.None? then None else MintSeats(before.value, eventId, zones, dates[n - 1], seats, |seats|)
  }

  function EnsureTickets(stock: Stock, eventId: string, event: Event): Option<Stock> {
    MintDates(stock, eventId, event.zones, event.dates, SeatsForEvent(event), |event.dates|)
  }

  /** What minting may do to a stock: nothing is lost or altered, and what is new is open at its zone's price. */
  ghost predicate Minted(s0: Stock, s1: Stock, eventId: string, zones: seq<Zone>) {
    && OrderOk(s1.tickets, s1.order)
    && (forall id :: id in s0.tickets ==> id in s1.tickets && s1.tickets[id] == s0.tickets[id])
    && (forall id :: id in s1.tickets && id !in s0.tickets ==>
          id.eventId == eventId && FindZone(zones, id.zoneId).Some?
          && s1.tickets[id] == NewTicket(FindZone(zones, id.zoneId).value))
  }

  ghost predicate SeatsOk(zones: seq<Zone>, seats: seq<Seat>) {
    forall s :: s in seats ==> FindZone(zones, s.zoneId).Some?
  }

  lemma MintedSame(s: Stock, eventId: string, zones: seq<Zone>)
    requires OrderOk(s.tickets, s.order)
    ensures Minted(s, s, eventId, zones)
  {
  }

  lemma MintedTransitive(s0: Stock, s1: Stock, s2: Stock, eventId: string, zones: seq<Zone>)
    requires Minted(s0, s1, eventId, zones) && Minted(s1, s2, eventId, zones)
    ensures Minted(s0, s2, eventId, zones)
  {
  }

  lemma MintSeatResult(s0: Stock, eventId: string, zones: seq<Zone>, dateId: string, s: Seat)
    requires FindZone(zones, s.zoneId).Some? && OrderOk(s0.tickets, s0.order)
    ensures var r := MintSeat(s0, eventId, zones, dateId, s);
            r.Some? && Minted(s0, r.value, eventId, zones) && r.value.tickets.Keys == s0.tickets.Keys + {SeatKey(eventId, dateId, s)}
  {
  }

  function SeatKeys(eventId: string, dateId: string, seats: seq<Seat>): set<TicketId> {
    set s | s in seats :: SeatKey(eventId, dateId, s)
  }

  lemma {:induction false} MintSeatsResult(s0: Stock, eventId: string, zones: seq<Zone>, dateId: string, seats: seq<Seat>, n: nat)
    requires n <= |seats| && SeatsOk(zones, seats) && OrderOk(s0.tickets, s0.order)
    ensures var r := MintSeats(s0, eventId, zones, dateId, seats, n);
            r.Some? && OrderOk(r.value.tickets, r.value.order) && Minted(s0, r.value, eventId, zones)
            && r.value.tickets.Keys == s0.tickets.Keys + SeatKeys(eventId, dateId, seats[..n])
  {
    hide Minted, OrderOk, MintSeat, NewTicket;
    if n == 0 {
      MintedSame(s0, eventId, zones);
    } else {
      MintSeatsResult(s0, eventId, zones, dateId, seats, n - 1);
      var mid := MintSeats(s0, eventId, zones, dateId, seats, n - 1).value;
      assert seats[n - 1] in seats && seats[..n] == seats[..n - 1] + [seats[n - 1]];
      MintSeatResult(mid, eventId, zones, dateId, seats[n - 1]);
      var r := MintSeat(mid, eventId, zones, dateId, seats[n - 1]).value;
      MintedTransitive(s0, mid, r, eventId, zones);
      MintedInOrder(s0, r, eventId, zones);
    }
  }

  lemma MintedInOrder(s0: Stock, s1: Stock, eventId: string, zones: seq<Zone>)
    requires Minted(s0, s1, eventId, zones)
    ensures OrderOk(s1.tickets, s1.order)
  {
  }

  /** `id` is the ticket of one of the first `n` performances on one of the seats. */
  ghost predicate Regular(id: TicketId, eventId: string, dates: seq<string>, seats: seq<Seat>, n: nat)
    requires n <= |dates|
  {
    id.eventId == eventId && id.dateId in dates[..n] && Seat(id.zoneId, id.seat) in seats
  }

  lemma RegularNext(id: TicketId, eventId: string, dates: seq<string>, seats: seq<Seat>, n: nat)
    requires n < |dates|
    ensures Regular(id, eventId, dates, seats, n + 1) <==>
              Regular(id, eventId, dates, seats, n) || id in SeatKeys(eventId, dates[n], seats)
  {
    assert dates[..n + 1] == dates[..n] + [dates[n]];
    if id.eventId == eventId && id.dateId == dates[n] && Seat(id.zoneId, id.seat) in seats {
      assert id == SeatKey(eventId, dates[n], Seat(id.zoneId, id.seat));
    }
  }

  lemma {:induction false} MintDatesResult(s0: Stock, eventId: string, zones: seq<Zone>, dates: seq<string>, seats: seq<Seat>, n: nat)
    requires n <= |dates| && SeatsOk(zones, seats) && OrderOk(s0.tickets, s0.order)
    ensures var r := MintDates(s0, eventId, zones, dates, seats, n);
            r.Some? && Minted(s0, r.value, eventId, zones)
            && forall id :: id in r.value.tickets <==> id in s0.tickets || Regular(id, eventId, dates, seats, n)
  {
    hide Minted, OrderOk, MintSeats, NewTicket;
    if n == 0 {
      MintedSame(s0, eventId, zones);
    } else {
      MintDatesResult(s0, eventId, zones, dates, seats, n - 1);
      var mid := MintDates(s0, eventId, zones, dates, seats, n - 1).value;
      MintedInOrder(s0, mid, eventId, zones);
      MintSeatsResult(mid, eventId, zones, dates[n - 1], seats, |seats|);
      assert seats[..|seats|] == seats;
      var r := MintSeats(mid, eventId, zones, dates[n - 1], seats, |seats|).value;
      MintedTransitive(s0, mid, r, eventId, zones);
      forall id ensures id in r.tickets <==> id in s0.tickets || Regular(id, eventId, dates, seats, n) {
        RegularNext(id, eventId, dates, seats, n - 1);
      }
    }
  }

  /** A seat of an event as the catalog enumerates it: one of its dates, one of its seats. */
  ghost predicate RegularKey(id: TicketId, eventId: string, event: Event) {
    Regular(id, eventId, event.dates, SeatsForEvent(event), |event.dates|)
  }

  lemma SeatsOfEventOk(event: Event)
    ensures SeatsOk(event.zones, SeatsForEvent(event))
  {
    forall s | s in SeatsForEvent(event) ensures FindZone(event.zones, s.zoneId).Some? { SeatsHaveZones(event, s); }
  }

  /** Minting never throws; afterwards the event has every regular ticket and nothing else is new. */
  lemma EnsureTicketsResult(s0: Stock, eventId: string, event: Event)
    requires OrderOk(s0.tickets, s0.order)
    ensures var r := EnsureTickets(s0, eventId, event);
            r.Some? && Minted(s0, r.value, eventId, event.zones)
            && forall id :: id in r.value.tickets <==> id in s0.tickets || RegularKey(id, eventId, event)
  {
    SeatsOfEventOk(event);
    MintDatesResult(s0, eventId, event.zones, event.dates, SeatsForEvent(event), |event.dates|);
  }

  lemma {:induction false} MintNothing(s0: Stock, eventId: string, zones: seq<Zone>, dates: seq<string>, seats: seq<Seat>, d: nat, n: nat)
    requires SeatsOk(zones, seats) && d < |dates| && n <= |seats|
    requires forall id :: Regular(id, eventId, dates, seats, |dates|) ==> id in s0.tickets
    ensures MintSeats(s0, eventId, zones, dates[d], seats, n) == Some(s0)
  {
    if n > 0 {
      MintNothing(s0, eventId, zones, dates, seats, d, n - 1);
      assert seats[n - 1] in seats;
      assert Regular(SeatKey(eventId, dates[d], seats[n - 1]), eventId, dates, seats, |dates|);
    }
  }

  lemma {:induction false} MintNoDates(s0: Stock, eventId: string, zones: seq<Zone>, dates: seq<string>, seats: seq<Seat>, n: nat)
    requires SeatsOk(zones, seats) && n <= |dates|
    requires forall id :: Regular(id, eventId, dates, seats, |dates|) ==> id in s0.tickets
    ensures MintDates(s0, eventId, zones, dates, seats, n) == Some(s0)
  {
    if n > 0 {
      MintNoDates(s0, eventId, zones, dates, seats, n - 1);
      MintNothing(s0, eventId, zones, dates, seats, n - 1, |seats|);
    }
  }

  /** Minting twice mints nothing the second time (`changed` is false). */
  lemma EnsureTicketsIdempotent(s0: Stock, eventId: string, event: Event)
    requires OrderOk(s0.tickets, s0.order)
    ensures var r := EnsureTickets(s0, eventId, event);
            r.Some? && EnsureTickets(r.value, eventId, event) == r
  {
    EnsureTicketsResult(s0, eventId, event);
    SeatsOfEventOk(event);
    var s1 := EnsureTickets(s0, eventId, event).value;
    forall id | Regular(id, eventId, event.dates, SeatsForEvent(event), |event.dates|) ensures id in s1.tickets {
      assert RegularKey(id, eventId, event);
    }
    MintNoDates(s1, eventId, event.zones, event.dates, SeatsForEvent(event), |event.dates|);
  }

  // ------------------------------------------------------------------------------ dropping tickets

  predicate Transactional(t: Ticket) {
    t.ownerId.Some? || t.status != OnSale
  }

  /** `removeStaleOpenTickets` keeps this ticket, given the seat keys the event still has. */
  predicate Kept(tickets: Tickets, id: TicketId, eventId: string, zones: seq<Zone>, dates: seq<string>, keys: set<Seat>)
    requires id in tickets
  {
    || id.eventId != eventId
    || (FindZone(zones, id.zoneId).Some? && id.dateId in dates && Seat(id.zoneId, id.seat) in keys)
    || Transactional(tickets[id])
  }

  function KeepOrder(tickets: Tickets, order: seq<TicketId>, eventId: string, zones: seq<Zone>, dates: seq<string>, keys: set<Seat>)
    : seq<TicketId>
  {
    if order == [] then []
    else (if order[0] in tickets && Kept(tickets, order[0], eventId, zones, dates, keys) then [order[0]] else [])
         + KeepOrder(tickets, order[1..], eventId, zones, dates, keys)
  }

  function DropStale(stock: Stock, eventId: string, zones: seq<Zone>, dates: seq<string>, keys: set<Seat>): Stock {
    Stock(map id | id in stock.tickets && Kept(stock.tickets, id, eventId, zones, dates, keys) :: stock.tickets[id],
          KeepOrder(stock.tickets, stock.order, eventId, zones, dates, keys))
  }

  function RemoveStale(stock: Stock, eventId: string, event: Event): Stock {
    DropStale(stock, eventId, event.zones, event.dates, ActiveSeatKeys(event))
  }

  lemma {:induction false} KeepOrderMembers(
    tickets: Tickets, order: seq<TicketId>, eventId: string, zones: seq<Zone>, dates: seq<string>, keys: set<Seat>)
    requires NoDuplicates(order)
    ensures NoDuplicates(KeepOrder(tickets, order, eventId, zones, dates, keys))
    ensures forall id :: id in KeepOrder(tickets, order, eventId, zones, dates, keys) <==>
                           id in order && id in tickets && Kept(tickets, id, eventId, zones, dates, keys)
  {
    if order != [] {
      KeepOrderMembers(tickets, order[1..], eventId, zones, dates, keys);
    }
  }

  predicate Repriced(t: Ticket) {
    t.ownerId.None? && (t.status == OnSale || t.status == AdminHold)
  }

  function RepricedTicket(t: Ticket, zone: Zone): Ticket {
    t.(faceValue := zone.faceValue, minPrice := MinPrice(zone), maxPrice := MaxPrice(zone), maxTransferCount := zone.maxTransferCount)
  }

  function Reprice(tickets: Tickets, eventId: string, zones: seq<Zone>): Tickets {
    map id | id in tickets ::
      if id.eventId == eventId && Repriced(tickets[id]) && FindZone(zones, id.zoneId).Some?
      then RepricedTicket(tickets[id], FindZone(zones, id.zoneId).value)
      else tickets[id]
  }

  // --------------------------------------------------------------------------------- admin updates

  function Midway(s0: Stock, eventId: string, zones: seq<Zone>, dates: seq<string>, keys: set<Seat>, repricing: bool): Stock {
    var kept := DropStale(s0, eventId, zones, dates, keys);
    Stock(if repricing then Reprice(kept.tickets, eventId, zones) else kept.tickets, kept.order)
  }

  /** Drop, reprice (or not) and mint: the work every update shares, over any agreeing pair of seat enumerations. */
  function Rebuild(
    s0: Stock, eventId: string, zones: seq<Zone>, dates: seq<string>, seats: seq<Seat>, keys: set<Seat>, repricing: bool): Option<Stock>
  {
    MintDates(Midway(s0, eventId, zones, dates, keys, repricing), eventId, zones, dates, seats, |dates|)
  }

  /** `assertTicketsCanUseInventory`: no transactional ticket would lose its zone or its date. */
  function CheckInventoryUse(tickets: Tickets, eventId: string, zones: seq<Zone>, dates: seq<string>): Option<Error> {
    if exists id :: id in tickets && id.eventId == eventId && FindZone(zones, id.zoneId).None? && Transactional(tickets[id])
    then Some(EventZoneInUse)
    else if exists id :: id in tickets && id.eventId == eventId && id.dateId !in dates && Transactional(tickets[id])
    then Some(EventScheduleInUse)
    else None
  }

  const MAX_TICKET_CANDIDATES := 10000
  const MAX_ZONE_SEAT_COUNT := 2000

  function Candidates(zones: seq<Zone>): Option<nat> {
    if zones == [] then Some(0)
    else
      var count := if zones[0].seatCount.Some? then zones[0].seatCount.value else 12;
      var rest := Candidates(zones[1..]);
      if count < 1 || count > MAX_ZONE_SEAT_COUNT || rest.None? then None else Some(count + rest.value)
  }

  function CheckInventorySize(zones: seq<Zone>, dates: seq<string>): Option<Error> {
    var candidates := Candidates(zones);
    if candidates.None? then Some(InvalidZoneSeatCount)
    else if candidates.value * |dates| > MAX_TICKET_CANDIDATES then Some(EventInventoryTooLarge)
    else None
  }

  /** The event content an admin submits, after its payload has been normalized; absent parts stay as they are. */
  datatype SaleInput = SaleInput(venueId: string, bookable: bool, zones: Option<seq<Zone>>, dates: Option<seq<string>>, fallbackDate: string)

  function NextEvent(event: Event, input: SaleInput): Event {
    Event(input.venueId,
          if input.zones.Some? then input.zones.value else event.zones,
          if input.dates.Some? then input.dates.value else if event.dates != [] then event.dates else [input.fallbackDate],
          input.bookable)
  }

  /** `removeStaleOpenTickets`, repricing and `ensureTicketsForEvent`; an exception while minting would leave the kept stock. */
  function RegenerateEvent(db: Db, eventId: string, next: Event, repricing: bool): Db {
    var keys := ActiveSeatKeys(next);
    var s0 := Stock(db.tickets, db.order);
    var minted := Rebuild(s0, eventId, next.zones, next.dates, SeatsForEvent(next), keys, repricing);
    var stock := if minted.Some? then minted.value else Midway(s0, eventId, next.zones, next.dates, keys, repricing);
    db.(events := db.events[eventId := next], tickets := stock.tickets, order := stock.order)
  }

  /** The part of `updateEventSale` after its checks. */
  function ApplySale(db: Db, eventId: string, next: Event): Db {
    Log(RegenerateEvent(db, eventId, next, true), ByAdmin, EventSaleUpdated(eventId))
  }

  function UpdateEventSale(db: Db, eventId: string, input: SaleInput): Reply {
    if eventId !in db.events then Reply(db, Err(EventNotFound))
    else
      var next := NextEvent(db.events[eventId], input);
      var size := CheckInventorySize(next.zones, next.dates);
      if size.Some? then Reply(db, Err(size.value))
      else
        var use := CheckInventoryUse(db.tickets, eventId, next.zones, next.dates);
        if use.Some? then Reply(db, Err(use.value)) else Reply(ApplySale(db, eventId, next), Ok(0))
  }

  function UpdateEventVenue(db: Db, eventId: string, venueId: string): Reply {
    if eventId !in db.events then Reply(db, Err(EventNotFound))
    else Reply(Log(RegenerateEvent(db, eventId, db.events[eventId].(venueId := venueId), false), ByAdmin, EventVenueUpdated(eventId)), Ok(0))
  }

  /** The part of `createEventDraft` before the poster is stored: no event has this id, and the inventory is not too large. */
  function CheckCreation(db: Db, eventId: string, event: Event): Option<Error> {
    if eventId in db.events then Some(EventAlreadyExists) else CheckInventorySize(event.zones, event.dates)
  }

  /**
   The part after it, which does not look at the id again.  `db.events.find` returns the first record of an id, so a
   second record of the same id stays in the shade of the first; its tickets are minted all the same.
   */
  function FinishCreation(db: Db, eventId: string, event: Event): Db {
    var minted := EnsureTickets(Stock(db.tickets, db.order), eventId, event);
    var stock := if minted.Some? then minted.value else Stock(db.tickets, db.order);
    Log(db.(events := if eventId in db.events then db.events else db.events[eventId := event],
            tickets := stock.tickets, order := stock.order),
        ByAdmin, EventCreated(eventId))
  }

  /** Both parts, with nothing happening in between. */
  function CreateEvent(db: Db, eventId: string, event: Event): Reply {
    var check := CheckCreation(db, eventId, event);
    if check.Some? then Reply(db, Err(check.value)) else Reply(FinishCreation(db, eventId, event), Ok(0))
  }

  // ------------------------------------------------------------------------------------- properties

  /** Every ticket names an existing event, one of its dates and one of its zones. */
  ghost predicate Placed(tickets: Tickets, events: map<string, Event>) {
    forall id {:trigger HasPlace(id, events)} :: id in tickets ==> HasPlace(id, events)
  }

  ghost predicate HasPlace(id: TicketId, events: map<string, Event>) {
    id.eventId in events && id.dateId in events[id.eventId].dates && FindZone(events[id.eventId].zones, id.zoneId).Some?
  }

  /** Other events' tickets and sold, held or reserved ones are untouched; seats an operator holds back stay held back. */
  ghost predicate SalesUntouched(t0: Tickets, t1: Tickets, eventId: string) {
    && (forall id :: id in t0 && (id.eventId != eventId || (Transactional(t0[id]) && t0[id].status != AdminHold)) ==>
          id in t1 && t1[id] == t0[id])
    && (forall id :: id in t0 && t0[id].status == AdminHold ==> id in t1 && t1[id] == t0[id].(
          faceValue := t1[id].faceValue, minPrice := t1[id].minPrice, maxPrice := t1[id].maxPrice,
          maxTransferCount := t1[id].maxTransferCount))
  }

  /** The event's tickets: one per date and seat, plus the transactional ones kept from before. */
  ghost predicate KeysExact(t0: Tickets, t1: Tickets, eventId: string, dates: seq<string>, seats: seq<Seat>) {
    forall id :: id in t1 && id.eventId == eventId <==>
      Regular(id, eventId, dates, seats, |dates|) || (id.eventId == eventId && id in t0 && Transactional(t0[id]))
  }

  /** Tickets without a transaction carry the price of their zone. */
  ghost predicate PricesFollow(t1: Tickets, eventId: string, zones: seq<Zone>) {
    forall id :: id in t1 && id.eventId == eventId && Repriced(t1[id]) && FindZone(zones, id.zoneId).Some? ==>
      var zone := FindZone(zones, id.zoneId).value;
      t1[id].faceValue == zone.faceValue && t1[id].minPrice == MinPrice(zone) && t1[id].maxPrice == MaxPrice(zone)
  }

  /** Whatever is new or changed is unsold and not on hold with a buyer, and whatever is gone was open. */
  ghost predicate OnlyOpenChanges(t0: Tickets, t1: Tickets, eventId: string, zones: seq<Zone>) {
    && (forall id :: id in t0 && id !in t1 ==> id.eventId == eventId && !Transactional(t0[id]))
    && (forall id :: id in t1 && id !in t0 ==>
          id.eventId == eventId && FindZone(zones, id.zoneId).Some? && t1[id] == NewTicket(FindZone(zones, id.zoneId).value))
    && (forall id :: id in t0 && id in t1 && t1[id] != t0[id] ==>
          id.eventId == eventId && Repriced(t0[id]) && FindZone(zones, id.zoneId).Some?
          && t1[id] == RepricedTicket(t0[id], FindZone(zones, id.zoneId).value))
  }

  /** What regeneration leaves of the tickets, given the zones, dates and seats the event ends up with. */
  ghost predicate Regenerated(
    t0: Tickets, t1: Tickets, eventId: string, zones: seq<Zone>, dates: seq<string>, seats: seq<Seat>, repricing: bool)
  {
    && SalesUntouched(t0, t1, eventId)
    && KeysExact(t0, t1, eventId, dates, seats)
    && (repricing ==> PricesFollow(t1, eventId, zones))
    && OnlyOpenChanges(t0, t1, eventId, zones)
  }

  lemma MidwayTouchesNoSales(s0: Stock, eventId: string, zones: seq<Zone>, dates: seq<string>, keys: set<Seat>, repricing: bool)
    ensures SalesUntouched(s0.tickets, Midway(s0, eventId, zones, dates, keys, repricing).tickets, eventId)
  {
    hide FindZone, MinPrice, MaxPrice, KeepOrder;
  }

  lemma MidwayKeepsSales(s0: Stock, s1: Stock, eventId: string, zones: seq<Zone>, dates: seq<string>, keys: set<Seat>, repricing: bool)
    requires Minted(Midway(s0, eventId, zones, dates, keys, repricing), s1, eventId, zones)
    ensures SalesUntouched(s0.tickets, s1.tickets, eventId)
  {
    hide OrderOk, FindZone, NewTicket, Midway;
    MidwayTouchesNoSales(s0, eventId, zones, dates, keys, repricing);
  }

  lemma MidwayKeys(
    s0: Stock, s1: Stock, eventId: string, zones: seq<Zone>, dates: seq<string>, seats: seq<Seat>, keys: set<Seat>, repricing: bool)
    requires forall s :: s in seats <==> s in keys
    requires SeatsOk(zones, seats)
    requires forall id :: id in s1.tickets <==>
      id in Midway(s0, eventId, zones, dates, keys, repricing).tickets || Regular(id, eventId, dates, seats, |dates|)
    ensures KeysExact(s0.tickets, s1.tickets, eventId, dates, seats)
  {
    assert dates[..|dates|] == dates;
    var mid := Midway(s0, eventId, zones, dates, keys, repricing).tickets;
    forall id ensures id in mid && id.eventId == eventId ==>
                        Regular(id, eventId, dates, seats, |dates|) || (id in s0.tickets && Transactional(s0.tickets[id]))
              ensures id in s0.tickets && id.eventId == eventId && Transactional(s0.tickets[id]) ==> id in mid
    {
    }
  }

  lemma MidwayPrices(s0: Stock, s1: Stock, eventId: string, zones: seq<Zone>, dates: seq<string>, keys: set<Seat>)
    requires Minted(Midway(s0, eventId, zones, dates, keys, true), s1, eventId, zones)
    ensures PricesFollow(s1.tickets, eventId, zones)
  {
  }

  lemma MidwayOnlyOpen(s0: Stock, s1: Stock, eventId: string, zones: seq<Zone>, dates: seq<string>, seats: seq<Seat>, keys: set<Seat>, repricing: bool)
    requires forall s :: s in seats <==> s in keys
    requires SeatsOk(zones, seats)
    requires Minted(Midway(s0, eventId, zones, dates, keys, repricing), s1, eventId, zones)
    requires forall id :: id in s1.tickets <==>
      id in Midway(s0, eventId, zones, dates, keys, repricing).tickets || Regular(id, eventId, dates, seats, |dates|)
    ensures OnlyOpenChanges(s0.tickets, s1.tickets, eventId, zones)
  {
    var mid := Midway(s0, eventId, zones, dates, keys, repricing);
    assert dates[..|dates|] == dates;
    forall id | id in s1.tickets && id !in mid.tickets ensures id !in s0.tickets {
      assert Regular(id, eventId, dates, seats, |dates|);
      assert id in s0.tickets ==> Kept(s0.tickets, id, eventId, zones, dates, keys);
    }
  }

  lemma RebuildResult(
    s0: Stock, eventId: string, zones: seq<Zone>, dates: seq<string>, seats: seq<Seat>, keys: set<Seat>, repricing: bool)
    requires OrderOk(s0.tickets, s0.order) && SeatsOk(zones, seats)
    requires forall s :: s in seats <==> s in keys
    ensures var r := Rebuild(s0, eventId, zones, dates, seats, keys, repricing);
            r.Some? && OrderOk(r.value.tickets, r.value.order)
            && Regenerated(s0.tickets, r.value.tickets, eventId, zones, dates, seats, repricing)
  {
    KeepOrderMembers(s0.tickets, s0.order, eventId, zones, dates, keys);
    var mid := Midway(s0, eventId, zones, dates, keys, repricing);
    MintDatesResult(mid, eventId, zones, dates, seats, |dates|);
    var s1 := Rebuild(s0, eventId, zones, dates, seats, keys, repricing).value;
    MidwayKeepsSales(s0, s1, eventId, zones, dates, keys, repricing);
    MidwayKeys(s0, s1, eventId, zones, dates, seats, keys, repricing);
    if repricing { MidwayPrices(s0, s1, eventId, zones, dates, keys); }
    MidwayOnlyOpen(s0, s1, eventId, zones, dates, seats, keys, repricing);
  }

  /** Both admin updates regenerate the event's inventory; minting does not throw. */
  lemma EventRegenerates(db: Db, eventId: string, next: Event, repricing: bool)
    requires OrderOk(db.tickets, db.order)
    ensures var r := RegenerateEvent(db, eventId, next, repricing);
            && OrderOk(r.tickets, r.order) && SeatsOk(next.zones, SeatsForEvent(next))
            && r == db.(events := db.events[eventId := next], tickets := r.tickets, order := r.order)
            && Regenerated(db.tickets, r.tickets, eventId, next.zones, next.dates, SeatsForEvent(next), repricing)
  {
    SeatsOfEventOk(next);
    forall s ensures s in SeatsForEvent(next) <==> s in ActiveSeatKeys(next) { EnumerationsAgree(next, s); }
    RebuildResult(Stock(db.tickets, db.order), eventId, next.zones, next.dates, SeatsForEvent(next), ActiveSeatKeys(next), repricing);
  }

  lemma RegeneratedIsPlaced(
    t0: Tickets, t1: Tickets, events: map<string, Event>, eventId: string, next: Event, seats: seq<Seat>, repricing: bool)
    requires SeatsOk(next.zones, seats)
    requires Regenerated(t0, t1, eventId, next.zones, next.dates, seats, repricing)
    requires Placed(t0, events)
    requires CheckInventoryUse(t0, eventId, next.zones, next.dates).None?
    ensures Placed(t1, events[eventId := next])
  {
    assert next.dates[..|next.dates|] == next.dates;
    forall id | id in t1 ensures HasPlace(id, events[eventId := next]) {
      if id in t0 { assert HasPlace(id, events); }
    }
  }

  lemma UnusableIsMisplaced(
    t0: Tickets, t1: Tickets, events: map<string, Event>, eventId: string, next: Event)
    requires SalesUntouched(t0, t1, eventId)
    requires CheckInventoryUse(t0, eventId, next.zones, next.dates).Some?
    ensures !Placed(t1, events[eventId := next])
  {
    var id :| id in t0 && id.eventId == eventId && Transactional(t0[id])
              && (FindZone(next.zones, id.zoneId).None? || id.dateId !in next.dates);
    assert id in t1 && !HasPlace(id, events[eventId := next]);
  }

  /**
   `assertTicketsCanUseInventory` is exact: applying an update leaves every ticket on an existing zone and date
   if and only if that check passes in the state the update is applied to.
   */
  lemma CheckIsExact(db: Db, eventId: string, next: Event, repricing: bool)
    requires OrderOk(db.tickets, db.order) && Placed(db.tickets, db.events)
    ensures var r := RegenerateEvent(db, eventId, next, repricing);
            Placed(r.tickets, r.events) <==> CheckInventoryUse(db.tickets, eventId, next.zones, next.dates).None?
  {
    EventRegenerates(db, eventId, next, repricing);
    var seats := SeatsForEvent(next);
    var t1 := RegenerateEvent(db, eventId, next, repricing).tickets;
    if CheckInventoryUse(db.tickets, eventId, next.zones, next.dates).None? {
      RegeneratedIsPlaced(db.tickets, t1, db.events, eventId, next, seats, repricing);
    } else {
      UnusableIsMisplaced(db.tickets, t1, db.events, eventId, next);
    }
  }
}
