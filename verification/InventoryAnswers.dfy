/**
 What the operator's edits of events leave, told from what was submitted: which updates and creations go through, what the
 event is afterwards, which tickets it has and what they cost.
 */
module InventoryAnswers {
  import opened Prelude
  import opened SaleTypes
  import opened Inventory
  import opened SaleSteps
  import opened SaleInvariant
  import opened SaleInventory
  import opened SaleHandlers
  import opened HoldAnswers
  import PosterUpload

  // ------------------------------------------------------------------------------- the seats of an event

  ghost predicate Labelled(seat: string, name: string, from: nat, count: nat) {
    exists k: nat {:trigger Padded(k)} :: from <= k < from + count && seat == name + "-" + Padded(k)
  }

  /** The three zones of the house have a fixed layout; any other is numbered as far as it says, or up to twelve. */
  ghost predicate SeatOf(zone: Zone, seat: string) {
    if zone.id == "zone_vip" then Labelled(seat, "VIP", 1, 24)
    else if zone.id == "zone_r" then Labelled(seat, "R석", 1, 40)
    else if zone.id == "zone_s" then Labelled(seat, "S석", 1, 48)
    else Labelled(seat, zone.name, 1, if zone.seatCount.Some? && zone.seatCount.value > 0 then zone.seatCount.value else 12)
  }

  lemma LabelledNext(seat: string, name: string, from: nat, count: nat)
    ensures Labelled(seat, name, from, count + 1) <==> Labelled(seat, name, from, count) || seat == name + "-" + Padded(from + count)
  {
    hide Padded;
  }

  lemma {:induction false} NumberedMembers(zoneId: string, name: string, from: nat, count: nat, s: Seat)
    ensures s in Numbered(zoneId, name, from, count) <==> s.zoneId == zoneId && Labelled(s.seat, name, from, count)
  {
    if count == 0 {
      assert Numbered(zoneId, name, from, count) == [];
    } else {
      NumberedMembers(zoneId, name, from, count - 1, s);
      LabelledNext(s.seat, name, from, count - 1);
      hide Labelled, Padded;
    }
  }

  lemma LabelledTogether(seat: string, name: string, from: nat, count: nat, more: nat)
    ensures Labelled(seat, name, from, count + more) <==> Labelled(seat, name, from, count) || Labelled(seat, name, from + count, more)
  {
  }

  lemma LayoutMembers(venueId: string, s: Seat)
    ensures s in SeatLayoutForVenue(venueId) <==>
              || (s.zoneId == "zone_vip" && Labelled(s.seat, "VIP", 1, 24))
              || (s.zoneId == "zone_r" && Labelled(s.seat, "R석", 1, 40))
              || (s.zoneId == "zone_s" && Labelled(s.seat, "S석", 1, 48))
  {
    hide Numbered, Labelled;
    NumberedMembers("zone_vip", "VIP", 1, 24, s);
    NumberedMembers("zone_r", "R석", 1, 40, s);
    NumberedMembers("zone_r", "R석", 1, 20, s);
    NumberedMembers("zone_r", "R석", 21, 20, s);
    NumberedMembers("zone_s", "S석", 1, 48, s);
    LabelledTogether(s.seat, "R석", 1, 20, 20);
  }

  lemma LayoutZones(venueId: string, zoneId: string)
    ensures InLayout(SeatLayoutForVenue(venueId), zoneId) <==> zoneId in {"zone_vip", "zone_r", "zone_s"}
  {
    hide SeatLayoutForVenue, Labelled;
    FirstSeats();
    LayoutMembers(venueId, Seat("zone_vip", "VIP" + "-" + Padded(1)));
    LayoutMembers(venueId, Seat("zone_r", "R석" + "-" + Padded(1)));
    LayoutMembers(venueId, Seat("zone_s", "S석" + "-" + Padded(1)));
    forall s | s in SeatLayoutForVenue(venueId) ensures s.zoneId in {"zone_vip", "zone_r", "zone_s"} { LayoutMembers(venueId, s); }
  }

  lemma FirstSeats()
    ensures Labelled("VIP" + "-" + Padded(1), "VIP", 1, 24) && Labelled("R석" + "-" + Padded(1), "R석", 1, 40)
    ensures Labelled("S석" + "-" + Padded(1), "S석", 1, 48)
  {
  }

  /** The seats both enumerations list, zone by zone. */
  lemma SeatsAsTold(event: Event, s: Seat)
    ensures s in SeatsForEvent(event) <==> exists z :: z in event.zones && z.id == s.zoneId && SeatOf(z, s.seat)
  {
    hide SeatLayoutForVenue, Labelled, InLayout, Numbered, FindZone;
    var layout := SeatLayoutForVenue(event.venueId);
    FindZoneFinds(event.zones, s.zoneId);
    GeneratedMembers(layout, event.zones, s);
    LayoutMembers(event.venueId, s);
    forall z | z in event.zones
      ensures InLayout(layout, z.id) <==> z.id in {"zone_vip", "zone_r", "zone_s"}
      ensures s in GeneratedSeatsForZone(z) <==> s.zoneId == z.id && Labelled(s.seat, z.name, 1, SeatCount(z))
    {
      LayoutZones(event.venueId, z.id);
      NumberedMembers(z.id, z.name, 1, SeatCount(z), s);
    }
  }

  /** The number a label ends in, read back. */
  function Read(digits: string): int {
    if digits == "" then 0 else 10 * Read(digits[..|digits| - 1]) + (digits[|digits| - 1] as int - '0' as int)
  }

  lemma {:induction false} DecimalReadsBack(n: nat)
    ensures Read(Decimal(n)) == n && Decimal(n) != [] && (n > 0 ==> Decimal(n)[0] != '0') && (n >= 10 ==> |Decimal(n)| >= 2)
  {
    if n >= 10 {
      DecimalReadsBack(n / 10);
      assert Decimal(n)[..|Decimal(n)| - 1] == Decimal(n / 10);
    } else {
      assert [DIGITS[n]][..0] == "";
    }
  }

  /** A seat's number reads back from its label, two digits at least, with a leading zero exactly below ten. */
  lemma LabelReadsBack(n: nat)
    requires 0 < n
    ensures Read(Padded(n)) == n && |Padded(n)| >= 2 && (Padded(n)[0] == '0' <==> n < 10)
  {
    DecimalReadsBack(n);
    if n < 10 { assert ("0" + Decimal(n))[..1] == "0" && "0"[..0] == ""; }
  }

  // ---------------------------------------------------------------------------------- what may go through

  function Seats(zone: Zone): int { if zone.seatCount.Some? then zone.seatCount.value else 12 }

  function AllSeats(zones: seq<Zone>): int {
    if zones == [] then 0 else Seats(zones[0]) + AllSeats(zones[1..])
  }

  /** One to 2000 seats in each zone, and no more than 10000 seats over all the dates. */
  ghost predicate NotTooLarge(zones: seq<Zone>, dates: seq<string>) {
    && (forall z :: z in zones ==> 1 <= Seats(z) <= 2000)
    && AllSeats(zones) * |dates| <= 10000
  }

  /** Nothing sold, held, reserved, listed, used or held back stands in a zone or on a date the event does not have. */
  ghost predicate LosesNoPlace(tickets: Tickets, eventId: string, zones: seq<Zone>, dates: seq<string>) {
    forall id :: id in tickets && id.eventId == eventId && (tickets[id].ownerId.Some? || tickets[id].status != OnSale) ==>
      HasZone(zones, id.zoneId) && id.dateId in dates
  }

  lemma {:induction false} CandidatesCounted(zones: seq<Zone>)
    ensures Candidates(zones).Some? <==> forall z :: z in zones ==> 1 <= Seats(z) <= 2000
    ensures Candidates(zones).Some? ==> Candidates(zones).value == AllSeats(zones)
  {
    if zones != [] {
      CandidatesCounted(zones[1..]);
      assert zones[0] in zones && forall z :: z in zones[1..] ==> z in zones;
      assert forall z :: z in zones ==> z == zones[0] || z in zones[1..];
    }
  }

  lemma SizeAsTold(zones: seq<Zone>, dates: seq<string>)
    ensures CheckInventorySize(zones, dates).None? <==> NotTooLarge(zones, dates)
    ensures !NotTooLarge(zones, dates) ==>
              CheckInventorySize(zones, dates)
              == Some(if exists z :: z in zones && !(1 <= Seats(z) <= 2000) then InvalidZoneSeatCount else EventInventoryTooLarge)
  {
    CandidatesCounted(zones);
  }

  lemma UseAsTold(tickets: Tickets, eventId: string, zones: seq<Zone>, dates: seq<string>)
    ensures CheckInventoryUse(tickets, eventId, zones, dates).None? <==> LosesNoPlace(tickets, eventId, zones, dates)
    ensures CheckInventoryUse(tickets, eventId, zones, dates) == Some(EventZoneInUse) <==>
              exists id :: id in tickets && id.eventId == eventId && (tickets[id].ownerId.Some? || tickets[id].status != OnSale)
                           && !HasZone(zones, id.zoneId)
  {
    forall id | id in tickets ensures FindZone(zones, id.zoneId).Some? <==> HasZone(zones, id.zoneId) { FindZoneFinds(zones, id.zoneId); }
    hide FindZone, HasZone;
  }

  /** The event with the submitted venue and sale state, and the submitted zones and dates where there are any. */
  ghost predicate Submitted(was: Event, input: SaleInput, e: Event) {
    && e.venueId == input.venueId && e.bookable == input.bookable
    && (if input.zones.Some? then Some(e.zones) == input.zones else e.zones == was.zones)
    && (if input.dates.Some? then Some(e.dates) == input.dates
        else if was.dates == [] then e.dates == [input.fallbackDate] else e.dates == was.dates)
  }

  /** The key of a seat of the event on one of its dates. */
  ghost predicate SeatOfEvent(id: TicketId, e: Event) {
    id.dateId in e.dates && exists z :: z in e.zones && z.id == id.zoneId && SeatOf(z, id.seat)
  }

  /** One ticket for each date and seat of the event, and what was transacted before. */
  ghost predicate HasItsTickets(t0: Tickets, t1: Tickets, eventId: string, e: Event) {
    forall id: TicketId {:trigger id in t1} :: id.eventId == eventId ==>
      (id in t1 <==> SeatOfEvent(id, e) || (id in t0 && (t0[id].ownerId.Some? || t0[id].status != OnSale)))
  }

  lemma KeysAsTold(t0: Tickets, t1: Tickets, eventId: string, e: Event)
    requires KeysExact(t0, t1, eventId, e.dates, SeatsForEvent(e))
    ensures HasItsTickets(t0, t1, eventId, e)
  {
    forall id: TicketId | id.eventId == eventId
      ensures Regular(id, eventId, e.dates, SeatsForEvent(e), |e.dates|) <==> SeatOfEvent(id, e)
    {
      RegularAsTold(id, eventId, e);
    }
    hide Regular, SeatOfEvent, SeatsForEvent;
  }

  lemma RegularAsTold(id: TicketId, eventId: string, e: Event)
    requires id.eventId == eventId
    ensures Regular(id, eventId, e.dates, SeatsForEvent(e), |e.dates|) <==> SeatOfEvent(id, e)
  {
    hide SeatOf, SeatsForEvent;
    assert e.dates[..|e.dates|] == e.dates;
    SeatsAsTold(e, Seat(id.zoneId, id.seat));
  }

  /** A seat nobody has claimed costs what its zone says. */
  ghost predicate Priced(t1: Tickets, eventId: string, zones: seq<Zone>) {
    forall id :: id in t1 && id.eventId == eventId && t1[id].ownerId.None? && t1[id].status in {OnSale, AdminHold} ==>
      exists z :: z in zones && z.id == id.zoneId && CostsAs(t1[id], z)
  }

  predicate CostsAs(t: Ticket, zone: Zone) {
    t.faceValue == zone.faceValue && 2 * (t.minPrice - 1) < zone.faceValue <= 2 * t.minPrice && t.maxPrice == MaxPrice(zone)
  }

  lemma PricesAsTold(t1: Tickets, eventId: string, zones: seq<Zone>)
    requires PricesFollow(t1, eventId, zones)
    requires forall id :: id in t1 && id.eventId == eventId ==> FindZone(zones, id.zoneId).Some?
    ensures Priced(t1, eventId, zones)
  {
    forall id | id in t1 && id.eventId == eventId && t1[id].ownerId.None? && t1[id].status in {OnSale, AdminHold}
      ensures exists z :: z in zones && z.id == id.zoneId && CostsAs(t1[id], z)
    {
      FindZoneFinds(zones, id.zoneId);
      assert CostsAs(t1[id], FindZone(zones, id.zoneId).value);
    }
  }

  /** Other events' tickets and sold, held or reserved ones stay as they were; of a seat held back only the price may change. */
  ghost predicate TransactedStay(t0: Tickets, t1: Tickets, eventId: string) {
    && (forall id :: id in t0 && (id.eventId != eventId || t0[id].ownerId.Some? || t0[id].status !in {OnSale, AdminHold}) ==>
          id in t1 && t1[id] == t0[id])
    && (forall id :: id in t1 && id.eventId != eventId ==> id in t0)
    && (forall id :: id in t0 && t0[id].status == AdminHold ==> id in t1 && t1[id].status == AdminHold && t1[id].ownerId == t0[id].ownerId)
  }

  lemma StayAsTold(t0: Tickets, t1: Tickets, eventId: string, zones: seq<Zone>)
    requires SalesUntouched(t0, t1, eventId) && OnlyOpenChanges(t0, t1, eventId, zones)
    ensures TransactedStay(t0, t1, eventId)
  {
    hide FindZone, NewTicket, RepricedTicket;
  }

  /** What is new is on sale at its zone's price, never transferred, claimed by nobody. */
  ghost predicate NewOnesOpen(t0: Tickets, t1: Tickets, zones: seq<Zone>) {
    forall id :: id in t1 && id !in t0 ==>
      exists z :: z in zones && z.id == id.zoneId && CostsAs(t1[id], z)
                  && t1[id] == Ticket(None, OnSale, z.faceValue, t1[id].minPrice, t1[id].maxPrice, 0, z.maxTransferCount, None, None, None, None, false)
  }

  lemma NewAsTold(t0: Tickets, t1: Tickets, zones: seq<Zone>)
    requires forall id :: id in t1 && id !in t0 ==>
               FindZone(zones, id.zoneId).Some? && t1[id] == NewTicket(FindZone(zones, id.zoneId).value)
    ensures NewOnesOpen(t0, t1, zones)
  {
    hide MaxPrice;
    forall id | id in t1 && id !in t0
      ensures exists z :: z in zones && z.id == id.zoneId && CostsAs(t1[id], z)
                          && t1[id] == Ticket(None, OnSale, z.faceValue, t1[id].minPrice, t1[id].maxPrice, 0, z.maxTransferCount, None, None, None, None, false)
    {
      FindZoneFinds(zones, id.zoneId);
      assert CostsAs(t1[id], FindZone(zones, id.zoneId).value);
    }
  }

  /**
   An update of an event goes through exactly if the event exists, what it is to become is not too large, and nothing
   transacted loses its place.  Then the event is as submitted and every other event as before; the event has its tickets;
   each seat nobody has claimed costs what its zone says in what was submitted; and nothing transacted has changed.
   */
  lemma UpdateSaleAnswers(db: Db, opening: seq<int>, eventId: string, input: SaleInput, e: Event)
    requires Inv(db, opening) && (input.zones.Some? ==> ZonesNormalized(input.zones.value))
    requires eventId in db.events && Submitted(db.events[eventId], input, e)
    ensures var r := UpdateEventSale(db, eventId, input);
            && (r.result.Ok? <==> NotTooLarge(e.zones, e.dates) && LosesNoPlace(db.tickets, eventId, e.zones, e.dates))
            && (r.result.Err? ==> r.db == db)
            && (r.result.Ok? ==>
                  && r.db == db.(tickets := r.db.tickets, order := r.db.order, events := db.events[eventId := e],
                                 ledger := db.ledger + [LedgerEntry(ByAdmin, EventSaleUpdated(eventId))])
                  && HasItsTickets(db.tickets, r.db.tickets, eventId, e) && Priced(r.db.tickets, eventId, e.zones)
                  && NewOnesOpen(db.tickets, r.db.tickets, e.zones)
                  && TransactedStay(db.tickets, r.db.tickets, eventId))
  {
    assert NextEvent(db.events[eventId], input) == e;
    hide NextEvent, Submitted, CheckInventorySize, CheckInventoryUse, RegenerateEvent, NotTooLarge, LosesNoPlace, HasItsTickets, Priced,
         TransactedStay, NewOnesOpen, Inv;
    SizeAsTold(e.zones, e.dates);
    UseAsTold(db.tickets, eventId, e.zones, e.dates);
    if UpdateEventSale(db, eventId, input).result.Ok? { UpdateLeaves(db, opening, eventId, input, e); }
  }

  /**
   With a poster the same is asked before the upload; what is applied after it is the event as submitted then, whatever
   the database has become.
   */
  lemma UploadAnswers(db: Db, later: Db, opening: seq<int>, eventId: string, input: SaleInput, e: Event)
    requires Inv(later, opening) && eventId in db.events && eventId in later.events && Submitted(later.events[eventId], input, e)
    ensures PosterUpload.CheckUpdate(db, eventId, input).None? <==>
              forall asked :: Submitted(db.events[eventId], input, asked) ==>
                NotTooLarge(asked.zones, asked.dates) && LosesNoPlace(db.tickets, eventId, asked.zones, asked.dates)
    ensures var r := PosterUpload.ApplyUpdate(later, eventId, input);
            && r == later.(tickets := r.tickets, order := r.order, events := later.events[eventId := e],
                           ledger := later.ledger + [LedgerEntry(ByAdmin, EventSaleUpdated(eventId))])
            && HasItsTickets(later.tickets, r.tickets, eventId, e) && TransactedStay(later.tickets, r.tickets, eventId)
            && NewOnesOpen(later.tickets, r.tickets, e.zones)
  {
    var asked := NextEvent(db.events[eventId], input);
    assert e == NextEvent(later.events[eventId], input);
    assert Submitted(db.events[eventId], input, asked) && forall a :: Submitted(db.events[eventId], input, a) ==> a == asked;
    hide Inv, NextEvent, Submitted, CheckInventorySize, CheckInventoryUse, RegenerateEvent, NotTooLarge, LosesNoPlace, HasItsTickets,
         TransactedStay, NewOnesOpen;
    SizeAsTold(asked.zones, asked.dates);
    UseAsTold(db.tickets, eventId, asked.zones, asked.dates);
    RegenerationLeavesRest(later, opening, eventId, e, true);
    RegenerationAsTold(later, opening, eventId, e, true);
  }

  lemma RegenerationLeavesRest(db: Db, opening: seq<int>, eventId: string, next: Event, repricing: bool)
    requires Inv(db, opening)
    ensures var r := RegenerateEvent(db, eventId, next, repricing);
            r == db.(events := db.events[eventId := next], tickets := r.tickets, order := r.order)
  {
    hide RegenerateEvent;
    EventRegenerates(db, eventId, next, repricing);
  }

  lemma UpdateLeaves(db: Db, opening: seq<int>, eventId: string, input: SaleInput, e: Event)
    requires Inv(db, opening) && (input.zones.Some? ==> ZonesNormalized(input.zones.value))
    requires eventId in db.events && e == NextEvent(db.events[eventId], input) && UpdateEventSale(db, eventId, input).result.Ok?
    ensures var r := UpdateEventSale(db, eventId, input);
            && r.db == db.(tickets := r.db.tickets, order := r.db.order, events := db.events[eventId := e],
                           ledger := db.ledger + [LedgerEntry(ByAdmin, EventSaleUpdated(eventId))])
            && HasItsTickets(db.tickets, r.db.tickets, eventId, e) && Priced(r.db.tickets, eventId, e.zones)
            && NewOnesOpen(db.tickets, r.db.tickets, e.zones)
            && TransactedStay(db.tickets, r.db.tickets, eventId)
  {
    hide Inv, CheckInventorySize, CheckInventoryUse, RegenerateEvent, HasItsTickets, Priced, TransactedStay, NewOnesOpen, SeatsForEvent,
         SalesUntouched, KeysExact, PricesFollow, OnlyOpenChanges, ZonesNormalized, OrderOk;
    UpdatedEventIsExact(db, opening, eventId, input);
    var r := UpdateEventSale(db, eventId, input).db;
    RegenerationLeavesRest(db, opening, eventId, e, true);
    RegenerationAsTold(db, opening, eventId, e, true);
    forall id | id in r.tickets && id.eventId == eventId ensures FindZone(e.zones, id.zoneId).Some? { assert HasPlace(id, r.events); }
    PricesAsTold(r.tickets, eventId, e.zones);
  }

  lemma NewAfterRegeneration(t0: Tickets, t1: Tickets, eventId: string, zones: seq<Zone>)
    requires OnlyOpenChanges(t0, t1, eventId, zones)
    ensures NewOnesOpen(t0, t1, zones)
  {
    NewAsTold(t0, t1, zones);
  }

  lemma UnpricedStay(s0: Stock, s1: Stock, eventId: string, zones: seq<Zone>, dates: seq<string>, seats: seq<Seat>, keys: set<Seat>)
    requires (forall s :: s in seats <==> s in keys) && SeatsOk(zones, seats)
    requires var mid := Midway(s0, eventId, zones, dates, keys, false);
             && Minted(mid, s1, eventId, zones)
             && forall id :: id in s1.tickets <==> id in mid.tickets || Regular(id, eventId, dates, seats, |dates|)
    ensures forall id :: id in s0.tickets && id in s1.tickets ==> s1.tickets[id] == s0.tickets[id]
  {
    hide OrderOk, NewTicket, FindZone;
    assert dates[..|dates|] == dates;
    var mid := Midway(s0, eventId, zones, dates, keys, false);
    forall id | id in s0.tickets && id in s1.tickets ensures id in mid.tickets {
      if Regular(id, eventId, dates, seats, |dates|) { assert Kept(s0.tickets, id, eventId, zones, dates, keys); }
    }
  }

  lemma MovingKeepsTickets(db: Db, opening: seq<int>, eventId: string, next: Event)
    requires Inv(db, opening)
    ensures var r := RegenerateEvent(db, eventId, next, false);
            forall id :: id in r.tickets && id in db.tickets ==> r.tickets[id] == db.tickets[id]
  {
    var s0, keys, seats := Stock(db.tickets, db.order), ActiveSeatKeys(next), SeatsForEvent(next);
    InvOrder(db, opening);
    SeatsOfEventOk(next);
    forall s ensures s in seats <==> s in keys { EnumerationsAgree(next, s); }
    hide Inv, MintDates, ActiveSeatKeys, SeatsForEvent, NewTicket, SeatsOk, Regular, Minted;
    MidwayInOrder(s0, eventId, next.zones, next.dates, keys);
    hide Midway, OrderOk;
    var mid := Midway(s0, eventId, next.zones, next.dates, keys, false);
    MintDatesResult(mid, eventId, next.zones, next.dates, seats, |next.dates|);
    UnpricedStay(s0, MintDates(mid, eventId, next.zones, next.dates, seats, |next.dates|).value, eventId, next.zones, next.dates, seats, keys);
  }

  lemma MidwayInOrder(s0: Stock, eventId: string, zones: seq<Zone>, dates: seq<string>, keys: set<Seat>)
    requires OrderOk(s0.tickets, s0.order)
    ensures var mid := Midway(s0, eventId, zones, dates, keys, false); OrderOk(mid.tickets, mid.order)
  {
    KeepOrderMembers(s0.tickets, s0.order, eventId, zones, dates, keys);
    hide KeepOrder, FindZone;
  }

  /** Moving an event to another venue takes only the event: its zones, dates, prices and everything transacted stay. */
  lemma UpdateVenueAnswers(db: Db, opening: seq<int>, eventId: string, venueId: string)
    requires Inv(db, opening)
    ensures UpdateEventVenue(db, eventId, venueId).result == if eventId in db.events then Ok(0) else Err(EventNotFound)
    ensures eventId !in db.events ==> UpdateEventVenue(db, eventId, venueId).db == db
    ensures eventId in db.events ==>
              var r, e := UpdateEventVenue(db, eventId, venueId).db, db.events[eventId].(venueId := venueId);
              && r == db.(tickets := r.tickets, order := r.order, events := db.events[eventId := e],
                          ledger := db.ledger + [LedgerEntry(ByAdmin, EventVenueUpdated(eventId))])
              && HasItsTickets(db.tickets, r.tickets, eventId, e) && TransactedStay(db.tickets, r.tickets, eventId)
              && NewOnesOpen(db.tickets, r.tickets, e.zones)
              && forall id :: id in db.tickets && id in r.tickets ==> r.tickets[id] == db.tickets[id]
  {
    hide Inv, RegenerateEvent, HasItsTickets, TransactedStay, NewOnesOpen, SeatsForEvent, SalesUntouched, KeysExact, PricesFollow,
         OnlyOpenChanges;
    if eventId in db.events {
      var e := db.events[eventId].(venueId := venueId);
      RegenerationLeavesRest(db, opening, eventId, e, false);
      MovingKeepsTickets(db, opening, eventId, e);
      RegenerationAsTold(db, opening, eventId, e, false);
    }
  }

  lemma RegenerationAsTold(db: Db, opening: seq<int>, eventId: string, next: Event, repricing: bool)
    requires Inv(db, opening)
    ensures var r := RegenerateEvent(db, eventId, next, repricing);
            && HasItsTickets(db.tickets, r.tickets, eventId, next) && TransactedStay(db.tickets, r.tickets, eventId)
            && NewOnesOpen(db.tickets, r.tickets, next.zones)
  {
    hide Inv, RegenerateEvent, HasItsTickets, TransactedStay, NewOnesOpen, SeatsForEvent, SalesUntouched, KeysExact, PricesFollow,
         OnlyOpenChanges;
    InvOrder(db, opening);
    hide OrderOk;
    EventRegenerates(db, eventId, next, repricing);
    var r := RegenerateEvent(db, eventId, next, repricing);
    KeysAsTold(db.tickets, r.tickets, eventId, next);
    StayAsTold(db.tickets, r.tickets, eventId, next.zones);
    NewAfterRegeneration(db.tickets, r.tickets, eventId, next.zones);
  }

  lemma InvOrder(db: Db, opening: seq<int>)
    requires Inv(db, opening)
    ensures OrderOk(db.tickets, db.order) && Placed(db.tickets, db.events)
  {
  }

  /**
   An event is created exactly if its id is free and it is not too large; it is then as submitted, with one open ticket for
   each of its dates and seats, and nothing else has changed.
   */
  lemma CreateEventAnswers(db: Db, opening: seq<int>, eventId: string, e: Event)
    requires Inv(db, opening)
    ensures var r := CreateEvent(db, eventId, e);
            && (r.result.Ok? <==> eventId !in db.events && NotTooLarge(e.zones, e.dates))
            && (r.result == Err(EventAlreadyExists) <==> eventId in db.events)
            && (r.result.Err? ==> r.db == db)
            && (r.result.Ok? ==>
                  && r.db == db.(tickets := r.db.tickets, order := r.db.order, events := db.events[eventId := e],
                                 ledger := db.ledger + [LedgerEntry(ByAdmin, EventCreated(eventId))])
                  && (forall id :: id in r.db.tickets <==> id in db.tickets || (id.eventId == eventId && SeatOfEvent(id, e)))
                  && (forall id :: id in db.tickets ==> r.db.tickets[id] == db.tickets[id])
                  && NewOnesOpen(db.tickets, r.db.tickets, e.zones))
  {
    hide Inv, CheckInventorySize, NotTooLarge, EnsureTickets, SeatOfEvent, NewOnesOpen;
    SizeAsTold(e.zones, e.dates);
    if CheckInventorySize(e.zones, e.dates).None? && eventId !in db.events { CreationMints(db, opening, eventId, e); }
  }

  lemma CreationMints(db: Db, opening: seq<int>, eventId: string, e: Event)
    requires Inv(db, opening)
    ensures var minted := EnsureTickets(Stock(db.tickets, db.order), eventId, e);
            && minted.Some?
            && (forall id :: id in minted.value.tickets <==> id in db.tickets || (id.eventId == eventId && SeatOfEvent(id, e)))
            && (forall id :: id in db.tickets ==> minted.value.tickets[id] == db.tickets[id])
            && NewOnesOpen(db.tickets, minted.value.tickets, e.zones)
  {
    InvOrder(db, opening);
    hide Inv, EnsureTickets, SeatsForEvent, SeatOfEvent, NewTicket;
    EnsureTicketsResult(Stock(db.tickets, db.order), eventId, e);
    var minted := EnsureTickets(Stock(db.tickets, db.order), eventId, e).value;
    forall id: TicketId ensures RegularKey(id, eventId, e) <==> id.eventId == eventId && SeatOfEvent(id, e) {
      if id.eventId == eventId { RegularAsTold(id, eventId, e); }
    }
    NewAsTold(db.tickets, minted.tickets, e.zones);
  }
}
